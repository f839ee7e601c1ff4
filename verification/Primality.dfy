/** The certificate that P57 = 2^57 - 13 is prime.

    Each stage exhibits an element of large square-free order and evaluates its powers two
    exponent bits at a time.  The chain is 5, 7, 13 -> 2731, 8191 -> 12009599006321321 ->
    24019198012642643 -> P57; each number divides its successor minus one.
  */
module Primality {
  import opened Field

  lemma Start(b: nat, e: nat, v: nat, m: nat)
    requires m > 0 && 1 <= e <= 3
    requires v == (if e == 1 then b else if e == 2 then b * b else b * b * b) % m
    ensures Congruent(v, Pow(b, e), m)
  {
    SmallPow(b, e);
    CongruentMod(Pow(b, e), m);
  }

  lemma SmallPow(b: int, d: nat)
    requires d <= 3
    ensures Pow(b, d) == (if d == 0 then 1 else if d == 1 then b else if d == 2 then b * b else b * b * b)
  {
    assert Pow(b, 1) == b * Pow(b, 0);
    assert Pow(b, 2) == b * Pow(b, 1);
    assert d == 3 ==> Pow(b, 3) == b * Pow(b, 2) && b * (b * b) == b * b * b;
  }

  /** Two more bits d of the exponent: v^4 * b^d. */
  lemma Step(b: nat, e: nat, v: nat, d: nat, v': nat, m: nat)
    requires m > 0 && d <= 3 && Congruent(v, Pow(b, e), m)
    requires v' == (v * v * v * v * (if d == 0 then 1 else if d == 1 then b else if d == 2 then b * b else b * b * b)) % m
    ensures Congruent(v', Pow(b, 4 * e + d), m)
  {
    var p, s := Pow(b, e), Pow(b, d);
    SmallPow(b, d);
    CongruentProduct(v, p, v, p, m);
    CongruentProduct(v * v, p * p, v, p, m);
    CongruentProduct(v * v * v, p * p * p, v, p, m);
    CongruentRefl(s, m);
    CongruentProduct(v * v * v * v, p * p * p * p, s, s, m);
    CongruentMod(v * v * v * v * s, m);
    CongruentTrans(v', v * v * v * v * s, p * p * p * p * s, m);
    PowAdd(b, e, e);
    PowAdd(b, 2 * e, e);
    PowAdd(b, 3 * e, e);
    PowAdd(b, 4 * e, d);
  }

  lemma TinyPrimes()
    ensures Prime(5) && Prime(7) && Prime(13)
  {
    forall p, r: int, s: int | p in {5, 7, 13} && Factors(p, r, s) ensures r == 1 || s == 1 {
      if r > 3 && s > 3 {
        ProductAtLeast(r, s, 4);
      }
    }
  }

  lemma SeparateTwo(ws: seq<Witness>, i: nat)
    requires |ws| == 2 && Prime(ws[0].q) && Prime(ws[1].q) && ws[0].q % ws[1].q != 0
    requires 0 < i < ws[0].q * ws[1].q
    ensures Separated(ws, i)
  {
    if i % ws[0].q == 0 && i % ws[1].q == 0 {
      ProductDivides(i, ws[0].q, ws[1].q);
    }
    assert i % ws[0].q != 0 || i % ws[1].q != 0;
  }

  lemma NotAllThree(i: nat, a: nat, b: nat, c: nat)
    requires Prime(a) && Prime(b) && Prime(c) && a % b != 0
    requires a * b > 0 && (a * b) % c != 0 && 0 < i < a * b * c
    ensures i % a != 0 || i % b != 0 || i % c != 0
  {
    if i % a == 0 && i % b == 0 && i % c == 0 {
      ProductDivides(i, a, b);
      ProductDivides(i, a * b, c);
      ModUnique(i, a * b * c, 0, i);
    }
  }

  lemma SeparateThree(ws: seq<Witness>, i: nat)
    requires |ws| == 3 && ws[0].q > 0 && ws[1].q > 0 && ws[2].q > 0
    requires i % ws[0].q != 0 || i % ws[1].q != 0 || i % ws[2].q != 0
    ensures Separated(ws, i)
  {
  }

  lemma Prime2731Cofactor5()
    ensures Congruent(1633, Pow(2201, 13), 2731)
  {
    hide Pow, Congruent;
    Start(2201, 3, 734, 2731);
    Step(2201, 3, 734, 1, 1633, 2731);
  }

  lemma Prime2731Cofactor13()
    ensures Congruent(1024, Pow(2201, 5), 2731)
  {
    hide Pow, Congruent;
    Start(2201, 1, 2201, 2731);
    Step(2201, 1, 2201, 1, 1024, 2731);
  }

  lemma Prime2731Order()
    ensures Congruent(1, Pow(2201, 65), 2731)
  {
    hide Pow, Congruent;
    Start(2201, 1, 2201, 2731);
    Step(2201, 1, 2201, 0, 1513, 2731);
    Step(2201, 4, 1513, 0, 2444, 2731);
    Step(2201, 16, 2444, 1, 1, 2731);
  }

  lemma Prime2731()
    ensures Prime(2731)
  {
    hide Pow, Congruent;
    TinyPrimes();
    Prime2731Cofactor5();
    Prime2731Cofactor13();
    Prime2731Order();
    CongruentSym(1, Pow(2201, 65), 2731);
    var ws := [Witness(5, 13, 1633, 1655), Witness(13, 5, 1024, 606)];
    forall i: nat | 0 < i < 65 ensures Separated(ws, i) {
      SeparateTwo(ws, i);
    }
    PrimeByOrder(2731, 2201, 65, ws);
  }

  lemma Prime8191Cofactor7()
    ensures Congruent(6763, Pow(5964, 13), 8191)
  {
    hide Pow, Congruent;
    Start(5964, 3, 4373, 8191);
    Step(5964, 3, 4373, 1, 6763, 8191);
  }

  lemma Prime8191Cofactor13()
    ensures Congruent(4096, Pow(5964, 7), 8191)
  {
    hide Pow, Congruent;
    Start(5964, 1, 5964, 8191);
    Step(5964, 1, 5964, 3, 4096, 8191);
  }

  lemma Prime8191Order()
    ensures Congruent(1, Pow(5964, 91), 8191)
  {
    hide Pow, Congruent;
    Start(5964, 1, 5964, 8191);
    Step(5964, 1, 5964, 1, 5191, 8191);
    Step(5964, 5, 5191, 2, 4841, 8191);
    Step(5964, 22, 4841, 3, 1, 8191);
  }

  lemma Prime8191()
    ensures Prime(8191)
  {
    hide Pow, Congruent;
    TinyPrimes();
    Prime8191Cofactor7();
    Prime8191Cofactor13();
    Prime8191Order();
    CongruentSym(1, Pow(5964, 91), 8191);
    var ws := [Witness(7, 13, 6763, 5646), Witness(13, 7, 4096, 8189)];
    forall i: nat | 0 < i < 91 ensures Separated(ws, i) {
      SeparateTwo(ws, i);
    }
    PrimeByOrder(8191, 5964, 91, ws);
  }

  lemma PrimeQ2Cofactor5A()
    ensures Congruent(527757255114382, Pow(9566836749591512, 87381), 12009599006321321)
  {
    hide Pow, Congruent;
    Start(9566836749591512, 1, 9566836749591512, 12009599006321321);
    Step(9566836749591512, 1, 9566836749591512, 1, 8862977973293492, 12009599006321321);
    Step(9566836749591512, 5, 8862977973293492, 1, 2934640787658966, 12009599006321321);
    Step(9566836749591512, 21, 2934640787658966, 1, 4145513955088534, 12009599006321321);
    Step(9566836749591512, 85, 4145513955088534, 1, 326505419778159, 12009599006321321);
    Step(9566836749591512, 341, 326505419778159, 1, 7394439914764615, 12009599006321321);
    Step(9566836749591512, 1365, 7394439914764615, 1, 6058399113619231, 12009599006321321);
    Step(9566836749591512, 5461, 6058399113619231, 1, 4368169609126498, 12009599006321321);
    Step(9566836749591512, 21845, 4368169609126498, 1, 527757255114382, 12009599006321321);
  }

  lemma PrimeQ2Cofactor5B()
    ensures Congruent(5417375809476820, Pow(9566836749591512, 22369621), 12009599006321321)
  {
    hide Pow, Congruent;
    PrimeQ2Cofactor5A();
    Step(9566836749591512, 87381, 527757255114382, 1, 11320045519458035, 12009599006321321);
    Step(9566836749591512, 349525, 11320045519458035, 1, 4321918496626063, 12009599006321321);
    Step(9566836749591512, 1398101, 4321918496626063, 1, 10710752488101867, 12009599006321321);
    Step(9566836749591512, 5592405, 10710752488101867, 1, 5417375809476820, 12009599006321321);
  }

  lemma PrimeQ2Cofactor2731()
    ensures Congruent(3950234570615210, Pow(9566836749591512, 40955), 12009599006321321)
  {
    hide Pow, Congruent;
    Start(9566836749591512, 2, 1323476925405410, 12009599006321321);
    Step(9566836749591512, 2, 1323476925405410, 1, 3047252085535754, 12009599006321321);
    Step(9566836749591512, 9, 3047252085535754, 3, 8478637740358688, 12009599006321321);
    Step(9566836749591512, 39, 8478637740358688, 3, 11016095331707001, 12009599006321321);
    Step(9566836749591512, 159, 11016095331707001, 3, 11442911185976698, 12009599006321321);
    Step(9566836749591512, 639, 11442911185976698, 3, 7041482030178136, 12009599006321321);
    Step(9566836749591512, 2559, 7041482030178136, 2, 4558705551569634, 12009599006321321);
    Step(9566836749591512, 10238, 4558705551569634, 3, 3950234570615210, 12009599006321321);
  }

  lemma PrimeQ2Cofactor8191()
    ensures Congruent(9286660918311820, Pow(9566836749591512, 13655), 12009599006321321)
  {
    hide Pow, Congruent;
    Start(9566836749591512, 3, 204191911980973, 12009599006321321);
    Step(9566836749591512, 3, 204191911980973, 1, 8839715282500361, 12009599006321321);
    Step(9566836749591512, 13, 8839715282500361, 1, 4100264753360930, 12009599006321321);
    Step(9566836749591512, 53, 4100264753360930, 1, 6921458537215345, 12009599006321321);
    Step(9566836749591512, 213, 6921458537215345, 1, 6723903909619278, 12009599006321321);
    Step(9566836749591512, 853, 6723903909619278, 1, 8237541333819867, 12009599006321321);
    Step(9566836749591512, 3413, 8237541333819867, 3, 9286660918311820, 12009599006321321);
  }

  lemma PrimeQ2OrderA()
    ensures Congruent(8351492463113341, Pow(9566836749591512, 109226), 12009599006321321)
  {
    hide Pow, Congruent;
    Start(9566836749591512, 1, 9566836749591512, 12009599006321321);
    Step(9566836749591512, 1, 9566836749591512, 2, 3135960351573479, 12009599006321321);
    Step(9566836749591512, 6, 3135960351573479, 2, 1563248221835700, 12009599006321321);
    Step(9566836749591512, 26, 1563248221835700, 2, 10095942838191960, 12009599006321321);
    Step(9566836749591512, 106, 10095942838191960, 2, 2913244056058653, 12009599006321321);
    Step(9566836749591512, 426, 2913244056058653, 2, 2909276110861963, 12009599006321321);
    Step(9566836749591512, 1706, 2909276110861963, 2, 4536071226262439, 12009599006321321);
    Step(9566836749591512, 6826, 4536071226262439, 2, 1833358218994648, 12009599006321321);
    Step(9566836749591512, 27306, 1833358218994648, 2, 8351492463113341, 12009599006321321);
  }

  lemma PrimeQ2OrderB()
    ensures Congruent(1, Pow(9566836749591512, 111848105), 12009599006321321)
  {
    hide Pow, Congruent;
    PrimeQ2OrderA();
    Step(9566836749591512, 109226, 8351492463113341, 2, 4864358430053666, 12009599006321321);
    Step(9566836749591512, 436906, 4864358430053666, 2, 1608536967131098, 12009599006321321);
    Step(9566836749591512, 1747626, 1608536967131098, 2, 11653317410103567, 12009599006321321);
    Step(9566836749591512, 6990506, 11653317410103567, 2, 5669063902630523, 12009599006321321);
    Step(9566836749591512, 27962026, 5669063902630523, 1, 1, 12009599006321321);
  }

  lemma PrimeQ2()
    ensures Prime(12009599006321321)
  {
    hide Pow, Congruent;
    TinyPrimes();
    Prime2731();
    Prime8191();
    PrimeQ2Cofactor5B();
    PrimeQ2Cofactor2731();
    PrimeQ2Cofactor8191();
    PrimeQ2OrderB();
    CongruentSym(1, Pow(9566836749591512, 111848105), 12009599006321321);
    var ws := [Witness(5, 22369621, 5417375809476820, 7770621900073299), Witness(2731, 40955, 3950234570615210, 9693380198341322), Witness(8191, 13655, 9286660918311820, 545644137929862)];
    forall i: nat | 0 < i < 111848105 ensures Separated(ws, i) {
      NotAllThree(i, 5, 2731, 8191);
      SeparateThree(ws, i);
    }
    PrimeByOrder(12009599006321321, 9566836749591512, 111848105, ws);
  }

  lemma PrimeQ1OrderA()
    ensures Congruent(17467495312658713, Pow(4, 174762), 24019198012642643)
  {
    hide Pow, Congruent;
    Start(4, 2, 16, 24019198012642643);
    Step(4, 2, 16, 2, 1048576, 24019198012642643);
    Step(4, 10, 1048576, 2, 1879048192, 24019198012642643);
    Step(4, 42, 1879048192, 2, 1882384, 24019198012642643);
    Step(4, 170, 1882384, 2, 4525557545678831, 24019198012642643);
    Step(4, 682, 4525557545678831, 2, 9740988151711303, 24019198012642643);
    Step(4, 2730, 9740988151711303, 2, 12289997947412582, 24019198012642643);
    Step(4, 10922, 12289997947412582, 2, 904190539782110, 24019198012642643);
    Step(4, 43690, 904190539782110, 2, 17467495312658713, 24019198012642643);
  }

  lemma PrimeQ1OrderB()
    ensures Congruent(8147936191606525, Pow(4, 45812984490), 24019198012642643)
  {
    hide Pow, Congruent;
    PrimeQ1OrderA();
    Step(4, 174762, 17467495312658713, 2, 2006716640511093, 24019198012642643);
    Step(4, 699050, 2006716640511093, 2, 23433584616581091, 24019198012642643);
    Step(4, 2796202, 23433584616581091, 2, 11746246453053493, 24019198012642643);
    Step(4, 11184810, 11746246453053493, 2, 1400127426080720, 24019198012642643);
    Step(4, 44739242, 1400127426080720, 2, 20800829716646753, 24019198012642643);
    Step(4, 178956970, 20800829716646753, 2, 3300473782962692, 24019198012642643);
    Step(4, 715827882, 3300473782962692, 2, 14505047332386685, 24019198012642643);
    Step(4, 2863311530, 14505047332386685, 2, 5646354672173405, 24019198012642643);
    Step(4, 11453246122, 5646354672173405, 2, 8147936191606525, 24019198012642643);
  }

  lemma PrimeQ1OrderC()
    ensures Congruent(1, Pow(4, 12009599006321321), 24019198012642643)
  {
    hide Pow, Congruent;
    PrimeQ1OrderB();
    Step(4, 45812984490, 8147936191606525, 2, 12303589625364914, 24019198012642643);
    Step(4, 183251937962, 12303589625364914, 2, 14971444687226989, 24019198012642643);
    Step(4, 733007751850, 14971444687226989, 2, 12061609982616344, 24019198012642643);
    Step(4, 2932031007402, 12061609982616344, 2, 3154169097213623, 24019198012642643);
    Step(4, 11728124029610, 3154169097213623, 2, 22289532505226748, 24019198012642643);
    Step(4, 46912496118442, 22289532505226748, 2, 3545783431990633, 24019198012642643);
    Step(4, 187649984473770, 3545783431990633, 2, 18510811482904299, 24019198012642643);
    Step(4, 750599937895082, 18510811482904299, 2, 575871549675170, 24019198012642643);
    Step(4, 3002399751580330, 575871549675170, 1, 1, 24019198012642643);
  }

  lemma PrimeQ1()
    ensures Prime(24019198012642643)
  {
    hide Pow, Congruent;
    PrimeQ2();
    SmallPow(4, 1);
    CongruentRefl(4, 24019198012642643);
    PrimeQ1OrderC();
    CongruentSym(1, Pow(4, 12009599006321321), 24019198012642643);
    var ws := [Witness(12009599006321321, 1, 4, 8006399337547548)];
    forall i: nat | 0 < i < 12009599006321321 ensures Separated(ws, i) {
      assert ws[0].q > 0 && i % ws[0].q != 0;
    }
    PrimeByOrder(24019198012642643, 4, 12009599006321321, ws);
  }

  lemma PrimeP57OrderA()
    ensures Congruent(12273888421737114, Pow(64, 87381), 144115188075855859)
  {
    hide Pow, Congruent;
    Start(64, 1, 64, 144115188075855859);
    Step(64, 1, 64, 1, 1073741824, 144115188075855859);
    Step(64, 5, 1073741824, 1, 692224, 144115188075855859);
    Step(64, 21, 692224, 1, 18014399835044404, 144115188075855859);
    Step(64, 85, 18014399835044404, 1, 67823422652090389, 144115188075855859);
    Step(64, 341, 67823422652090389, 1, 74315119659262860, 144115188075855859);
    Step(64, 1365, 74315119659262860, 1, 30824224674674443, 144115188075855859);
    Step(64, 5461, 30824224674674443, 1, 27170179554009006, 144115188075855859);
    Step(64, 21845, 27170179554009006, 1, 12273888421737114, 144115188075855859);
  }

  lemma PrimeP57OrderB()
    ensures Congruent(116616872394749509, Pow(64, 22906492245), 144115188075855859)
  {
    hide Pow, Congruent;
    PrimeP57OrderA();
    Step(64, 87381, 12273888421737114, 1, 21694378246722143, 144115188075855859);
    Step(64, 349525, 21694378246722143, 1, 89259267890585941, 144115188075855859);
    Step(64, 1398101, 89259267890585941, 1, 88653466966575834, 144115188075855859);
    Step(64, 5592405, 88653466966575834, 1, 50601641977390499, 144115188075855859);
    Step(64, 22369621, 50601641977390499, 1, 59081522820915260, 144115188075855859);
    Step(64, 89478485, 59081522820915260, 1, 76352017529714871, 144115188075855859);
    Step(64, 357913941, 76352017529714871, 1, 32239219820006340, 144115188075855859);
    Step(64, 1431655765, 32239219820006340, 1, 22048146523119379, 144115188075855859);
    Step(64, 5726623061, 22048146523119379, 1, 116616872394749509, 144115188075855859);
  }

  lemma PrimeP57OrderC()
    ensures Congruent(135806056070752155, Pow(64, 6004799503160660), 144115188075855859)
  {
    hide Pow, Congruent;
    PrimeP57OrderB();
    Step(64, 22906492245, 116616872394749509, 1, 142175540778272243, 144115188075855859);
    Step(64, 91625968981, 142175540778272243, 1, 82291424825060053, 144115188075855859);
    Step(64, 366503875925, 82291424825060053, 1, 124791529518513197, 144115188075855859);
    Step(64, 1466015503701, 124791529518513197, 1, 109659526789527148, 144115188075855859);
    Step(64, 5864062014805, 109659526789527148, 1, 28639371924600826, 144115188075855859);
    Step(64, 23456248059221, 28639371924600826, 1, 79923467553745927, 144115188075855859);
    Step(64, 93824992236885, 79923467553745927, 1, 110818458283283011, 144115188075855859);
    Step(64, 375299968947541, 110818458283283011, 1, 27730181843598440, 144115188075855859);
    Step(64, 1501199875790165, 27730181843598440, 0, 135806056070752155, 144115188075855859);
  }

  lemma PrimeP57OrderD()
    ensures Congruent(1, Pow(64, 24019198012642643), 144115188075855859)
  {
    hide Pow, Congruent;
    PrimeP57OrderC();
    Step(64, 6004799503160660, 135806056070752155, 3, 1, 144115188075855859);
  }

  lemma PrimeP57()
    ensures Prime(144115188075855859)
  {
    hide Pow, Congruent;
    PrimeQ1();
    SmallPow(64, 1);
    CongruentRefl(64, 144115188075855859);
    PrimeP57OrderD();
    CongruentSym(1, Pow(64, 24019198012642643), 144115188075855859);
    var ws := [Witness(24019198012642643, 1, 64, 86926621379087661)];
    forall i: nat | 0 < i < 24019198012642643 ensures Separated(ws, i) {
      assert ws[0].q > 0 && i % ws[0].q != 0;
    }
    PrimeByOrder(144115188075855859, 64, 24019198012642643, ws);
  }
}

/** Known answers of the generator: the first secret of every file and the challenge of every file
    of 56 rows. */
module KnownAnswers {
  import opened Words
  import opened Generator

  // ----- evaluating one step -----

  /** A transition, by the values of its stages. */
  lemma StepBy(a: bv64, b: bv64, x: bv64, x1: bv64, x2: bv64, x3: bv64, x4: bv64)
    requires Xor(Low(a), b) == x && Stage(Left12, x) == x1 && Stage(Right32, x1) == x2
    requires Stage(Left32, x2) == x3 && Stage(Left11, x3) == x4
    ensures Step(State(a, b)) == State(b, x4)
  {
    hide Stage, Xor, Low, Step;
    StepParts(State(a, b));
  }

  /** An output, by its sum and its masked low bits. */
  lemma DrawBy(a: bv64, b: bv64, sum: bv64, x: bv64, low: bv64, v: U64)
    requires SumMod(a, b) == sum && sum ^ (a >> 8) == x && x & DRAW_MASK == low && low as nat == v
    ensures Draw(State(a, b)) == v
  {
    TemperBy(a, b, sum, x);
    CandidateBy(x, low, v);
    hide Temper, Candidate, SumMod;
  }

  lemma TemperBy(a: bv64, b: bv64, sum: bv64, x: bv64)
    requires SumMod(a, b) == sum && sum ^ (a >> 8) == x
    ensures Temper(State(a, b), 0) == x
  {
    hide SumMod, Tapped;
    Untapped(x);
  }

  lemma CandidateBy(x: bv64, low: bv64, v: U64)
    requires x & DRAW_MASK == low && low as nat == v
    ensures Candidate(x) == v
  {
  }

  lemma Untapped(x: bv64)
    ensures Tapped(x, x, 0) == x
  {
  }

  /** The stream from `st` reaches `now` after n draws and has kept these entries. */
  ghost predicate Reaches(st: State, n: nat, now: State, kept: seq<U64>) {
    Iterate(st, n) == now && Kept(Draws(st, n)) == kept
  }

  /** One more accepted draw, by the values of its stages, its sum, its output and its low bits. */
  lemma KeepsDraw(st: State, n: nat, kept: seq<U64>, a: bv64, b: bv64, x: bv64, x1: bv64, x2: bv64, x3: bv64, x4: bv64,
                  sum: bv64, y: bv64, low: bv64, v: U64)
    requires Reaches(st, n, State(a, b), kept) && v < 144115188075855859
    requires Xor(Low(a), b) == x && Stage(Left12, x) == x1 && Stage(Right32, x1) == x2
    requires Stage(Left32, x2) == x3 && Stage(Left11, x3) == x4
    requires SumMod(b, x4) == sum && sum ^ (b >> 8) == y && y & DRAW_MASK == low && low as nat == v
    ensures Reaches(st, n + 1, State(b, x4), kept + [v])
  {
    StepBy(a, b, x, x1, x2, x3, x4);
    DrawBy(b, x4, sum, y, low, v);
    hide Step, Draw, Stage, SumMod, Xor, Low;
    DrawsStep(st, n);
    KeptAppend(Draws(st, n), v);
  }

  lemma ReachesStart(st: State)
    ensures Reaches(st, 0, st, [])
  {
    NothingDrawn(st);
  }

  lemma VectorReached(seed: bv64, n: nat, now: State, v: seq<U64>)
    requires Reaches(Seeded(seed), n, now, v)
    ensures IsVector(seed, |v|, v)
  {
    hide Seeded, Kept, Draws, Iterate, IsVector;
    VectorFound(seed, |v|, n, v);
  }

  // ----- seed 2020 -----

  lemma Mix1Of2020()
    ensures Mix(0x0, 0x7e4, 1) == 0xe6aab5704b9f7f15
  {
  }

  lemma Mix2Of2020()
    ensures Mix(0x7e4, 0xe6aab5704b9f7f15, 2) == 0x42f446aeeae34704
  {
  }

  lemma Mix3Of2020()
    ensures Mix(0xe6aab5704b9f7f15, 0x42f446aeeae34704, 3) == 0xf96e17f4978889f1
  {
  }

  lemma Mix4Of2020()
    ensures Mix(0x42f446aeeae34704, 0xf96e17f4978889f1, 4) == 0xe256768f6baa0a8a
  {
  }

  lemma Mix5Of2020()
    ensures Mix(0xf96e17f4978889f1, 0xe256768f6baa0a8a, 5) == 0x56d58739825258eb
  {
  }

  lemma Mix6Of2020()
    ensures Mix(0xe256768f6baa0a8a, 0x56d58739825258eb, 6) == 0x125c34b8916dbda2
  {
  }

  lemma Mix7Of2020()
    ensures Mix(0x56d58739825258eb, 0x125c34b8916dbda2, 7) == 0x1a954c05faf5eb6a
  {
  }

  lemma SeededOf2020()
    ensures Seeded(2020) == State(0x125c34b8916dbda2, 0x1a954c05faf5eb6a)
  {
    MixedStep(State(2020, 0));
    Mix1Of2020();
    Mix2Of2020();
    Mix3Of2020();
    Mix4Of2020();
    Mix5Of2020();
    Mix6Of2020();
    Mix7Of2020();
    var end := State(0x125c34b8916dbda2, 0x1a954c05faf5eb6a);
    assert Live(end) by { assert end.s1 != 0; }
    hide Mix, MixedUpTo, Live;
    var st1 := MixedUpTo(State(2020, 0), 1);
    assert MixedUpTo(State(2020, 0), 2) == State(0x7e4, 0xe6aab5704b9f7f15);
    assert MixedUpTo(State(2020, 0), 3) == State(0x42f446aeeae34704, 0xe6aab5704b9f7f15);
    assert MixedUpTo(State(2020, 0), 4) == State(0x42f446aeeae34704, 0xf96e17f4978889f1);
    assert MixedUpTo(State(2020, 0), 5) == State(0xe256768f6baa0a8a, 0xf96e17f4978889f1);
    assert MixedUpTo(State(2020, 0), 6) == State(0xe256768f6baa0a8a, 0x56d58739825258eb);
    assert MixedUpTo(State(2020, 0), 7) == State(0x125c34b8916dbda2, 0x56d58739825258eb);
    assert MixedUpTo(State(2020, 0), 8) == State(0x125c34b8916dbda2, 0x1a954c05faf5eb6a);
  }

  /** The first secret entry of every file, as the source's own test expects it. */
  lemma FirstSecret()
    ensures IsVector(2020, 1, [57829946736570845])
  {
    SeededOf2020();
    var st := Seeded(2020);
    ReachesStart(st);
    hide Iterate, Draws, Kept, Seeded, IsVector, Reaches;
    KeepsDraw(st, 0, [], 0x125c34b8916dbda2, 0x1a954c05faf5eb6a, 0x8c978bd6b9856c8, 0x9f42ae04eef4d6c8,
              0x9f42ae0471b678cc, 0xeef4d6c871b678cc, 0x48429545c27018cc, 0x62d7e14bbd660436, 0x62cd7407b89cf1dd, 0xcd7407b89cf1dd, 0xcd7407b89cf1dd);
    VectorReached(2020, 1, State(0x1a954c05faf5eb6a, 0x48429545c27018cc), [] + [57829946736570845]);
    assert [] + [57829946736570845] == [57829946736570845];
  }

  // ----- seed 20 -----

  lemma Mix1Of20()
    ensures Mix(0x0, 0x14, 1) == 0xe6671389fbadef85
  {
  }

  lemma Mix2Of20()
    ensures Mix(0x14, 0xe6671389fbadef85, 2) == 0xd81bd502b8649484
  {
  }

  lemma Mix3Of20()
    ensures Mix(0xe6671389fbadef85, 0xd81bd502b8649484, 3) == 0xa4bed2d82e5dfb3b
  {
  }

  lemma Mix4Of20()
    ensures Mix(0xd81bd502b8649484, 0xa4bed2d82e5dfb3b, 4) == 0x8ca07a4f5237e48d
  {
  }

  lemma Mix5Of20()
    ensures Mix(0xa4bed2d82e5dfb3b, 0x8ca07a4f5237e48d, 5) == 0xe0de1798872ce513
  {
  }

  lemma Mix6Of20()
    ensures Mix(0x8ca07a4f5237e48d, 0xe0de1798872ce513, 6) == 0xb34e2f9e48e0d75b
  {
  }

  lemma Mix7Of20()
    ensures Mix(0xe0de1798872ce513, 0xb34e2f9e48e0d75b, 7) == 0x3bcea9f39a04e4bf
  {
  }

  lemma SeededOf20()
    ensures Seeded(20) == State(0xb34e2f9e48e0d75b, 0x3bcea9f39a04e4bf)
  {
    MixedStep(State(20, 0));
    Mix1Of20();
    Mix2Of20();
    Mix3Of20();
    Mix4Of20();
    Mix5Of20();
    Mix6Of20();
    Mix7Of20();
    var end := State(0xb34e2f9e48e0d75b, 0x3bcea9f39a04e4bf);
    assert Live(end) by { assert end.s1 != 0; }
    hide Mix, MixedUpTo, Live;
    var st1 := MixedUpTo(State(20, 0), 1);
    assert MixedUpTo(State(20, 0), 2) == State(0x14, 0xe6671389fbadef85);
    assert MixedUpTo(State(20, 0), 3) == State(0xd81bd502b8649484, 0xe6671389fbadef85);
    assert MixedUpTo(State(20, 0), 4) == State(0xd81bd502b8649484, 0xa4bed2d82e5dfb3b);
    assert MixedUpTo(State(20, 0), 5) == State(0x8ca07a4f5237e48d, 0xa4bed2d82e5dfb3b);
    assert MixedUpTo(State(20, 0), 6) == State(0x8ca07a4f5237e48d, 0xe0de1798872ce513);
    assert MixedUpTo(State(20, 0), 7) == State(0xb34e2f9e48e0d75b, 0xe0de1798872ce513);
    assert MixedUpTo(State(20, 0), 8) == State(0xb34e2f9e48e0d75b, 0x3bcea9f39a04e4bf);
  }

  lemma Keeps0(st: State, kept: seq<U64>) returns (more: seq<U64>)
    requires Reaches(st, 0, State(0xb34e2f9e48e0d75b, 0x3bcea9f39a04e4bf), kept)
    ensures |more| == 4 && Nonzero(more) && more[1] == 0xa04fb81d8805d9
    ensures Reaches(st, 4, State(0x672a2c6cd5224769, 0x4ab3e9b5516e41f3), kept + more)
  {
    hide Iterate, Draws, Kept, Reaches;
    more := [0x2fcfc8f9e7f182, 0xa04fb81d8805d9, 0x110435d57a1cce7, 0x1b93c0e4a45ab1b];
    Spelled(kept, more);
    KeepsDraw(st, 0, kept, 0xb34e2f9e48e0d75b, 0x3bcea9f39a04e4bf, 0x880866dd2e433e4, 0xe65b4391da73e4,
              0xe65b43913c28a7, 0x91da73e4913c28a7, 0x4245576d707910a7, 0x7e1401610a7df566, 0x7e2fcfc8f9e7f182, 0x2fcfc8f9e7f182, 0x2fcfc8f9e7f182);
    KeepsDraw(st, 1, kept + [more[0]], 0x3bcea9f39a04e4bf, 0x4245576d707910a7, 0x798bfe9eea7df418, 0xc6621039353c7418,
              0xc6621039f35e6421, 0x353c7418f35e6421, 0xd69cb382007f6c21, 0x18e20aef70f87cc9, 0x18a04fb81d8805d9, 0xa04fb81d8805d9, 0xa04fb81d8805d9);
    KeepsDraw(st, 2, kept + [more[0]] + [more[1]], 0x4245576d707910a7, 0xd69cb382007f6c21, 0x94d9e4ef70067c86, 0xa9713ef17ce1c86,
              0xa9713ef1d590f69, 0x17ce1c861d590f69, 0x672a2c6cd5224769, 0x3dc6dfeed5a1b38b, 0x3d10435d57a1cce7, 0x110435d57a1cce7, 0x110435d57a1cce7);
    KeepsDraw(st, 3, kept + [more[0]] + [more[1]] + [more[2]], 0xd69cb382007f6c21, 0x672a2c6cd5224769, 0x31b69feed55d2b48, 0x584872bb07e9ab48,
              0x584872bb5fa1d9f3, 0x7e9ab485fa1d9f3, 0x4ab3e9b5516e41f3, 0xb1de16222690895c, 0xb1b93c0e4a45ab1b, 0x1b93c0e4a45ab1b, 0x1b93c0e4a45ab1b);
  }

  lemma Keeps1(st: State, kept: seq<U64>) returns (more: seq<U64>)
    requires Reaches(st, 4, State(0x672a2c6cd5224769, 0x4ab3e9b5516e41f3), kept)
    ensures |more| == 4 && Nonzero(more) && more[3] == 0x6c616411453f18
    ensures Reaches(st, 8, State(0xe78fcc6d0fd1cdd3, 0xb8fc223b6c792101), kept + more)
  {
    hide Iterate, Draws, Kept, Reaches;
    more := [0x18fe902fef96abb, 0xe9c40573f4220b, 0xea5fcf65edf2cc, 0x6c616411453f18];
    Spelled(kept, more);
    KeepsDraw(st, 4, kept, 0x672a2c6cd5224769, 0x4ab3e9b5516e41f3, 0x2d99c5d9844c069a, 0xb1c45d9d4425a69a,
              0xb1c45d9df5e1fb07, 0x4425a69af5e1fb07, 0x69117135fa39c307, 0xb3c55aeb4ba804fa, 0xb38fe902fef96abb, 0x18fe902fef96abb, 0x18fe902fef96abb);
    KeepsDraw(st, 5, kept + [more[0]], 0x4ab3e9b5516e41f3, 0x69117135fa39c307, 0x23a29880ab5782f4, 0xa2a9235d378c2f4,
              0xa2a9235d95250c1, 0xd378c2f4d95250c1, 0x156f643e4bd458c1, 0x7e80d574460e1bc8, 0x7ee9c40573f4220b, 0xe9c40573f4220b, 0xe9c40573f4220b);
    KeepsDraw(st, 6, kept + [more[0]] + [more[1]], 0x69117135fa39c307, 0x156f643e4bd458c1, 0x7c7e150bb1ed9bc6, 0x9d2eae156851fbc6,
              0x9d2eae15f57f55d3, 0x6851fbc6f57f55d3, 0xe78fcc6d0fd1cdd3, 0xfcff30ab5ba62694, 0xfcea5fcf65edf2cc, 0xea5fcf65edf2cc, 0xea5fcf65edf2cc);
    KeepsDraw(st, 7, kept + [more[0]] + [more[1]] + [more[2]], 0x156f643e4bd458c1, 0xe78fcc6d0fd1cdd3, 0xf2e0a85344059512, 0xf8659c131d54b512,
              0xf8659c13e5312901, 0x1d54b512e5312901, 0xb8fc223b6c792101, 0xa08beea87c4aeed5, 0xa06c616411453f18, 0x6c616411453f18, 0x6c616411453f18);
  }

  lemma Keeps2(st: State, kept: seq<U64>) returns (more: seq<U64>)
    requires Reaches(st, 8, State(0xe78fcc6d0fd1cdd3, 0xb8fc223b6c792101), kept)
    ensures |more| == 4 && Nonzero(more)
    ensures Reaches(st, 12, State(0x152e6a322579939, 0x6de780d91198dde0), kept + more)
  {
    hide Iterate, Draws, Kept, Reaches;
    more := [0x14782d33823ace1, 0x11ff929128b37ee, 0x8c5dfef28e82f8, 0x13b359a90d22080];
    Spelled(kept, more);
    KeepsDraw(st, 8, kept, 0xe78fcc6d0fd1cdd3, 0xb8fc223b6c792101, 0xdf73ee5663a8ecd2, 0xe196886ced65ccd2,
              0xe196886c0cf344be, 0xed65ccd20cf344be, 0xc3035cb596d6b4be, 0x7bff7ef1034fd5c0, 0x7b4782d33823ace1, 0x14782d33823ace1, 0x14782d33823ace1);
    KeepsDraw(st, 9, kept + [more[0]], 0xb8fc223b6c792101, 0xc3035cb596d6b4be, 0xfbff7e8efaaf95bf, 0xc17912403f465bf,
              0xc1791240fe3f49b, 0x3f465bf0fe3f49b, 0xa0d99dc010472c9b, 0x63dcfa75a71de15a, 0x631ff929128b37ee, 0x11ff929128b37ee, 0x11ff929128b37ee);
    KeepsDraw(st, 10, kept + [more[0]] + [more[1]], 0xc3035cb596d6b4be, 0xa0d99dc010472c9b, 0xe3dac17586919825, 0x4fcd991c9f13c825,
              0x4fcd991cd0de5139, 0x9f13c825d0de5139, 0x152e6a322579939, 0xa22c8463329ec5d4, 0xa28c5dfef28e82f8, 0x8c5dfef28e82f8, 0x8c5dfef28e82f8);
    KeepsDraw(st, 11, kept + [more[0]] + [more[1]] + [more[2]], 0xa0d99dc010472c9b, 0x152e6a322579939, 0x218b7b633210b5a2, 0x963d4842394a95a2,
              0x963d4842af77dde0, 0x394a95a2af77dde0, 0x6de780d91198dde0, 0x6f3a677c33f07719, 0x6f3b359a90d22080, 0x13b359a90d22080, 0x13b359a90d22080);
  }

  lemma Keeps3(st: State, kept: seq<U64>) returns (more: seq<U64>)
    requires Reaches(st, 12, State(0x152e6a322579939, 0x6de780d91198dde0), kept)
    ensures |more| == 4 && Nonzero(more)
    ensures Reaches(st, 16, State(0x8a220c90868710d7, 0xb527322de2beb189), kept + more)
  {
    hide Iterate, Draws, Kept, Reaches;
    more := [0x1667b8c56645f5d, 0x957044e8ec8618, 0x1736585c8663659, 0x1c31cb2f9c34571];
    Spelled(kept, more);
    KeepsDraw(st, 12, kept, 0x152e6a322579939, 0x6de780d91198dde0, 0x6cb5667a33cf44d9, 0x3ad2c546c782d4d9,
              0x3ad2c546fd50119f, 0xc782d4d9fd50119f, 0xd1241b337ddce99f, 0x3f0b9c0c8f75c780, 0x3f667b8c56645f5d, 0x1667b8c56645f5d, 0x1667b8c56645f5d);
    KeepsDraw(st, 13, kept + [more[0]], 0x6de780d91198dde0, 0xd1241b337ddce99f, 0xbcc39bea6c44347f, 0x857d3d2e2f03c47f,
              0x857d3d2eaa7ef951, 0x2f03c47faa7ef951, 0x3120392c5db47151, 0x244545fdb915af1, 0x2957044e8ec8618, 0x957044e8ec8618, 0x957044e8ec8618);
    KeepsDraw(st, 14, kept + [more[0]] + [more[1]], 0xd1241b337ddce99f, 0x3120392c5db47151, 0x6004221f206898ce, 0x2225d019a9e478ce,
              0x2225d0198bc1a8d7, 0xa9e478ce8bc1a8d7, 0x8a220c90868710d7, 0xbb4245bce43b8228, 0xbb736585c8663659, 0x1736585c8663659, 0x1736585c8663659);
    KeepsDraw(st, 15, kept + [more[0]] + [more[1]] + [more[2]], 0x3120392c5db47151, 0x8a220c90868710d7, 0xbb0235bcdb336186, 0x9859f80fed2b0186,
              0x9859f80f7572f989, 0xed2b01867572f989, 0xb527322de2beb189, 0x3f493ebe6945c261, 0x3fc31cb2f9c34571, 0x1c31cb2f9c34571, 0x1c31cb2f9c34571);
  }

  lemma Keeps4(st: State, kept: seq<U64>) returns (more: seq<U64>)
    requires Reaches(st, 16, State(0x8a220c90868710d7, 0xb527322de2beb189), kept)
    ensures |more| == 4 && Nonzero(more)
    ensures Reaches(st, 20, State(0xb74d0b27c1ab95f8, 0x3f4e73d67359c72d), kept + more)
  {
    hide Iterate, Draws, Kept, Reaches;
    more := [0x1f8c4c7c7ace59b, 0x185557ce6b7d8e9, 0x573feeedeb6335, 0x2c33f512c4f6b0];
    Spelled(kept, more);
    KeepsDraw(st, 16, kept, 0x8a220c90868710d7, 0xb527322de2beb189, 0xbf053ebd6439a15e, 0xeceee8fefe2c415e,
              0xeceee8fe12c2a9a0, 0xfe2c415e12c2a9a0, 0x9c26b1c8078fa9a0, 0x514de3f5ea4e5b2a, 0x51f8c4c7c7ace59b, 0x1f8c4c7c7ace59b, 0x1f8c4c7c7ace59b);
    KeepsDraw(st, 17, kept + [more[0]], 0xb527322de2beb189, 0x9c26b1c8078fa9a0, 0xa90183e5e5311829, 0xb13fddb6f4b38829,
              0xb13fddb6458c559f, 0xf4b38829458c559f, 0x68f2c2052720ad9f, 0x51973cd2eb05740, 0x585557ce6b7d8e9, 0x185557ce6b7d8e9, 0x185557ce6b7d8e9);
    KeepsDraw(st, 18, kept + [more[0]] + [more[1]], 0x9c26b1c8078fa9a0, 0x68f2c2052720ad9f, 0x74d473cd20af043f, 0x33e8a1c7d0ecf43f,
              0x33e8a1c7e30455f8, 0xd0ecf43fe30455f8, 0xb74d0b27c1ab95f8, 0x203fcd2ce8cc4398, 0x20573feeedeb6335, 0x573feeedeb6335, 0x573feeedeb6335);
    KeepsDraw(st, 19, kept + [more[0]] + [more[1]] + [more[2]], 0x68f2c2052720ad9f, 0xb74d0b27c1ab95f8, 0xdfbfc922e68b3867, 0x232de74a550d4867,
              0x232de74a7620af2d, 0x550d48677620af2d, 0x3f4e73d67359c72d, 0xf69b7efe35055d25, 0xf62c33f512c4f6b0, 0x2c33f512c4f6b0, 0x2c33f512c4f6b0);
  }

  lemma Keeps5(st: State, kept: seq<U64>) returns (more: seq<U64>)
    requires Reaches(st, 20, State(0xb74d0b27c1ab95f8, 0x3f4e73d67359c72d), kept)
    ensures |more| == 4 && Nonzero(more)
    ensures Reaches(st, 24, State(0x3286f5baa44c327c, 0xd6fd34b784c09257), kept + more)
  {
    hide Iterate, Draws, Kept, Reaches;
    more := [0x1276d1e70c659ff, 0xb492651c58fc4b, 0x1f3b041cf04b08d, 0x1b6ac8793a888e6];
    Spelled(kept, more);
    KeepsDraw(st, 20, kept, 0xb74d0b27c1ab95f8, 0x3f4e73d67359c72d, 0x80378f1b2f252d5, 0x3f8c63de97df02d5,
              0x3f8c63dea853610b, 0x97df02d5a853610b, 0x6fc9af97335b390b, 0xaf18236da6b50038, 0xaf276d1e70c659ff, 0x1276d1e70c659ff, 0x1276d1e70c659ff);
    KeepsDraw(st, 21, kept + [more[0]], 0x3f4e73d67359c72d, 0x6fc9af97335b390b, 0x5087dc414002fe26, 0x2d43c8416fe09e26,
              0x2d43c84142a35667, 0x6fe09e2642a35667, 0x6b11ac3358106e67, 0xdadb5bca8b6ba772, 0xdab492651c58fc4b, 0xb492651c58fc4b, 0xb492651c58fc4b);
    KeepsDraw(st, 22, kept + [more[0]] + [more[1]], 0x6fc9af97335b390b, 0x6b11ac3358106e67, 0x4d803a46b4b576c, 0x84e24510de3d976c,
              0x84e245105adfd27c, 0xde3d976c5adfd27c, 0x3286f5baa44c327c, 0x9d98a1edfc5ca0e3, 0x9df3b041cf04b08d, 0x1f3b041cf04b08d, 0x1f3b041cf04b08d);
    KeepsDraw(st, 23, kept + [more[0]] + [more[1]] + [more[2]], 0x6b11ac3358106e67, 0x3286f5baa44c327c, 0x59975989fc5c5c1b, 0x2c0fc64c399dec1b,
              0x2c0fc64c15922a57, 0x399dec1b15922a57, 0xd6fd34b784c09257, 0x9842a72290cc4d4, 0x9b6ac8793a888e6, 0x1b6ac8793a888e6, 0x1b6ac8793a888e6);
  }

  lemma Keeps6(st: State, kept: seq<U64>) returns (more: seq<U64>)
    requires Reaches(st, 24, State(0x3286f5baa44c327c, 0xd6fd34b784c09257), kept)
    ensures |more| == 4 && Nonzero(more)
    ensures Reaches(st, 28, State(0xedc74a0a73678167, 0x406a654bb230ba01), kept + more)
  {
    hide Iterate, Draws, Kept, Reaches;
    more := [0x1da7f40a839c514, 0x12a092dad1b58b3, 0x1e3a2154a9a37c8, 0xdc681c2feb5ce8];
    Spelled(kept, more);
    KeepsDraw(st, 24, kept, 0x3286f5baa44c327c, 0xd6fd34b784c09257, 0xe47bc10d208ca02b, 0x586b1305ea8e102b,
              0x586b1305b2e5032e, 0xea8e102bb2e5032e, 0x9a0f4dbc9afc732e, 0x710c82741fbd0586, 0x71da7f40a839c514, 0x1da7f40a839c514, 0x1da7f40a839c514);
    KeepsDraw(st, 25, kept + [more[0]], 0xd6fd34b784c09257, 0x9a0f4dbc9afc732e, 0xccf2790b1e3ce179, 0xeb62c8e8d02b7179,
              0xeb62c8e83b49b991, 0xd02b71793b49b991, 0x8ba0b8a376853191, 0x25b006601181a4c0, 0x252a092dad1b58b3, 0x12a092dad1b58b3, 0x12a092dad1b58b3);
    KeepsDraw(st, 26, kept + [more[0]] + [more[1]], 0x9a0f4dbc9afc732e, 0x8ba0b8a376853191, 0x91aff51fec7942bf, 0x6efe0bd87852b2bf,
              0x6efe0bd816acb967, 0x7852b2bf16acb967, 0xedc74a0a73678167, 0x796802ade9ecb2f9, 0x79e3a2154a9a37c8, 0x1e3a2154a9a37c8, 0x1e3a2154a9a37c8);
    KeepsDraw(st, 27, kept + [more[0]] + [more[1]] + [more[2]], 0x8ba0b8a376853191, 0xedc74a0a73678167, 0xe667f2a905e2b0f6, 0x994d62f72eedd0f6,
              0x994d62f7b7a0b201, 0x2eedd0f6b7a0b201, 0x406a654bb230ba01, 0x2e31af5625983b69, 0x2edc681c2feb5ce8, 0xdc681c2feb5ce8, 0xdc681c2feb5ce8);
  }

  lemma Keeps7(st: State, kept: seq<U64>) returns (more: seq<U64>)
    requires Reaches(st, 28, State(0xedc74a0a73678167, 0x406a654bb230ba01), kept)
    ensures |more| == 4 && Nonzero(more)
    ensures Reaches(st, 32, State(0x1fdec702151f9ee0, 0xb86311547e1bc785), kept + more)
  {
    hide Iterate, Draws, Kept, Reaches;
    more := [0xe4a4320a988289, 0x10e6bd53903840a, 0x1a1d45a0810b725, 0x5e0691912e79fb];
    Spelled(kept, more);
    KeepsDraw(st, 28, kept, 0xedc74a0a73678167, 0x406a654bb230ba01, 0x2dad2f41c1573b66, 0xff593354b2e15b66,
              0xff5933544db86832, 0xb2e15b664db86832, 0xb83a690b8ef9f832, 0xf8a4ce57412ab233, 0xf8e4a4320a988289, 0xe4a4320a988289, 0xe4a4320a988289);
    KeepsDraw(st, 29, kept + [more[0]], 0x406a654bb230ba01, 0xb83a690b8ef9f832, 0xf8500c403cc94233, 0xf8940f8ca8ea7233,
              0xf8940f8c507e7dbf, 0xa8ea7233507e7dbf, 0xfb7be8b0a39385bf, 0xb3b651bc328d7df2, 0xb30e6bd53903840a, 0x10e6bd53903840a, 0x10e6bd53903840a);
    KeepsDraw(st, 30, kept + [more[0]] + [more[1]], 0xb83a690b8ef9f832, 0xfb7be8b0a39385bf, 0xc34181bb2d6a7d8d, 0xdb5a336d8ab2ad8d,
              0xdb5a336d51e89ee0, 0x8ab2ad8d51e89ee0, 0x1fdec702151f9ee0, 0x1b5aafb2b8b324a0, 0x1ba1d45a0810b725, 0x1a1d45a0810b725, 0x1a1d45a0810b725);
    KeepsDraw(st, 31, kept + [more[0]] + [more[1]] + [more[2]], 0xfb7be8b0a39385bf, 0x1fdec702151f9ee0, 0x64a52fb2b68c1b5f, 0x365e04da7739eb5f,
              0x365e04da4167ef85, 0x7739eb5f4167ef85, 0xb86311547e1bc785, 0xd841d856933b6665, 0xd85e0691912e79fb, 0x5e0691912e79fb, 0x5e0691912e79fb);
  }

  lemma Keeps8(st: State, kept: seq<U64>) returns (more: seq<U64>)
    requires Reaches(st, 32, State(0x1fdec702151f9ee0, 0xb86311547e1bc785), kept)
    ensures |more| == 4 && Nonzero(more)
    ensures Reaches(st, 36, State(0x284a4d1167b79c92, 0x5cc2eaacc3049936), kept + more)
  {
    hide Iterate, Draws, Kept, Reaches;
    more := [0x184560a2bdc72ce, 0x188f0f3afd8251, 0x56b24501d08a9d, 0x1257df33bdb8254];
    Spelled(kept, more);
    KeepsDraw(st, 32, kept, 0x1fdec702151f9ee0, 0xb86311547e1bc785, 0xa7bdd6566b045965, 0x7ad8b0e62e920965,
              0x7ad8b0e6544ab983, 0x2e920965544ab983, 0xbed923c70186a183, 0x773c351b7fa26909, 0x7784560a2bdc72ce, 0x184560a2bdc72ce, 0x184560a2bdc72ce);
    KeepsDraw(st, 33, kept + [more[0]], 0xb86311547e1bc785, 0xbed923c70186a183, 0x86ba32937f9d6606, 0x2593056aa9fd0606,
              0x2593056a8c6e036c, 0xa9fd06068c6e036c, 0x41cd3265fc75636c, 0xa6562cfdfc04f0, 0x188f0f3afd8251, 0x188f0f3afd8251, 0x188f0f3afd8251);
    KeepsDraw(st, 34, kept + [more[0]] + [more[1]], 0xbed923c70186a183, 0x41cd3265fc75636c, 0x7f1411a2fdf3c2ef, 0x3e0e3e7dc1dd32ef,
              0x3e0e3e7dffd30c92, 0xc1dd32efffd30c92, 0x284a4d1167b79c92, 0x6a177f77642cfffe, 0x6a56b24501d08a9d, 0x56b24501d08a9d, 0x56b24501d08a9d);
    KeepsDraw(st, 35, kept + [more[0]] + [more[1]] + [more[2]], 0x41cd3265fc75636c, 0x284a4d1167b79c92, 0x69877f749bc2fffe, 0x1e7036c8b43d1ffe,
              0x1e7036c8aa4d2936, 0xb43d1ffeaa4d2936, 0x5cc2eaacc3049936, 0x850d37be2abc35c8, 0x85257df33bdb8254, 0x1257df33bdb8254, 0x1257df33bdb8254);
  }

  lemma Keeps9(st: State, kept: seq<U64>) returns (more: seq<U64>)
    requires Reaches(st, 36, State(0x284a4d1167b79c92, 0x5cc2eaacc3049936), kept)
    ensures |more| == 4 && Nonzero(more)
    ensures Reaches(st, 40, State(0xb7fd72e8f7d18deb, 0xfc020e6082d0c08e), kept + more)
  {
    hide Iterate, Draws, Kept, Reaches;
    more := [0x1db934bd21e4510, 0x1db7e86220e43ac, 0xd68786feb45c6f, 0x1487c3b92559ff7];
    Spelled(kept, more);
    KeepsDraw(st, 36, kept, 0x284a4d1167b79c92, 0x5cc2eaacc3049936, 0x7488a7bda4b305a4, 0xfef37df694e945a4,
              0xfef37df66a1a3852, 0x94e945a46a1a3852, 0xdec466f4bbd8a852, 0x3b8751a17edd4189, 0x3bdb934bd21e4510, 0x1db934bd21e4510, 0x1db934bd21e4510);
    KeepsDraw(st, 37, kept + [more[0]], 0x5cc2eaacc3049936, 0xdec466f4bbd8a852, 0x82068c5878dc3164, 0xeac30bd5bbca7164,
              0xeac30bd551097ab1, 0xbbca716451097ab1, 0xe84153ec1adcf2b1, 0xc705bae0d6b59b04, 0xc7db7e86220e43ac, 0x1db7e86220e43ac, 0x1db7e86220e43ac);
    KeepsDraw(st, 38, kept + [more[0]] + [more[1]], 0xdec466f4bbd8a852, 0xe84153ec1adcf2b1, 0xb6853518a1045ae3, 0xe5d4bf08e4aa6ae3,
              0xe5d4bf08017ed5eb, 0xe4aa6ae3017ed5eb, 0xb7fd72e8f7d18deb, 0xa03ec6d512ae809d, 0xa0d68786feb45c6f, 0xd68786feb45c6f, 0xd68786feb45c6f);
    KeepsDraw(st, 39, kept + [more[0]] + [more[1]] + [more[2]], 0xe84153ec1adcf2b1, 0xb7fd72e8f7d18deb, 0xdfbc2104ed0d7f5a, 0x1dac6fd43af8df5a,
              0x1dac6fd42754b08e, 0x3af8df5a2754b08e, 0xfc020e6082d0c08e, 0xb3ff81497aa24e7a, 0xb3487c3b92559ff7, 0x1487c3b92559ff7, 0x1487c3b92559ff7);
  }

  lemma Keeps10(st: State, kept: seq<U64>) returns (more: seq<U64>)
    requires Reaches(st, 40, State(0xb7fd72e8f7d18deb, 0xfc020e6082d0c08e), kept)
    ensures |more| == 4 && Nonzero(more)
    ensures Reaches(st, 44, State(0xce68cb961e5199f3, 0x4022ce73614c06e9), kept + more)
  {
    hide Iterate, Draws, Kept, Reaches;
    more := [0x1c247e4bd271f8c, 0x8aab9bc1b36419, 0x1333cd82e9728ef, 0x45f2c2e983f144];
    Spelled(kept, more);
    KeepsDraw(st, 40, kept, 0xb7fd72e8f7d18deb, 0xfc020e6082d0c08e, 0xcbff7c8875014d65, 0x3c37fbd861d71d65,
              0x3c37fbd85de0e6bd, 0x61d71d655de0e6bd, 0xd93c378a5ad50ebd, 0xd53e45eadda5cf4c, 0xd5c247e4bd271f8c, 0x1c247e4bd271f8c, 0x1c247e4bd271f8c);
    KeepsDraw(st, 41, kept + [more[0]], 0xfc020e6082d0c08e, 0xd93c378a5ad50ebd, 0xa53e39ead805ce33, 0x46a0946a84e6fe33,
              0x46a0946ac2466a59, 0x84e6fe33c2466a59, 0xb3176021f114a259, 0x8c5397ac4be9b117, 0x8c8aab9bc1b36419, 0x8aab9bc1b36419, 0x8aab9bc1b36419);
    KeepsDraw(st, 42, kept + [more[0]] + [more[1]], 0xd93c378a5ad50ebd, 0xb3176021f114a259, 0xea2b57ababc1ace4, 0x5f51ed17b10fece4,
              0x5f51ed17ee5e01f3, 0xb10fece4ee5e01f3, 0xce68cb961e5199f3, 0x81802bb80f663c4d, 0x81333cd82e9728ef, 0x1333cd82e9728ef, 0x1333cd82e9728ef);
    KeepsDraw(st, 43, kept + [more[0]] + [more[1]] + [more[2]], 0xb3176021f114a259, 0xce68cb961e5199f3, 0xfd7fabb7ef453baa, 0x7c4d543bcff9baa,
              0x7c4d543bb3b4ee9, 0xbcff9baabb3b4ee9, 0x4022ce73614c06e9, 0xe8b9a097f9da0dd, 0xe45f2c2e983f144, 0x45f2c2e983f144, 0x45f2c2e983f144);
  }

  lemma Keeps11(st: State, kept: seq<U64>) returns (more: seq<U64>)
    requires Reaches(st, 44, State(0xce68cb961e5199f3, 0x4022ce73614c06e9), kept)
    ensures |more| == 4 && Nonzero(more)
    ensures Reaches(st, 48, State(0x30e86907bdb37aaf, 0xbb0c115840c7e436), kept + more)
  {
    hide Iterate, Draws, Kept, Reaches;
    more := [0x1779f1f5fbd6ffe, 0x195521cdb1e0d6e, 0x15dfdcaed43be93, 0x1c49236f9c6ed9f];
    Spelled(kept, more);
    KeepsDraw(st, 44, kept, 0xce68cb961e5199f3, 0x4022ce73614c06e9, 0xe4a05e57f1d9f1a, 0xae145214a6ec3f1a,
              0xae14521408f86d0e, 0xa6ec3f1a08f86d0e, 0xc714ef5dcb901d0e, 0x737bdd12cdc23f8, 0x7779f1f5fbd6ffe, 0x1779f1f5fbd6ffe, 0x1779f1f5fbd6ffe);
    KeepsDraw(st, 45, kept + [more[0]], 0x4022ce73614c06e9, 0xc714ef5dcb901d0e, 0x8736212eaadc1be7, 0xe524cb836b626be7,
              0xe524cb838e46a064, 0x6b626be78e46a064, 0x783d5795bb458064, 0x3f5246f386d59d73, 0x3f95521cdb1e0d6e, 0x195521cdb1e0d6e, 0x195521cdb1e0d6e);
    KeepsDraw(st, 46, kept + [more[0]] + [more[1]], 0xc714ef5dcb901d0e, 0x783d5795bb458064, 0x3f29b8c870d59d6a, 0xa4a53fc529033d6a,
              0xa4a53fc58da602af, 0x29033d6a8da602af, 0x30e86907bdb37aaf, 0xa925c09d78f8fb13, 0xa95dfdcaed43be93, 0x15dfdcaed43be93, 0x15dfdcaed43be93);
    KeepsDraw(st, 47, kept + [more[0]] + [more[1]] + [more[2]], 0x783d5795bb458064, 0x30e86907bdb37aaf, 0x48d53e9206f6facb, 0x1b3c1efd695a4acb,
              0x1b3c1efd72665436, 0x695a4acb72665436, 0xbb0c115840c7e436, 0xebf47a5ffe7b5ee5, 0xebc49236f9c6ed9f, 0x1c49236f9c6ed9f, 0x1c49236f9c6ed9f);
  }

  lemma Keeps12(st: State, kept: seq<U64>) returns (more: seq<U64>)
    requires Reaches(st, 48, State(0x30e86907bdb37aaf, 0xbb0c115840c7e436), kept)
    ensures |more| == 4 && Nonzero(more)
    ensures Reaches(st, 52, State(0x57e7d077a6aa2d1f, 0x795969ed067c5799), kept + more)
  {
    hide Iterate, Draws, Kept, Reaches;
    more := [0x14edaa7853b22ac, 0x12e9887c80ba9f9, 0x9ef4f04374a91a, 0x116ddb4da802e95];
    Spelled(kept, more);
    KeepsDraw(st, 48, kept, 0x30e86907bdb37aaf, 0xbb0c115840c7e436, 0x8be4785ffd749e99, 0xcc618788b49d0e99,
              0xcc61878878fc8911, 0xb49d0e9978fc8911, 0x5ce9c55e9cb40111, 0x17f5d6b6dd7be548, 0x174edaa7853b22ac, 0x14edaa7853b22ac, 0x14edaa7853b22ac);
    KeepsDraw(st, 49, kept + [more[0]], 0xbb0c115840c7e436, 0x5ce9c55e9cb40111, 0x67e5d406dc73e527, 0x3aa5b9c1e2219527,
              0x3aa5b9c1d8842ce6, 0xe2219527d8842ce6, 0xee88abe3f9e31ce6, 0x4b72714296971df8, 0x4b2e9887c80ba9f9, 0x12e9887c80ba9f9, 0x12e9887c80ba9f9);
    KeepsDraw(st, 50, kept + [more[0]] + [more[1]], 0x5ce9c55e9cb40111, 0xee88abe3f9e31ce6, 0xb2616ebd65571df7, 0xa48ab8e814886df7,
              0xa48ab8e8b002d51f, 0x14886df7b002d51f, 0x57e7d077a6aa2d1f, 0x46707c5ba08d4a06, 0x469ef4f04374a91a, 0x9ef4f04374a91a, 0x9ef4f04374a91a);
    KeepsDraw(st, 51, kept + [more[0]] + [more[1]] + [more[2]], 0xee88abe3f9e31ce6, 0x57e7d077a6aa2d1f, 0x396f7b945f4931f9, 0xced63e60cc56a1f9,
              0xced63e6002809f99, 0xcc56a1f902809f99, 0x795969ed067c5799, 0xd1413a64ad2684b8, 0xd116ddb4da802e95, 0x116ddb4da802e95, 0x116ddb4da802e95);
  }

  lemma Keeps13(st: State, kept: seq<U64>) returns (more: seq<U64>)
    requires Reaches(st, 52, State(0x57e7d077a6aa2d1f, 0x795969ed067c5799), kept)
    ensures |more| == 4 && Nonzero(more)
    ensures Reaches(st, 56, State(0xe81ae46d2f592dbd, 0x94fded277a6419bc), kept + more)
  {
    hide Iterate, Draws, Kept, Reaches;
    more := [0x17acde83d8ba4fd, 0x16cea41a553a3c9, 0x1f04b564086d6c4, 0x1f0cb70c4921e57];
    Spelled(kept, more);
    KeepsDraw(st, 52, kept, 0x57e7d077a6aa2d1f, 0x795969ed067c5799, 0x2ebeb99aa0d67a86, 0xc5271397c77e1a86,
              0xc527139702590911, 0xc77e1a8602590911, 0x37aa2a94ca118111, 0xb1039481d08dd8aa, 0xb17acde83d8ba4fd, 0x17acde83d8ba4fd, 0x17acde83d8ba4fd);
    KeepsDraw(st, 53, kept + [more[0]], 0x795969ed067c5799, 0x37aa2a94ca118111, 0x4ef34379cc6dd688, 0x7ac4dfbf11055688,
              0x7ac4dfbf6bc18937, 0x110556886bc18937, 0x3bb115d667883137, 0x735b406b3199b248, 0x736cea41a553a3c9, 0x16cea41a553a3c9, 0x16cea41a553a3c9);
    KeepsDraw(st, 54, kept + [more[0]] + [more[1]], 0x37aa2a94ca118111, 0x3bb115d667883137, 0xc1b3f42ad99b026, 0xbfef159b369bd026,
              0xbfef159b8974c5bd, 0x369bd0268974c5bd, 0xe81ae46d2f592dbd, 0x23cbfa4396e15ef5, 0x23f04b564086d6c4, 0x1f04b564086d6c4, 0x1f04b564086d6c4);
    KeepsDraw(st, 55, kept + [more[0]] + [more[1]] + [more[2]], 0x3bb115d667883137, 0xe81ae46d2f592dbd, 0xd3abf1bb48d11c8a, 0x6cb045365919bc8a,
              0x6cb0453635a9f9bc, 0x5919bc8a35a9f9bc, 0x94fded277a6419bc, 0x7d18d194a9bd477a, 0x7df0cb70c4921e57, 0x1f0cb70c4921e57, 0x1f0cb70c4921e57);
  }

  predicate Nonzero(v: seq<U64>) {
    forall k :: 0 <= k < |v| ==> v[k] != 0
  }

  lemma Spelled(kept: seq<U64>, more: seq<U64>)
    requires |more| == 4
    ensures kept + [more[0]] + [more[1]] + [more[2]] + [more[3]] == kept + more
  {
  }

  /** The challenge of every audit of a file of 56 rows: no entry is zero, and two of the entries. */
  lemma ChallengeOf56() returns (c: seq<U64>)
    ensures |c| == 56 && IsVector(20, 56, c) && Nonzero(c) && c[1] == 0xa04fb81d8805d9 && c[7] == 0x6c616411453f18
  {
    hide Iterate, Draws, Kept, Seeded, Reaches, IsVector;
    SeededOf20();
    var st := Seeded(20);
    ReachesStart(st);
    c := [];
    var more0 := Keeps0(st, c);
    c := c + more0;
    var more1 := Keeps1(st, c);
    c := c + more1;
    var more2 := Keeps2(st, c);
    c := c + more2;
    var more3 := Keeps3(st, c);
    c := c + more3;
    var more4 := Keeps4(st, c);
    c := c + more4;
    var more5 := Keeps5(st, c);
    c := c + more5;
    var more6 := Keeps6(st, c);
    c := c + more6;
    var more7 := Keeps7(st, c);
    c := c + more7;
    var more8 := Keeps8(st, c);
    c := c + more8;
    var more9 := Keeps9(st, c);
    c := c + more9;
    var more10 := Keeps10(st, c);
    c := c + more10;
    var more11 := Keeps11(st, c);
    c := c + more11;
    var more12 := Keeps12(st, c);
    c := c + more12;
    var more13 := Keeps13(st, c);
    c := c + more13;
    VectorReached(20, 56, State(0xe81ae46d2f592dbd, 0x94fded277a6419bc), c);
  }

  /** Both seeds the program uses yield vectors of every size. */
  lemma ProgramSeedsAccept()
    ensures Accepting(2020) && Accepting(20)
  {
    hide *;
    FirstSecret();
    FirstAccepted(2020, [57829946736570845]);
    var c := ChallengeOf56();
    ShorterVector(20, 56, c, 1);
    FirstAccepted(20, c[..1]);
  }
}

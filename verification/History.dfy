/** Verification claims over whole runs: when the comparison with the latest claim exposes a
    corrupt verifier. */
module History {
  import opened Words
  import opened Contracts
  import opened Ledger

  /** A claim that some verifier tried to write; `written` is false when the ledger refused it. */
  datatype Write = Write(claim: Claim, written: bool)

  /** The claims table after any interleaving of the verifiers' writes. */
  function TableAfter(h: seq<Write>): ClaimTable {
    Recorded(map[], h)
  }

  /** A table after further writes. */
  function Recorded(table: ClaimTable, writes: seq<Write>): ClaimTable {
    if writes == [] then table
    else
      var before, w := Recorded(table, writes[..|writes| - 1]), writes[|writes| - 1];
      if w.written then Upserted(before, w.claim) else before
  }

  /** The most recent successful write for a contract. */
  function LastWritten(h: seq<Write>, contract: string): Option<Claim> {
    if h == [] then None
    else
      var w := h[|h| - 1];
      if w.written && w.claim.contract == contract then Some(w.claim)
      else LastWritten(h[..|h| - 1], contract)
  }

  ghost predicate For(w: Write, contract: string) {
    w.written && w.claim.contract == contract
  }

  /** The times of the claims about one contract increase from write to write. */
  ghost predicate TimesIncrease(h: seq<Write>, contract: string) {
    forall i, j :: 0 <= i < j < |h| && For(h[i], contract) && For(h[j], contract) ==>
      h[i].claim.time < h[j].claim.time
  }

  /** Every stored claim was written at some point, under its own key. */
  lemma {:induction false} StoredWasWritten(h: seq<Write>, key: (string, PeerId)) returns (i: nat)
    requires key in TableAfter(h)
    ensures i < |h| && h[i].written && h[i].claim == TableAfter(h)[key]
    ensures key == (h[i].claim.contract, h[i].claim.verifier)
  {
    var w := h[|h| - 1];
    if w.written && key == (w.claim.contract, w.claim.verifier) {
      i := |h| - 1;
    } else {
      i := StoredWasWritten(h[..|h| - 1], key);
    }
  }

  /** The last written claim is still stored, despite other verifiers' upserts. */
  lemma {:induction false} LastWrittenIsStored(h: seq<Write>, contract: string)
    ensures LastWritten(h, contract).None? ==> forall v :: (contract, v) !in TableAfter(h)
    ensures LastWritten(h, contract).Some? ==>
      var c := LastWritten(h, contract).value;
      c.contract == contract && (contract, c.verifier) in TableAfter(h)
      && TableAfter(h)[(contract, c.verifier)] == c
  {
    if h != [] {
      LastWrittenIsStored(h[..|h| - 1], contract);
    }
  }

  /** The last written claim is later than every other stored claim of its contract. */
  ghost predicate StrictlyLatest(h: seq<Write>, contract: string) {
    LastWritten(h, contract).Some? ==>
      var c := LastWritten(h, contract).value;
      forall v :: v != c.verifier && (contract, v) in TableAfter(h) ==> TableAfter(h)[(contract, v)].time < c.time
  }

  lemma {:induction false} IncreasingTimesAreLatest(h: seq<Write>, contract: string)
    requires TimesIncrease(h, contract)
    ensures StrictlyLatest(h, contract)
  {
    if h != [] {
      var init, w := h[..|h| - 1], h[|h| - 1];
      IncreasingTimesAreLatest(init, contract);
      if w.written && w.claim.contract == contract {
        forall v | v != w.claim.verifier && (contract, v) in TableAfter(h)
          ensures TableAfter(h)[(contract, v)].time < w.claim.time
        {
          var i := StoredWasWritten(init, (contract, v));
          assert h[i] == init[i] && For(h[i], contract) && For(h[|h| - 1], contract);
        }
      }
    }
  }

  // ----- what a scan shows -----

  lemma LatestOfMaximalHead(scan: seq<Claim>)
    requires scan != [] && forall i :: 0 <= i < |scan| ==> scan[i].time <= scan[0].time
    ensures Latest(scan) == Some(scan[0])
  {
    var rest := SortedByTime(scan[1..]);
    if rest != [] {
      LatestIsMaximal(scan[1..]);
    }
  }

  lemma ScanShowsLast(h: seq<Write>, contract: string, scan: seq<Claim>)
    requires IsScan(scan, TableAfter(h), contract) && StrictlyLatest(h, contract)
    ensures Latest(scan) == LastWritten(h, contract)
  {
    LastWrittenIsStored(h, contract);
    LatestIsMaximal(scan);
    assert scan == [] || (contract, scan[0].verifier) in TableAfter(h);
    if LastWritten(h, contract).Some? {
      var c := LastWritten(h, contract).value;
      assert c in scan;
      var l := Latest(scan).value;
      var k :| 0 <= k < |scan| && scan[k] == c;
      assert (contract, l.verifier) in TableAfter(h);
    }
  }

  /** Where the i-th claim of a scan with its k-th claim moved to the front comes from. */
  function Origin(k: nat, i: nat): (j: nat)
    ensures i <= k ==> j <= k
    ensures i > k ==> j == i
  {
    if i == 0 then k else if i <= k then i - 1 else i
  }

  function MovedToFront(scan: seq<Claim>, k: nat): (r: seq<Claim>)
    requires k < |scan|
    ensures |r| == |scan| && r[0] == scan[k]
  {
    seq(|scan|, i requires 0 <= i < |scan| => scan[Origin(k, i)])
  }

  lemma MovedAt(scan: seq<Claim>, k: nat)
    requires k < |scan|
    ensures forall i: nat :: i < |scan| ==> MovedToFront(scan, k)[i] == scan[Origin(k, i)]
    ensures forall j: nat :: j < |scan| ==> scan[j] in MovedToFront(scan, k)
  {
    var r := MovedToFront(scan, k);
    forall j: nat | j < |scan| ensures scan[j] in r {
      assert r[if j == k then 0 else if j < k then j + 1 else j] == scan[j];
    }
  }

  lemma MovedIsScan(scan: seq<Claim>, table: ClaimTable, contract: string, k: nat)
    requires IsScan(scan, table, contract) && k < |scan|
    ensures IsScan(MovedToFront(scan, k), table, contract)
  {
    hide MovedToFront;
    MovedAt(scan, k);
    var r := MovedToFront(scan, k);
    forall i: nat, j: nat | i < j < |r| ensures r[i].verifier != r[j].verifier {
      assert Origin(k, i) != Origin(k, j);
      assert r[i] == scan[Origin(k, i)] && r[j] == scan[Origin(k, j)];
    }
    forall i: nat | i < |r| ensures InTable(r[i], table, contract) {
      assert InTable(scan[Origin(k, i)], table, contract);
    }
    forall v | (contract, v) in table ensures table[(contract, v)] in r {
      var j: nat :| j < |scan| && scan[j] == table[(contract, v)];
    }
  }

  /** Among the scanned claims other than c, one with the greatest time. */
  lemma {:induction false} GreatestOther(scan: seq<Claim>, c: Claim, k0: nat) returns (k: nat)
    requires k0 < |scan| && scan[k0] != c
    ensures k < |scan| && scan[k] != c
    ensures forall i :: 0 <= i < |scan| && scan[i] != c ==> scan[i].time <= scan[k].time
    decreases |scan|
  {
    var n := |scan| - 1;
    if exists i :: 0 <= i < n && scan[..n][i] != c {
      var i :| 0 <= i < n && scan[..n][i] != c;
      k := GreatestOther(scan[..n], c, i);
      assert forall i :: 0 <= i < n ==> scan[..n][i] == scan[i];
      if scan[n] != c && scan[n].time > scan[k].time {
        k := n;
      }
    } else {
      assert forall i :: 0 <= i < n ==> scan[..n][i] == scan[i];
      k := k0;
    }
  }

  /** Without that strictness some order of the same rows hides the last written claim. */
  lemma SomeScanHidesLast(h: seq<Write>, contract: string, scan: seq<Claim>) returns (other: seq<Claim>)
    requires IsScan(scan, TableAfter(h), contract) && !StrictlyLatest(h, contract)
    ensures IsScan(other, TableAfter(h), contract) && Latest(other) != LastWritten(h, contract)
  {
    LastWrittenIsStored(h, contract);
    var c := LastWritten(h, contract).value;
    var v :| v != c.verifier && (contract, v) in TableAfter(h) && TableAfter(h)[(contract, v)].time >= c.time;
    var d := TableAfter(h)[(contract, v)];
    var k0 :| 0 <= k0 < |scan| && scan[k0] == d;
    var i := StoredWasWritten(h, (contract, v));
    var k := GreatestOther(scan, c, k0);
    other := MovedToFront(scan, k);
    MovedIsScan(scan, TableAfter(h), contract, k);
    forall j | 0 <= j < |other| ensures other[j].time <= other[0].time {
      assert other[j] in scan;
      var j' :| 0 <= j' < |scan| && scan[j'] == other[j];
    }
    LatestOfMaximalHead(other);
  }

  lemma TwoWrites(a: Claim, b: Claim)
    ensures TableAfter([Write(a, true), Write(b, true)]) == map[(a.contract, a.verifier) := a][(b.contract, b.verifier) := b]
    ensures LastWritten([Write(a, true), Write(b, true)], b.contract) == Some(b)
  {
    var h := [Write(a, true), Write(b, true)];
    assert h[..1] == [Write(a, true)] && h[..1][..0] == [];
    assert Recorded(map[], h[..1]) == Upserted(map[], a);
  }

  /** It happens: two verifiers' claims on one contract in the same millisecond, the later one false,
      and a listing that shows the earlier one first. */
  lemma SameMillisecondHidesLast(contract: string, honest: PeerId, cheat: PeerId, time: I64)
    requires honest != cheat
    ensures var first, second := Claim(contract, honest, time, true), Claim(contract, cheat, time, false);
      var h, scan := [Write(first, true), Write(second, true)], [first, second];
      && IsScan(scan, TableAfter(h), contract) && LastWritten(h, contract) == Some(second)
      && Latest(scan) == Some(first) && !Flags(scan, true) && Flags([second, first], true)
  {
    var first, second := Claim(contract, honest, time, true), Claim(contract, cheat, time, false);
    TwoWrites(first, second);
    hide TableAfter, Latest;
    LatestOfMaximalHead([first, second]);
    LatestOfMaximalHead([second, first]);
  }

  // ----- the cheating flag -----

  /** The comparison a verifier makes between its own audit and the latest claim. */
  predicate Flags(scan: seq<Claim>, isSuccess: bool) {
    Latest(scan).Some? && isSuccess != Latest(scan).value.succeeded
  }

  /** Honest verifiers record the true outcome, corrupt ones its negation. */
  ghost predicate Reported(h: seq<Write>, contract: string, truth: bool, corrupt: PeerId -> bool) {
    forall i :: 0 <= i < |h| && For(h[i], contract) ==>
      h[i].claim.succeeded == (truth != corrupt(h[i].claim.verifier))
  }

  lemma {:induction false} LastReport(h: seq<Write>, contract: string, truth: bool, corrupt: PeerId -> bool)
    requires Reported(h, contract, truth, corrupt) && LastWritten(h, contract).Some?
    ensures LastWritten(h, contract).value.succeeded
         == (truth != corrupt(LastWritten(h, contract).value.verifier))
  {
    var init, w := h[..|h| - 1], h[|h| - 1];
    if !For(w, contract) {
      forall i | 0 <= i < |init| ensures init[i] == h[i] {
      }
      LastReport(init, contract, truth, corrupt);
    }
  }

  /** For a contract whose true outcome does not change, in every interleaving with increasing
      times, a mismatch is flagged exactly when the most recent claim came from a corrupt
      verifier. */
  lemma FlagIsExact(h: seq<Write>, contract: string, truth: bool, corrupt: PeerId -> bool, scan: seq<Claim>)
    requires TimesIncrease(h, contract) && Reported(h, contract, truth, corrupt)
    requires IsScan(scan, TableAfter(h), contract)
    ensures Flags(scan, truth)
      <==> LastWritten(h, contract).Some? && corrupt(LastWritten(h, contract).value.verifier)
  {
    IncreasingTimesAreLatest(h, contract);
    ScanShowsLast(h, contract, scan);
    if LastWritten(h, contract).Some? {
      LastReport(h, contract, truth, corrupt);
    }
  }

  /** Histories compose. */
  lemma {:induction false} RecordedInTurn(table: ClaimTable, h: seq<Write>, more: seq<Write>)
    ensures Recorded(Recorded(table, h), more) == Recorded(table, h + more)
  {
    if more == [] {
      assert h + more == h;
    } else {
      var init := more[..|more| - 1];
      RecordedInTurn(table, h, init);
      assert (h + more)[..|h + more| - 1] == h + init;
    }
  }
}

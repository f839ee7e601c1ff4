/** Which cheating the rounds expose, in every interleaving of honest and corrupt verifiers. */
module Cheating {
  import opened Contracts
  import opened Ledger
  import opened History
  import opened Rotation
  import opened Verifier
  import opened Runs

  // ----- what verifiers write -----

  /** Every audit of the turn comes out as the contract's true outcome says. */
  ghost predicate Truthful(w: Window, turn: Turn, truth: string -> bool) {
    forall k :: 0 <= k < |turn.visits| && Judged(w, turn.visits[k]) ==>
      Passed(turn.visits[k]) == truth(turn.visits[k].contract.contractUuid)
  }

  ghost predicate Steady(n: nat, run: seq<Turn>, truth: string -> bool)
    requires Supported(n)
  {
    forall r :: 0 <= r < |run| ==> Truthful(At(n, r), run[r], truth)
  }

  /** The claims of one turn report the truth or, for a corrupt verifier, its negation. */
  lemma TurnReportsOutcome(w: Window, turn: Turn, verifier: PeerId, corrupt: PeerId -> bool, truth: string -> bool,
                           contract: string)
    requires Proper(turn) && Truthful(w, turn, truth)
    ensures Reported(TurnClaims(w, turn, verifier, corrupt(verifier)), contract, truth(contract), corrupt)
  {
    hide Audits, Passed;
    var at := AuditsAreInWindow(w, turn.visits);
    var ws := TurnClaims(w, turn, verifier, corrupt(verifier));
    forall k | 0 <= k < |ws| && For(ws[k], contract)
      ensures ws[k].claim.succeeded == (truth(contract) != corrupt(ws[k].claim.verifier))
    {
      assert Audits(w, turn.visits)[k] == AuditOf(turn.visits[at[k]]);
    }
  }

  lemma {:induction false} RunReportsOutcome(n: nat, run: seq<Turn>, verifier: PeerId, corrupt: PeerId -> bool,
                                             truth: string -> bool, contract: string)
    requires Supported(n) && AllProper(run) && Steady(n, run, truth)
    ensures Reported(RunClaims(n, run, verifier, corrupt(verifier)), contract, truth(contract), corrupt)
  {
    hide TurnClaims, At, Truthful;
    if run != [] {
      var k := |run| - 1;
      assert forall j :: 0 <= j < k ==> run[..k][j] == run[j];
      RunReportsOutcome(n, run[..k], verifier, corrupt, truth, contract);
      TurnReportsOutcome(At(n, k), run[k], verifier, corrupt, truth, contract);
    }
  }

  /** A verifier in the network: how its rotation is set up, and its completed turns. */
  datatype Party = Party(n: nat, run: seq<Turn>, peer: PeerId)

  /** The write is a claim of this party, in whose run every audit comes out true. */
  ghost predicate Wrote(p: Party, w: Write, corrupt: PeerId -> bool, truth: string -> bool) {
    && Supported(p.n) && AllProper(p.run) && Steady(p.n, p.run, truth)
    && w in RunClaims(p.n, p.run, p.peer, corrupt(p.peer))
  }

  /** Every write of the history is one that some party's run made. */
  ghost predicate Woven(h: seq<Write>, corrupt: PeerId -> bool, truth: string -> bool) {
    forall i :: 0 <= i < |h| ==> Claimed(h[i], corrupt, truth)
  }

  ghost predicate Claimed(w: Write, corrupt: PeerId -> bool, truth: string -> bool) {
    exists p :: Wrote(p, w, corrupt, truth)
  }

  /** However the writes of the verifiers interleave, the history reports the truth except where a
      corrupt verifier wrote. */
  lemma HistoryReportsOutcome(h: seq<Write>, corrupt: PeerId -> bool, truth: string -> bool, contract: string)
    requires Woven(h, corrupt, truth)
    ensures Reported(h, contract, truth(contract), corrupt)
  {
    hide RunClaims, Steady;
    forall i | 0 <= i < |h| && For(h[i], contract)
      ensures h[i].claim.succeeded == (truth(contract) != corrupt(h[i].claim.verifier))
    {
      var p :| Wrote(p, h[i], corrupt, truth);
      RunReportsOutcome(p.n, p.run, p.peer, corrupt, truth, contract);
      var ws := RunClaims(p.n, p.run, p.peer, corrupt(p.peer));
      var k :| 0 <= k < |ws| && ws[k] == h[i];
    }
  }

  // ----- what one round flags -----

  /** The listing this visit saw is one of the shared table after the writes h, whose times on the
      contract increase. */
  ghost predicate SawTable(v: Visit, h: seq<Write>) {
    && v.seen.scan.Some? && IsScan(v.seen.scan.value, TableAfter(h), v.contract.contractUuid)
    && TimesIncrease(h, v.contract.contractUuid)
  }

  /** Over every interleaving of verifiers: when each listing of a completed round shows the shared
      table as it then is (after the writes hs[k]), the round flags exactly the contracts whose most
      recent claim came from a corrupt verifier. */
  lemma RoundFlagsExactly(w: Window, turn: Turn, hs: seq<seq<Write>>, corrupt: PeerId -> bool,
                          truth: string -> bool) returns (at: seq<nat>)
    requires Completes(w, turn) && |hs| == |turn.visits|
    requires Truthful(w, turn, truth)
    requires forall k :: 0 <= k < |hs| && InWindow(w, turn.visits[k]) ==>
      SawTable(turn.visits[k], hs[k]) && Woven(hs[k], corrupt, truth)
    ensures |at| == |Mismatches(w, turn.visits)|
    ensures forall i, j :: 0 <= i < j < |at| ==> at[i] < at[j]
    ensures forall k :: 0 <= k < |at| ==> at[k] < |hs| && InWindow(w, turn.visits[at[k]])
    ensures forall i :: 0 <= i < |turn.visits| && InWindow(w, turn.visits[i]) ==> i in at
    ensures forall k :: 0 <= k < |at| ==>
      var last := LastWritten(hs[at[k]], turn.visits[at[k]].contract.contractUuid);
      Mismatches(w, turn.visits)[k] <==> last.Some? && corrupt(last.value.verifier)
  {
    at := MismatchesAreFlags(w, turn.visits);
    hide Mismatches, Passed, Woven, Flags, LastWritten, InWindow, TableAfter, TimesIncrease, IsScan, Ends;
    forall k | 0 <= k < |at|
      ensures var last := LastWritten(hs[at[k]], turn.visits[at[k]].contract.contractUuid);
        Mismatches(w, turn.visits)[k] <==> last.Some? && corrupt(last.value.verifier)
    {
      var v, h := turn.visits[at[k]], hs[at[k]];
      assert SawTable(v, h) && Woven(h, corrupt, truth);
      assert Judged(w, v) by { assert !Ends(w, v); EndsWhen(w, v); }
      var contract := v.contract.contractUuid;
      HistoryReportsOutcome(h, corrupt, truth, contract);
      FlagIsExact(h, contract, truth(contract), corrupt, v.seen.scan.value);
    }
  }

  // ----- what a whole run flags -----

  lemma WovenAppend(a: seq<Write>, b: seq<Write>, corrupt: PeerId -> bool, truth: string -> bool)
    requires Woven(a, corrupt, truth) && Woven(b, corrupt, truth)
    ensures Woven(a + b, corrupt, truth)
  {
    hide Claimed;
  }

  lemma {:induction false} OthersWoven(vs: seq<Visit>, corrupt: PeerId -> bool, truth: string -> bool)
    requires forall k :: 0 <= k < |vs| ==> Woven(vs[k].seen.others, corrupt, truth)
    ensures Woven(OthersOf(vs), corrupt, truth)
  {
    hide Woven;
    if vs == [] {
      NothingWoven(corrupt, truth);
    } else {
      var n := |vs| - 1;
      OthersWoven(vs[..n], corrupt, truth);
      WovenAppend(OthersOf(vs[..n]), vs[n].seen.others, corrupt, truth);
    }
  }

  lemma NothingWoven(corrupt: PeerId -> bool, truth: string -> bool)
    ensures Woven([], corrupt, truth)
  {
  }

  lemma {:induction false} ClaimsWoven(p: Party, audits: seq<Audit>, stamps: seq<Stamp>, corrupt: PeerId -> bool,
                                       truth: string -> bool)
    requires |stamps| == |audits| && forall k :: 0 <= k < |stamps| ==> Woven(stamps[k].others, corrupt, truth)
    requires forall k :: 0 <= k < |audits| ==>
      Wrote(p, ClaimOf(audits[k], p.peer, corrupt(p.peer), stamps[k]), corrupt, truth)
    ensures Woven(ClaimWrites(audits, p.peer, corrupt(p.peer), stamps), corrupt, truth)
  {
    hide Wrote, ClaimOf, Woven;
    if audits == [] {
      NothingWoven(corrupt, truth);
    } else {
      var k := |audits| - 1;
      var early, own := ClaimWrites(audits[..k], p.peer, corrupt(p.peer), stamps[..k]),
                        ClaimOf(audits[k], p.peer, corrupt(p.peer), stamps[k]);
      ClaimsWoven(p, audits[..k], stamps[..k], corrupt, truth);
      WovenAppend(early, stamps[k].others, corrupt, truth);
      OneWoven(p, own, corrupt, truth);
      WovenAppend(early + stamps[k].others, [own], corrupt, truth);
    }
  }

  lemma OneWoven(p: Party, w: Write, corrupt: PeerId -> bool, truth: string -> bool)
    requires Wrote(p, w, corrupt, truth)
    ensures Woven([w], corrupt, truth)
  {
    hide Wrote;
  }

  /** All that other verifiers write during the turn is theirs to claim. */
  ghost predicate FairOthers(turn: Turn, corrupt: PeerId -> bool, truth: string -> bool) {
    && (forall k :: 0 <= k < |turn.visits| ==> Woven(turn.visits[k].seen.others, corrupt, truth))
    && (forall k :: 0 <= k < |turn.stamps| ==> Woven(turn.stamps[k].others, corrupt, truth))
  }

  /** The verifier's own claims of a turn are those of its run so far. */
  lemma OwnClaims(n: nat, run: seq<Turn>, r: nat, peer: PeerId, corrupt: PeerId -> bool, truth: string -> bool, w: Write)
    requires Supported(n) && AllProper(run) && Steady(n, run, truth) && r < |run|
    requires w in TurnClaims(At(n, r), run[r], peer, corrupt(peer))
    ensures Wrote(Party(n, run[..r + 1], peer), w, corrupt, truth)
  {
    hide TurnClaims, At, Truthful;
    assert run[..r + 1][..r] == run[..r];
    assert forall k :: 0 <= k < r + 1 ==> run[..r + 1][k] == run[k];
  }

  lemma TurnWoven(n: nat, run: seq<Turn>, r: nat, peer: PeerId, corrupt: PeerId -> bool, truth: string -> bool)
    requires Supported(n) && AllProper(run) && Steady(n, run, truth) && r < |run|
    requires FairOthers(run[r], corrupt, truth)
    ensures Woven(TurnWrites(At(n, r), run[r], peer, corrupt(peer)), corrupt, truth)
  {
    hide At, Audits, Wrote, ClaimOf, Woven, Steady;
    var audits := Audits(At(n, r), run[r].visits);
    var stamps := run[r].stamps[..|audits|];
    forall k | 0 <= k < |audits|
      ensures Wrote(Party(n, run[..r + 1], peer), ClaimOf(audits[k], peer, corrupt(peer), stamps[k]), corrupt, truth)
    {
      var w := TurnClaims(At(n, r), run[r], peer, corrupt(peer))[k];
      OwnClaims(n, run, r, peer, corrupt, truth, w);
    }
    ClaimsWoven(Party(n, run[..r + 1], peer), audits, stamps, corrupt, truth);
    OthersWoven(run[r].visits, corrupt, truth);
    WovenAppend(OthersOf(run[r].visits), ClaimWrites(audits, peer, corrupt(peer), stamps), corrupt, truth);
  }

  lemma {:induction false} RunWoven(n: nat, run: seq<Turn>, r: nat, peer: PeerId, corrupt: PeerId -> bool, truth: string -> bool)
    requires Supported(n) && AllProper(run) && Steady(n, run, truth) && r <= |run|
    requires forall k :: 0 <= k < r ==> FairOthers(run[k], corrupt, truth)
    ensures Woven(RunWrites(n, run[..r], peer, corrupt(peer)), corrupt, truth)
    decreases r
  {
    hide At, TurnWrites, Woven, Steady, FairOthers;
    if r == 0 {
      NothingWoven(corrupt, truth);
    } else {
      assert run[..r][..r - 1] == run[..r - 1];
      RunWoven(n, run, r - 1, peer, corrupt, truth);
      TurnWoven(n, run, r - 1, peer, corrupt, truth);
      WovenAppend(RunWrites(n, run[..r - 1], peer, corrupt(peer)),
                  TurnWrites(At(n, r - 1), run[r - 1], peer, corrupt(peer)), corrupt, truth);
    }
  }

  /** All writes up to the moment turn r examines its contract k, after the writes h before the run. */
  ghost function HistoryAt(h: seq<Write>, n: nat, run: seq<Turn>, r: nat, k: nat, peer: PeerId, corrupt: bool): seq<Write>
    requires Supported(n) && AllProper(run) && r < |run| && k < |run[r].visits|
  {
    h + RunWrites(n, run[..r], peer, corrupt) + OthersOf(run[r].visits[..k + 1])
  }

  lemma {:induction false} OthersPrefix(vs: seq<Visit>, k: nat)
    requires k <= |vs|
    ensures OthersOf(vs[..k]) <= OthersOf(vs)
    decreases |vs|
  {
    if k == |vs| {
      assert vs[..k] == vs;
    } else {
      var n := |vs| - 1;
      OthersPrefix(vs[..n], k);
      assert vs[..n][..k] == vs[..k];
    }
  }

  lemma TimesOfPrefix(h: seq<Write>, whole: seq<Write>, contract: string)
    requires h <= whole && TimesIncrease(whole, contract)
    ensures TimesIncrease(h, contract)
  {
    forall i, j | 0 <= i < j < |h| && For(h[i], contract) && For(h[j], contract) ensures h[i].claim.time < h[j].claim.time {
      assert h[i] == whole[i] && h[j] == whole[j];
    }
  }

  lemma HistoryIsPrefix(h: seq<Write>, n: nat, run: seq<Turn>, r: nat, k: nat, peer: PeerId, corrupt: bool)
    requires Supported(n) && AllProper(run) && r < |run| && k < |run[r].visits|
    ensures HistoryAt(h, n, run, r, k, peer, corrupt) <= h + RunWrites(n, run[..r + 1], peer, corrupt)
  {
    hide At, Audits;
    assert run[..r + 1][..r] == run[..r];
    OthersPrefix(run[r].visits, k + 1);
  }

  lemma HistoryTable(h: seq<Write>, n: nat, run: seq<Turn>, r: nat, k: nat, peer: PeerId, corrupt: bool)
    requires Supported(n) && AllProper(run) && r < |run| && k < |run[r].visits|
    ensures TableAfter(HistoryAt(h, n, run, r, k, peer, corrupt))
         == Recorded(Recorded(TableAfter(h), RunWrites(n, run[..r], peer, corrupt)), OthersOf(run[r].visits[..k + 1]))
  {
    hide RunWrites, OthersOf, Recorded;
    var ws := RunWrites(n, run[..r], peer, corrupt);
    RecordedInTurn(map[], h, ws);
    RecordedInTurn(map[], h + ws, OthersOf(run[r].visits[..k + 1]));
  }

  /** The writes before and during the run: claims of verifiers, with times that increase on every
      contract, and listings that show the shared table. */
  ghost predicate SharedLedger(h: seq<Write>, n: nat, run: seq<Turn>, peer: PeerId, corrupt: PeerId -> bool,
                               truth: string -> bool)
    requires Supported(n) && AllProper(run)
  {
    && Woven(h, corrupt, truth) && (forall k :: 0 <= k < |run| ==> FairOthers(run[k], corrupt, truth))
    && (forall contract :: TimesIncrease(h + RunWrites(n, run, peer, corrupt(peer)), contract))
    && RunListing(n, run, peer, corrupt(peer), TableAfter(h))
  }

  lemma {:induction false} RunPrefix(n: nat, run: seq<Turn>, r: nat, peer: PeerId, corrupt: bool)
    requires Supported(n) && AllProper(run) && r <= |run|
    ensures RunWrites(n, run[..r], peer, corrupt) <= RunWrites(n, run, peer, corrupt)
    decreases |run|
  {
    hide At, TurnWrites;
    if r == |run| {
      assert run[..r] == run;
    } else {
      var k := |run| - 1;
      RunPrefix(n, run[..k], r, peer, corrupt);
      assert run[..k][..r] == run[..r];
    }
  }

  lemma VisitSawTable(h: seq<Write>, n: nat, run: seq<Turn>, r: nat, k: nat, peer: PeerId,
                      corrupt: PeerId -> bool, truth: string -> bool)
    requires Supported(n) && AllProper(run) && Steady(n, run, truth) && SharedLedger(h, n, run, peer, corrupt, truth)
    requires r < |run| && k < |run[r].visits|
    requires InWindow(At(n, r), run[r].visits[k]) && run[r].visits[k].seen.scan.Some?
    ensures SawTable(run[r].visits[k], HistoryAt(h, n, run, r, k, peer, corrupt(peer)))
    ensures Woven(HistoryAt(h, n, run, r, k, peer, corrupt(peer)), corrupt, truth)
  {
    hide At, InWindow, IsScan, TimesIncrease, Woven, RunWrites, OthersOf, Recorded, TableAfter, HistoryAt, Steady;
    var v, self := run[r].visits[k], corrupt(peer);
    var now, whole := HistoryAt(h, n, run, r, k, peer, self), h + RunWrites(n, run, peer, self);
    HistoryTable(h, n, run, r, k, peer, self);
    RunListingAt(n, run, peer, self, TableAfter(h), r);
    HistoryIsPrefix(h, n, run, r, k, peer, self);
    RunPrefix(n, run, r + 1, peer, self);
    TimesOfPrefix(now, whole, v.contract.contractUuid);
    HistoryWoven(h, n, run, r, k, peer, corrupt, truth);
  }

  lemma HistoryWoven(h: seq<Write>, n: nat, run: seq<Turn>, r: nat, k: nat, peer: PeerId,
                     corrupt: PeerId -> bool, truth: string -> bool)
    requires Supported(n) && AllProper(run) && Steady(n, run, truth) && Woven(h, corrupt, truth)
    requires r < |run| && k < |run[r].visits| && forall i :: 0 <= i <= r ==> FairOthers(run[i], corrupt, truth)
    ensures Woven(HistoryAt(h, n, run, r, k, peer, corrupt(peer)), corrupt, truth)
  {
    hide At, Woven, RunWrites, OthersOf, Steady;
    var ws, last := RunWrites(n, run[..r], peer, corrupt(peer)), run[r].visits[..k + 1];
    RunWoven(n, run, r, peer, corrupt, truth);
    WovenAppend(h, ws, corrupt, truth);
    OthersWoven(last, corrupt, truth);
    WovenAppend(h + ws, OthersOf(last), corrupt, truth);
  }

  /** Over a whole run beside any number of other verifiers: every completed turn flags exactly the
      audited contracts whose most recent claim, at that moment, came from a corrupt verifier. */
  lemma RunFlagsExactly(h: seq<Write>, n: nat, run: seq<Turn>, r: nat, peer: PeerId,
                        corrupt: PeerId -> bool, truth: string -> bool) returns (at: seq<nat>)
    requires Supported(n) && AllProper(run) && AllComplete(n, run) && Steady(n, run, truth) && r < |run|
    requires SharedLedger(h, n, run, peer, corrupt, truth)
    ensures |at| == |Mismatches(At(n, r), run[r].visits)|
    ensures forall i, j :: 0 <= i < j < |at| ==> at[i] < at[j]
    ensures forall k :: 0 <= k < |at| ==> at[k] < |run[r].visits| && InWindow(At(n, r), run[r].visits[at[k]])
    ensures forall i :: 0 <= i < |run[r].visits| && InWindow(At(n, r), run[r].visits[i]) ==> i in at
    ensures forall k :: 0 <= k < |at| ==>
      var last := LastWritten(HistoryAt(h, n, run, r, at[k], peer, corrupt(peer)),
                              run[r].visits[at[k]].contract.contractUuid);
      Mismatches(At(n, r), run[r].visits)[k] <==> last.Some? && corrupt(last.value.verifier)
  {
    var w, turn, self := At(n, r), run[r], corrupt(peer);
    var hs := seq(|turn.visits|, k requires 0 <= k < |turn.visits| => HistoryAt(h, n, run, r, k, peer, self));
    hide At, InWindow, SawTable, Woven, HistoryAt, LastWritten, SharedLedger, Mismatches, Truthful;
    forall k: nat | k < |hs| && InWindow(w, turn.visits[k])
      ensures SawTable(turn.visits[k], hs[k]) && Woven(hs[k], corrupt, truth)
    {
      EndsWhen(w, turn.visits[k]);
      assert !Ends(w, turn.visits[k]) by { assert Completes(w, turn); }
      VisitSawTable(h, n, run, r, k, peer, corrupt, truth);
    }
    at := RoundFlagsExactly(w, turn, hs, corrupt, truth);
  }
}

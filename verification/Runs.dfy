/** What rounds and whole runs of the verifier amount to: who is audited, and what it costs. */
module Runs {
  import opened Words
  import opened Contracts
  import opened Ledger
  import opened History
  import opened Rotation
  import opened Verifier

  // ----- properties of rounds -----

  /** The credits of a round are its audits. */
  lemma {:induction false} CreditsMatchAudits(w: Window, vs: seq<Visit>)
    ensures |Credits(w, vs)| == |Audits(w, vs)|
    ensures forall k :: 0 <= k < |Audits(w, vs)| ==>
      Credits(w, vs)[k].peer == Audits(w, vs)[k].peer && Credits(w, vs)[k].passed == Audits(w, vs)[k].passed
  {
    hide Passed, Judged;
    if vs != [] {
      CreditsMatchAudits(w, vs[..|vs| - 1]);
    }
  }

  /** The audits are exactly those of the in-window contracts that did not end in a panic, in their
      order: `at` lists the positions.  A completed round has no panics and compares every audited
      contract with its latest claim. */
  lemma {:induction false} AuditsAreInWindow(w: Window, vs: seq<Visit>) returns (at: seq<nat>)
    ensures |at| == |Audits(w, vs)|
    ensures forall i, j :: 0 <= i < j < |at| ==> at[i] < at[j]
    ensures forall k :: 0 <= k < |at| ==> at[k] < |vs| && Judged(w, vs[at[k]]) && Audits(w, vs)[k] == AuditOf(vs[at[k]])
    ensures forall i :: 0 <= i < |vs| && Judged(w, vs[i]) ==> i in at
  {
    hide AuditOf, Judged;
    if vs == [] {
      at := [];
    } else {
      var n := |vs| - 1;
      at := AuditsAreInWindow(w, vs[..n]);
      forall i | 0 <= i < n && Judged(w, vs[i]) ensures i in at {
        assert vs[..n][i] == vs[i];
      }
      if Judged(w, vs[n]) {
        at := at + [n];
      }
    }
  }

  lemma {:induction false} MismatchesAreFlags(w: Window, vs: seq<Visit>) returns (at: seq<nat>)
    requires forall k :: 0 <= k < |vs| ==> !Ends(w, vs[k])
    ensures |at| == |Mismatches(w, vs)|
    ensures forall i, j :: 0 <= i < j < |at| ==> at[i] < at[j]
    ensures forall k :: 0 <= k < |at| ==> at[k] < |vs| && InWindow(w, vs[at[k]]) && vs[at[k]].seen.scan.Some?
    ensures forall k :: 0 <= k < |at| ==> Mismatches(w, vs)[k] == Flags(vs[at[k]].seen.scan.value, Passed(vs[at[k]]))
    ensures forall i :: 0 <= i < |vs| && InWindow(w, vs[i]) ==> i in at
  {
    hide Flags, Passed, InWindow, Panics;
    if vs == [] {
      at := [];
    } else {
      var n := |vs| - 1;
      at := MismatchesAreFlags(w, vs[..n]);
      forall i | 0 <= i < n && InWindow(w, vs[i]) ensures i in at {
        assert vs[..n][i] == vs[i];
      }
      if InWindow(w, vs[n]) {
        at := at + [n];
      }
    }
  }

  // ----- contracts over runs -----

  /** The turn lists the contract, under this file identifier, at position i. */
  ghost predicate Lists(turn: Turn, c: Contract, id: U128, i: nat) {
    i < |turn.visits| && turn.visits[i].contract == c && IdOf(turn.visits[i].seen) == id
  }

  ghost predicate Listed(turn: Turn, c: Contract, id: U128) {
    exists i: nat :: Lists(turn, c, id, i)
  }

  /** A contract that stays listed is audited in one of any n + 1 consecutive completed turns. */
  lemma EveryContractIsAudited(n: nat, run: seq<Turn>, t: nat, c: Contract, id: U128) returns (r: nat, i: nat)
    requires Supported(n) && AllComplete(n, run) && t + n < |run|
    requires forall r :: t <= r <= t + n ==> Listed(run[r], c, id)
    ensures t <= r <= t + n && Lists(run[r], c, id, i) && Judged(At(n, r), run[r].visits[i])
    ensures AuditOf(run[r].visits[i]) in Audits(At(n, r), run[r].visits)
  {
    hide At, Audits, AuditOf, Panics;
    r := EveryIdentifierIsCovered(n, t, id);
    assert Listed(run[r], c, id);
    i :| Lists(run[r], c, id, i);
    assert !Ends(At(n, r), run[r].visits[i]) by { assert Completes(At(n, r), run[r]); }
    var at := AuditsAreInWindow(At(n, r), run[r].visits);
    var k :| 0 <= k < |at| && at[k] == i;
  }

  lemma {:induction false} TallyAppend(a: seq<Credit>, b: seq<Credit>, peer: PeerId, passed: bool)
    ensures Tally(a + b, peer, passed) == Tally(a, peer, passed) + Tally(b, peer, passed)
  {
    if b == [] {
      assert a + b == a;
    } else {
      TallyAppend(a, b[..|b| - 1], peer, passed);
      assert (a + b)[..|a + b| - 1] == a + b[..|b| - 1];
    }
  }

  /** Outcomes counted in a run only add up. */
  lemma {:induction false} TallyGrows(n: nat, run: seq<Turn>, t: nat, r: nat, peer: PeerId, passed: bool)
    requires Supported(n) && t <= r <= |run|
    ensures Tally(RunCredits(n, run[..t]), peer, passed) <= Tally(RunCredits(n, run[..r]), peer, passed)
    decreases r
  {
    hide Credits, At;
    if t < r {
      TallyGrows(n, run, t, r - 1, peer, passed);
      TallyNext(n, run, r - 1, peer, passed);
    }
  }

  lemma TallyNext(n: nat, run: seq<Turn>, r: nat, peer: PeerId, passed: bool)
    requires Supported(n) && r < |run|
    ensures Tally(RunCredits(n, run[..r + 1]), peer, passed)
         == Tally(RunCredits(n, run[..r]), peer, passed) + Tally(Credits(At(n, r), run[r].visits), peer, passed)
  {
    hide Credits, At;
    assert run[..r + 1][..r] == run[..r];
    TallyAppend(RunCredits(n, run[..r]), Credits(At(n, r), run[r].visits), peer, passed);
  }

  /** An audit whose credit is recorded counts. */
  lemma {:induction false} CreditCounts(w: Window, vs: seq<Visit>, i: nat)
    requires i < |vs| && Judged(w, vs[i]) && vs[i].seen.written
    ensures Tally(Credits(w, vs), vs[i].contract.peer, Passed(vs[i])) >= 1
  {
    hide Passed, Judged;
    var n := |vs| - 1;
    if i < n {
      CreditCounts(w, vs[..n], i);
    }
    if Judged(w, vs[n]) {
      TallyAppend(Credits(w, vs[..n]), [CreditOf(vs[n])], vs[i].contract.peer, Passed(vs[i]));
    }
  }

  /** Wherever the turn lists the contract, its audit, if made, fails and the write is kept. */
  ghost predicate Failing(turn: Turn, c: Contract, id: U128) {
    && Listed(turn, c, id)
    && forall i: nat :: Lists(turn, c, id, i) ==> !Passed(turn.visits[i]) && turn.visits[i].seen.written
  }

  /** A contract that fails whenever it is audited costs its keeper at least one recorded failure
      in any n + 1 consecutive turns that the verifier completes. */
  lemma FailureIsRecorded(n: nat, run: seq<Turn>, t: nat, c: Contract, id: U128)
    requires Supported(n) && AllComplete(n, run) && t + n < |run|
    requires forall r :: t <= r <= t + n ==> Failing(run[r], c, id)
    ensures Tally(RunCredits(n, run[..t + n + 1]), c.peer, false) > Tally(RunCredits(n, run[..t]), c.peer, false)
  {
    hide Listed, Judged, At, Audits, AuditOf, Tally, RunCredits, Credits, AllComplete, Passed;
    var r, i := EveryContractIsAudited(n, run, t, c, id);
    assert Failing(run[r], c, id);
    CreditCounts(At(n, r), run[r].visits, i);
    TallyGrows(n, run, t, r, c.peer, false);
    TallyNext(n, run, r, c.peer, false);
    TallyGrows(n, run, r + 1, t + n + 1, c.peer, false);
  }

  /** From turn t on such failures accumulate: one in every n + 1 turns. */
  lemma {:induction false} FailuresAccumulate(n: nat, run: seq<Turn>, t: nat, c: Contract, id: U128, m: nat, r: nat)
    requires Supported(n) && AllComplete(n, run) && t <= r <= |run| && r == t + m * (n + 1)
    requires forall k :: t <= k < |run| ==> Failing(run[k], c, id)
    ensures Tally(RunCredits(n, run[..r]), c.peer, false) >= m + Tally(RunCredits(n, run[..t]), c.peer, false)
    decreases m
  {
    hide At, Tally, RunCredits, AllComplete, Failing;
    if m > 0 {
      var s := t + (m - 1) * (n + 1);
      assert r == s + n + 1;
      MultipleOrder(0, m - 1, n + 1);
      FailuresAccumulate(n, run, t, c, id, m - 1, s);
      FailureIsRecorded(n, run, s, c, id);
    } else {
      assert r == t;
    }
  }

  /** No contract of the peer passes in this turn. */
  ghost predicate NeverPasses(turn: Turn, peer: PeerId) {
    forall k :: 0 <= k < |turn.visits| && turn.visits[k].contract.peer == peer ==> !Passed(turn.visits[k])
  }

  lemma {:induction false} NothingPassed(w: Window, vs: seq<Visit>, peer: PeerId)
    requires forall k :: 0 <= k < |vs| && vs[k].contract.peer == peer ==> !Passed(vs[k])
    ensures Tally(Credits(w, vs), peer, true) == 0
  {
    hide Passed, Judged;
    if vs != [] {
      var n := |vs| - 1;
      NothingPassed(w, vs[..n], peer);
      TallyAppend(Credits(w, vs[..n]), [CreditOf(vs[n])], peer, true);
    }
  }

  lemma {:induction false} NoPassesSince(n: nat, run: seq<Turn>, t: nat, r: nat, peer: PeerId)
    requires Supported(n) && t <= r <= |run| && forall k :: t <= k < r ==> NeverPasses(run[k], peer)
    ensures Tally(RunCredits(n, run[..r]), peer, true) == Tally(RunCredits(n, run[..t]), peer, true)
    decreases r
  {
    hide At, Tally, RunCredits, Credits, Passed;
    if t < r {
      NoPassesSince(n, run, t, r - 1, peer);
      TallyNext(n, run, r - 1, peer, true);
      NothingPassed(At(n, r - 1), run[r - 1].visits, peer);
    }
  }

  /** The failed audits of the peer that turns t and later put on record. */
  ghost function FailuresSince(n: nat, run: seq<Turn>, t: nat, peer: PeerId): int
    requires Supported(n) && t <= |run|
  {
    Tally(RunCredits(n, run), peer, false) - Tally(RunCredits(n, run[..t]), peer, false)
  }

  /** The reputation the ledger shows for the peer after a run. */
  ghost function ReputationAfter(n: nat, run: seq<Turn>, peer: PeerId, table: ReputationTable): I64
    requires Supported(n)
  {
    StandingOf(Settled(table, RunCredits(n, run)), peer).reputation
  }

  /** What failing from turn t on costs: at least every (n + 1)st turn puts a failure on record; the
      ledger shows the start plus passed minus five times failed audits; and if the peer passes
      nothing in that time, it has lost five points for each failure, unless that leaves 64 bits. */
  ghost predicate Costs(n: nat, run: seq<Turn>, t: nat, peer: PeerId, table: ReputationTable)
    requires Supported(n) && t <= |run|
  {
    var was, credits, failures := StandingOf(table, peer), RunCredits(n, run), FailuresSince(n, run, t, peer);
    var before, after := ReputationAfter(n, run[..t], peer, table), ReputationAfter(n, run, peer, table);
    && failures >= (|run| - t) / (n + 1)
    && StandingOf(Settled(table, credits), peer)
       == Standing(WrapI64(was.reputation + Tally(credits, peer, true) - 5 * Tally(credits, peer, false)), was.staked)
    && ((forall k :: t <= k < |run| ==> NeverPasses(run[k], peer)) && before - 5 * failures >= -0x8000_0000_0000_0000
        ==> after == before - 5 * failures <= before - 5 * ((|run| - t) / (n + 1)))
  }

  lemma FailuresSinceGrow(n: nat, run: seq<Turn>, t: nat, c: Contract, id: U128)
    requires Supported(n) && AllComplete(n, run) && t <= |run|
    requires forall r :: t <= r < |run| ==> Failing(run[r], c, id)
    ensures FailuresSince(n, run, t, c.peer) >= (|run| - t) / (n + 1)
  {
    hide At, Tally, RunCredits, AllComplete, Failing;
    var m := (|run| - t) / (n + 1);
    MultipleOrder(0, m, n + 1);
    var r := t + m * (n + 1);
    FailuresAccumulate(n, run, t, c, id, m, r);
    TallyGrows(n, run, r, |run|, c.peer, false);
    assert run[..|run|] == run;
  }

  lemma ReputationFalls(n: nat, run: seq<Turn>, t: nat, peer: PeerId, table: ReputationTable)
    requires Supported(n) && t <= |run| && forall k :: t <= k < |run| ==> NeverPasses(run[k], peer)
    requires FailuresSince(n, run, t, peer) >= 0
    requires ReputationAfter(n, run[..t], peer, table) - 5 * FailuresSince(n, run, t, peer) >= -0x8000_0000_0000_0000
    ensures ReputationAfter(n, run, peer, table)
         == ReputationAfter(n, run[..t], peer, table) - 5 * FailuresSince(n, run, t, peer)
  {
    hide At, Tally, RunCredits, NeverPasses, Settled, StandingOf, WrapI64;
    NoPassesSince(n, run, t, |run|, peer);
    assert run[..|run|] == run;
    var early, late := RunCredits(n, run[..t]), RunCredits(n, run);
    ReputationAccounting(table, early, peer);
    ReputationAccounting(table, late, peer);
    var x := StandingOf(table, peer).reputation + Tally(early, peer, true) - 5 * Tally(early, peer, false);
    WrapAdd(x, -5 * FailuresSince(n, run, t, peer));
    WrapIdentity(ReputationAfter(n, run[..t], peer, table) - 5 * FailuresSince(n, run, t, peer));
  }

  lemma FailuresCost(n: nat, run: seq<Turn>, t: nat, c: Contract, id: U128, table: ReputationTable)
    requires Supported(n) && AllComplete(n, run) && t <= |run|
    requires forall r :: t <= r < |run| ==> Failing(run[r], c, id)
    ensures Costs(n, run, t, c.peer, table)
  {
    hide At, Tally, RunCredits, AllComplete, Failing, NeverPasses, Settled, StandingOf, WrapI64, FailuresSince, ReputationAfter;
    FailuresSinceGrow(n, run, t, c, id);
    ReputationAccounting(table, RunCredits(n, run), c.peer);
    var before, failures := ReputationAfter(n, run[..t], c.peer, table), FailuresSince(n, run, t, c.peer);
    assert 5 * failures >= 5 * ((|run| - t) / (n + 1));
    if (forall k :: t <= k < |run| ==> NeverPasses(run[k], c.peer)) && before - 5 * failures >= -0x8000_0000_0000_0000 {
      ReputationFalls(n, run, t, c.peer, table);
    }
  }
}

/** The verifier's audit rounds. */
module Verifier {
  import opened Words
  import opened Por
  import opened Contracts
  import opened Ledger
  import opened History
  import opened Rotation

  /** The outcome of `request_verification`. */
  datatype Reply = Answered(response: seq<U64>) | Failed

  /** What the environment contributes while one contract is audited: the parsed file identifier
      (if it parses), the drawn challenge, the peer's reply, whether the reputation can be read and
      its write is kept, the claims other verifiers write in the meantime, the ledger's listing of
      the claims on the contract (if it can be read), and the clock. */
  datatype Observation = Observation(fileId: Option<U128>, challenge: seq<U64>, reply: Reply, readable: bool,
                                     written: bool, others: seq<Write>, scan: Option<seq<Claim>>, now: int)

  datatype Visit = Visit(contract: Contract, seen: Observation)

  datatype Audit = Audit(contract: string, peer: PeerId, passed: bool)

  /** `Uuid::from_str(..).unwrap_or_default()` */
  function IdOf(o: Observation): U128 {
    if o.fileId.Some? then o.fileId.value else 0
  }

  predicate InWindow(w: Window, v: Visit) {
    Covers(w, IdOf(v.seen))
  }

  /** No vector is indexed out of bounds. */
  predicate Sound(v: Visit) {
    v.seen.reply.Answered? ==> Indexable(FromContract(v.contract), v.seen.challenge, v.seen.reply.response)
  }

  /** An audit passes when the peer answered and the answer is accepted. */
  predicate Passed(v: Visit) {
    && Sound(v) && v.seen.reply.Answered?
    && Accepts(FromContract(v.contract), v.seen.challenge, v.seen.reply.response)
  }

  /** Two panics end the verifier before the reputation moves: an index out of bounds in the audit,
      and an unreadable reputation when a peer is to be punished. */
  predicate Panics(v: Visit) {
    !Sound(v) || (!Passed(v) && !v.seen.readable)
  }

  /** Two errors end it after the reputation has moved: unreadable claims, and a clock that is
      behind the latest claim. */
  predicate Halts(o: Observation) {
    o.scan.None? || (Latest(o.scan.value).Some? && o.now < Latest(o.scan.value).value.time)
  }

  /** The contract is audited and its keeper's reputation moves. */
  predicate Judged(w: Window, v: Visit) {
    InWindow(w, v) && !Panics(v)
  }

  /** The verifier ends at this contract. */
  predicate Ends(w: Window, v: Visit) {
    InWindow(w, v) && (Panics(v) || Halts(v.seen))
  }

  function AuditOf(v: Visit): Audit {
    Audit(v.contract.contractUuid, v.contract.peer, Passed(v))
  }

  function CreditOf(v: Visit): Credit {
    Credit(v.contract.peer, Passed(v), v.seen.written)
  }

  /** The reputations after one audited contract: a panic leaves them alone. */
  function AfterVisit(table: ReputationTable, v: Visit): ReputationTable {
    if Panics(v) then table else AfterCredit(table, CreditOf(v))
  }

  /** What one contract of the round adds: an audit, if it is in the window and nothing panics. */
  function NewAudits(w: Window, v: Visit): seq<Audit> {
    if Judged(w, v) then [AuditOf(v)] else []
  }

  /** A comparison with the latest claim, if the contract is audited and does not end the round. */
  function NewMismatches(w: Window, v: Visit): seq<bool> {
    if InWindow(w, v) && !Ends(w, v) then [Flags(v.seen.scan.value, Passed(v))] else []
  }

  function AfterContract(w: Window, table: ReputationTable, v: Visit): ReputationTable {
    if InWindow(w, v) then AfterVisit(table, v) else table
  }

  /** The audits of a round, in contract order. */
  function Audits(w: Window, vs: seq<Visit>): (r: seq<Audit>)
    ensures |r| <= |vs|
  {
    if vs == [] then []
    else
      var init, v := Audits(w, vs[..|vs| - 1]), vs[|vs| - 1];
      if Judged(w, v) then init + [AuditOf(v)] else init
  }

  function Credits(w: Window, vs: seq<Visit>): (r: seq<Credit>)
    ensures |r| <= |vs|
  {
    if vs == [] then []
    else
      var init, v := Credits(w, vs[..|vs| - 1]), vs[|vs| - 1];
      if Judged(w, v) then init + [CreditOf(v)] else init
  }

  /** The comparisons with the latest claim, one per audited contract that does not end the round. */
  function Mismatches(w: Window, vs: seq<Visit>): (r: seq<bool>)
    ensures |r| <= |vs|
  {
    if vs == [] then []
    else
      var init, v := Mismatches(w, vs[..|vs| - 1]), vs[|vs| - 1];
      if InWindow(w, v) && !Ends(w, v) then init + [Flags(v.seen.scan.value, Passed(v))] else init
  }

  /** What the other verifiers write while these contracts are audited. */
  function OthersOf(vs: seq<Visit>): seq<Write> {
    if vs == [] then [] else OthersOf(vs[..|vs| - 1]) + vs[|vs| - 1].seen.others
  }

  /** Every listing shows the claims on its contract as the table then holds them. */
  ghost predicate Listing(w: Window, claims: ClaimTable, vs: seq<Visit>) {
    forall k :: 0 <= k < |vs| && InWindow(w, vs[k]) && vs[k].seen.scan.Some? ==>
      IsScan(vs[k].seen.scan.value, Recorded(claims, OthersOf(vs[..k + 1])), vs[k].contract.contractUuid)
  }

  lemma ListingAt(w: Window, claims: ClaimTable, vs: seq<Visit>, k: nat)
    requires Listing(w, claims, vs) && k < |vs|
    ensures Recorded(claims, OthersOf(vs[..k + 1])) == Recorded(Recorded(claims, OthersOf(vs[..k])), vs[k].seen.others)
    ensures InWindow(w, vs[k]) && vs[k].seen.scan.Some? ==>
      IsScan(vs[k].seen.scan.value, Recorded(claims, OthersOf(vs[..k + 1])), vs[k].contract.contractUuid)
  {
    hide IsScan, InWindow, Recorded;
    assert vs[..k + 1][..k] == vs[..k];
    RecordedInTurn(claims, OthersOf(vs[..k]), vs[k].seen.others);
  }

  /** What the audit loop has done after `done` contracts: the audits, the mismatches and the
      reputations are those of the handled contracts, and the loop stopped at the first contract
      that ends the verifier. */
  ghost predicate Reached(w: Window, vs: seq<Visit>, done: nat, stopped: bool, audits: seq<Audit>,
                          mismatches: seq<bool>, before: ReputationTable, after: ReputationTable)
  {
    && done <= |vs|
    && (stopped ==> done > 0 && Ends(w, vs[done - 1]))
    && (forall k :: 0 <= k < (if stopped then done - 1 else done) ==> !Ends(w, vs[k]))
    && audits == Audits(w, vs[..done])
    && mismatches == Mismatches(w, vs[..done])
    && after == Settled(before, Credits(w, vs[..done]))
  }

  lemma RoundStart(w: Window, vs: seq<Visit>, table: ReputationTable)
    ensures Reached(w, vs, 0, false, [], [], table, table)
  {
  }

  /** One more contract. */
  lemma RoundStep(w: Window, vs: seq<Visit>, k: nat, audits: seq<Audit>, mismatches: seq<bool>,
                  before: ReputationTable, after: ReputationTable)
    requires k < |vs| && Reached(w, vs, k, false, audits, mismatches, before, after)
    ensures var v := vs[k];
      Reached(w, vs, k + 1, Ends(w, v), audits + NewAudits(w, v), mismatches + NewMismatches(w, v), before,
              AfterContract(w, after, v))
  {
    hide Passed, Flags, AfterCredit, InWindow, Halts, Sound, CreditOf, AuditOf, Panics;
    assert vs[..k + 1][..k] == vs[..k];
    var init := Credits(w, vs[..k]);
    assert (init + [CreditOf(vs[k])])[..|init|] == init;
  }

  /** What the environment contributes while one claim is written: what others write first, the
      time, and whether the write is kept. */
  datatype Stamp = Stamp(others: seq<Write>, time: I64, kept: bool)

  /** The claim a verifier writes for an audit: the outcome, negated when it is corrupt. */
  function ClaimOf(audit: Audit, verifier: PeerId, corrupt: bool, stamp: Stamp): Write {
    Write(Claim(audit.contract, verifier, stamp.time, audit.passed != corrupt), stamp.kept)
  }

  function Claims(audits: seq<Audit>, verifier: PeerId, corrupt: bool, stamps: seq<Stamp>): (r: seq<Write>)
    requires |stamps| == |audits|
    ensures |r| == |audits|
    ensures forall k :: 0 <= k < |r| ==> r[k] == ClaimOf(audits[k], verifier, corrupt, stamps[k])
  {
    seq(|audits|, k requires 0 <= k < |audits| => ClaimOf(audits[k], verifier, corrupt, stamps[k]))
  }

  /** The claims that reach the ledger meanwhile: before each of its own, those of other verifiers. */
  function ClaimWrites(audits: seq<Audit>, verifier: PeerId, corrupt: bool, stamps: seq<Stamp>): seq<Write>
    requires |stamps| == |audits|
  {
    if audits == [] then []
    else
      var k := |audits| - 1;
      ClaimWrites(audits[..k], verifier, corrupt, stamps[..k]) + stamps[k].others
      + [ClaimOf(audits[k], verifier, corrupt, stamps[k])]
  }

  // ----- runs -----

  /** One turn of the verifier's loop: whether the contracts could be read, the contracts and what
      happens while each of them is audited, and what happens while each claim is written. */
  datatype Turn = Turn(listed: bool, visits: seq<Visit>, stamps: seq<Stamp>)

  predicate Proper(turn: Turn) {
    |turn.stamps| >= |turn.visits|
  }

  predicate AllProper(run: seq<Turn>) {
    forall k :: 0 <= k < |run| ==> Proper(run[k])
  }

  /** The turn runs to its end. */
  ghost predicate Completes(w: Window, turn: Turn) {
    turn.listed && forall k :: 0 <= k < |turn.visits| ==> !Ends(w, turn.visits[k])
  }

  ghost predicate AllComplete(n: nat, run: seq<Turn>)
    requires Supported(n)
  {
    forall k :: 0 <= k < |run| ==> Completes(At(n, k), run[k])
  }

  /** The credits of the completed turns of a run, in order. */
  function RunCredits(n: nat, run: seq<Turn>): seq<Credit>
    requires Supported(n)
  {
    if run == [] then []
    else
      var k := |run| - 1;
      RunCredits(n, run[..k]) + Credits(At(n, k), run[k].visits)
  }

  function TurnClaims(w: Window, turn: Turn, peer: PeerId, corrupt: bool): seq<Write>
    requires Proper(turn)
  {
    var audits := Audits(w, turn.visits);
    Claims(audits, peer, corrupt, turn.stamps[..|audits|])
  }

  /** All claims that reach the ledger during a turn, in order. */
  function TurnWrites(w: Window, turn: Turn, peer: PeerId, corrupt: bool): seq<Write>
    requires Proper(turn)
  {
    var audits := Audits(w, turn.visits);
    OthersOf(turn.visits) + ClaimWrites(audits, peer, corrupt, turn.stamps[..|audits|])
  }

  function RunWrites(n: nat, run: seq<Turn>, peer: PeerId, corrupt: bool): seq<Write>
    requires Supported(n) && AllProper(run)
  {
    if run == [] then []
    else
      var k := |run| - 1;
      RunWrites(n, run[..k], peer, corrupt) + TurnWrites(At(n, k), run[k], peer, corrupt)
  }

  /** In every turn the listings show the table as the writes so far have left it. */
  ghost predicate RunListing(n: nat, run: seq<Turn>, peer: PeerId, corrupt: bool, claims: ClaimTable)
    requires Supported(n) && AllProper(run)
  {
    forall k :: 0 <= k < |run| ==>
      Listing(At(n, k), Recorded(claims, RunWrites(n, run[..k], peer, corrupt)), run[k].visits)
  }

  /** The claims of the verifier itself in the completed turns of a run, in order. */
  function RunClaims(n: nat, run: seq<Turn>, peer: PeerId, corrupt: bool): seq<Write>
    requires Supported(n) && AllProper(run)
  {
    if run == [] then []
    else
      var k := |run| - 1;
      RunClaims(n, run[..k], peer, corrupt) + TurnClaims(At(n, k), run[k], peer, corrupt)
  }

  /** The run ended in turn k: either its contracts could not be read, or `done` of them had been
      handled when one of them ended the verifier. */
  ghost predicate Interrupted(n: nat, run: seq<Turn>, k: nat, done: nat, before: ReputationTable, after: ReputationTable)
    requires Supported(n) && k < |run|
  {
    var w, vs, table := At(n, k), run[k].visits, Settled(before, RunCredits(n, run[..k]));
    && done <= |vs|
    && if run[k].listed then Reached(w, vs, done, true, Audits(w, vs[..done]), Mismatches(w, vs[..done]), table, after)
       else done == 0 && after == table
  }

  lemma RunStart(n: nat, run: seq<Turn>, peer: PeerId, corrupt: bool, table: ReputationTable, claims: ClaimTable)
    requires Supported(n) && AllProper(run)
    ensures Settled(table, RunCredits(n, run[..0])) == table && AllComplete(n, run[..0])
    ensures Recorded(claims, RunWrites(n, run[..0], peer, corrupt)) == claims
  {
  }

  lemma ProperPrefixes(run: seq<Turn>)
    requires AllProper(run)
    ensures forall k :: 0 <= k <= |run| ==> AllProper(run[..k])
    ensures forall k :: 0 <= k < |run| ==> Proper(run[k])
  {
  }

  /** One more turn. */
  lemma RunStep(n: nat, run: seq<Turn>, k: nat, peer: PeerId, corrupt: bool, table: ReputationTable, claims: ClaimTable)
    requires Supported(n) && AllProper(run) && k < |run|
    ensures Settled(Settled(table, RunCredits(n, run[..k])), Credits(At(n, k), run[k].visits))
         == Settled(table, RunCredits(n, run[..k + 1]))
    ensures Recorded(Recorded(claims, RunWrites(n, run[..k], peer, corrupt)), TurnWrites(At(n, k), run[k], peer, corrupt))
         == Recorded(claims, RunWrites(n, run[..k + 1], peer, corrupt))
    ensures AllComplete(n, run[..k]) && Completes(At(n, k), run[k]) ==> AllComplete(n, run[..k + 1])
  {
    hide Credits, TurnWrites, Settled, Recorded, At, Completes;
    assert run[..k + 1][..k] == run[..k];
    SettledInTurn(table, RunCredits(n, run[..k]), Credits(At(n, k), run[k].visits));
    RecordedInTurn(claims, RunWrites(n, run[..k], peer, corrupt), TurnWrites(At(n, k), run[k], peer, corrupt));
  }

  class Node {
    const ledger: Tables
    const rotor: Rotor
    const peer: PeerId
    const corrupt: bool

    constructor (ledger: Tables, rotor: Rotor, peer: PeerId, corrupt: bool)
      ensures this.ledger == ledger && this.rotor == rotor && this.peer == peer && this.corrupt == corrupt
    {
      this.ledger, this.rotor, this.peer, this.corrupt := ledger, rotor, peer, corrupt;
    }

    method RewardPeer(p: PeerId, written: bool)
      modifies ledger`reputation
      ensures ledger.reputation == AfterCredit(old(ledger.reputation), Credit(p, true, written))
    {
      ledger.IncreaseReputation(p, AUDIT_REWARD, written);
    }

    /** Reads the reputation for the log first, and panics if it cannot. */
    method PunishPeer(p: PeerId, readable: bool, written: bool) returns (alive: bool)
      modifies ledger`reputation
      ensures alive == readable
      ensures ledger.reputation
           == if readable then AfterCredit(old(ledger.reputation), Credit(p, false, written)) else old(ledger.reputation)
    {
      if !readable {
        return false;
      }
      ledger.DecreaseReputation(p, AUDIT_PENALTY, written);
      alive := true;
    }

    /** One contract of the round: audit, then move the reputation; `alive` is false after a panic. */
    method AuditContract(v: Visit) returns (passed: bool, alive: bool)
      modifies ledger`reputation
      ensures passed == Passed(v) && alive == !Panics(v)
      ensures ledger.reputation == AfterVisit(old(ledger.reputation), v)
    {
      passed := false;
      if !Sound(v) {
        return false, false;
      }
      match v.seen.reply {
        case Answered(response) =>
          passed := Por.Audit(FromContract(v.contract), v.seen.challenge, response);
          if passed {
            RewardPeer(v.contract.peer, v.seen.written);
            alive := true;
          } else {
            alive := PunishPeer(v.contract.peer, v.seen.readable, v.seen.written);
          }
        case Failed =>
          alive := PunishPeer(v.contract.peer, v.seen.readable, v.seen.written);
      }
    }

    /** Other verifiers write to the shared ledger. */
    method AdmitOthers(ws: seq<Write>)
      modifies ledger`verifications
      ensures ledger.verifications == Recorded(old(ledger.verifications), ws)
    {
      for k := 0 to |ws|
        invariant ledger.verifications == Recorded(old(ledger.verifications), ws[..k])
      {
        assert ws[..k + 1][..k] == ws[..k];
        ledger.CreateVerifiedClaim(ws[k].claim, ws[k].written);
      }
      assert ws[..|ws|] == ws;
    }

    /** The body of the audit loop: what others write, the audit, and the comparison with the latest
        claim; `ends` says that the verifier ends here. */
    method HandleContract(w: Window, v: Visit) returns (audits: seq<Audit>, mismatches: seq<bool>, ends: bool)
      requires InWindow(w, v) && v.seen.scan.Some? ==>
        IsScan(v.seen.scan.value, Recorded(ledger.verifications, v.seen.others), v.contract.contractUuid)
      modifies ledger
      ensures audits == NewAudits(w, v) && mismatches == NewMismatches(w, v) && ends == Ends(w, v)
      ensures ledger.reputation == AfterContract(w, old(ledger.reputation), v)
      ensures ledger.verifications == Recorded(old(ledger.verifications), v.seen.others)
    {
      hide Passed, Panics, Flags, Halts, AfterVisit, Recorded, IsScan, InWindow;
      EndsWhen(w, v);
      AdmitOthers(v.seen.others);
      audits, mismatches, ends := [], [], false;
      if InWindow(w, v) {
        var passed, alive := AuditContract(v);
        if !alive {
          return [], [], true;
        }
        audits := [Audit(v.contract.contractUuid, v.contract.peer, passed)];
        var previous := ledger.GetPreviousVerified(v.contract.contractUuid, v.seen.scan);
        if Halts(v.seen) {
          ends := true;
        } else {
          mismatches := [Flags(previous.value, passed)];
        }
      }
    }

    /** The audit loop of a round; it stops at the first contract that ends the verifier. */
    method AuditAll(vs: seq<Visit>) returns (audits: seq<Audit>, mismatches: seq<bool>, done: nat, stopped: bool)
      requires Listing(rotor.Current(), ledger.verifications, vs)
      modifies ledger
      ensures Reached(rotor.Current(), vs, done, stopped, audits, mismatches, old(ledger.reputation), ledger.reputation)
      ensures !stopped ==> done == |vs|
      ensures ledger.verifications == Recorded(old(ledger.verifications), OthersOf(vs[..done]))
    {
      var w := Window(rotor.iteration, rotor.starting, rotor.ending);
      assert w == rotor.Current();
      assert Recorded(ledger.verifications, OthersOf(vs[..0])) == ledger.verifications;
      hide *;
      audits, mismatches, done, stopped := [], [], 0, false;
      ghost var table, claims := ledger.reputation, ledger.verifications;
      RoundStart(w, vs, table);
      while done < |vs| && !stopped
        invariant done <= |vs|
        invariant Reached(w, vs, done, stopped, audits, mismatches, table, ledger.reputation)
        invariant ledger.verifications == Recorded(claims, OthersOf(vs[..done]))
        decreases |vs| - done, !stopped
      {
        RoundStep(w, vs, done, audits, mismatches, table, ledger.reputation);
        ListingAt(w, claims, vs, done);
        var newAudits, newMismatches, ends := HandleContract(w, vs[done]);
        audits, mismatches, done, stopped := audits + newAudits, mismatches + newMismatches, done + 1, ends;
      }
    }

    /** The claims written at the end of a round, between those of other verifiers. */
    method WriteClaims(audits: seq<Audit>, stamps: seq<Stamp>)
      requires |stamps| == |audits|
      modifies ledger`verifications
      ensures ledger.verifications
           == Recorded(old(ledger.verifications), ClaimWrites(audits, peer, corrupt, stamps))
    {
      ghost var claims := ledger.verifications;
      ClaimsStart(audits, peer, corrupt, stamps, claims);
      for k := 0 to |audits|
        invariant ledger.verifications == Recorded(claims, ClaimWrites(audits[..k], peer, corrupt, stamps[..k]))
      {
        hide ClaimWrites, Recorded;
        ClaimsStep(audits, peer, corrupt, stamps, claims, k);
        AdmitOthers(stamps[k].others);
        var outcome := if !corrupt then audits[k].passed else !audits[k].passed;
        ledger.CreateVerifiedClaim(Claim(audits[k].contract, peer, stamps[k].time, outcome), stamps[k].kept);
      }
      assert audits[..|audits|] == audits && stamps[..|audits|] == stamps;
    }

    /** A whole round: audits and reputation, then the next window, then the claims. */
    method Round(turn: Turn, ghost t: nat)
      returns (audits: seq<Audit>, mismatches: seq<bool>, done: nat, stopped: bool)
      requires Proper(turn) && Supported(rotor.n) && rotor.Current() == At(rotor.n, t)
      requires Listing(At(rotor.n, t), ledger.verifications, turn.visits)
      modifies ledger, rotor
      ensures stopped <==> !Completes(At(rotor.n, t), turn)
      ensures !stopped ==>
        && audits == Audits(At(rotor.n, t), turn.visits)
        && mismatches == Mismatches(At(rotor.n, t), turn.visits)
        && ledger.reputation == Settled(old(ledger.reputation), Credits(At(rotor.n, t), turn.visits))
        && rotor.Current() == At(rotor.n, t + 1)
        && ledger.verifications
           == Recorded(old(ledger.verifications), TurnWrites(At(rotor.n, t), turn, peer, corrupt))
      ensures stopped ==>
        && rotor.Current() == At(rotor.n, t) && done <= |turn.visits|
        && ledger.verifications == Recorded(old(ledger.verifications), OthersOf(turn.visits[..done]))
        && (if turn.listed then
              Reached(At(rotor.n, t), turn.visits, done, true, audits, mismatches,
                      old(ledger.reputation), ledger.reputation)
            else done == 0 && ledger.reputation == old(ledger.reputation))
    {
      if !turn.listed {
        return [], [], 0, true;
      }
      hide Ends, Audits, Mismatches, Credits, Settled, Recorded, At, Listing, OthersOf, ClaimWrites;
      var vs := turn.visits;
      audits, mismatches, done, stopped := AuditAll(vs);
      if stopped {
        return;
      }
      assert vs[..done] == vs;
      rotor.NextIteration(t);
      WriteClaims(audits, turn.stamps[..|audits|]);
      RecordedInTurn(old(ledger.verifications), OthersOf(vs),
                     ClaimWrites(audits, peer, corrupt, turn.stamps[..|audits|]));
    }

    /** `start`: round after round, until one ends the verifier after `done` contracts. */
    method Start(run: seq<Turn>) returns (completed: nat, done: nat, flags: seq<seq<bool>>)
      requires AllProper(run) && Supported(rotor.n) && rotor.Current() == At(rotor.n, 0)
      requires RunListing(rotor.n, run, peer, corrupt, ledger.verifications)
      modifies ledger, rotor
      ensures completed <= |run| && rotor.Current() == At(rotor.n, completed)
      ensures AllComplete(rotor.n, run[..completed])
      ensures completed < |run| ==> !Completes(At(rotor.n, completed), run[completed])
      ensures |flags| == completed
      ensures forall k :: 0 <= k < completed ==> flags[k] == Mismatches(At(rotor.n, k), run[k].visits)
      ensures completed < |run| ==> done <= |run[completed].visits|
      ensures ledger.verifications
           == Recorded(old(ledger.verifications), RunWrites(rotor.n, run[..completed], peer, corrupt)
                       + (if completed < |run| then OthersOf(run[completed].visits[..done]) else []))
      ensures completed == |run| ==> ledger.reputation == Settled(old(ledger.reputation), RunCredits(rotor.n, run))
      ensures completed < |run| ==> Interrupted(rotor.n, run, completed, done, old(ledger.reputation), ledger.reputation)
    {
      hide *;
      completed, done, flags := 0, 0, [];
      ghost var n, table, claims := rotor.n, ledger.reputation, ledger.verifications;
      ProperPrefixes(run);
      RunStart(n, run, peer, corrupt, table, claims);
      while completed < |run|
        invariant completed <= |run| && rotor.Current() == At(n, completed) && AllComplete(n, run[..completed])
        invariant |flags| == completed
        invariant forall k :: 0 <= k < completed ==> flags[k] == Mismatches(At(n, k), run[k].visits)
        invariant ledger.verifications == Recorded(claims, RunWrites(n, run[..completed], peer, corrupt))
        invariant ledger.reputation == Settled(table, RunCredits(n, run[..completed]))
      {
        RunStep(n, run, completed, peer, corrupt, table, claims);
        RunListingAt(n, run, peer, corrupt, claims, completed);
        var audits, mismatches, stopped;
        audits, mismatches, done, stopped := Round(run[completed], completed);
        if stopped {
          InterruptedWhen(n, run, completed, done, audits, mismatches, table, ledger.reputation);
          RecordedInTurn(claims, RunWrites(n, run[..completed], peer, corrupt), OthersOf(run[completed].visits[..done]));
          return;
        }
        flags := flags + [mismatches];
        completed := completed + 1;
      }
      assert run[..completed] == run;
      ghost var writes := RunWrites(n, run[..completed], peer, corrupt);
      assert writes + [] == writes;
    }
  }

  /** The loop's nested tests decide `Ends` and `Judged`. */
  lemma EndsWhen(w: Window, v: Visit)
    ensures Judged(w, v) <==> InWindow(w, v) && !Panics(v)
    ensures Ends(w, v) <==> InWindow(w, v) && (Panics(v) || Halts(v.seen))
    ensures !Halts(v.seen) ==> v.seen.scan.Some?
    ensures AuditOf(v) == Audit(v.contract.contractUuid, v.contract.peer, Passed(v))
  {
  }

  lemma ClaimsStart(audits: seq<Audit>, verifier: PeerId, corrupt: bool, stamps: seq<Stamp>, claims: ClaimTable)
    requires |stamps| == |audits|
    ensures Recorded(claims, ClaimWrites(audits[..0], verifier, corrupt, stamps[..0])) == claims
  {
  }

  /** One more claim. */
  lemma ClaimsStep(audits: seq<Audit>, verifier: PeerId, corrupt: bool, stamps: seq<Stamp>, claims: ClaimTable, k: nat)
    requires |stamps| == |audits| && k < |audits|
    ensures var before := Recorded(claims, ClaimWrites(audits[..k], verifier, corrupt, stamps[..k]));
      var between := Recorded(before, stamps[k].others);
      var own := ClaimOf(audits[k], verifier, corrupt, stamps[k]);
      Recorded(claims, ClaimWrites(audits[..k + 1], verifier, corrupt, stamps[..k + 1]))
      == if own.written then Upserted(between, own.claim) else between
  {
    hide ClaimOf;
    var early, own := ClaimWrites(audits[..k], verifier, corrupt, stamps[..k]), ClaimOf(audits[k], verifier, corrupt, stamps[k]);
    assert audits[..k + 1][..k] == audits[..k] && stamps[..k + 1][..k] == stamps[..k];
    var most := early + stamps[k].others;
    assert ClaimWrites(audits[..k + 1], verifier, corrupt, stamps[..k + 1]) == most + [own];
    assert (most + [own])[..|most|] == most;
    RecordedInTurn(claims, early, stamps[k].others);
  }

  lemma RunListingAt(n: nat, run: seq<Turn>, peer: PeerId, corrupt: bool, claims: ClaimTable, k: nat)
    requires Supported(n) && AllProper(run) && RunListing(n, run, peer, corrupt, claims) && k < |run|
    ensures AllProper(run[..k])
    ensures Listing(At(n, k), Recorded(claims, RunWrites(n, run[..k], peer, corrupt)), run[k].visits)
  {
  }

  lemma InterruptedWhen(n: nat, run: seq<Turn>, k: nat, done: nat, audits: seq<Audit>, mismatches: seq<bool>,
                        before: ReputationTable, after: ReputationTable)
    requires Supported(n) && k < |run|
    requires
      if run[k].listed then
        Reached(At(n, k), run[k].visits, done, true, audits, mismatches, Settled(before, RunCredits(n, run[..k])), after)
      else done == 0 && after == Settled(before, RunCredits(n, run[..k]))
    ensures Interrupted(n, run, k, done, before, after)
  {
    hide At, Settled, Audits, Mismatches, RunCredits, Ends, Credits;
  }
}

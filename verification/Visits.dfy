/** What the audit of one contract does, read off what the environment contributed to it. */
module Visits {
  import opened Words
  import opened Field
  import opened Linear
  import opened Por
  import opened AuditTheorems
  import opened Contracts
  import opened Ledger
  import opened History
  import opened Rotation
  import opened Verifier

  // ----- the outcome -----

  /** A peer that cannot be reached fails its audit. */
  lemma UnreachableFails(v: Visit)
    requires v.seen.reply.Failed?
    ensures !Passed(v) && Sound(v)
  {
  }

  /** The contract's vectors are as long as its dimensions say. */
  ghost predicate LongEnough(c: Contract) {
    ToUsize(c.cols) <= |c.secretM| / 8 && ToUsize(c.rows) <= |c.secretN| / 8
  }

  /** An answer, or a challenge, of the wrong length fails the audit, whatever the contract holds. */
  lemma WrongLengthFails(v: Visit)
    requires v.seen.reply.Answered?
    requires |v.seen.reply.response| != ToUsize(v.contract.cols) || |v.seen.challenge| != ToUsize(v.contract.rows)
    ensures !Passed(v) && Sound(v)
  {
  }

  /** With the right lengths the audit indexes out of bounds exactly when a vector is too short. */
  lemma SoundExactly(v: Visit)
    requires v.seen.reply.Answered?
    requires |v.seen.reply.response| == ToUsize(v.contract.cols) && |v.seen.challenge| == ToUsize(v.contract.rows)
    ensures Sound(v) <==> LongEnough(v.contract)
  {
  }

  /** Otherwise the two sums decide, for arbitrary 64-bit answers and challenges. */
  lemma PassedExactly(v: Visit)
    requires v.seen.reply.Answered? && LongEnough(v.contract)
    requires |v.seen.reply.response| == ToUsize(v.contract.cols) && |v.seen.challenge| == ToUsize(v.contract.rows)
    ensures var r, c := v.seen.reply.response, v.seen.challenge;
      var u, n := BytesToU64(v.contract.secretM)[..|r|], BytesToU64(v.contract.secretN)[..|c|];
      Passed(v)
      <==> Dot(r, u) % P57 == Dot(c, n) % P57
           && (Dot(r, u) % P57 != 0 || (EndsHigh(r, u) <==> EndsHigh(c, n)))
  {
    hide Accepts, BytesToU64;
    SoundExactly(v);
    AcceptsExactly(FromContract(v.contract), v.seen.challenge, v.seen.reply.response);
  }

  // ----- whether it happens at all -----

  /** A contract outside the window, or one that cannot be told apart from identifier 0 in a window
      that does not start there, is skipped without a trace. */
  lemma OutsideIsSkipped(w: Window, v: Visit, table: ReputationTable)
    requires var id := if v.seen.fileId.Some? then v.seen.fileId.value else 0; id < w.start || id > w.end
    ensures NewAudits(w, v) == [] && NewMismatches(w, v) == [] && AfterContract(w, table, v) == table && !Ends(w, v)
  {
  }

  /** A contract inside the window is audited, and its keeper credited or debited, unless the audit
      or the punishment panics. */
  lemma InsideIsAudited(w: Window, v: Visit, table: ReputationTable)
    requires var id := if v.seen.fileId.Some? then v.seen.fileId.value else 0; w.start <= id <= w.end
    ensures
      if Sound(v) && (Passed(v) || v.seen.readable) then
        && NewAudits(w, v) == [Audit(v.contract.contractUuid, v.contract.peer, Passed(v))]
        && AfterContract(w, table, v)
           == (if !v.seen.written then table
               else Credited(table, v.contract.peer, if Passed(v) then 1 else -5))
      else NewAudits(w, v) == [] && AfterContract(w, table, v) == table && Ends(w, v)
  {
    hide Passed, Sound, Credited;
    assert Negated(AUDIT_PENALTY) == -5;
  }

  // ----- whether the verifier goes on -----

  /** The clock is behind the latest claim exactly when it is behind some claim. */
  lemma BehindSome(scan: seq<Claim>, now: int)
    ensures (Latest(scan).Some? && now < Latest(scan).value.time)
      <==> exists k :: 0 <= k < |scan| && scan[k].time > now
  {
    hide Latest;
    LatestIsMaximal(scan);
    if Latest(scan).Some? && now < Latest(scan).value.time {
      var k :| 0 <= k < |scan| && scan[k] == Latest(scan).value;
    }
  }

  /** The verifier goes on after this contract: it is outside the window, or the audit does not index
      out of bounds, a failed peer's reputation can be read, the claims can be read, and the clock is
      not behind any of them. */
  ghost predicate GoesOn(w: Window, v: Visit) {
    var id, scan := if v.seen.fileId.Some? then v.seen.fileId.value else 0, v.seen.scan;
    || id < w.start || id > w.end
    || (&& Sound(v) && (Passed(v) || v.seen.readable)
        && scan.Some? && forall k :: 0 <= k < |scan.value| ==> scan.value[k].time <= v.seen.now)
  }

  lemma EndsExactly(w: Window, v: Visit)
    ensures Ends(w, v) <==> !GoesOn(w, v)
  {
    hide Passed, Sound, Latest;
    if v.seen.scan.Some? {
      BehindSome(v.seen.scan.value, v.seen.now);
    }
  }

  /** In particular a sound audit with a readable ledger and a clock at or after every claim goes on,
      and is compared with the latest of them. */
  lemma TimelyVisitGoesOn(w: Window, v: Visit)
    requires Sound(v) && v.seen.readable && v.seen.scan.Some?
    requires forall k :: 0 <= k < |v.seen.scan.value| ==> v.seen.scan.value[k].time <= v.seen.now
    ensures !Ends(w, v)
    ensures InWindow(w, v) ==> NewMismatches(w, v) == [Flags(v.seen.scan.value, Passed(v))]
  {
    hide Passed, Sound;
    EndsExactly(w, v);
  }

  /** A turn runs to its end exactly when the contracts can be read and every visit goes on. */
  lemma CompletesExactly(w: Window, turn: Turn)
    ensures Completes(w, turn) <==> turn.listed && forall k :: 0 <= k < |turn.visits| ==> GoesOn(w, turn.visits[k])
  {
    hide Ends, GoesOn;
    forall k | 0 <= k < |turn.visits| ensures Ends(w, turn.visits[k]) <==> !GoesOn(w, turn.visits[k]) {
      EndsExactly(w, turn.visits[k]);
    }
  }

  // ----- the claims that follow -----

  /** Everything other verifiers write while these claims are written. */
  ghost function Interleaved(stamps: seq<Stamp>): seq<Write> {
    if stamps == [] then [] else Interleaved(stamps[..|stamps| - 1]) + stamps[|stamps| - 1].others
  }

  /** The write is the claim on this audit, at the time and with the fate of the stamp. */
  predicate IsClaim(w: Write, audit: Audit, verifier: PeerId, corrupt: bool, stamp: Stamp) {
    && w.claim.contract == audit.contract && w.claim.verifier == verifier && w.claim.time == stamp.time
    && w.claim.succeeded == (if corrupt then !audit.passed else audit.passed) && w.written == stamp.kept
  }

  /** The verifier writes one claim per audit, in order, at the time and with the fate of its stamp:
      they stand at the positions `at`, and all else is what others wrote. */
  lemma {:induction false} OwnClaimsAreWritten(audits: seq<Audit>, verifier: PeerId, corrupt: bool, stamps: seq<Stamp>)
    returns (at: seq<nat>)
    requires |stamps| == |audits|
    ensures var ws := ClaimWrites(audits, verifier, corrupt, stamps);
      && |at| == |audits| && |ws| == |audits| + |Interleaved(stamps)|
      && (forall i, j :: 0 <= i < j < |at| ==> at[i] < at[j])
      && (forall k :: 0 <= k < |at| ==> at[k] < |ws| && IsClaim(ws[at[k]], audits[k], verifier, corrupt, stamps[k]))
      && (forall i :: 0 <= i < |ws| && i !in at ==> ws[i] in Interleaved(stamps))
  {
    if audits == [] {
      at := [];
    } else {
      var k := |audits| - 1;
      var early, own := ClaimWrites(audits[..k], verifier, corrupt, stamps[..k]), ClaimOf(audits[k], verifier, corrupt, stamps[k]);
      var before := OwnClaimsAreWritten(audits[..k], verifier, corrupt, stamps[..k]);
      var ws := early + stamps[k].others + [own];
      at := before + [|ws| - 1];
      forall i | 0 <= i < |ws| && i !in at ensures ws[i] in Interleaved(stamps) {
        assert at[k] == |ws| - 1;
        if i < |early| {
          assert i !in before by { assert forall j :: 0 <= j < k ==> at[j] == before[j]; }
          assert ws[i] == early[i];
        } else {
          assert ws[i] == stamps[k].others[i - |early|];
        }
      }
    }
  }
}

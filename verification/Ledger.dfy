/** The ledger's reputation and verification tables, as maps with upsert. */
module Ledger {
  import opened Words
  import opened Contracts

  datatype Standing = Standing(reputation: I64, staked: I64)

  type ReputationTable = map<PeerId, Standing>

  datatype Claim = Claim(contract: string, verifier: PeerId, time: I64, succeeded: bool)

  /** Keyed by contract and verifier: a verifier's new claim replaces its old one. */
  type ClaimTable = map<(string, PeerId), Claim>

  const AUDIT_REWARD: I64 := 1
  const AUDIT_PENALTY: I64 := 5

  // ----- reputation -----

  function StandingOf(table: ReputationTable, peer: PeerId): Standing {
    if peer in table then table[peer] else Standing(0, 0)
  }

  /** One reputation transaction: read the row or its default, add, upsert. */
  function Credited(table: ReputationTable, peer: PeerId, amount: I64): ReputationTable {
    var row := StandingOf(table, peer);
    table[peer := Standing(WrapI64(row.reputation + amount), row.staked)]
  }

  /** The reputation effect of one audit; `written` is false when the ledger lost the write. */
  datatype Credit = Credit(peer: PeerId, passed: bool, written: bool)

  function Effect(c: Credit): I64 {
    if c.passed then AUDIT_REWARD else Negated(AUDIT_PENALTY)
  }

  function Settled(table: ReputationTable, credits: seq<Credit>): ReputationTable {
    if credits == [] then table
    else AfterCredit(Settled(table, credits[..|credits| - 1]), credits[|credits| - 1])
  }

  /** Recorded audits of a peer with a given outcome. */
  function Tally(credits: seq<Credit>, peer: PeerId, passed: bool): (n: nat)
    ensures n <= |credits|
  {
    if credits == [] then 0
    else
      var c := credits[|credits| - 1];
      Tally(credits[..|credits| - 1], peer, passed)
      + (if c.written && c.peer == peer && c.passed == passed then 1 else 0)
  }

  lemma WrapAdd(x: int, a: int)
    ensures WrapI64(WrapI64(x) + a) == WrapI64(x + a)
  {
    var m, h := 0x1_0000_0000_0000_0000, 0x8000_0000_0000_0000;
    var k := (x - WrapI64(x)) / m;
    assert x == WrapI64(x) + k * m;
    WrapShift(WrapI64(x) + a, k);
  }

  lemma WrapIdentity(x: I64)
    ensures WrapI64(x) == x
  {
  }

  lemma WrapShift(y: int, k: int)
    ensures WrapI64(y + k * 0x1_0000_0000_0000_0000) == WrapI64(y)
  {
  }

  /** What a credit is worth to a given peer. */
  function Worth(c: Credit, peer: PeerId): int {
    if c.written && c.peer == peer then (if c.passed then 1 else -5) else 0
  }

  function AfterCredit(table: ReputationTable, c: Credit): ReputationTable {
    if c.written then Credited(table, c.peer, Effect(c)) else table
  }

  lemma OneCredit(table: ReputationTable, c: Credit, peer: PeerId)
    ensures StandingOf(AfterCredit(table, c), peer)
         == Standing(WrapI64(StandingOf(table, peer).reputation + Worth(c, peer)), StandingOf(table, peer).staked)
    ensures Worth(c, peer) == 0 ==> (peer in AfterCredit(table, c) <==> peer in table)
  {
    WrapIdentity(StandingOf(table, peer).reputation);
    assert Effect(c) == if c.passed then 1 else -5;
  }

  /** Accounting: after any interleaving of recorded audits, a peer's reputation is its start plus
      one for each passed audit minus five for each failed one, with 64-bit wrap-around; its stake,
      and every peer without recorded audits, are untouched. */
  lemma {:induction false} ReputationAccounting(table: ReputationTable, credits: seq<Credit>, peer: PeerId)
    ensures StandingOf(Settled(table, credits), peer).reputation
         == WrapI64(StandingOf(table, peer).reputation + Tally(credits, peer, true) - 5 * Tally(credits, peer, false))
    ensures StandingOf(Settled(table, credits), peer).staked == StandingOf(table, peer).staked
    ensures Tally(credits, peer, true) == Tally(credits, peer, false) == 0 ==>
      (peer in Settled(table, credits) <==> peer in table)
      && StandingOf(Settled(table, credits), peer) == StandingOf(table, peer)
  {
    hide WrapI64, StandingOf, AfterCredit;
    WrapIdentity(StandingOf(table, peer).reputation);
    if credits != [] {
      var init, c := credits[..|credits| - 1], credits[|credits| - 1];
      ReputationAccounting(table, init, peer);
      OneCredit(Settled(table, init), c, peer);
      WrapAdd(StandingOf(table, peer).reputation + Tally(init, peer, true) - 5 * Tally(init, peer, false), Worth(c, peer));
    }
  }

  /** A transaction on a peer without a row starts it from zero. */
  lemma FirstCredit(table: ReputationTable, peer: PeerId, amount: I64)
    requires peer !in table
    ensures Credited(table, peer, amount) == table[peer := Standing(amount, 0)]
  {
    WrapIdentity(amount);
  }

  lemma NextCredit(table: ReputationTable, peer: PeerId, amount: I64)
    requires peer in table
    ensures Credited(table, peer, amount)
         == table[peer := Standing(WrapI64(table[peer].reputation + amount), table[peer].staked)]
  {
  }

  /** The rows themselves: a peer with recorded audits has a row, which counts from its old row or
      from zero; any other peer's row, or lack of one, is as before. */
  lemma {:induction false} RowAccounting(table: ReputationTable, credits: seq<Credit>, peer: PeerId)
    ensures var passed, failed := Tally(credits, peer, true), Tally(credits, peer, false);
      var after := Settled(table, credits);
      if passed == failed == 0 then (peer in after <==> peer in table) && (peer in table ==> after[peer] == table[peer])
      else
        && peer in after
        && after[peer] == (if peer in table then
                             Standing(WrapI64(table[peer].reputation + passed - 5 * failed), table[peer].staked)
                           else Standing(WrapI64(passed - 5 * failed), 0))
  {
    ReputationAccounting(table, credits, peer);
    RowExists(table, credits, peer);
    hide Settled, Tally, WrapI64;
    assert peer !in table ==> StandingOf(table, peer) == Standing(0, 0);
  }

  lemma {:induction false} RowExists(table: ReputationTable, credits: seq<Credit>, peer: PeerId)
    ensures Tally(credits, peer, true) + Tally(credits, peer, false) > 0 || peer in table ==> peer in Settled(table, credits)
  {
    hide WrapI64, Negated;
    if credits != [] {
      RowExists(table, credits[..|credits| - 1], peer);
    }
  }

  /** Rounds compose: settling two batches in turn is settling their concatenation. */
  lemma {:induction false} SettledInTurn(table: ReputationTable, a: seq<Credit>, b: seq<Credit>)
    ensures Settled(Settled(table, a), b) == Settled(table, a + b)
  {
    if b == [] {
      assert a + b == a;
    } else {
      var init := b[..|b| - 1];
      SettledInTurn(table, a, init);
      assert (a + b)[..|a + b| - 1] == a + init;
    }
  }

  // ----- claims -----

  function Upserted(table: ClaimTable, c: Claim): ClaimTable {
    table[(c.contract, c.verifier) := c]
  }

  ghost predicate InTable(c: Claim, table: ClaimTable, contract: string) {
    c.contract == contract && (contract, c.verifier) in table && table[(contract, c.verifier)] == c
  }

  /** What `get_previous_verified` may return: the contract's claims, each once, in any order. */
  ghost predicate IsScan(scan: seq<Claim>, table: ClaimTable, contract: string) {
    && (forall i :: 0 <= i < |scan| ==> InTable(scan[i], table, contract))
    && (forall i, j :: 0 <= i < j < |scan| ==> scan[i].verifier != scan[j].verifier)
    && (forall v :: (contract, v) in table ==> table[(contract, v)] in scan)
  }

  /** The stable descending sort by time. */
  function InsertLater(c: Claim, sorted: seq<Claim>): (r: seq<Claim>)
    ensures multiset(r) == multiset{c} + multiset(sorted)
  {
    if sorted == [] then [c]
    else if c.time >= sorted[0].time then
      assert sorted == [sorted[0]] + sorted[1..];
      [c] + sorted
    else
      assert sorted == [sorted[0]] + sorted[1..];
      [sorted[0]] + InsertLater(c, sorted[1..])
  }

  function SortedByTime(claims: seq<Claim>): (r: seq<Claim>)
    ensures multiset(r) == multiset(claims)
  {
    if claims == [] then []
    else
      assert claims == [claims[0]] + claims[1..];
      InsertLater(claims[0], SortedByTime(claims[1..]))
  }

  function Latest(scan: seq<Claim>): Option<Claim> {
    var sorted := SortedByTime(scan);
    if sorted == [] then None else Some(sorted[0])
  }

  ghost predicate Descending(claims: seq<Claim>) {
    forall i, j :: 0 <= i < j < |claims| ==> claims[i].time >= claims[j].time
  }

  lemma {:induction false} InsertKeepsOrder(c: Claim, sorted: seq<Claim>)
    requires Descending(sorted)
    ensures Descending(InsertLater(c, sorted))
  {
    if sorted != [] && c.time < sorted[0].time {
      InsertKeepsOrder(c, sorted[1..]);
      var r := InsertLater(c, sorted[1..]);
      forall j | 0 <= j < |r| ensures sorted[0].time >= r[j].time {
        assert r[j] in multiset(r);
        assert r[j] == c || r[j] in sorted[1..];
      }
    }
  }

  lemma {:induction false} SortIsSorted(claims: seq<Claim>)
    ensures Descending(SortedByTime(claims))
  {
    if claims != [] {
      SortIsSorted(claims[1..]);
      InsertKeepsOrder(claims[0], SortedByTime(claims[1..]));
    }
  }

  /** The latest claim is one of the scanned claims and no claim is later. */
  lemma LatestIsMaximal(scan: seq<Claim>)
    ensures Latest(scan).None? <==> scan == []
    ensures Latest(scan).Some? ==> Latest(scan).value in scan
    ensures Latest(scan).Some? ==> forall i :: 0 <= i < |scan| ==> scan[i].time <= Latest(scan).value.time
  {
    var r := SortedByTime(scan);
    SortIsSorted(scan);
    assert |r| == |scan| by { assert |multiset(r)| == |r| && |multiset(scan)| == |scan|; }
    if r != [] {
      assert r[0] in multiset(r);
      assert r[0] in multiset(scan);
      forall i | 0 <= i < |scan| ensures scan[i].time <= r[0].time {
        assert scan[i] in multiset(scan);
        assert scan[i] in multiset(r);
        var k :| 0 <= k < |r| && r[k] == scan[i];
      }
    }
  }

  // ----- the program -----

  class Tables {
    var reputation: ReputationTable
    var verifications: ClaimTable

    constructor ()
      ensures reputation == map[] && verifications == map[]
    {
      reputation, verifications := map[], map[];
    }

    /** `increase_reputation`; the result of the write is ignored, so it may be lost. */
    method IncreaseReputation(peer: PeerId, amount: I64, written: bool)
      modifies this`reputation
      ensures reputation == if written then Credited(old(reputation), peer, amount) else old(reputation)
    {
      var current: I64, staked: I64 := 0, 0;
      if peer in reputation {
        current, staked := reputation[peer].reputation, reputation[peer].staked;
      }
      if written {
        reputation := reputation[peer := Standing(WrapI64(current + amount), staked)];
      }
    }

    method DecreaseReputation(peer: PeerId, amount: I64, written: bool)
      modifies this`reputation
      ensures reputation
           == if written then Credited(old(reputation), peer, Negated(amount)) else old(reputation)
    {
      IncreaseReputation(peer, Negated(amount), written);
    }

    /** `get_previous_verified`: the ledger may list the contract's claims in any order, or fail. */
    method GetPreviousVerified(contract: string, scan: Option<seq<Claim>>) returns (claims: Option<seq<Claim>>)
      requires scan.Some? ==> IsScan(scan.value, verifications, contract)
      ensures claims == scan && (claims.Some? ==> IsScan(claims.value, verifications, contract))
    {
      claims := scan;
    }

    /** `create_verified_claim` */
    method CreateVerifiedClaim(c: Claim, written: bool)
      modifies this`verifications
      ensures verifications == if written then Upserted(old(verifications), c) else old(verifications)
    {
      if written {
        verifications := verifications[(c.contract, c.verifier) := c];
      }
    }
  }
}

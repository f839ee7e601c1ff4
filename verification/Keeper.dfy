/** The keeper's side of an audit, and what rounds then do to its reputation. */
module Keeper {
  import opened Words
  import opened Field
  import opened Layout
  import opened Por
  import opened AuditTheorems
  import opened Contracts
  import opened Ledger
  import opened Generator
  import opened KnownAnswers
  import opened DrawnAudits
  import opened Rotation
  import opened Verifier
  import opened Visits
  import opened Runs

  type Storage = map<string, seq<bv8>>

  /** The stored file is not empty, the challenge is long enough for it, and no sum leaves 128 bits. */
  ghost predicate Answerable(storage: Storage, name: string, challenge: seq<U64>) {
    name in storage ==>
      && storage[name] != [] && FileRows(storage[name]) <= |challenge|
      && AnswerFits(storage[name], challenge[..FileRows(storage[name])])
  }

  /** Which challenges never overflow: those in the field, on every file the store accepts, and any
      at all on files of fewer than 280 rows. */
  lemma AnswerableWhen(storage: Storage, name: string, challenge: seq<U64>)
    requires name in storage ==>
      && 0 < |storage[name]| <= MAX_FILE_BYTES && FileRows(storage[name]) <= |challenge|
      && (InField(challenge) || FileRows(storage[name]) < 280)
    ensures Answerable(storage, name, challenge)
  {
    if name in storage {
      var file := storage[name];
      StoredFileFits(file);
      hide FileRows, AnswerFits;
      var c := challenge[..FileRows(file)];
      if InField(challenge) {
        FieldAnswerFits(file, c);
      } else {
        ShortAnswerFits(file, c);
      }
    }
  }

  /** A lost file is answered with the empty vector. */
  function KeeperAnswer(storage: Storage, name: string, challenge: seq<U64>): seq<U64>
    requires Answerable(storage, name, challenge)
  {
    if name in storage then AnswerTo(storage[name], challenge) else []
  }

  /** `handle_reqres_message_request` */
  method HandleRequest(storage: Storage, name: string, challenge: seq<U64>) returns (response: seq<U64>)
    requires Answerable(storage, name, challenge)
    ensures response == KeeperAnswer(storage, name, challenge)
  {
    if name in storage {
      var config := ServerFromFile(storage[name]);
      response := FulfillChallenge(config, challenge);
    } else {
      response := [];
    }
  }

  /** `VerificationClientConfig::from_file`: draw the secrets, then tag. */
  method TagFile(file: seq<bv8>) returns (config: ClientConfig)
    requires file != [] && FileCols(file) <= 32768
    ensures |config.secretM| == FileCols(file) && InField(config.secretM)
    ensures IsVector(2020, FileCols(file), config.secretM) && config == ConfigOf(file, config.secretM)
  {
    hide IsVector, FileCols, FileRows, Tags, TagsFit, Accepting;
    ProgramSeedsAccept();
    var u := RandVector(FileCols(file), 2020);
    VectorPrefix(2020, FileCols(file), u, FileCols(file), u);
    FieldTagsFit(file, u);
    config := ClientFromFile(file, u);
  }

  /** `make_challenge_vector` */
  method MakeChallenge(config: ClientConfig) returns (challenge: seq<U64>)
    ensures |challenge| == config.rows && InField(challenge) && IsVector(20, config.rows, challenge)
  {
    hide IsVector, Accepting;
    ProgramSeedsAccept();
    challenge := RandVector(config.rows, 20);
    VectorPrefix(20, config.rows, challenge, config.rows, challenge);
  }

  // ----- from the file to the reputation -----

  /** A contract that seals a file's configuration, audited once with a challenge in the field, and
      answered by this program with the given storage. */
  ghost predicate Exchange(file: seq<bv8>, u: seq<U64>, storage: Storage, name: string, v: Visit) {
    var challenge := v.seen.challenge;
    && file != [] && FileRows(file) < 0x1_0000_0000_0000_0000 && |u| == FileCols(file) && InField(u)
    && (exists blank: Contract :: v.contract == Sealed(ConfigOf(file, u), blank))
    && |challenge| == FileRows(file) && InField(challenge) && Answerable(storage, name, challenge)
    && v.seen.reply == Answered(KeeperAnswer(storage, name, challenge))
  }

  lemma ExchangeConfig(file: seq<bv8>, u: seq<U64>, storage: Storage, name: string, v: Visit)
    requires Exchange(file, u, storage, name, v)
    ensures FromContract(v.contract) == ConfigOf(file, u) && Sound(v)
    ensures Passed(v) == Accepts(ConfigOf(file, u), v.seen.challenge, KeeperAnswer(storage, name, v.seen.challenge))
  {
    Dimensions(NumChunks(|file|));
    hide FileRows, FileCols, Tags, KeeperAnswer, Accepts;
    var blank: Contract :| v.contract == Sealed(ConfigOf(file, u), blank);
    FieldsRoundTrip(ConfigOf(file, u), blank);
  }

  /** Auditing the contract moves its keeper's reputation by `points` and leaves its stake as it was. */
  ghost predicate Moves(table: ReputationTable, v: Visit, points: int) {
    var was := StandingOf(table, v.contract.peer);
    StandingOf(AfterVisit(table, v), v.contract.peer) == Standing(WrapI64(was.reputation + points), was.staked)
  }

  /** The points of a sound visit: nothing for a write that is lost, nor for a punishment that
      panics because the reputation cannot be read. */
  lemma PointsOf(table: ReputationTable, v: Visit)
    requires Sound(v)
    ensures Moves(table, v, if !v.seen.written then 0 else if Passed(v) then 1 else if v.seen.readable then -5 else 0)
  {
    hide Passed, Sound, AfterCredit;
    OneCredit(table, CreditOf(v), v.contract.peer);
    WrapIdentity(StandingOf(table, v.contract.peer).reputation);
  }

  ghost predicate Punished(table: ReputationTable, v: Visit) {
    !Passed(v) && Moves(table, v, if v.seen.written && v.seen.readable then -5 else 0)
  }

  /** The verdict on a keeper that answers from any file at all with no more rows than the tagged one. */
  lemma KeeperVerdict(file: seq<bv8>, u: seq<U64>, storage: Storage, name: string, v: Visit)
    requires Exchange(file, u, storage, name, v) && name in storage
    ensures Sound(v) && Challenged(file, storage[name], v.seen.challenge, u)
    ensures Passed(v) <==> Accepts(ConfigOf(file, u), v.seen.challenge, AnswerTo(storage[name], v.seen.challenge))
  {
    hide FileRows, FileCols, Tags, Answer, Accepts, Sound, AnswerFits;
    ExchangeConfig(file, u, storage, name, v);
  }

  /** A keeper that cannot be reached is punished like one that fails. */
  lemma UnreachableIsPunished(v: Visit, table: ReputationTable)
    requires v.seen.reply.Failed?
    ensures Punished(table, v)
  {
    hide Passed, Moves, Sound;
    UnreachableFails(v);
    PointsOf(table, v);
  }

  /** A keeper that lost the file fails the audit and, if the ledger can be read and keeps the write,
      loses exactly five points. */
  lemma LostFileIsPunished(file: seq<bv8>, u: seq<U64>, storage: Storage, name: string, v: Visit, table: ReputationTable)
    requires Exchange(file, u, storage, name, v) && name !in storage
    ensures Punished(table, v)
  {
    ExchangeConfig(file, u, storage, name, v);
    hide Passed, Moves, Exchange, Sound;
    PointsOf(table, v);
  }

  /** A keeper that still has the file passes, outside the one failing case of the audit. */
  lemma HonestKeeperIsRewarded(file: seq<bv8>, u: seq<U64>, storage: Storage, name: string, v: Visit, table: ReputationTable)
    requires Exchange(file, u, storage, name, v) && name in storage && storage[name] == file
    ensures Audited(file, file, v.seen.challenge, u)
    ensures Passed(v)
      <==> Evidence(file, v.seen.challenge, u) % P57 != 0 || AlikeAtZero(file, file, v.seen.challenge, u)
    ensures Moves(table, v, if !v.seen.written then 0 else if Passed(v) then 1 else if v.seen.readable then -5 else 0)
  {
    hide FileRows, FileCols, Tags, Answer, Evidence, AlikeAtZero, Sound, Accepts, Moves, Passed;
    KeeperVerdict(file, u, storage, name, v);
    assert v.seen.challenge[..FileRows(file)] == v.seen.challenge;
    HonestServerPasses(file, v.seen.challenge, u);
    PointsOf(table, v);
  }

  /** A keeper that altered one chunk with nonzero weight fails. */
  lemma DamagedFileIsPunished(file: seq<bv8>, u: seq<U64>, storage: Storage, name: string, v: Visit,
                              i: nat, j: nat, table: ReputationTable)
    requires Exchange(file, u, storage, name, v) && name in storage && storage[name] != file
    requires DifferInChunk(file, storage[name], i, j) && v.seen.challenge[j] != 0 && u[i] != 0
    ensures Punished(table, v)
  {
    hide FileRows, FileCols, Tags, Answer, DifferInChunk, Accepts, Sound, Moves, Passed;
    var served := storage[name];
    SameLayout(file, served, i, j);
    KeeperVerdict(file, u, storage, name, v);
    assert v.seen.challenge[..FileRows(file)] == v.seen.challenge;
    OneChunkIsDetected(file, served, v.seen.challenge, u, i, j);
    PointsOf(table, v);
  }

  lemma SameLayout(file: seq<bv8>, served: seq<bv8>, i: nat, j: nat)
    requires DifferInChunk(file, served, i, j)
    ensures served != [] && FileRows(served) == FileRows(file) && FileCols(served) == FileCols(file)
  {
  }

  /** The honest keeper of the unlucky file, with the secret and the challenge the program draws. */
  ghost predicate UnluckyVisit(v: Visit, u: seq<U64>, storage: Storage, name: string) {
    && Exchange(UnluckyFile(), u, storage, name, v) && name in storage && storage[name] == UnluckyFile()
    && IsVector(2020, 1, u) && IsVector(20, 56, v.seen.challenge)
  }

  /** It fails, and loses five points, at every recorded audit. */
  lemma UnluckyKeeperIsPunished(v: Visit, u: seq<U64>, storage: Storage, name: string, table: ReputationTable)
    requires UnluckyVisit(v, u, storage, name)
    ensures Punished(table, v)
  {
    hide FileRows, FileCols, Tags, Answer, UnluckyFile, IsVector, Sound, Accepts, Passed, Moves;
    HonestServerRejected(v.seen.challenge, u);
    KeeperVerdict(UnluckyFile(), u, storage, name, v);
    assert v.seen.challenge[..FileRows(UnluckyFile())] == v.seen.challenge;
    PointsOf(table, v);
  }

  /** Whoever changes one chunk of a file of at most 392 bytes is punished, with no luck involved. */
  lemma SmallChangeIsPunished(file: seq<bv8>, u: seq<U64>, storage: Storage, name: string, v: Visit,
                              i: nat, j: nat, table: ReputationTable)
    requires Exchange(file, u, storage, name, v) && name in storage && storage[name] != file
    requires |file| <= 392 && DifferInChunk(file, storage[name], i, j)
    requires IsVector(2020, 1, u) && IsVector(20, 56, v.seen.challenge)
    ensures Punished(table, v)
  {
    hide FileRows, FileCols, Tags, Answer, DifferInChunk, Accepts, Sound, Moves, Passed, IsVector;
    var served := storage[name];
    SmallChangeIsCaught(file, served, v.seen.challenge, u, i, j);
    KeeperVerdict(file, u, storage, name, v);
    assert v.seen.challenge[..FileRows(served)] == v.seen.challenge;
    PointsOf(table, v);
  }

  // ----- over runs -----

  /** Wherever the turn lists the contract, its keeper runs this program, has lost the file, and the
      ledger keeps the write. */
  ghost predicate Lost(turn: Turn, file: seq<bv8>, u: seq<U64>, name: string, c: Contract, id: U128) {
    && Listed(turn, c, id)
    && forall i: nat :: Lists(turn, c, id, i) ==>
         turn.visits[i].seen.written && Exchange(file, u, map[], name, turn.visits[i])
  }

  lemma LossFails(turn: Turn, file: seq<bv8>, u: seq<U64>, name: string, c: Contract, id: U128)
    requires Lost(turn, file, u, name, c, id)
    ensures Failing(turn, c, id)
  {
    hide Exchange, Passed, Moves, Listed;
    forall i: nat | Lists(turn, c, id, i) ensures !Passed(turn.visits[i]) && turn.visits[i].seen.written {
      LostFileIsPunished(file, u, map[], name, turn.visits[i], map[]);
    }
  }

  /** A keeper that runs this program and lost the file before turn t is punished at least once in
      every n + 1 turns of a completed run from then on, and the ledger shows it. */
  lemma LossIsCaught(n: nat, run: seq<Turn>, t: nat, file: seq<bv8>, u: seq<U64>, name: string, c: Contract, id: U128,
                     table: ReputationTable)
    requires Supported(n) && AllComplete(n, run) && t <= |run|
    requires forall r :: t <= r < |run| ==> Lost(run[r], file, u, name, c, id)
    ensures Costs(n, run, t, c.peer, table)
  {
    hide *;
    forall r | t <= r < |run| ensures Failing(run[r], c, id) {
      LossFails(run[r], file, u, name, c, id);
    }
    FailuresCost(n, run, t, c, id, table);
  }

  /** A keeper that cannot be reached from turn t on bears the same cost. */
  lemma AbsenceIsCaught(n: nat, run: seq<Turn>, t: nat, c: Contract, id: U128, table: ReputationTable)
    requires Supported(n) && AllComplete(n, run) && t <= |run|
    requires forall r :: t <= r < |run| ==> Absent(run[r], c, id)
    ensures Costs(n, run, t, c.peer, table)
  {
    hide *;
    forall r | t <= r < |run| ensures Failing(run[r], c, id) {
      AbsenceFails(run[r], c, id);
    }
    FailuresCost(n, run, t, c, id, table);
  }

  /** Wherever the turn lists the contract, its keeper does not answer, and the ledger keeps the write. */
  ghost predicate Absent(turn: Turn, c: Contract, id: U128) {
    && Listed(turn, c, id)
    && forall i: nat :: Lists(turn, c, id, i) ==> turn.visits[i].seen.written && turn.visits[i].seen.reply.Failed?
  }

  lemma AbsenceFails(turn: Turn, c: Contract, id: U128)
    requires Absent(turn, c, id)
    ensures Failing(turn, c, id)
  {
    hide Passed, Listed, Sound;
    forall i: nat | Lists(turn, c, id, i) ensures !Passed(turn.visits[i]) && turn.visits[i].seen.written {
      UnreachableFails(turn.visits[i]);
    }
  }

  /** The same for the honest keeper of the unlucky file. */
  ghost predicate Unlucky(turn: Turn, u: seq<U64>, storage: Storage, name: string, c: Contract, id: U128) {
    && Listed(turn, c, id)
    && forall i: nat :: Lists(turn, c, id, i) ==>
         turn.visits[i].seen.written && UnluckyVisit(turn.visits[i], u, storage, name)
  }

  lemma UnluckyFails(turn: Turn, u: seq<U64>, storage: Storage, name: string, c: Contract, id: U128)
    requires Unlucky(turn, u, storage, name, c, id)
    ensures Failing(turn, c, id)
  {
    hide UnluckyVisit, Passed, Moves, Listed;
    forall i: nat | Lists(turn, c, id, i) ensures !Passed(turn.visits[i]) && turn.visits[i].seen.written {
      UnluckyKeeperIsPunished(turn.visits[i], u, storage, name, map[]);
    }
  }

  lemma HonestKeeperKeepsLosing(n: nat, run: seq<Turn>, t: nat, u: seq<U64>, storage: Storage, name: string,
                                c: Contract, id: U128, table: ReputationTable)
    requires Supported(n) && AllComplete(n, run) && t <= |run|
    requires forall r :: t <= r < |run| ==> Unlucky(run[r], u, storage, name, c, id)
    ensures Costs(n, run, t, c.peer, table)
  {
    hide *;
    forall r | t <= r < |run| ensures Failing(run[r], c, id) {
      UnluckyFails(run[r], u, storage, name, c, id);
    }
    FailuresCost(n, run, t, c, id, table);
  }

  /** Challenges are drawn from one fixed seed, so an answer that was accepted once is accepted
      again: a keeper that stores its first answer needs the file no more. */
  lemma KeptAnswerPassesAgain(v: Visit, v': Visit)
    requires v'.contract == v.contract && v'.seen.reply == v.seen.reply && Passed(v)
    requires IsVector(20, FromContract(v.contract).rows, v.seen.challenge)
    requires IsVector(20, FromContract(v.contract).rows, v'.seen.challenge)
    ensures Passed(v')
  {
    hide IsVector, FromContract;
    var rows := FromContract(v.contract).rows;
    VectorPrefix(20, rows, v.seen.challenge, rows, v'.seen.challenge);
  }
}

# KISS storage audits, verified

KISS is a Kademlia storage node whose peers audit one another with an algebraic proof of
retrievability.  This project models the node's own logic in Dafny and proves what the audit is
worth, from the bits of a file to the reputation of the peer that keeps it.

* **The audit** (`Words`, `Field`, `Primality`, `Linear`, `Layout`, `Doubles`, `Por`,
  `AuditTheorems`, `DrawnAudits`).  A file is a zero-padded matrix M of 7-byte chunks, unpacked from
  64-bit words by shifts and masks.  The client keeps u and n = uᵀM mod P57, the server answers
  r = M·c mod P57, and the audit compares r·u with c·n in partially reduced 128-bit accumulators.
  The loops are proved against the matrix form, and the verdict is then characterised exactly: which
  servers pass, for which challenges.  P57 = 2^57 − 13 is proved prime, so that "nonzero" is enough
  wherever a weight must be invertible.
* **The generator** (`Generator`, `KnownAnswers`): the TinyMT-style stream behind the secrets and
  the challenges.
* **Contracts and ledger** (`Contracts`, `Ledger`, `History`): stored rows, reputation
  transactions, and what a scan of the verification claims says about who wrote last.
* **The verifier** (`Rotation`, `Verifier`, `Visits`, `Runs`, `Cheating`, `Keeper`): the rotating window of
  file identifiers, the rounds and runs of the loop beside other verifiers, which cheating they
  expose, and what becomes of a keeper that kept, damaged or lost the file.
* **The swarm** (`Swarm`, `Fates`): the pending tables of the event loop as a state machine over
  arbitrary interleavings of commands and network events, and the fate of every command read off the
  events alone.

Everything verifies together: `dafny verify dfyconfig.toml`.

Where the source mutates, the model does too: the tagging, answering and auditing loops are methods
over arrays and 128-bit sums, and `Random`, the rotation, the ledger tables, the verifier and the
event loop are classes whose methods are tied to specification functions; the properties are proved
of those functions, for all inputs and all runs.

## What the proofs found

* **An honest server can be rejected.**  The accumulators are reduced only when they exceed P57
  (`> P57`, src/verifier/por.rs:159 and 166), so a vanishing sum ends at 0 on one side and possibly
  at P57 on the other.  `HonestServerPasses` says exactly when an honest server passes: the evidence
  is nonzero modulo P57, or the last nonzero product is below P57 on both sides or on neither.
  `HonestServerRejected` gives a 56-byte file that fails with the very secret and challenge the
  program draws for it; its honest keeper fails at every audit (`UnluckyKeeperIsPunished`).
* **A challenge can make the answering loops overflow 128 bits**, for a stored file only with
  entries of P57 or more and only from 280 rows on: `OverflowExactly` gives the condition in both directions.
* **The rejection loop always ends** for the program's two seeds: the generator is periodic from its
  start, so one accepted draw recurs for ever (`NextAccepted`).
* **Challenges repeat.**  They are drawn from one fixed seed (src/verifier/por.rs:144), so a keeper
  that stores its first accepted answer passes every later audit without the file
  (`KeptAnswerPassesAgain`); that a loss is punished holds of keepers that run this repository's
  handler.
* **Four things end the verifier's loop**: contracts that cannot be read, a panic in the audit or in
  the punishment, earlier claims that cannot be read, and a clock behind the latest claim
  (`duration_since(..)?`, src/verifier/mod.rs:163).  The last two come after the reputation has moved
  and before any claim of that round is written (`Verifier.Node.Round`).
* **Latest-claim lookups are exact only under distinct times**: `ScanShowsLast` and
  `SomeScanHidesLast` give the condition in both directions, `SameMillisecondHidesLast` an instance.
* **The rotation needs n + 1 rounds, not n**: the last window is the remainder of the division, and
  `CoverageIsTight` shows n rounds that miss an identifier.
* **Failed provider, closest-peer and start-providing queries end the event loop** and drop the
  caller's sender, while failed puts and gets are forwarded to the caller (`FirstResultDecides`).
* The tempering step adds modulo 2^64 − 1, not 2^64 (src/verifier/por.rs:275); the model follows the
  code and reproduces the first secret the repository's own test expects (`FirstSecret`).

## Model

| member | source | states |
|---|---|---|
| Words.DecodeEncode | src/verifier/por.rs:103-114 | decoding an encoded vector gives the vector back, whatever partial word of fewer than eight bytes follows |
| Words.EncodeDecode | src/verifier/por.rs:103-114 | encoding a decoded byte string gives back every whole word: only a trailing partial word is lost |
| Words.UnpackChunk | src/verifier/por.rs:69-88 | for any block of seven words, the mask, the six shift-or cases and the final shift read exactly the little-endian values of the eight consecutive 7-byte groups |
| Words.ShiftOrAcrossWords | src/verifier/por.rs:78-80 | the shift-or of two neighbouring words is the seven bytes that straddle them, for each of the six shifts |
| Words.PackIsLeValue | src/verifier/por.rs:74-84 | seven bytes packed into a word by shifts have the little-endian value of the byte string |
| Layout.RowsBounds | src/verifier/por.rs:49-52 | the row count is a multiple of 56, at least 56, whose square reaches the chunk count while that of the previous multiple does not |
| Layout.RowsIsScaledCeiling | src/verifier/por.rs:50-51 | for every chunk count, 56 times the ceiling of the scaled real square root is that row count |
| Doubles.RowsInDoubles | src/verifier/por.rs:50-51 | the same with the root and the quotient each rounded to a double, up to 32760 rows, which includes every file the store accepts: rounding never moves the ceiling |
| Layout.Dimensions | src/verifier/por.rs:49-52 | (cols − 1)·rows < chunks ≤ cols·rows and 1 ≤ cols ≤ rows |
| Layout.SliceInBounds | src/verifier/por.rs:57-73 | every slice the loops cut lies inside the padded buffer and consists of whole words, so the exact chunking drops nothing |
| Layout.GroupIsChunk | src/verifier/por.rs:68-88 | the j-th 7-byte group of slice i is chunk i·rows + j of the zero-padded file |
| Layout.RecoverCorrect | src/verifier/por.rs:59-88 | the file is recovered from its matrix and its length, so every byte lands in exactly one chunk |
| Layout.MatrixInjective | src/verifier/por.rs:59-88 | different files of one length have different matrices |
| Layout.RowsOfStoredFile | src/p2p/swarm.rs:111-118 | a file within the store's 1 GiB limit has at most 12432 rows, the bound behind the overflow proofs |
| Por.ClientFromFile | src/verifier/por.rs:48-100 | the tagging loops compute exactly uᵀM mod P57 for the matrix of the file; the only demand is that the final sums fit 128 bits, and then every intermediate sum does |
| Por.FieldTagsFit | src/verifier/por.rs:56-92 | secrets below P57 satisfy that demand on every file of at most 32768 slices, hence on every stored file |
| Por.AddSlice | src/verifier/por.rs:66-89 | one turn of the outer loop adds the weighted slice to every partial sum and changes nothing else |
| Por.FulfillChallenge | src/verifier/por.rs:185-226 | the answering loops compute exactly M·c mod P57, reading the first `rows` challenge entries, for any 64-bit challenge whose final sums fit 128 bits |
| Por.FieldAnswerFits | src/verifier/por.rs:197-220 | challenges below P57 never overflow on files of at most 32768 rows |
| Por.ShortAnswerFits | src/verifier/por.rs:197-220 | no 64-bit challenge whatever overflows on a file of fewer than 280 rows |
| Por.TallFileOverflows | src/verifier/por.rs:205-216 | from 280 rows on, the file of 0xFF bytes and the challenge of largest words overflow in the first slice |
| Por.OverflowExactly | src/verifier/por.rs:185-220 | for every file length: some file and challenge overflow if and only if the length gives 280 rows or more |
| Por.PairSlice | src/verifier/por.rs:197-219 | one turn of the server's outer loop is the inner product of a slice with the challenge |
| Por.Audit | src/verifier/por.rs:147-172 | for arbitrary 64-bit entries nothing overflows; the verdict is the length checks and the equality of the two folded sums, whose meaning is proved below |
| AuditTheorems.FoldMeaning | src/verifier/por.rs:157-169 | an accumulator never exceeds P57 and is congruent to the exact sum of products, for arbitrary 64-bit entries |
| AuditTheorems.FoldValue | src/verifier/por.rs:157-169 | the final accumulator for arbitrary 64-bit entries: the residue of the sum, or for a zero residue P57 or 0, decided by the last nonzero product |
| AuditTheorems.VerdictMeaning | src/verifier/por.rs:147-172 | for arbitrary 64-bit entries, two accumulators are equal if and only if the sums agree modulo P57 and, when they vanish, both or neither end at P57 |
| AuditTheorems.AcceptsExactly | src/verifier/por.rs:147-172 | the verdict on arbitrary 64-bit challenges and responses: the lengths match and the sums agree in that sense, if and only if |
| Linear.PairingExchange | src/verifier/por.rs:66-92 | the double-sum exchange behind the scheme: (M·c)·u = c·(uᵀM) for every matrix and vectors |
| AuditTheorems.AuditVerdict | src/verifier/por.rs:147-172 | whatever file with no more rows the server answers from, the audit passes if and only if it has as many slices and the two evidences agree modulo P57 (and are represented alike when zero) |
| AuditTheorems.SameShapeVerdict | src/verifier/por.rs:147-172 | the same for a file of the same dimensions |
| AuditTheorems.HonestServerPasses | src/verifier/por.rs:147-172 | completeness, exactly: an honest server passes if and only if the evidence is nonzero modulo P57 or both sums show zero alike |
| AuditTheorems.HonestAccumulators | src/verifier/por.rs:147-171 | the two accumulators of an honest audit are congruent modulo P57, and a zero residue leaves each at 0 or P57 |
| DrawnAudits.HonestServerRejected | src/verifier/por.rs:143-172 | with the secret and the challenge that the program itself draws (seeds 2020 and 20), an honest server of a given 56-byte file is rejected |
| DrawnAudits.RejectionHappens | src/verifier/por.rs:143-172 | the program does draw such vectors, so the rejection happens |
| KnownAnswers.ChallengeOf56 | src/verifier/por.rs:143-145 | the challenge of every 56-row file: none of its entries is zero, and the two entries the rejection needs |
| KnownAnswers.ProgramSeedsAccept | src/verifier/por.rs:54-54 | both seeds the program uses yield vectors of every size |
| DrawnAudits.SmallChangeIsCaught | src/verifier/por.rs:143-172 | with the vectors the program draws, every change inside one chunk of a file of at most 392 bytes is rejected: no weight is left to chance |
| AuditTheorems.CorruptServerPasses | src/verifier/por.rs:147-223 | a server with any other file of the same dimensions passes if and only if Σ(M'−M)ᵢⱼ·cⱼ·uᵢ vanishes modulo P57 (and zero is shown alike) |
| AuditTheorems.OneChunkDiscrepancy | src/verifier/por.rs:66-92 | changing one chunk leaves the single term (M'ᵢⱼ − Mᵢⱼ)·cⱼ·uᵢ |
| AuditTheorems.OneChunkIsDetected | src/verifier/por.rs:147-172 | a server that changed bytes of one chunk is rejected whenever that chunk's challenge and secret entries are nonzero |
| AuditTheorems.OneChunkVerdict | src/verifier/por.rs:147-172 | the exact verdict on a one-chunk change: noticed if and only if its weight is nonzero, otherwise judged like the original file |
| AuditTheorems.AtMostOneChallenge | src/verifier/por.rs:147-172 | where the trace of a corruption is nonzero, at most one value of that challenge entry lets the server pass, the other entries being fixed |
| AuditTheorems.AtMostOneSecret | src/verifier/por.rs:66-92 | where a chunk was changed, at most one value of that slice's secret makes the trace vanish there, the other secrets being fixed |
| AuditTheorems.AnyCorruption | src/verifier/por.rs:147-172 | soundness against any corruption of any extent: some secret and some challenge entry decide, each with at most one bad value |
| AuditTheorems.SliceDamageLeavesTrace | src/verifier/por.rs:66-92 | damage confined to one slice with nonzero secret leaves a nonzero trace at every chunk it changed |
| Primality.PrimeP57 | src/verifier/por.rs:7 | the modulus 2^57 − 13 is prime, by a certificate of element orders |
| Generator.StepInjective | src/verifier/por.rs:281-293 | with the zero matrices a state step is injective on the masked 127 bits |
| Generator.IterateInjective | src/verifier/por.rs:281-293 | so is any number of steps |
| Generator.StepKeepsLive | src/verifier/por.rs:281-293 | a step leads to the all-zero state if and only if it started there |
| Generator.NeverStuck | src/verifier/por.rs:237-302 | from every seed, no number of steps reaches the all-zero fixed point |
| Generator.Random.Init | src/verifier/por.rs:237-247 | seeding performs the seven mixing steps and certification, and leaves a live state |
| Generator.Random.PeriodCertification | src/verifier/por.rs:249-254 | only a state that is zero under the mask is replaced, by the codes of T and M, and the result is always live |
| Generator.Random.NextState | src/verifier/por.rs:281-293 | the in-place transition computes the step function for any matrices |
| Generator.NextWhenOdd | src/verifier/por.rs:281-293 | the matrices enter exactly when the scrambled word is odd |
| Generator.Random.GenerateUint64 | src/verifier/por.rs:268-279 | the output is the tempering of the state reached by one step |
| Generator.Random.RandModP | src/verifier/por.rs:256-266 | the loop ends, and its result is the next draw below P57 of the seed's stream: exactly one entry is added to those kept |
| Generator.RandVector | src/verifier/por.rs:295-309 | the loops end for every size, and the vector is the first `size` accepted draws of the seed's stream, provided the stream accepts any draw at all |
| Generator.Period | src/verifier/por.rs:281-293 | the generator is periodic from its very start, for every state: a repetition exists by counting, and injectivity carries it back |
| Generator.NextAccepted | src/verifier/por.rs:256-266 | one accepted draw recurs for ever, so the rejection loop always ends |
| Generator.VectorsExactly | src/verifier/por.rs:295-309 | vectors of every size exist if and only if the seed's stream accepts a single draw |
| Generator.VectorPrefix | src/verifier/por.rs:295-309 | vectors have the requested length and entries below P57; from one seed a shorter vector is a prefix of a longer one, and the vector of a size is unique |
| KnownAnswers.FirstSecret | src/verifier/por.rs:383-388 | the first secret entry of every file is the value the repository's own test expects |
| Contracts.RowRoundTrip | src/ledger/mod.rs:300-361 | reading back the row of a contract gives the contract, whatever columns follow |
| Contracts.RowDecodesExactly | src/ledger/mod.rs:704-767 | a row decodes to a contract if and only if its first ten columns hold the contract's fields, each in its place |
| Contracts.RowIsStored | src/ledger/mod.rs:288-370 | so it is the row stored for that contract and for no other, with values bound by name and read in the table's order |
| Contracts.RowFailsExactly | src/ledger/mod.rs:704-767 | which failure is reported for which rows: a peer that does not parse, whatever follows it, or an invalid row |
| Contracts.DimensionRoundTrip | src/verifier/por.rs:23-24 | the casts from usize to i64 and back lose nothing on any 64-bit value |
| Contracts.FieldsRoundTrip | src/verifier/por.rs:21-46 | a configuration survives `to_contract` and `from_contract`, each vector and dimension in the field of its name |
| Contracts.SecretsSurviveTheLedger | src/verifier/por.rs:39-46 | from configuration to contract to row and back, rows, cols and both secret vectors are unchanged |
| Ledger.OneCredit | src/ledger/mod.rs:446-507 | one recorded audit moves the peer's reputation by +1 or −5, leaves its stake, and leaves every other peer's row alone |
| Ledger.FirstCredit | src/ledger/mod.rs:446-503 | a peer without a row starts from zero: its first transaction stores the amount itself, with no stake |
| Ledger.NextCredit | src/ledger/mod.rs:446-503 | a peer with a row has the amount added to it and keeps its stake |
| Ledger.ReputationAccounting | src/ledger/mod.rs:413-529 | after any sequence of audits, reputation is the start plus passed minus five times failed recorded audits (wrapping at 64 bits), stake is unchanged, unaudited peers are untouched |
| Ledger.RowAccounting | src/ledger/mod.rs:413-529 | the rows themselves: a peer with recorded audits has a row that counts from its old one or from zero; every other peer's row, or lack of one, is as before |
| Ledger.SettledInTurn | src/verifier/mod.rs:100-150 | settling the audits of successive rounds is settling their concatenation |
| Ledger.LatestIsMaximal | src/verifier/mod.rs:158-160 | the claim compared with is one of those scanned, none is later, and there is none only if the scan is empty |
| Ledger.Tables.IncreaseReputation | src/ledger/mod.rs:413-525 | the transaction upserts the peer's row with the added amount, or changes nothing when the write is lost |
| Ledger.Tables.DecreaseReputation | src/ledger/mod.rs:527-529 | the same with the negated amount |
| Ledger.Tables.CreateVerifiedClaim | src/ledger/mod.rs:660-701 | the claim replaces the verifier's own earlier claim on the contract and no other |
| Ledger.Tables.GetPreviousVerified | src/ledger/mod.rs:640-658 | the contract's claims, each once, in whatever order the ledger lists them, or a failure |
| History.LastWrittenIsStored | src/ledger/mod.rs:932-939 | over any interleaving of writes the most recent claim on a contract is still stored, and none is stored if none was written |
| History.IncreasingTimesAreLatest | src/ledger/mod.rs:660-701 | if the times of a contract's claims increase, the last written one is strictly the latest stored |
| History.ScanShowsLast | src/verifier/mod.rs:152-160 | then every order in which the ledger may list the claims yields the last written one |
| History.SomeScanHidesLast | src/verifier/mod.rs:152-160 | without strictness some listing order of the same rows yields another claim |
| History.SameMillisecondHidesLast | src/ledger/mod.rs:660-701 | it happens: two claims on one contract in the same millisecond, and a listing under which the later, false one goes unflagged |
| History.FlagIsExact | src/verifier/mod.rs:152-171 | in every interleaving of honest and corrupt verifiers with increasing times, a mismatch is flagged if and only if the most recent claim on the contract came from a corrupt verifier |
| Rotation.ClosedForm | src/verifier/mod.rs:246-262 | the window of every round: the first cycle has n rounds from iteration 1, all later ones n + 1 rounds from iteration 0 |
| Rotation.WindowsInSpace | src/verifier/mod.rs:246-262 | in every reachable state start ≤ end ≤ u128::MAX and iteration ≤ n; no window is inverted |
| Rotation.WindowExactly | src/verifier/mod.rs:246-262 | the bounds of the window of every round, in multiples of u128::MAX / n |
| Rotation.WindowWidth | src/verifier/mod.rs:250-261 | every window but the last of a cycle is the n-th part of the space, rounded down |
| Rotation.CoveredExactly | src/verifier/mod.rs:114-114 | exactly which rounds audit which identifier |
| Rotation.EveryIdentifierIsCovered | src/verifier/mod.rs:246-262 | every 128-bit identifier is in the window at least once in any n + 1 consecutive rounds, including those straddling the shorter first cycle |
| Rotation.CoverageIsTight | src/verifier/mod.rs:246-262 | n rounds are not enough: n consecutive rounds of the second cycle miss identifier 0 |
| Rotation.Rotor.constructor | src/verifier/mod.rs:70-78 | the verifier starts in the first window at iteration 1 |
| Rotation.Rotor.NextIteration | src/verifier/mod.rs:246-262 | the update moves from the window of round t to that of round t + 1 without overflow |
| Verifier.Node.RewardPeer | src/verifier/mod.rs:235-244 | the ledger is credited with one passed audit |
| Verifier.Node.PunishPeer | src/verifier/mod.rs:213-233 | the ledger is debited for one failed audit; an unreadable reputation is a panic that changes nothing |
| Verifier.Node.AuditContract | src/verifier/mod.rs:119-150 | the outcome is success only if the peer answered and the audit accepted; the reputation moves accordingly, unless the audit or the punishment panics |
| Verifier.Node.HandleContract | src/verifier/mod.rs:110-172 | one contract: it adds an audit, a comparison with the latest claim in the shared table and a reputation change, or ends the verifier by one of two panics and two errors |
| Visits.OutsideIsSkipped | src/verifier/mod.rs:111-117 | a contract whose identifier (0 if it does not parse) lies outside both ends of the window leaves no trace |
| Visits.InsideIsAudited | src/verifier/mod.rs:119-150 | inside, it adds its audit and moves its keeper by +1 or −5, unless a panic comes first |
| Visits.UnreachableFails | src/verifier/mod.rs:145-149 | a peer that cannot be reached fails |
| Visits.WrongLengthFails | src/verifier/por.rs:150-155 | an answer or a challenge of the wrong length fails without indexing anything |
| Visits.SoundExactly | src/verifier/por.rs:157-165 | with the right lengths the audit indexes out of bounds if and only if a vector of the contract is too short |
| Visits.PassedExactly | src/verifier/por.rs:147-172 | otherwise the two sums over the contract's own bytes decide, for arbitrary answers |
| Visits.EndsExactly | src/verifier/mod.rs:152-163 | a visit ends the verifier if and only if it is in the window and the audit or the punishment panics, the claims cannot be read, or some claim is ahead of the clock |
| Visits.TimelyVisitGoesOn | src/verifier/mod.rs:160-171 | with a clock at or after every claim the verifier compares and goes on |
| Visits.CompletesExactly | src/verifier/mod.rs:100-172 | a turn runs to its end if and only if the contracts can be read and every visit goes on |
| Verifier.Node.AuditAll | src/verifier/mod.rs:107-172 | audits, mismatches and reputations are those of the handled contracts, compared with the ledger's table as other verifiers have left it by then; the loop stops exactly at the first contract that ends the verifier |
| Verifier.Node.WriteClaims | src/verifier/mod.rs:182-202 | one claim per audit, negated if the verifier is corrupt, refused writes ignored, interleaved with the claims of others |
| Visits.OwnClaimsAreWritten | src/verifier/mod.rs:182-195 | the claims that reach the ledger: one for each audit, in order, with the time and fate of its write; all else is what others wrote |
| Verifier.Node.Round | src/verifier/mod.rs:100-202 | a round completes if and only if the contracts can be read and none of them ends the verifier; then it settles its credits, advances the window by one and records its claims, otherwise it does neither of the last two |
| Verifier.Node.Start | src/verifier/mod.rs:99-209 | the loop ends in the first turn that does not complete; reputations, claims, flags and window are those of the completed turns, plus the audited prefix of the interrupted one |
| Runs.CreditsMatchAudits | src/verifier/mod.rs:131-150 | each audit of a round has exactly one reputation change, for the same peer and outcome |
| Runs.AuditsAreInWindow | src/verifier/mod.rs:107-150 | the audit list is exactly the in-window contracts that did not panic, in their order, with their outcomes |
| Runs.MismatchesAreFlags | src/verifier/mod.rs:152-171 | a completed round compares every in-window contract with its latest claim, in order |
| Runs.EveryContractIsAudited | src/verifier/mod.rs:110-150 | a contract that stays listed is audited in one of any n + 1 consecutive completed turns |
| Cheating.RunReportsOutcome | src/verifier/mod.rs:182-195 | over a whole run of a verifier, its claims report each audited contract's outcome, or its negation if the verifier is corrupt |
| Cheating.HistoryReportsOutcome | src/verifier/mod.rs:182-195 | so does every interleaving of the claims of any number of verifiers |
| Cheating.RoundFlagsExactly | src/verifier/mod.rs:152-171 | a completed round makes one comparison per in-window contract, in order, and flags exactly those whose most recent claim came from a corrupt verifier |
| Cheating.RunFlagsExactly | src/verifier/mod.rs:99-209 | end to end: over a whole run beside any number of other verifiers that write at any moment, every turn flags exactly the audited contracts whose most recent claim, at that moment, came from a corrupt verifier |
| Runs.FailureIsRecorded | src/verifier/mod.rs:99-209 | a contract that fails whenever it is audited, its writes being kept, costs its keeper at least one recorded failure in any n + 1 consecutive turns of a completed run |
| Runs.FailuresCost | src/verifier/mod.rs:99-209 | what failing from some turn on costs: a recorded failure in every n + 1 turns, a ledger that shows the start plus passed minus five times failed audits, and five points lost per failure if nothing passes in that time and nothing wraps |
| Keeper.HandleRequest | src/p2p/swarm.rs:330-379 | the keeper answers any challenge that does not overflow from the stored file, and with the empty vector when the file is gone |
| Keeper.AnswerableWhen | src/p2p/swarm.rs:330-352 | challenges below P57 on every stored file, and any challenge on files of fewer than 280 rows, do not overflow |
| Keeper.KeeperVerdict | src/verifier/mod.rs:133-143 | through contract and ledger, a keeper is judged by the answer of whatever file it holds |
| Keeper.TagFile | src/verifier/por.rs:48-100 | tagging ends, and the configuration holds the secrets of seed 2020 and the matching tags |
| Keeper.MakeChallenge | src/verifier/por.rs:143-145 | drawing ends, and the challenge has `rows` entries below P57, the stream of seed 20 |
| Keeper.UnreachableIsPunished | src/verifier/mod.rs:145-149 | a keeper that cannot be reached loses exactly five points if its reputation can be read and the write is kept |
| Keeper.LostFileIsPunished | src/p2p/swarm.rs:353-378 | a keeper that runs this handler and lost the file fails the audit, with the same points |
| Keeper.HonestKeeperIsRewarded | src/verifier/mod.rs:133-138 | a keeper with the file passes exactly outside the failing case; its points follow from the outcome, the readable reputation and the kept write |
| Keeper.UnluckyKeeperIsPunished | src/verifier/mod.rs:139-143 | the honest keeper of the unlucky file fails at every audit, and loses five points whenever its reputation can be read and the write is kept |
| Keeper.HonestKeeperKeepsLosing | src/verifier/mod.rs:99-209 | over a completed run, its writes being kept, that honest keeper bears the full cost of failing |
| Keeper.DamagedFileIsPunished | src/verifier/mod.rs:139-143 | a keeper that changed one chunk of nonzero weight fails, with the same points |
| Keeper.SmallChangeIsPunished | src/verifier/mod.rs:139-143 | a keeper that changed one chunk of a file of at most 392 bytes fails, whatever the chunk |
| Keeper.LossIsCaught | src/verifier/mod.rs:99-209 | end to end: a keeper that runs this handler without the file, its writes being kept, bears the full cost of failing over a completed run |
| Keeper.AbsenceIsCaught | src/verifier/mod.rs:99-209 | so does a keeper that cannot be reached |
| Keeper.KeptAnswerPassesAgain | src/verifier/por.rs:143-145 | challenges come from one fixed seed, so an answer accepted once is accepted at every later audit of the contract: a keeper that stores it needs the file no more |
| Swarm.StepKeepsSafe | src/p2p/swarm.rs:398-544 | every step keeps the safety invariant: senders used at most once, deliveries only to the command that was assigned the identifier and of its kind, one fate per command |
| Swarm.EveryRunIsSafe | src/p2p/swarm.rs:231-244 | hence every interleaving of commands and events is safe: each issued command is in exactly one of pending, answered or dropped |
| Swarm.DeliveryHasOrigin | src/p2p/swarm.rs:398-544 | every delivery of every run answers an earlier command under the identifier and kind that command was given, and carries what a later event of that identifier and matching result kind reported |
| Swarm.RunsUntilFirstError | src/p2p/swarm.rs:231-244 | the loop is running after a sequence of events if and only if no event of it made its handler return an error |
| Swarm.DeliveriesAreFinal | src/p2p/swarm.rs:398-544 | later events never retract a delivery or a drop |
| Swarm.TablesHoldOpenCommands | src/p2p/swarm.rs:596-759 | while the loop runs, the tables hold exactly the commands that no event has touched since they were issued |
| Swarm.InvalidChannelExactly | src/p2p/swarm.rs:450-544 | a result other than a get-record reports an invalid channel if and only if no command of its kind is open under its identifier |
| Swarm.NoChannelIsMissing | src/p2p/swarm.rs:450-544 | in every run where each non-get result answers an earlier command of its kind and only get results share a query, no Kademlia handler reports an invalid channel |
| Fates.CommandDecides | src/p2p/swarm.rs:546-759 | a command is taken on and open, unless its caller is gone or the local store refuses a put or a provider announcement, which ends the loop |
| Fates.FirstResultDecides | src/p2p/swarm.rs:450-544 | for each kind of query written out, the first result of its own kind is delivered, with failures of puts and gets forwarded; a failure of any other query, or a caller that is gone, ends the loop for good with the sender dropped |
| Fates.StrayResult | src/p2p/swarm.rs:450-544 | a result without an open query of its kind: a late get-record result leaves the loop running, any other ends it with an invalid channel |
| Fates.FirstReplyDecides | src/p2p/swarm.rs:398-448 | the first reply to an open verification request is delivered, or ends the loop if its caller is gone |
| Fates.StrayReply | src/p2p/swarm.rs:398-448 | any other reply ends the loop with an invalid channel |
| Fates.OtherEventsDecide | src/p2p/swarm.rs:248-328 | a controller that is gone and a response that cannot be sent end the loop; all other events change nothing |
| Swarm.GetDeliversOnlyFirst | src/p2p/swarm.rs:498-530 | a get-record query may report any number of results: the first is delivered and stays the only one |
| Swarm.StaysStopped | src/p2p/swarm.rs:231-244 | after an error no further event is handled |
| Swarm.EventLoop.HandleCommand | src/p2p/swarm.rs:546-759 | the seven command handlers perform the command step, with the errors that drop the new sender |
| Swarm.EventLoop.HandleGetRecord | src/p2p/swarm.rs:498-530 | performs the get-record step; a missing channel is not an error |
| Swarm.EventLoop.HandlePutRecord | src/p2p/swarm.rs:532-544 | performs the put-record step for local and remote puts and forwards failures |
| Swarm.EventLoop.HandleGetProviders | src/p2p/swarm.rs:480-496 | performs the provider step: no providers is forwarded, a failed query is an error |
| Swarm.EventLoop.HandleClosestPeers | src/p2p/swarm.rs:463-478 | performs the closest-peers step; a failed query is an error |
| Swarm.EventLoop.HandleStartProviding | src/p2p/swarm.rs:450-461 | performs the start-providing step; a failed query is an error |
| Swarm.EventLoop.HandleReply | src/p2p/swarm.rs:398-448 | performs the reply step for responses and for both kinds of failure |
| Swarm.EventLoop.Dispatch | src/p2p/swarm.rs:248-328 | every event is routed to its handler and has the effect and error of the step function |
| Swarm.EventLoop.Serve | src/p2p/swarm.rs:231-244 | the loop computes the run of its events and stops early only on an error |

## Left out

- RandModP: stated for the zero matrices that `rand_vector` uses, and for streams that accept a draw; whether every one of the 2^64 seeds has one is not proved, only that both seeds the program uses do.
- RandVector: likewise asks that the stream accept a draw; `VectorsExactly` shows that nothing less would do.
- TagFile: files of more than 32768 slices (over 7 GB) are excluded.
- FulfillChallenge: a sum that leaves 128 bits panics or wraps, depending on how the program is built; `OverflowExactly` says when that can happen, what follows is not modelled.
- ClientFromFile: an empty file makes the source underflow, so it is excluded, as are sums that leave 128 bits.
- RowsIsScaledCeiling: states the row formula over the reals; `RowsInDoubles` adds the rounding, from the error bound of double precision rather than from its bit patterns.
- Audit: a configuration whose secret vectors are shorter than its dimensions panics; `Indexable` excludes it here, and the verifier's loop models the panic.
- HandleRequest: a stored empty file or a challenge shorter than the file's rows panics in the source and is excluded.
- AuditVerdict: a served file with more rows than the challenge has entries makes the server panic and is excluded.
- IncreaseReputation: a transaction is atomic and 64-bit addition wraps; sessions, tokens and SQL text are not modelled.
- AuditAll: asks that the ledger list the claims its table holds; a ledger that lists others is not modelled.
- HandleReply: the inbound-failure handler looks up an inbound identifier in the outbound table; it is modelled as a reply with that identifier.
- RowRoundTrip: base58 encoding of peer identifiers and UUID text are parameters.
- FlagIsExact: assumes that the claim times on the contract increase, as does `RunFlagsExactly`; `SameMillisecondHidesLast` shows what happens otherwise.
- LossIsCaught: speaks of completed turns and of writes the ledger keeps; a lost write leaves the keeper unpunished.
- The standard library's stable sort is represented by a stable insertion sort.
- The contracts table itself (one row per file identifier, replaced by each replica's upsert) and the store loop that writes it.
- Staking: `stake_reputation` and `unstake_reputation` have no caller; only that audits leave the stake alone is proved.
- libp2p, Kademlia routing, mDNS and tokio: environment steps with arbitrary order and identifiers.
- File storage, gRPC, settings, dependency injection, benchmarks, malice simulation, hashing and key generation: plumbing.

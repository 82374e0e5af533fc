# Sotto, modelled and proved

This project models the parts of Sotto whose correctness is hardest to see by reading, and proves what
they promise. Sotto keeps secrets in environments: names and values are encrypted on the client, an
environment's vault key is granted to people and machines, and a server stores ciphertext, bills
organisations and works out who is covered by whose payments.

| files | what they model |
|---|---|
| `Coverage`, `Evaluation` | confirmed coverage facts, their normal form, episodes and the decision at an instant |
| `CoverageStore` | the append-only log of coverage revisions, with replay and optimistic concurrency |
| `Json`, `Collection`, `CollectionRefusals`, `StoredForms`, `StoredInverse` | combining every source's observations, and the JSON form they are stored in |
| `Reconciliation`, `ReconciliationRuns`, `ReconciliationResults`, `ReconciliationLoads`, `ReconciliationRefusals`, `Coordinator` | registering sources, beginning and finishing collections, as functions, over whole runs, what loads meanwhile, every refusal, and statement by statement |
| `Utf8`, `BitStrings`, `Crockford`, `Decimal`, `KeyFormat`, `KeyErrors`, `HyphenatedTags` | key strings: base32 by a 16-bit accumulator, the Fletcher-16 tag, and what it detects |
| `Aead`, `Locations`, `SecretCrypto` | the key hierarchy over ideal cryptography |
| `Rotation`, `RotationRuns` | rotating an environment: the client's request, and the server applying requests that cross |
| `LocalStore`, `StoreRuns`, `LocalVault`, `VaultModel`, `VaultRuns` | the local store, secrets by name over it, and the map they stand for |
| `EnvCommands`, `Promotion` | comparing environments and copying one onto another |
| `Dotenv`, `DotenvForms`, `Export`, `ShellExport` | `.env` text and shell commands, written and read |
| `Billing`, `BillingRuns`, `BillingTies`, `BillingLinks` | Stripe webhooks under reordering, duplication and pruning |
| `HealthProbe`, `CommunityCache` | caches that let one caller work while the others wait |
| `Ordering`, `ByteOrder`, `Text`, `Outcomes` | string order and sorting, whitespace, absent values and failures |

Code that changes tables or fields is a class or a method with loops, proved to compute a function of the
old state; whole runs are sequences of those functions, and the main results quantify over every run, every
order of callers and every input.

How the model reads the program:

- A table is a map; a transaction is one step, and an error rolls it back, as the callers do. Random ids and
  keys, clock readings, a provider's answers and the rows a clock has expired are parameters.
- A sealed blob opens exactly under its own key and associated data; a sealed box opens for its recipient
  only. Nonces and tampered bytes have no structure beyond not opening.
- 64-bit counters of the coverage code are 64-bit, and overflow is an error as it is there; the accumulator of
  the key codec is a 16-bit word.
- Strings are sequences of Unicode scalar values, compared as the program compares their bytes. The server's
  byte order and the database's collation of event ids are taken to be one order.
- Ids inserted by a vault are fresh in the statements about whole runs; a collision is a storage error that
  changes nothing, and single steps cover it.

Two comments in the program promise more than its code does; the model follows the code, and states exactly
what holds:

- `crates/core/src/format.rs:73-74` has a wrong prefix or version rejected. That holds between tags without
  hyphens (`KeyFormat.OpensUnderItsOwnHeadOnly`); a hyphen can end the head early (`HyphenatedTags.HyphensConfuse`).
- `crates/server/src/billing.rs:1252-1253` does not let arrival order decide between events of one time. If the
  one with the greater id arrives first its payload is applied, and the other is then passed over without asking
  the provider. Arrival makes no difference exactly when the provider's tier is that of the greater event
  (`BillingTies.TieOutcomes`, `BillingTies.ArrivalDecides`); what any run with ties ends in is `BillingTies.GreatestDecidesTier`.

Run `dafny verify dfyconfig.toml` to check everything.

## Model

| member | source | states |
|---|---|---|
| ReconciliationRuns.RunKeepsInv | crates/server/src/cloud_coverage_reconciliation.rs:183-598 | From any state that meets the invariant, any sequence of registrations, beginnings and finishes, with any old tickets and with failed calls rolled back, meets it again; no source, binding, completed attempt or revision is lost or changed |
| ReconciliationRuns.ApplyKeepsInv | crates/server/src/cloud_coverage_reconciliation.rs:183-598 | One call, whether it succeeds or fails, keeps the invariant and everything already recorded |
| ReconciliationRuns.EmptyInv | crates/server/src/cloud_coverage_reconciliation.rs:183-598 | The empty tables meet the invariant, so the claims below hold in every reachable state |
| ReconciliationRuns.RegisterCases | crates/server/src/cloud_coverage_reconciliation.rs:183-347 | A successful registration either answers a repeat and changes nothing, or adds the source at the next generation, supersedes every pending attempt and publishes an unavailable revision |
| ReconciliationRuns.BeginCases | crates/server/src/cloud_coverage_reconciliation.rs:354-460 | A successful begin either reads back the stored ticket unchanged, or supersedes what was pending and stores an attempt at the next epoch, the current generation and the head, holding every registered binding |
| ReconciliationRuns.FinishCases | crates/server/src/cloud_coverage_reconciliation.rs:466-598 | A successful finish either answers a repeat and changes nothing, or completes the current pending attempt with exactly one new revision holding the combined projection |
| ReconciliationRuns.StoredAttemptValid | crates/server/src/cloud_coverage_reconciliation.rs:746-967 | No attempt in a reachable state reads as corrupt: its ticket parses back, its bindings are those of the sources registered up to its generation, and its stored result validates to the stored receipt |
| ReconciliationRuns.CollectionPublishable | crates/server/src/cloud_coverage_reconciliation.rs:640-717 | Whatever a collection combines, publishing accepts it, and stores exactly the union of the facts or the combined reason |
| ReconciliationResults.OnePendingAttempt | crates/server/src/cloud_coverage_reconciliation.rs:354-460 | In every reachable state a pending attempt is the only one of its beneficiary, is the current one, has the current generation, and expects the head |
| ReconciliationResults.PendingFinishes | crates/server/src/cloud_coverage_reconciliation.rs:466-598 | In every reachable state, finishing a pending attempt with its own ticket succeeds exactly when the evidence is named, the batch is acceptable and the head can be counted past; it then gets the next revision |
| ReconciliationResults.SupersededNeverPublishes | crates/server/src/cloud_coverage_reconciliation.rs:511-537 | Once superseded, an attempt stays so through any later calls, finishing it always fails, and no revision carries its operation |
| ReconciliationResults.FinishReplay | crates/server/src/cloud_coverage_reconciliation.rs:511-534 | Finishing again after any later calls returns the original revision and changes nothing, with the observations permuted and their facts permuted or repeated |
| ReconciliationResults.RegisterReplay | crates/server/src/cloud_coverage_reconciliation.rs:229-257 | Registering again after any later calls returns the original receipt and changes nothing |
| ReconciliationResults.CompleteHeadCoversEverySource | crates/server/src/cloud_coverage_reconciliation.rs:466-598 | In every reachable state, what loading returns was published by one finish of the run: that step's own observations completed an attempt of the current generation with that revision, they are one complete observation for every source now registered, the stored result is their canonical form, the facts loaded are exactly their union, and at every instant the decision for them is the decision for all those facts |
| ReconciliationResults.CompletingStep | crates/server/src/cloud_coverage_reconciliation.rs:466-598 | Every completed attempt of a reachable state was completed by one finish of the run, with its own ticket, and holds that step's observations and the revision it was answered |
| ReconciliationLoads.RegistrationPublishes | crates/server/src/cloud_coverage_reconciliation.rs:259-347 | A new registration adds one revision at the head, unavailable with reason needs_reconciliation on the evidence of ownership and with no facts, and loading then answers that reason |
| ReconciliationLoads.FinishLoads | crates/server/src/cloud_coverage_reconciliation.rs:538-718 | What loads after a finish that takes effect is conflicting evidence if any source reports it, else needs_reconciliation if any source is unavailable, else exactly the facts the observations report, at its revision |
| ReconciliationLoads.LoadingFollowsRun | crates/server/src/cloud_coverage_reconciliation.rs:183-598 | At every moment of every run: nothing for a beneficiary without a source; after its last effective step, needs_reconciliation if that was a registration, and what its observations say if it was a finish |
| ReconciliationRefusals.RegisterEnds | crates/server/src/cloud_coverage_reconciliation.rs:183-347 | In every reachable state, exactly how a registration ends: each refusal with its cause and in its order, the repeat's receipt, or the next generation and revision |
| ReconciliationRefusals.BeginEnds | crates/server/src/cloud_coverage_reconciliation.rs:354-460 | The same of a begin; its ticket says what is stored of the attempt, and binds exactly the sources registered up to its generation, ascending |
| ReconciliationRefusals.FinishEnds | crates/server/src/cloud_coverage_reconciliation.rs:466-598 | The same of a finish: a ticket differing from the stored one in any part conflicts, a completed attempt answers again for its own evidence and content only, a pending one takes the next revision |
| ReconciliationResults.RegisterSucceedsWhen | crates/server/src/cloud_coverage_reconciliation.rs:183-347 | A registration succeeds exactly when its fields are well formed and it either repeats the earlier one of that operation or uses a source, an allocation and an operation that are free, below the counters' limits; its failures are never corruption |
| ReconciliationResults.BeginSucceedsWhen | crates/server/src/cloud_coverage_reconciliation.rs:354-460 | A begin succeeds exactly when the ids are named, the beneficiary has a source, and the attempt exists or the epoch can be counted past; its failures are never corruption |
| ReconciliationResults.NeverCorrupt | crates/server/src/cloud_coverage_reconciliation.rs:183-598 | No call in any reachable state reports a corrupt row, a broken constraint, a bootstrap conflict or a revision conflict |
| Coordinator.Transaction.RegisterInTransaction | crates/server/src/cloud_coverage_reconciliation.rs:183-347 | The statements of a registration, in their order, leave the tables, the receipt or the error of the registration the run theorems speak of |
| Coordinator.Transaction.InsertSource | crates/server/src/cloud_coverage_reconciliation.rs:259-347 | A new source row, the superseding of attempts, the generation, the publication and the stored projection revision together are one new registration |
| Coordinator.Transaction.BeginInTransaction | crates/server/src/cloud_coverage_reconciliation.rs:354-460 | The statements of a begin leave the tables and the ticket, or the error, of the begin the run theorems speak of |
| Coordinator.Transaction.FinishInTransaction | crates/server/src/cloud_coverage_reconciliation.rs:466-598 | The statements of a finish leave the tables and the receipt, or the error, of the finish the run theorems speak of |
| Coordinator.Transaction.CompletePending | crates/server/src/cloud_coverage_reconciliation.rs:538-598 | Combining, publishing, completing the attempt and clearing the current one are one completed finish |
| Coordinator.Transaction.SelectRegistration | crates/server/src/cloud_coverage_reconciliation.rs:229-241 | The row a registration repeats is found whatever order the rows come in |
| Coordinator.Transaction.SelectBindings | crates/server/src/cloud_coverage_reconciliation.rs:394-408 | The bindings of a set of sources come back in ascending order of source id whatever order the rows come in |
| Coordinator.Transaction.ValidateAttempt | crates/server/src/cloud_coverage_reconciliation.rs:842-919 | Reading and checking a stored attempt gives its completion, none for an unfinished one, or the reason it is corrupt |
| Coordinator.Transaction.Execute | crates/server/src/cloud_coverage_reconciliation.rs:180-598 | A call followed by commit, or by rollback on error, is one step of a run, and keeps the invariant |
| Collection.CombineObservations | crates/server/src/cloud_coverage_reconciliation.rs:600-718 | The loops over observations, facts and identifiers, with their maps, compute the combined result and projection or the first error |
| Collection.NoteFacts | crates/server/src/cloud_coverage_reconciliation.rs:640-680 | Noting one source's facts against those of the others finds the first clash, or adds them all |
| Collection.CollectionAccepts | crates/server/src/cloud_coverage_reconciliation.rs:600-680 | A batch is accepted exactly when it holds one observation for every binding, each of its own source, and all facts together agree |
| Collection.CollectionCombines | crates/server/src/cloud_coverage_reconciliation.rs:681-718 | The combination is unavailable when any source is, conflicting evidence winning; otherwise it is exactly the union of the facts, already in the form normalising gives |
| Collection.CollectionIgnoresOrder | crates/server/src/cloud_coverage_reconciliation.rs:600-718 | Neither the order of observations nor the order or repetition of facts within one changes the stored result or the projection |
| CollectionRefusals.CollectionRefused | crates/server/src/cloud_coverage_reconciliation.rs:600-680 | A collection is refused for its number of observations, or for the first observation that does not fit beside those before it, with the reason that is its own |
| StoredForms.BindingsRoundTrip | crates/server/src/cloud_coverage_reconciliation.rs:774-840 | Ascending valid bindings stored as JSON parse back as themselves |
| StoredForms.StoredResultValidates | crates/server/src/cloud_coverage_reconciliation.rs:921-1052 | The result stored for an accepted batch parses, canonicalises again to the same value, and validates as itself |
| StoredForms.FactRoundTrip | crates/server/src/cloud_coverage_reconciliation.rs:1021-1052 | A stored interval parses back as the fact it was written from |
| StoredForms.ObservationRoundTrip | crates/server/src/cloud_coverage_reconciliation.rs:969-1019 | A stored observation parses back as the observation with its facts in normal form |
| StoredInverse.BindingsParseWhen | crates/server/src/cloud_coverage_reconciliation.rs:774-840 | Stored bindings parse exactly when they are the form of valid bindings of the beneficiary, at least one, ascending; and then to those |
| StoredInverse.ObservationReadsBack | crates/server/src/cloud_coverage_reconciliation.rs:969-1052 | A stored observation that parses is the form of what it parses to |
| StoredInverse.ResultValidatesWhen | crates/server/src/cloud_coverage_reconciliation.rs:921-967 | A stored result validates exactly when its evidence is named and some batch of the bindings combines to it |
| CoverageStore.Store.PublishProjection | crates/server/src/cloud_coverage_store.rs:130-283 | Publishing in place gives the tables, receipt or error of the publication function, validations in the code's order |
| CoverageStore.Store.PublishCanonicalProjection | crates/server/src/cloud_coverage_store.rs:146-283 | Replay detection, the expectation check and the inserts, in place, are one publication |
| CoverageStore.Store.ReadRevision | crates/server/src/cloud_coverage_store.rs:392-410 | The current revision, none, or corruption for a head without one |
| CoverageStore.CanonicalProjectionOf | crates/server/src/cloud_coverage_store.rs:412-434 | A projection in canonical form, or the reason it is refused |
| CoverageStore.PublishKeepsLog | crates/server/src/cloud_coverage_store.rs:130-283 | Revisions stay exactly 1 to the head, each expecting its predecessor, one per operation, each canonical, and no earlier one changes |
| CoverageStore.EmptyLog | crates/server/src/cloud_coverage_store.rs:130-283 | The empty tables are such a log |
| CoverageStore.PublishAllKeepsLog | crates/server/src/cloud_coverage_store.rs:130-283 | The same over any sequence of publications by anyone |
| CoverageStore.PublishFresh | crates/server/src/cloud_coverage_store.rs:215-283 | A publication not made before succeeds exactly when it expects the head and the head can be counted past, and otherwise fails with exactly the stated error |
| CoverageStore.PublishReplay | crates/server/src/cloud_coverage_store.rs:179-213 | Publishing again after any later history returns the first revision and changes nothing, with the facts permuted or repeated |
| CoverageStore.PublishRefusesFirst | crates/server/src/cloud_coverage_store.rs:130-178 | The first thing wrong with a request is what is reported |
| CoverageStore.PublishRepeated | crates/server/src/cloud_coverage_store.rs:179-213 | An operation already in the log is answered with its revision for the recorded expectation, evidence and content, and with a conflict for any other; nothing changes |
| CoverageStore.LoadIsSound | crates/server/src/cloud_coverage_store.rs:286-386 | Over any history loading returns the head's facts, or the stored reason, or that there is no projection; its consistency checks never fail |
| Coverage.NormaliseConfirmedIntervals | crates/server/src/cloud_coverage.rs:223-283 | The loop over facts with its two maps computes the normal form or the first error, whatever order the map gives its values in |
| Coverage.NormaliseAdmits | crates/server/src/cloud_coverage.rs:223-283 | Facts are admitted exactly when each is well formed and no two of one identity differ; what is admitted is each fact once, ascending |
| Coverage.NormaliseIgnoresOrder | crates/server/src/cloud_coverage.rs:223-283 | Order and repetition of the facts change nothing |
| Coverage.NormaliseFixedPoint | crates/server/src/cloud_coverage.rs:223-283 | Ascending admissible facts are their own normal form |
| Coverage.NormaliseIdempotent | crates/server/src/cloud_coverage.rs:223-283 | Normalising what was normalised changes nothing |
| Coverage.RefusedForFirst | crates/server/src/cloud_coverage.rs:223-283 | Facts are refused for the first that cannot be admitted beside those before it, with the error that is its own |
| Evaluation.EligibleIntervals | crates/server/src/cloud_coverage.rs:186-217 | The derived intervals are exactly the paid parts and the recovery parts of the facts, in order of start, end and kind, or the facts' error |
| Evaluation.Episodes | crates/server/src/cloud_coverage.rs:285-299 | Merging keeps exactly the covered instants, and leaves episodes that do not touch |
| Evaluation.Evaluate | crates/server/src/cloud_coverage.rs:118-184 | Exactly when the facts are admitted and no deadline overflows, the result is a decision, and it is the one the pointwise reading of paid and recovery intervals demands; an overflowing export deadline fails closed |
| Evaluation.DecisionUnique | crates/server/src/cloud_coverage.rs:118-184 | The pointwise reading allows one decision |
| Evaluation.DecisionIgnoresOrder | crates/server/src/cloud_coverage.rs:118-184 | Order and repetition of the facts change no decision and no overflow |
| Evaluation.PartsCover | crates/server/src/cloud_coverage.rs:186-217 | The derived intervals cover an instant, as paid or as recovery, exactly when some fact does |
| Crockford.SymbolTable | crates/core/src/format.rs:56-69 | A character reads as a value exactly when, upper-cased, it is that place in the alphabet, or O for 0, or I or L for 1; nothing else reads |
| Crockford.Alphabet | crates/core/src/format.rs:10 | Every value's character is its place in the alphabet |
| Crockford.EitherCase | crates/core/src/format.rs:56-69 | Lower-case letters read as the upper-case ones; U and the hyphen are no symbols |
| Crockford.EncodeBytes | crates/core/src/format.rs:13-32 | The 16-bit accumulator loop writes the symbols whose bits are the bytes' bits followed by fewer than five zeros |
| Crockford.DecodeText | crates/core/src/format.rs:35-54 | The accumulator loop reads the symbols' bits back eight at a time, skipping hyphens, and fails at the first character that is no symbol |
| Crockford.EncodedBits | crates/core/src/format.rs:13-32 | The bits of the encoded symbols are the bytes' bits and then zeros up to a whole symbol |
| Crockford.Read | crates/core/src/format.rs:18-19 | Shifting the next number into the accumulator loses no live bit of the 16-bit word |
| Crockford.Lengths | crates/core/src/format.rs:13-54 | n bytes encode to ceil(8n/5) characters; m characters other than hyphens decode to floor(5m/8) bytes |
| Crockford.GroupRoundTrip | crates/core/src/format.rs:116-123 | Decoding the grouped encoding of any bytes gives the bytes |
| Crockford.GroupPlaces | crates/core/src/format.rs:116-123 | Every sixth place of the grouped text is a hyphen, and the others are the characters in their order |
| KeyFormat.Fletcher16 | crates/core/src/format.rs:107-114 | The two running sums are the byte sum and the sum weighted by distance from the end, each modulo 255 |
| KeyFormat.SumConcat | crates/core/src/format.rs:107-114 | The weighted sum of two parts: every byte of the first counts once more for each byte of the second |
| KeyFormat.EncodeKey | crates/core/src/format.rs:75-81 | The key written is the head, then the grouped base32 of payload and checksum |
| KeyFormat.DecodeKey | crates/core/src/format.rs:84-96 | A key is read or refused for its head, a symbol, its length or its checksum, in that order |
| KeyFormat.KeyRoundTrip | crates/core/src/format.rs:75-96 | For every tag, version and payload, reading the key written gives the payload |
| KeyFormat.KeyShape | crates/core/src/format.rs:75-114 | A key is tag, version, hyphen, and the grouped base32 of the payload, its byte sum and its weighted sum over tag, version and payload, modulo 255 |
| KeyFormat.OpensWhen | crates/core/src/format.rs:84-96 | A text opens to a payload exactly when its head is the tag's and version's and the rest decodes to payload and checksum; which error it gives otherwise |
| KeyFormat.OpensUnderItsOwnHeadOnly | crates/core/src/format.rs:73-96 | Between tags without hyphens, a key opens under a tag and version exactly when they are its own |
| HyphenatedTags.HyphensConfuse | crates/core/src/format.rs:75-96 | With a hyphen in a tag that fails: a concrete key of another tag and version opens under SK version 1 to a payload nobody encoded |
| KeyErrors.OneWrongSymbol | crates/core/src/format.rs:35-114 | Replacing any one symbol of a key's body by any character but a hyphen makes reading fail or gives the same payload |
| KeyErrors.SymbolChangesTwoBytes | crates/core/src/format.rs:35-54 | Replacing one symbol changes at most two neighbouring bytes, by amounts that neither checksum sum can miss |
| Locations.OneLocation | crates/core/src/vault.rs:232-245 | Over ids of letters, digits, _ and -, no two of all secret fields and display names share their associated data: not two environments, secrets, versions, fields or kinds |
| Locations.DelimitersForge | crates/core/src/vault.rs:232-236 | Without that restriction on ids two different secrets can share it |
| Locations.OpensInPlace | crates/core/src/names.rs:21-71 | A sealed blob opens exactly under its own key at its own location |
| SecretCrypto.ReadsWhereWritten | crates/core/src/vault.rs:86-192 | A secret written for one environment, id and version reads as its name and value under its own vault key there, and fails under any other key or place |
| SecretCrypto.FieldsDoNotMix | crates/core/src/vault.rs:119-154 | A field read with another write's data key opens only as that field at that place under that very data key |
| SecretCrypto.DisplayNamesStay | crates/core/src/names.rs:32-71 | A display name opens only as the name of its own record and kind, and never as part of a secret |
| SecretCrypto.RewrapKeepsMeaning | crates/core/src/vault.rs:200-216 | A rewrap succeeds exactly where the data key could be unwrapped; afterwards the new vault key reads what the old one read, and no other key unwraps it |
| SecretCrypto.GrantReachesRecipient | crates/core/src/vault.rs:56-72 | A grant opens to the vault key for its recipient's secret and for no other |
| Rotation.RotateEnv | web/src/VaultView.tsx:272-323 | Rotation posts a request exactly when every row unwraps and every holder has a key on file, and the request rewraps every current and past data key and grants the new key to every holder and machine; otherwise it says why |
| Rotation.GrantHolders | web/src/VaultView.tsx:306-313 | The loop over holders grants to each in order, or names one without a public key |
| Rotation.RotationKeepsEverything | web/src/VaultView.tsx:294-323 | After a rotation every current and past plaintext reads under the new key as before, no other key unwraps any of them, and each holder's and machine's grant opens for it alone, to the new key |
| RotationRuns.Server.Rotate | crates/server/src/sync/grants.rs:228-493 | One transaction refuses a request for the first of nine reasons that holds, in the code's order, and changes nothing; or applies every statement of it and moves the revision on |
| RotationRuns.Rekey | crates/server/src/sync/grants.rs:376-418 | The loop of UPDATE statements over the keys of a request, one statement per key, acting on every row it names |
| RotationRuns.AppliedRotation | crates/server/src/sync/grants.rs:314-450 | A client's request, matched to the rows by secret id, by id and version, or by token id, gives each row its own rewrapped key, and leaves every holder and token a grant it alone opens |
| RotationRuns.AcceptedCovers | crates/server/src/sync/grants.rs:249-410 | A request by anyone that is accepted was built at this revision, names its caller and only members, none twice, and has a key for every secret, kept version and token |
| RotationRuns.CurrentIsAccepted | crates/server/src/sync/grants.rs:249-410 | A request built from the rows as they are is accepted exactly when its caller holds a grant and every holder is still a member |
| RotationRuns.CrossedIsRefused | crates/server/src/sync/grants.rs:336-348 | Of requests built from the same rows at most one is accepted: once another has been, a request is refused and changes nothing |
| RotationRuns.RotationsKeepPlaintexts | crates/server/src/sync/grants.rs:314-468 | Over any run of requests, built by anyone from the rows at any earlier moment: every current and past version reads under the newest key as it read at first, and the same people and machines hold grants |
| RotationRuns.LastRotationHolds | crates/server/src/sync/grants.rs:314-468 | After the last accepted request, whatever is refused later, no key but its own unwraps any row, and every holder and machine has a grant it alone opens, to that key |
| RotationRuns.RotationsKeepWritten | crates/core/src/vault.rs:86-216 | Rows written under one vault key are, after any such run, exactly the rows that writing the same values under the newest key would give |
| RotationRuns.ReadsAfterRotations | crates/core/src/vault.rs:86-216 | So after any such run a written secret reads as its name and value under the newest key at its own place, and fails under every other key, old ones included, and at every other place |
| RotationRuns.WrittenCanRotate | web/src/VaultView.tsx:272-323 | An environment of written rows can be rotated exactly when every holder has a key on file |
| LocalStore.Store.SecretRows | crates/cli/src/store.rs:365-385 | A listing holds each row of the environment with that tombstone state once, in no promised order |
| LocalStore.Store.InsertSecret | crates/cli/src/store.rs:388-416 | A first version and its history row together, or nothing: refused for an id taken or an unknown environment |
| LocalStore.Store.UpdateSecret | crates/cli/src/store.rs:423-477 | The next version and its history row together, undeleting the row, or nothing with NotFound, Conflict or a storage error |
| LocalStore.Store.DeleteSecret | crates/cli/src/store.rs:480-489 | A live row becomes a tombstone, its history kept; otherwise NotFound |
| LocalStore.Store.SecretVersions | crates/cli/src/store.rs:492-506 | Exactly the versions kept of the secret, ascending |
| LocalStore.Store.PutRemoteSecret | crates/cli/src/store.rs:554-590 | The server's row replaces the local one; a version already in history stays as recorded |
| LocalStore.Store.RecordVersion | crates/cli/src/store.rs:613-637 | A history row is added unless that version has one |
| LocalStore.HistoryOverRuns | crates/cli/src/store.rs:388-590 | Over any run of writes, deletes and pulls, no history entry changes or is lost, and every row's current version has its entry |
| StoreRuns.StatementEffect | crates/cli/src/store.rs:387-637 | Each insert, update, delete and pull, field by field: a refused one changes nothing; any other leaves its own row as it says, and every other row, the environments and all earlier history alone |
| StoreRuns.StatementAnswer | crates/cli/src/store.rs:387-637 | Each statement is done exactly when it succeeds, and otherwise refused with its own error |
| StoreRuns.PullReplaces | crates/cli/src/store.rs:551-590 | After a pull the row holds the server's environment, ciphertext, version and deletion; no other row changes, and the version is in history |
| StoreRuns.PullReads | crates/cli/src/store.rs:551-590 | A pulled tombstone is in no live listing; a pulled live secret written for its own place is listed and reads as its name and value |
| StoreRuns.PullThenGet | crates/cli/src/vault.rs:130-135 | So asking for its name gives the value pulled, or after a tombstone NotFound |
| StoreRuns.RowOverRuns | crates/cli/src/store.rs:387-590 | After any run a row is what the last statement that took hold of it left; it is deleted exactly when that was a delete or a pull of a tombstone |
| LocalVault.Vault.ResolveName | crates/cli/src/vault.rs:213-220 | The first matching row is found by decrypting, or none matches and all were readable, or one was not |
| LocalVault.Vault.Set | crates/cli/src/vault.rs:96-127 | Setting writes the next version of a live row of that name, else of a deleted one, else a first version under a new id; or fails on an unreadable row, changing nothing |
| LocalVault.Vault.Get | crates/cli/src/vault.rs:130-135 | The value of a live row of that name, or NotFound when none has it, or a failure to decrypt |
| LocalVault.Vault.Delete | crates/cli/src/vault.rs:150-155 | A live row of that name becomes a tombstone, or NotFound when none has it |
| LocalVault.Vault.FindIdByName | crates/cli/src/vault.rs:159-164 | A live row of that name is preferred, then a deleted one |
| LocalVault.Vault.Entries | crates/cli/src/vault.rs:193-200 | All live entries decrypted and sorted by name, or a failure |
| LocalVault.Vault.ListNames | crates/cli/src/vault.rs:138-147 | All live names decrypted and sorted, or a failure |
| LocalVault.OpenVault | crates/cli/src/vault.rs:56-79 | An environment opens to the vault key its grant holds for this keypair, or NotFound, or a failure to decrypt |
| VaultModel.UniqueNames | crates/cli/src/vault.rs:204-220 | Where rows stand for a map of names, two rows of one name, live or deleted, are one row |
| VaultModel.GetReadsMap | crates/cli/src/vault.rs:130-135 | There, getting a name gives the map's value, or NotFound exactly when the name is not in it |
| VaultModel.EntriesListMap | crates/cli/src/vault.rs:193-200 | There, the entries are exactly the map's, ascending by name |
| VaultModel.NamesAreSorted | crates/cli/src/vault.rs:138-147 | There, the names are exactly the map's, ascending |
| ByteOrder.StrLeIsByteOrder | crates/cli/src/vault.rs:138-147 | Comparing strings character by character is comparing their UTF-8 bytes, so every sorted list here is in the order of bytes |
| Utf8.DecodeStrict | crates/cli/src/vault.rs:240-250 | A name decodes only from the bytes it encodes to |
| VaultRuns.StepRefines | crates/cli/src/vault.rs:96-155 | One set or delete on the rows is one on the map, with the expected outcome; a refused one changes nothing |
| VaultRuns.StepKeepsOthers | crates/cli/src/vault.rs:96-155 | A set or delete leaves every other environment standing for what it stood for |
| VaultRuns.RunRefines | crates/cli/src/vault.rs:96-155 | Over any run with fresh ids the rows stand for the map after the same operations; every set succeeds and a delete fails exactly when its name is not live |
| VaultRuns.RowsAfterRun | crates/cli/src/vault.rs:86-155 | After any run from an empty environment a name has one row exactly if it was ever set; its history is versions 1 to the number of sets, version v reading as the v-th value, across deletion and resurrection; it is live exactly if its last operation set it |
| EnvCommands.EnvDiff | crates/cli/src/commands.rs:102-133 | One entry for every name of either environment, ascending, showing as left and right exactly what the left and the right environment hold, with the status the two shown values imply; it fails exactly with the failure of reading a side, the left one first |
| EnvCommands.EnvCopy | crates/cli/src/commands.rs:140-170 | The plan sorts the source's names by what the destination holds; with apply, exactly the listed sets run in order; it fails only for equal names, an environment that cannot be opened or read, with nothing written, or a set that fails, after exactly the sets before it |
| Promotion.CopySucceeds | crates/cli/src/commands.rs:140-170 | Between two environments that open and stand for maps of values, with fresh ids, a copy succeeds |
| Promotion.CopyPromotes | crates/cli/src/commands.rs:140-170 | Applying succeeds there, makes the destination's map its own overridden by the source's, adds one version to exactly the names listed as created or updated, and leaves the source alone |
| Promotion.DryRunPredicts | crates/cli/src/commands.rs:140-170 | Without apply the command succeeds, changes nothing, and reports the very plan that applying reports |
| Promotion.DiffComparesMaps | crates/cli/src/commands.rs:102-133 | Comparing two environments that open and stand for maps succeeds; the names are the keys of either map, ascending; the left value is the left map's, the right value the right map's, and the status follows from the two |
| Promotion.PlanPartsSource | crates/cli/src/commands.rs:152-168 | Computed from the source's sorted entries, the three lists part the source's names into new, different and equal, each ascending |
| Promotion.DiffMatchesPlan | crates/cli/src/commands.rs:102-170 | The statuses of a comparison are the lists of the plan |
| Promotion.CopyAgain | crates/cli/src/commands.rs:140-170 | The same command run a second time succeeds, writes nothing and reports nothing new or changed |
| Dotenv.Parse | crates/cli/src/dotenv.rs:17-44 | The loop over lines gives the pairs the lines assign, in order, or the first bad line and why |
| Dotenv.UnescapeDouble | crates/cli/src/dotenv.rs:75-97 | The loop over characters undoes the escapes, keeping unknown ones |
| Dotenv.ParseValue | crates/cli/src/dotenv.rs:53-62 | A value is literal between single quotes, unescaped between double quotes, else trimmed |
| Dotenv.ParsedNamesValid | crates/cli/src/dotenv.rs:34-41 | Every name that parses is a valid name |
| DotenvForms.SingleQuoted | crates/cli/src/dotenv.rs:53-73 | A single-quoted value is what is between the quotes, whatever space surrounds them |
| DotenvForms.DoubleQuoted | crates/cli/src/dotenv.rs:53-73 | A double-quoted value is what is between the quotes, escapes read |
| DotenvForms.Unquoted | crates/cli/src/dotenv.rs:53-62 | Any other value is its text without surrounding space; nothing in it means anything |
| DotenvForms.Assignment | crates/cli/src/dotenv.rs:22-42 | A line with a valid name, space around it, and `=` assigns the value of the rest; only a name `export` followed by a space reads otherwise |
| DotenvForms.ExportedAssignment | crates/cli/src/dotenv.rs:27-42 | The same line after `export ` assigns the same |
| DotenvForms.NothingAssigned | crates/cli/src/dotenv.rs:22-26 | A blank line or a comment assigns nothing |
| DotenvForms.LineEnds | crates/cli/src/dotenv.rs:22 | A line ends at a line feed, with or without a carriage return before it, and the last line need not end |
| DotenvForms.NamesAccepted | crates/cli/src/dotenv.rs:46-51 | The text key= assigns the empty value to that key exactly when the key is non-empty, of ASCII letters, digits and underscores, with no digit first |
| DotenvForms.EscapesRead | crates/cli/src/dotenv.rs:75-97 | What each escape stands for, that other pairs stay as they are, and that other characters stand for themselves |
| DotenvForms.BomIgnored | crates/cli/src/dotenv.rs:20-21 | One byte-order mark at the very start is ignored, and only there |
| DotenvForms.LinesRefused | crates/cli/src/dotenv.rs:23-39 | A line that is no comment is refused when it has no equals sign, or for a name that is no identifier |
| DotenvForms.FirstBadLine | crates/cli/src/dotenv.rs:22-44 | A text is refused exactly when some line is bad, for the first of them and by its number |
| Export.RenderDotenv | crates/cli/src/export.rs:28-37 | The loop writes one quoted line an entry |
| Export.DotenvQuote | crates/cli/src/export.rs:40-54 | The loop writes the escaped value between double quotes |
| Export.UnescapeEscape | crates/cli/src/export.rs:40-54 | Unescaping undoes escaping for every value, and an escaped value holds no line end |
| Export.RenderThenParse | crates/cli/src/export.rs:28-54 | For entries with valid names and any values, parsing the rendering gives the entries |
| Export.ParseRenderParse | crates/cli/src/dotenv.rs:17-97 | Whatever parses says the same after being rendered and parsed again |
| ShellExport.RenderShell | crates/cli/src/export.rs:56-66 | The loop writes one export command an entry |
| ShellExport.ShellQuote | crates/cli/src/export.rs:69-81 | The loop writes the value between single quotes, each quote in it escaped |
| ShellExport.ShellReadsExports | crates/cli/src/export.rs:56-81 | Read by the POSIX.1-2017 Shell Command Language, sections 2.2.1 and 2.2.2, the rendering is exactly one export of the original value for each entry when no value holds a NUL, and unreadable otherwise |
| Billing.Server.Webhook | crates/server/src/billing.rs:834-938 | One delivery, rolled back when it fails, leaves the tables and the answer the run theorems speak of |
| Billing.Server.RecordWebhookEvent | crates/server/src/billing.rs:950-993 | The event's receipt is recorded, and the event may apply, must reconcile or is passed over by its receipt and its subscription's watermark |
| Billing.Server.RecordWebhookReceipt | crates/server/src/billing.rs:995-1015 | A receipt is inserted unless the event has one |
| Billing.Server.PruneWebhookEvents | crates/server/src/billing.rs:1017-1040 | Expired receipts go, except those a watermark refers to |
| Billing.Server.UpdateWatermark | crates/server/src/billing.rs:1067-1086 | The watermark moves to the event if that comes after it |
| Billing.Server.CheckoutCompleted | crates/server/src/billing.rs:1112-1167 | A checkout puts the active organisation it names on the team tier with its customer and subscription, or nothing |
| Billing.Server.SubscriptionUpdated | crates/server/src/billing.rs:1171-1216 | A recognised status sets the tier of the active organisation it concerns, or nothing |
| Billing.Server.SubscriptionDeleted | crates/server/src/billing.rs:1220-1250 | The organisation concerned returns to the free tier and loses the link, or nothing |
| Billing.Server.ReconcileSubscription | crates/server/src/billing.rs:1254-1303 | The provider's answer, not the event, sets tier and link |
| Billing.Server.FindOrg | crates/server/src/billing.rs:1307-1323 | The organisation is the one the metadata names, else the one linked, else none |
| BillingRuns.EffectsAscend | crates/server/src/billing.rs:950-1086 | Events of one subscription that take effect do so in strictly ascending order of time and id, whatever the deliveries and pruning; so none takes effect twice |
| BillingRuns.WatermarkIsNewest | crates/server/src/billing.rs:1067-1086 | Over any run, every acknowledged event of a subscription is at its watermark or before it, and the watermark is one of them |
| BillingRuns.TierFollowsWatermark | crates/server/src/billing.rs:834-1250 | Over any prefix of such a run the organisation's tier is that of the event at the watermark |
| BillingRuns.NewestDecidesTier | crates/server/src/billing.rs:885-1250 | For one subscription on an active organisation its events name, at distinct times and with recognised statuses, every order and duplication of deliveries, others between them, ends in the tier of the newest event acknowledged |
| BillingRuns.KeptByRun | crates/server/src/billing.rs:1017-1040 | No run ever loses the receipt of a watermark's event, or lets two organisations share a subscription |
| BillingRuns.RefusalCostsNothing | crates/server/src/billing.rs:853-884 | An event refused for its version changes no organisation and no watermark, and delivered again may do what it could have done at first |
| BillingLinks.CheckoutLinks | crates/server/src/billing.rs:1112-1167 | A checkout that applies leaves the active organisation it names on the team tier with the customer and the subscription of the session, and every other as it was |
| BillingLinks.CheckoutThenDeletion | crates/server/src/billing.rs:1112-1323 | After an acknowledged checkout an event of its subscription that names no organisation finds that organisation, and the subscription's deletion is acknowledged and leaves it free, without a subscription and with its customer |
| BillingLinks.DeletionFrees | crates/server/src/billing.rs:1220-1323 | The deletion of a linked subscription frees the organisation it is linked to, found by the link alone |
| BillingLinks.CheckoutOfNone | crates/server/src/billing.rs:1112-1167 | A checkout naming no active organisation changes none |
| BillingLinks.CheckoutFailsWhen | crates/server/src/billing.rs:1112-1167 | A checkout of an active organisation fails exactly when another has its customer or subscription and the row is not already as the session says |
| BillingLinks.StatusSetsTier | crates/server/src/billing.rs:1171-1216 | active, trialing and past_due put the organisation on the team tier, five other statuses on the free one, anything else changes nothing; only the tier ever changes |
| BillingLinks.AnswersWhen | crates/server/src/billing.rs:66-75 | An event is refused exactly when its version is none of the three accepted |
| BillingLinks.CustomersStayUnique | crates/server/src/billing.rs:1112-1167 | No run lets two organisations share a customer |
| BillingLinks.ReceiptOf | crates/server/src/billing.rs:995-1015 | A first receipt holds what the event says of itself, and is done exactly when the delivery was acknowledged |
| BillingLinks.OtherReceipts | crates/server/src/billing.rs:1017-1040 | Of the other receipts exactly the expired ones no watermark refers to go, and none changes |
| BillingLinks.FailureChangesNothing | crates/server/src/billing.rs:834-938 | A delivery that fails changes nothing |
| BillingTies.ReconcileFollowsProvider | crates/server/src/billing.rs:1252-1303 | A reconciled delivery gives the organisation it names the provider's tier and link, whatever the event says, and touches no other |
| BillingTies.TieOutcomes | crates/server/src/billing.rs:972-992 | Of two events of one time, the lesser id first ends in the provider's tier, the greater id first in that event's own; the two orders agree exactly when the provider's tier is that of the greater event |
| BillingTies.LastEffectDecides | crates/server/src/billing.rs:834-1303 | Over any run, at any times, the organisation is left on the tier its subscription's last effective delivery gave: the event's when it applied, the provider's when it was reconciled |
| BillingTies.WatermarkIsLastEffect | crates/server/src/billing.rs:1067-1086 | The watermark is exactly the event of the last effective delivery |
| BillingTies.ReconciledOnTies | crates/server/src/billing.rs:972-992 | An effective delivery asks the provider exactly when an event of the same subscription and time took effect before it |
| BillingTies.GreatestDecidesTier | crates/server/src/billing.rs:834-1303 | With ties allowed, every order and duplication ends in the tier of the greatest event acknowledged, or, when another of its time took effect first, in the tier the provider gave at the delivery that settled it |
| BillingTies.ArrivalDecides | crates/server/src/billing.rs:887-913 | A concrete pair of such events, the subscription active at the provider, whose two orders of arrival end on different tiers |
| HealthProbe.Probe.Answer | crates/server/src/health.rs:109-138 | From any state of all callers and with any steps of others before it gets the lock, one caller's code gives the answer and leaves the verdict of its steps in the interleaved machine: a verdict younger than the limit at either look, else its own check's outcome, stored |
| HealthProbe.OneCheckAtATime | crates/server/src/health.rs:109-124 | However callers interleave, no two are checking at once |
| HealthProbe.CheckAfterStore | crates/server/src/health.rs:109-138 | Every check is stored before the next begins, and the next begins no sooner than the limit after that |
| HealthProbe.ChecksInWindow | crates/server/src/health.rs:109-138 | Checks beginning within a window of length W number at most W/TTL + 1, whatever the number of callers |
| HealthProbe.ArrivalAnswers | crates/server/src/health.rs:109-130 | A caller that arrives is answered exactly when some verdict was stored less than the limit ago, and with such a one |
| HealthProbe.HolderAnswers | crates/server/src/health.rs:109-130 | A caller with the lock begins a check exactly when no verdict was stored less than the limit ago |
| HealthProbe.EveryAnswerJustified | crates/server/src/health.rs:109-138 | In every interleaving every answer was, in that very visit, read from a verdict stored less than the limit before, or is the outcome of the caller's own check |
| HealthProbe.VerdictsAreOutcomes | crates/server/src/health.rs:109-138 | Every verdict ever stored is what the check of the caller that stored it found |
| CommunityCache.Handle.Snapshot | crates/server/src/community.rs:164-229 | After any run of all callers and with any steps of others at every wait, one caller's code gives the answer and leaves the cache that its steps in the interleaved machine give; it fetches exactly when neither look finds a fresh snapshot or a backoff |
| CommunityCache.OneFetchAtATime | crates/server/src/community.rs:164-195 | However callers interleave, no two are fetching at once |
| CommunityCache.FetchesSpaced | crates/server/src/community.rs:164-229 | The next fetch begins no sooner than ttl after a success was stored, and negative_ttl after a failure was noted |
| CommunityCache.ArrivalAnswers | crates/server/src/community.rs:164-201 | A caller that arrives is given a snapshot exactly when one was fetched less than ttl ago, and such a one |
| CommunityCache.HolderAnswers | crates/server/src/community.rs:164-201 | So is a caller that has the lock |
| CommunityCache.BackoffEnds | crates/server/src/community.rs:164-206 | Callers hold back exactly while the last fetch failed less than negative_ttl ago; otherwise the one with the lock begins a fetch |
| CommunityCache.FallbackAnswers | crates/server/src/community.rs:164-215 | A caller that falls back is given the last snapshot ever fetched, or none if there was none |
| CommunityCache.EntryIsLastGood | crates/server/src/community.rs:208-229 | At every moment the cache holds exactly the snapshot of the last fetch that succeeded, and its time, whatever failed after it |
| CommunityCache.AnsweredAfterSuccess | crates/server/src/community.rs:164-215 | Once some fetch of the run has succeeded, every caller that falls back to the cache is given a snapshot |

## Left out

- KeyFormat.OpensUnderItsOwnHeadOnly: holds between tags without hyphens, such as the `SK` and `RK` in use; whether a hyphenated tag clashes with another depends on the checksum of the payload, and one that does is exhibited.
- BillingRuns.NewestDecidesTier: speaks of deliveries that were acknowledged; a delivery that failed changed nothing and is delivered again by Stripe.
- ReconciliationResults.RegisterSucceedsWhen: takes ids and references to hold no U+0000, which PostgreSQL text and jsonb refuse after the program's own checks have passed; with one the call fails in the database.
- ReconciliationResults.NeverCorrupt: the same; a failure of the database to store such a text is not modelled.
- HealthProbe.Probe.Answer: others' steps while the caller itself checks are only time passing; the interleaved machine allows any.
- RotationRuns.RotationsKeepPlaintexts: rotations only; writes of secrets between them, which also move the revision, are not part of the runs.
- VaultRuns.RowsAfterRun: local operations only; after pulls, which let server state overwrite rows, `LocalStore.HistoryOverRuns` is what remains true.
- Versions of secrets and fact counts are unbounded integers, where the program has 64-bit ones.
- SQL text, row and advisory locks, the retry that recreates a head row while publishing, foreign keys to users, and timestamps kept for audit only.
- Direct callers of publishing other than the coordinator, in statements about coordinator runs; the log's own statements allow any publisher.
- Real cryptography, key derivation, zeroisation, nonces and the envelope header.
- The text of error messages and warnings, audit entries and the mapping of errors to HTTP statuses.
- Webhook signatures, the Stripe and GitHub clients, the deletion worker and purge gates, contributor totals and display names.
- The server's sync handlers and who may call its rotate handler, decoding of its blobs, the CLI's remote and team commands (a rotation that drops a holder among them), project and environment creation, the synced revision.
- JSON export, whose escaping is a library's, and everything of the web client but rotation.
- Sessions, keychains, prompts, configuration and argument parsing; a command takes the unlocked keypair.
- Cancellation of a caller while it holds a cache's lock.

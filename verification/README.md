# A model of the attestation and key release path

This project models, in Dafny, the part of Trustee that decides which client gets which secret, and
proves properties of it over all inputs, all runs and all interleavings. It follows the program's
structure:

- **Event logs** (`EventLog`, `EventLogParser`, `EventLogRoundTrip`, `EventLogLayout`, `DevicePaths`,
  `TcgEnum`, `Base64`, `Replay`, `EventBinding`). The binary log of measured boot is described by a printer and
  a parser on byte sequences; the index-advancing loops of the program are methods proved equal to that
  parser, and what stands where is stated by position. Replay is a hash chain per register.
- **Verifier components** (`Registry`, `RegistryProofs`, `RegistryDurability`, `RegistryHost`). A state machine
  of concurrent registrations, look-ups, resolutions, crashes and restarts, one action for each lock region,
  file write, rename or removal, beside the class that performs one registration at a time.
- **Sessions** (`Sessions`, `SessionProofs`, `SessionService`). A state machine of concurrent `auth` and
  `attest` requests, token look-ups, evictions and clock ticks on the shared session map, beside the classes
  of the service.
- **From evidence to key** (`Tees`, `Json`, `Decimals`, `Evaluation`, `EarToken`, `TokenVerifier`,
  `KeyBinding`, `Snp`, `SnpKeyBinding`, `Plugins`). How evidence becomes claims, claims become submodules of a
  token, a key is found in the token, and a response is sealed to that key. The SNP verifier is modelled down
  to its certificate table.
- **Kernels** (`Collateral`, `CollateralCache`, `Text`, `LocalFs`). Normalising revocation lists, reading
  cached collateral back, and the store that keeps each value in a file named after its key.

Cryptography, policies, certificates, JSON canonicalisation, printing of device paths and PEM are function
parameters; nothing is assumed of them except where a lemma says so in a `requires` clause. A hash is
never assumed to be injective: where two inputs are told apart by their hashes, the conclusion is "equal,
or the hash collides on these inputs". An `anyhow` error is `Err` without its text, and a Rust panic
(`unwrap` on a missing value, a slice out of range) is an `Err` as well, since it ends the request.
Overflow of the byte counter of submodules wraps, as it does in a release build. Fresh UUIDs and
random nonces are parameters; an id that was drawn before cannot be drawn again.

Five things the proofs bring to light:

- A registration that was reported as successful need not stay on disk. As long as every start can read the
  index and the status of the files, it does exactly if it is in the index and in every index that a request
  has still to write or rename (`RegistryDurability.DurableWhenStartsRead`); once no request is between its
  commit and its rename, being in the index is enough. Three ways to be answered and not be durable are given
  as reachable states: an older index is renamed late (`RegistryDurability.LateRenameLosesRegistration`), a
  second registration of the same code is answered from memory before the first has written the index
  (`RegistryDurability.FastPathAnswersEarly`), and one is answered from memory after writing the index has
  failed (`RegistryDurability.FailedWriteStaysInMemory`).
- A start that cannot read the index goes on with an empty registry, and one that cannot get at the status of
  a file drops its entry. That does no harm by itself, since a later start finds the index as it was, but the
  next registration overwrites the index: then nothing of the old registry is left in it, durable or not
  (`RegistryDurability.UnreadableStartLosesAll`). After such a start, while
  there is code left to register, only what is also in memory is durable (`RegistryDurability.DurableIff`).
  The maps stay inverse and backed by files through all of this (`RegistryProofs.CrashRecovery`); that a
  restart finds part of the registry in memory holds exactly while the index is part of it
  (`RegistryProofs.LoadsPartIff`), and so in all runs whose starts can read (`RegistryProofs.RestartFindsPart`).
- Submodules get lost exactly if a class has more than 256 claims, or if a class is another one with a number
  `v` behind it and that other class has more than `10 * v` claims (`EarToken.ConservedIff`).
- A revocation list in the short form can be text in its own right, and normalising it a second time
  destroys it (`Collateral.WholeShortFormCanBeText`, `Collateral.ShortFormIsNotStable`). What comes out of
  normalising is stable exactly if it is not text that decodes (`Collateral.StableIff`); the long forms never
  are.
- In the file store, setting a key without overwriting always reports a failure, also when it has stored
  the value (`LocalFs.CreateReportsFailure`), and look-ups accept keys that `set` refuses, which share the
  file of another key (`LocalFs.SharedFile`, `LocalFs.RefusedKeySharesFile`).

Where a comment and the code differ, the code is followed. The comment on the key paths
(`kbs/src/token/mod.rs:25-33`) names the built-in ones before the configured ones, but the configured ones
are tried first; the comment on valid keys (`deps/key-value-storage/src/lib.rs:87-90`) does not mention the
slash that the code allows.

## Model

| member | source | states |
|---|---|---|
| `TcgEnum.RegistriesInvert` | deps/eventlog/src/ccel/tcg_enum.rs:54-228 | decoding a number inverts the numbering of algorithms and event types, and the numbers fit their fields |
| `TcgEnum.EventTypeOfSound` | deps/eventlog/src/ccel/tcg_enum.rs:184-228 | a code that decodes is the code of the type it decodes to |
| `TcgEnum.DigestSizesAreBits` | deps/eventlog/src/ccel/tcg_enum.rs:39-52 | the digest sizes are those the algorithms are named after, in bytes; keys have none |
| `TcgEnum.NumbersInOrder` | deps/eventlog/src/ccel/tcg_enum.rs:74-182 | the event types from 0 and those of EFI are numbered in order |
| `TcgEnum.NumbersOfTheFormat` | deps/eventlog/src/ccel/tcg_enum.rs:15-182 | the numbers of the algorithms, of the event types out of order, and of those the format itself depends on |
| `EventLog.EntryProgress` | deps/eventlog/src/lib.rs:254-312 | every parsed entry takes at least 16 bytes, the measure by which the entry loop ends |
| `EventLogParser.ParseInitialEntry` | deps/eventlog/src/lib.rs:214-252 | the header is accepted exactly if it is a spec-ID or other first record with its digest size table, and the index moves past it |
| `EventLogParser.CompareDigestList` | deps/eventlog/src/ccel/mod.rs:36-57 | the loop over digests with its early returns gives the comparison of every digest with the hash of the event data |
| `EventLog.CompareDigestsIs` | deps/eventlog/src/ccel/mod.rs:36-57 | the comparison holds exactly if every algorithm is computable and every digest matches; otherwise the first digest that does not decides between a difference and an error |
| `EventLogParser.ParseEventlogEntry` | deps/eventlog/src/lib.rs:254-312 | the entry read at an index is the one at the front of the remaining bytes, a stop flag gives none, and a failure is a failure of the format |
| `EventLogParser.TryFrom` | deps/eventlog/src/lib.rs:189-212 | the loop that advances an index over the whole log equals the parser defined on byte sequences |
| `EventLogRoundTrip.LogPrintThenParse` | deps/eventlog/src/lib.rs:189-375 | for every header and every list of well-formed entries, optionally followed by a stop flag and any bytes, parsing the printed log gives these entries in order |
| `EventLogRoundTrip.LogParseThenPrint` | deps/eventlog/src/lib.rs:189-375 | whenever a log parses, its entries printed between its header and its rest are the log byte for byte |
| `EventLogRoundTrip.ParsesIffPrinted` | deps/eventlog/src/lib.rs:189-375 | the parser succeeds on exactly the printed logs |
| `EventLogRoundTrip.LogUnambiguous` | deps/eventlog/src/lib.rs:189-375 | one byte string is the print of one header, one list of entries and one rest only |
| `EventLogRoundTrip.LogIsConcatenation` | deps/eventlog/src/lib.rs:189-212 | the printed log is header, entries and rest one after the other |
| `EventLogRoundTrip.StopFlagIsTwoFields` | deps/eventlog/src/lib.rs:254-262 | the first eight bytes of an entry of known type are a stop flag exactly if register and type are both zero; all ones they never are |
| `EventLogLayout.StopIff` | deps/eventlog/src/lib.rs:254-266 | a stop flag is eight bytes of zeros or eight bytes of ones, and nothing else |
| `EventLogLayout.PaddingEndsLog` | deps/eventlog/src/lib.rs:199-207 | a log whose entries are followed by eight bytes of zeros or of ones parses to these entries, whatever comes after |
| `EventLogLayout.NoOtherEnd` | deps/eventlog/src/lib.rs:199-207 | anything else that follows an entry must be an entry |
| `EventLogLayout.HeaderLayout` | deps/eventlog/src/lib.rs:214-252 | the positions of the fields of the first record, and that only type 3 declares digest sizes |
| `EventLogLayout.SpecIdLayout` | deps/eventlog/src/lib.rs:314-340 | the positions of the number of algorithms, of each algorithm and its digest size, and of the vendor data |
| `EventLogLayout.EntryLayout` | deps/eventlog/src/lib.rs:254-312 | the positions of register, type and number of digests in an entry, each least significant byte first |
| `EventLogLayout.DigestLayout` | deps/eventlog/src/lib.rs:342-375 | a digest is an algorithm number and as many bytes as the table says for it, and is read exactly if both are there |
| `EventLogLayout.PayloadLayout` | deps/eventlog/src/lib.rs:283-295 | event data is as long as the four bytes before it say |
| `EventLogLayout.EntryDetails` | deps/eventlog/src/ccel/tcg_enum.rs:231-251 | event data is read as a device path for image loads alone, and an entry says whether all its digests match it |
| `Base64.DecodeInvertsEncode` | deps/eventlog/src/lib.rs:296-311 | the Base64 text of an entry determines the event data it carries |
| `DevicePaths.PathPrintThenParse` | deps/eventlog/src/ccel/boot_services_app.rs:61-88 | any non-empty list of well-formed nodes, printed, parses to one path per node in order |
| `DevicePaths.PathParseThenPrint` | deps/eventlog/src/ccel/boot_services_app.rs:61-88 | whatever parses is the concatenation of nodes framed by their own declared lengths |
| `DevicePaths.ImageLoadFraming` | deps/eventlog/src/ccel/boot_services_app.rs:25-59 | an image-load event is accepted exactly if it declares no path, or the declared bytes are a non-empty run of framed nodes; its paths are those nodes |
| `EventLogLayout.NodeLayout` | deps/eventlog/src/ccel/boot_services_app.rs:63-86 | the positions of type, subtype and length in a device path node |
| `Replay.CollectDigestsByIndex` | deps/eventlog/src/lib.rs:140-151 | the map built in the loop holds, for each register, the digests of its entries in log order, and has no other register |
| `Replay.ReplayOne` | deps/eventlog/src/lib.rs:153-168 | the loop over a group extends with the digests of the asked algorithm, in order, from zeros |
| `Replay.ReplayAndMatch` | deps/eventlog/src/lib.rs:122-138 | the check succeeds exactly if every reference value is what one pass over the whole log gives for its register and algorithm |
| `Replay.StreamSteps` | deps/eventlog/src/lib.rs:153-187 | a register starts with as many zeros as its digests have bytes, and is extended with the hash of its value followed by the digest |
| `Replay.GroupingRefinesStream` | deps/eventlog/src/lib.rs:140-168 | replaying a group of the per-register map is a left fold over the whole log filtered by register and algorithm |
| `Replay.ReplayFailsIff` | deps/eventlog/src/lib.rs:153-180 | a replay fails exactly for algorithms without a digest size and for SHA-1 with digests to extend |
| `Replay.ReorderingIsInvisible` | deps/eventlog/src/lib.rs:122-168 | a reordering that keeps each register's own order changes no replayed value and no verdict |
| `Replay.SwapKeepsRegisterOrder` | deps/eventlog/src/lib.rs:140-151 | neighbours of different registers may trade places |
| `Replay.ChainsBind` | deps/eventlog/src/lib.rs:170-187 | two different digest sequences, of whatever lengths, with one chain value give a collision of the hash, or a preimage of zero, among the inputs they hashed |
| `Replay.ReplayBindsHistory` | deps/eventlog/src/lib.rs:122-187 | two logs with the same replayed value carry the same digests for that register and algorithm, or the hash is broken on what they fed it |
| `Replay.AcceptedLogsAgree` | deps/eventlog/src/lib.rs:122-138 | two logs accepted against the same reference values agree on every register referred to, or the hash is broken |
| `EventBinding.HistoryIsHashed` | deps/eventlog/src/lib.rs:140-168 | where every entry of a register matches, what extends the register are the hashes of the event data, one by one |
| `EventBinding.AcceptedEventsAgree` | deps/eventlog/src/lib.rs:122-212 | two logs that parse, are accepted against the same reference value and match in that register carry the same event data there in order, or the hash is broken on what they fed it or collides on the event data |
| `RegistryProofs.StepKeepsInv` | attestation-service/src/wasm_verifier/mod.rs:155-317 | every step of every registration, look-up, resolution, crash or start, also one whose reads fail, keeps the registry invariant |
| `RegistryProofs.RegistryInvariant` | attestation-service/src/wasm_verifier/mod.rs:159-206 | in every interleaving the maps are inverse, the file of each id holds signed code that compiles, with its hash, and a writer that lost the race is in no map and not in the index |
| `RegistryProofs.RefusedCode` | attestation-service/src/wasm_verifier/mod.rs:155-174 | code that is not signed, known or not, and new code that does not compile are refused without a trace |
| `RegistryProofs.LosingRegistration` | attestation-service/src/wasm_verifier/mod.rs:185-192 | a registration that lost the race removes its file and answers with the id that was first |
| `RegistryProofs.FailedStepIsReported` | attestation-service/src/wasm_verifier/mod.rs:178-212 | a failing write or rename ends a registration with an error and changes no file |
| `RegistryProofs.OtherFailedSteps` | attestation-service/src/wasm_verifier/mod.rs:188-228 | a file that cannot be read fails a look-up; one that cannot be removed stays, and the answer is the same |
| `RegistryProofs.UndisturbedResolve` | attestation-service/src/wasm_verifier/mod.rs:284-317 | a resolve by id, or of inline code that is registered, left alone gives the compilation of the stored bytes |
| `RegistryProofs.SameBytesSameId` | attestation-service/src/wasm_verifier/mod.rs:155-206 | within one run all successful registrations of the same bytes return one id, also those on behalf of a resolve |
| `RegistryProofs.CrashRecovery` | attestation-service/src/wasm_verifier/mod.rs:408-450 | what a start loads at any point, whether its reads fail or not, has inverse maps and the file of every id and is in the index; a start that can read loads the whole index |
| `RegistryProofs.LoadsPartIff` | attestation-service/src/wasm_verifier/mod.rs:408-437 | what a start that can read loads is part of the registry in memory exactly if the index is |
| `RegistryProofs.RestartFindsPart` | attestation-service/src/wasm_verifier/mod.rs:408-450 | in every run whose starts can read, what a restart loads is part of the registry that was in memory |
| `RegistryProofs.CompiledCacheAgreement` | attestation-service/src/wasm_verifier/mod.rs:284-317 | cached components are compiled from the bytes stored for their registered id; so is every resolution, and a resolution of inline code uses stored code with the same hash |
| `RegistryProofs.RegistryOnlyGrows` | attestation-service/src/wasm_verifier/mod.rs:155-212 | until a restart no registration is undone or changed |
| `RegistryProofs.UndisturbedRegistration` | attestation-service/src/wasm_verifier/mod.rs:155-212 | a registration of new signed code that compiles, left alone, ends registered, cached and on disk with its index |
| `RegistryDurability.DurableIff` | attestation-service/src/wasm_verifier/mod.rs:155-212 | in every reachable state and over all continuations whose starts can read, an id stays in the index exactly if it is in memory, in the index and in every index still to be written or renamed; where memory is behind the index, provided some code is left to register |
| `RegistryDurability.DurableWhenStartsRead` | attestation-service/src/wasm_verifier/mod.rs:155-212 | the same without a proviso in runs whose starts can read |
| `RegistryDurability.UnreadableStartLosesAll` | attestation-service/src/wasm_verifier/mod.rs:408-413 | a start that cannot read the index, and one registration after it, take every durable id out of the index, and what the next start finds shares nothing with the registry from before |
| `RegistryDurability.UnreadableStartAloneIsHarmless` | attestation-service/src/wasm_verifier/mod.rs:408-425 | a start whose reads fail changes nothing of what a later start can load |
| `RegistryDurability.DurableIsReloaded` | attestation-service/src/wasm_verifier/mod.rs:408-437 | through any continuation whose starts can read, a restart finds a durable registration with its file |
| `RegistryDurability.SettledIsDurable` | attestation-service/src/wasm_verifier/mod.rs:207-212 | with no request between commit and rename, exactly what is in memory and in the index is durable; in runs whose starts can read, what is in the index |
| `RegistryDurability.UndisturbedIsDurable` | attestation-service/src/wasm_verifier/mod.rs:155-212 | a registration of new code from such a state, left alone, makes the whole registry in memory durable |
| `RegistryDurability.LateRenameLosesRegistration` | attestation-service/src/wasm_verifier/mod.rs:207-212 | a reachable state in which a registration has returned its id and a late rename has taken it out of the index |
| `RegistryDurability.FastPathAnswersEarly` | attestation-service/src/wasm_verifier/mod.rs:161-167 | a reachable state, without failures, in which a registration was answered from memory and a crash leaves nothing of it |
| `RegistryDurability.FailedWriteStaysInMemory` | attestation-service/src/wasm_verifier/mod.rs:439-450 | a reachable state in which writing the index has failed and a second registration of the same code has succeeded all the same |
| `RegistryHost.LoadRegistryIndex` | attestation-service/src/wasm_verifier/mod.rs:408-437 | the start fails exactly on an index that can be read and does not parse; one that is missing or cannot be read gives an empty registry; otherwise the loop keeps exactly the entries whose file is seen, in both maps |
| `RegistryHost.WasmVerifierHost.RegisterComponent` | attestation-service/src/wasm_verifier/mod.rs:155-212 | succeeds exactly for signed code that is known, or compiles and can be written; gives known code its id and new code the fresh one; a failure after the commit leaves the registration in memory; states the whole new state |
| `RegistryHost.WasmVerifierHost.PersistRegistryIndex` | attestation-service/src/wasm_verifier/mod.rs:439-450 | writing beside the index and renaming leaves the new index and no temporary file; a failed write changes nothing and a failed rename leaves the temporary file |
| `RegistryHost.WasmVerifierHost.GetComponentBytes` | attestation-service/src/wasm_verifier/mod.rs:214-228 | the bytes of exactly the registered ids whose file can be read, with the registered hash |
| `RegistryHost.WasmVerifierHost.GetCompiledComponent` | attestation-service/src/wasm_verifier/mod.rs:303-317 | from the cache or from the file, the compilation of the stored bytes, which is cached afterwards |
| `RegistryHost.WasmVerifierHost.ResolveComponent` | attestation-service/src/wasm_verifier/mod.rs:284-301 | inline code wins over an id; the component is compiled from the stored bytes of the returned id |
| `SessionService.BuildEvidence` | kbs/src/attestation/backend.rs:313-357 | the evidence to verify: the primary item first with the session TEE, then one item per additional device, all with the nonce and the client key |
| `SessionService.SessionMap.Insert` | kbs/src/attestation/session.rs:113-116 | an id that is already there keeps its session |
| `SessionService.SessionMap.Retain` | kbs/src/attestation/backend.rs:174-185 | eviction leaves exactly the sessions that have not expired |
| `SessionService.AttestationService.Auth` | kbs/src/attestation/backend.rs:211-247 | exactly for an accepted version and a generated challenge, opens a session under a fresh id with the nonce and timeout, which the next request finds |
| `SessionService.AttestationService.Attest` | kbs/src/attestation/backend.rs:255-402 | an attested session gives its token without verifying; otherwise the token is the answer for genuine evidence of an unexpired session with this nonce, and only this session changes |
| `SessionService.AttestationService.GetAttestTokenFromSession` | kbs/src/attestation/backend.rs:404-432 | the token of exactly the attested sessions that have not expired |
| `SessionProofs.BuiltEvidenceIsGenuine` | kbs/src/attestation/backend.rs:313-357 | all evidence built for a message carries the session nonce and one common tee-pubkey, the first with the session TEE |
| `SessionProofs.EvidenceIsBound` | kbs/src/attestation/backend.rs:313-357 | the members of the runtime data of every evidence item, exactly: key, nonce and additional evidence for the primary one, key and nonce for the others |
| `SessionProofs.EveryDeviceIsIn` | kbs/src/attestation/backend.rs:344-357 | no additional evidence is left out |
| `SessionProofs.TokenProvenance` | kbs/src/attestation/backend.rs:272-396 | in every interleaving the token of an attested session, and of every answered request, came from a verification of genuine evidence for that session |
| `SessionProofs.SessionStability` | kbs/src/attestation/session.rs:51-99 | over every run a session keeps id and timeout, is attested at most once, keeps its token, and does not come back after eviction |
| `SessionProofs.LateRequestsFail` | kbs/src/attestation/backend.rs:272-303 | every attest or look-up that starts after the timeout fails, whatever is in flight |
| `SessionProofs.BadMessageIsRefused` | kbs/src/attestation/backend.rs:313-317 | a message with another nonce, or with additional evidence that cannot be read, is refused and changes nothing |
| `SessionProofs.OnlyExpiredSessionsGo` | kbs/src/attestation/backend.rs:174-185 | no step removes a session before its timeout or while it is being verified |
| `SessionProofs.SessionsLiveToTimeout` | kbs/src/attestation/session.rs:82-84 | over whole runs a session that is gone had expired |
| `SessionProofs.UndisturbedAttestation` | kbs/src/attestation/backend.rs:211-402 | an attestation that is left alone goes through: opened, attested with the answer of the verifier, and its token given out |
| `SessionProofs.UndisturbedTokenLookup` | kbs/src/attestation/backend.rs:404-432 | a look-up that is left alone gives the token of an attested session up to its timeout, and otherwise fails |
| `EarToken.TransformClaims` | attestation-service/src/ear_token/broker.rs:331-373 | moving claims out of and into the maps step by step gives the token form, or fails exactly if validated data is not a string |
| `EarToken.ClaimsPartition` | attestation-service/src/ear_token/broker.rs:313-373 | no claim is lost or added by the token form, and init and runtime data are in it exactly when the verifier claimed them |
| `EarToken.TransformedIff` | attestation-service/src/ear_token/broker.rs:331-373 | claims have a token form exactly if validated data is text; claims that are no object stand alone |
| `EarToken.Issue` | attestation-service/src/ear_token/broker.rs:112-201 | the loop with its byte counters gives the map of appraisals under class and number, the later of two with one name |
| `EarToken.SubmoduleConservation` | attestation-service/src/ear_token/broker.rs:126-201 | with class names that do not end in a digit and at most 256 claims per class, the k-th claim of class c is the submodule c followed by k, and there are as many submodules as claims |
| `EarToken.SubmodIsVerdict` | attestation-service/src/ear_token/broker.rs:126-178 | a submodule holds the token form of its claim and what the policy named after the first policy id and the class said of it |
| `EarToken.TokenHolds` | attestation-service/src/ear_token/broker.rs:203-223 | the token has every submodule by name, with every member of the verdict beside the evidence |
| `EarToken.TokenTells` | attestation-service/src/ear_token/broker.rs:203-223 | the token tells profile, verifier, issue and expiry |
| `EarToken.ConservedIff` | attestation-service/src/ear_token/broker.rs:180-200 | there are as many submodules as claims exactly if no class has more than 256 claims and no class is another one followed by a number v with more than 10 v claims |
| `EarToken.DistinctIff` | attestation-service/src/ear_token/broker.rs:184-200 | within the byte counter the names of all claims differ exactly if no two classes meet in this way |
| `EarToken.CounterWraps` | attestation-service/src/ear_token/broker.rs:184-200 | more than 256 claims of one class always lose a submodule |
| `EarToken.NamesSeparate` | attestation-service/src/ear_token/broker.rs:190-196 | a name determines class and number if classes do not end in a digit |
| `EarToken.DigitClassCollides` | attestation-service/src/ear_token/broker.rs:190-196 | claim 0 of class gpu1 and claim 10 of class gpu have one name |
| `Json.PointerWalks` | kbs/src/token/mod.rs:99-102 | a pointer made of any tokens, slashes and tildes escaped, descends along exactly these tokens |
| `Json.ItemAt` | kbs/src/token/mod.rs:99-102 | a token selects an array item exactly if it is the decimal text of its position |
| `TokenVerifier.FromConfig` | kbs/src/token/mod.rs:75-90 | configured paths come before the five built-in ones |
| `TokenVerifier.BuiltInPlaces` | kbs/src/token/mod.rs:15-20 | the built-in places of the key, token by token and in order |
| `TokenVerifier.ExtractTeePublicKey` | kbs/src/token/mod.rs:97-106 | the key is read from the first path that leads anywhere; if it cannot be read there, no later path is tried |
| `TokenVerifier.FirstPathDecides` | kbs/src/token/mod.rs:97-106 | the first path that leads somewhere decides, even if no key can be read there |
| `TokenVerifier.OnlyEarPath` | kbs/src/token/mod.rs:15-20 | on claims without the top-level members of other token kinds only the EAR path can be hit |
| `Evaluation.Evaluate` | attestation-service/src/lib.rs:215-339 | the loops over requests and verdicts give the token of the claims of all requests in order, or fail if any part fails |
| `Evaluation.ClaimHasRequest` | attestation-service/src/lib.rs:227-332 | every claim in a token comes from the verdict on one of the requests |
| `Evaluation.ClaimsAreVerdicts` | attestation-service/src/lib.rs:234-331 | the claims of a request are the verdicts of one call of its verifier, with the report data and init data digest that are to be expected; which hosted component is called |
| `Evaluation.ClaimsOfData` | attestation-service/src/lib.rs:375-438 | which claims about runtime and init data go with the verdicts |
| `Evaluation.FirstPolicyCounts` | attestation-service/src/ear_token/broker.rs:118-124 | of several policies only the first counts, and there must be one |
| `KeyBinding.VerifyEvidence` | kbs/src/attestation/coco/builtin.rs:33-67 | evidence becomes requests with structured runtime data, SHA-384 and the default policy; init data that is not TOML fails the call |
| `KeyBinding.TokenIssuedIff` | attestation-service/src/lib.rs:215-339 | a token is issued exactly if there is evidence, every item can be requested and is answered, every claim passes the policy, and the expiry does not overflow |
| `KeyBinding.TokenMeansVerified` | attestation-service/src/lib.rs:249-305 | a token means that for every evidence item the native or hosted verifier was called with the SHA-384 digest of its canonical runtime data, and that its verdicts are the claims in order |
| `Tees.AtMostAllKinds` | deps/verifier/src/lib.rs:61-180 | a message carries evidence of at most 14 devices, one per kind |
| `Tees.NamesReadBack` | attestation-service/src/bin/restful/mod.rs:87-105 | the names of the kinds read back through the REST interface, and through the gRPC one, but for the kinds each lacks |
| `KeyBinding.ClaimsOfEvidence` | attestation-service/src/lib.rs:375-392 | the claims of an item carry its own runtime data, beside the verifier's answer to the digest of that data |
| `KeyBinding.Cpu0Submod` | attestation-service/src/ear_token/broker.rs:184-200 | the submodule cpu0 belongs to a claim of class cpu whose number is a multiple of 256 |
| `KeyBinding.ExtractedKeyIsBound` | kbs/src/token/mod.rs:97-106 | without extra paths, and whatever verifiers claim, an extracted key was read from runtime data of one evidence item whose digest a verifier vouched for |
| `KeyBinding.PrimaryKeyBinding` | attestation-service/src/ear_token/broker.rs:126-200 | if the primary verifier gives a cpu claim first and there are at most 256, the extracted key is that of the primary runtime data exactly when the verifier vouched for it, otherwise there is none |
| `KeyBinding.MessageKeyBinding` | kbs/src/attestation/backend.rs:313-357 | the same for a client message: the key is the client's, and the expected report data is the SHA-384 digest of the canonical runtime data with this key, the nonce and the additional evidence |
| `KeyBinding.HostedKeyBinding` | attestation-service/src/lib.rs:249-286 | with hosted components the primary claim is always a cpu claim, so for up to 256 evidence items the binding depends on the component's answer alone |
| `KeyBinding.HostedMessageBinding` | attestation-service/src/lib.rs:249-286 | for every client message the key is the client's exactly if the component vouched for the primary evidence |
| `KeyBinding.SessionKeyIsBound` | kbs/src/attestation/backend.rs:255-402 | in every interleaving, with verifiers and policies that may change from call to call, the key extracted from the token of an attested session is the one key common to all evidence of the call that gave the token, genuine for that session, and a verifier of that call vouched for it with the session's nonce |
| `Snp.FirstVek` | wasm-components/snp-verifier-component/src/snp.rs:369-381 | the position of the first endorsement key of either kind |
| `Snp.SelectCertificates` | wasm-components/snp-verifier-component/src/snp.rs:341-384 | one pass over the table accepts exactly the tables whose entries are in order, and keeps the last root, the last intermediate and the first endorsement key |
| `Snp.FindKey` | wasm-components/snp-verifier-component/src/snp.rs:335-455 | the key with its chain completed from the vendor certificates, from the table or from the key service |
| `Snp.VerifyReportTcb` | wasm-components/snp-verifier-component/src/snp.rs:537-586 | succeeds exactly if every level in the key equals the reported one, and the chip id for a VCEK |
| `Snp.Regularized` | wasm-components/snp-verifier-component/src/snp.rs:657-678 | data padded with zeros or cut to a length |
| `Snp.Evaluate` | wasm-components/snp-verifier-component/src/snp.rs:302-496 | accepts exactly versions 3 to 5 of a known processor at VMPL 0 with a verified key, equal levels and matching report and host data, and answers with the claims of the report |
| `Snp.GenerationIff` | wasm-components/snp-verifier-component/src/snp.rs:632-654 | which families and models are of which generation, and that no others are known |
| `Snp.AcceptedProcessor` | wasm-components/snp-verifier-component/src/snp.rs:322-336 | an accepted report has version 3, 4 or 5 and VMPL 0, and its signing path starts at the root of the generation of its family and model |
| `Snp.AcceptedLevels` | wasm-components/snp-verifier-component/src/snp.rs:537-586 | an accepted report states each level its key was issued for, and for a VCEK the chip |
| `Snp.AcceptedData` | wasm-components/snp-verifier-component/src/snp.rs:474-496 | byte by byte, an accepted report carries the expected report and host data, cut or padded with zeros |
| `Snp.AcceptedChain` | wasm-components/snp-verifier-component/src/snp.rs:386-409 | the root used is the last supplied or the provisioned one and signs itself and the intermediate; the last supplied intermediate signs the key |
| `Snp.AcceptedFetch` | wasm-components/snp-verifier-component/src/snp.rs:189-260 | without a table the key is the one the key service gave for this generation, which takes a chip id and for Turin an FMC level |
| `Snp.GenuineIsAccepted` | wasm-components/snp-verifier-component/src/snp.rs:302-496 | a report that meets every check is accepted with a table of one endorsement key of either kind |
| `Snp.ClaimsTellData` | wasm-components/snp-verifier-component/src/snp.rs:590-616 | the claims tell report data, host data and measurement in Base64 that decodes to them |
| `Snp.AcceptedIsSigned` | wasm-components/snp-verifier-component/src/snp.rs:335-472 | an accepted report is at the end of a chain of signatures from the provisioned root through the key that was used |
| `Snp.AcceptedTable` | wasm-components/snp-verifier-component/src/snp.rs:341-403 | in an accepted table the key is the first endorsement key, every supplied root is signed by the provisioned one, and an intermediate left out is the vendor's for the kind of that key |
| `Snp.ReportBindsDigest` | wasm-components/snp-verifier-component/src/snp.rs:478-490 | a report is accepted for one digest of a given length at most |
| `SnpKeyBinding.ReportToKey` | attestation-service/src/wasm_verifier/mod.rs:230-282 | with the SNP component hosted, every token issued for a message yields the client's key, and the accepted report carries the padded digest of the runtime data with that key |
| `SnpKeyBinding.OneReportOneKey` | kbs/src/attestation/backend.rs:317-328 | tokens for two messages with the same primary evidence mean one canonical form of both runtime data or a SHA-384 collision of the two; where the form tells them apart, nonce, client key, additional evidence and extracted key are the same |
| `Plugins.ApiServer.Api` | kbs/src/api_server.rs:287-345 | a plugin is reached only with the admin token or an approved attestation token; the reply is the one proper reply if there is one; each decision counts once; the call is one begin and one decision of the concurrent counters |
| `Plugins.ProperIsUnique` | kbs/src/api_server.rs:287-345 | there is at most one proper reply to a call |
| `Plugins.AuthorizedIff` | kbs/src/api_server.rs:293-325 | a plugin is opened exactly by the admin token where it asks for it, or by a token that verifies and a policy that answers yes |
| `Plugins.DecisionIs` | kbs/src/api_server.rs:319-325 | yes counts as an approval, no as a violation, an error as an error |
| `Plugins.ReplyIs` | kbs/src/api_server.rs:301-341 | what a plugin wants encrypted leaves only sealed to the key of the token, and what else leaves is what the plugin gave |
| `Plugins.ReplyExists` | kbs/src/api_server.rs:301-341 | an authorised call whose plugin answers gets that reply |
| `Plugins.SealedToBoundKey` | kbs/src/api_server.rs:311-341 | what leaves sealed for the token of an attested session is sealed to the key common to all evidence of the genuine call that gave the token |
| `Plugins.CountersBalance` | kbs/src/api_server.rs:319-329 | in every interleaving evaluations are errors, violations, approvals, calls still waiting and calls dropped while waiting, and every call that has reached a plugin was authorised with the token it came with |
| `Collateral.LooksIffElement` | wasm-components/dcap-qvl-wasi/src/lib.rs:267-286 | bytes look like DER exactly if they are one sequence element with a length of one octet, or of one or two octets after their count (section 8.1.3 of ITU-T X.690) |
| `Collateral.TrimmedIsWhole` | wasm-components/dcap-qvl-wasi/src/lib.rs:288-294 | trimming is idempotent and yields a whole element exactly if the declared length fits |
| `Collateral.ByteVec.NormalizeCrlBytes` | wasm-components/dcap-qvl-wasi/src/lib.rs:261-265 | replaces the buffer by what its text decodes to, if it is text that decodes |
| `Collateral.ByteVec.TrimDerTrailing` | wasm-components/dcap-qvl-wasi/src/lib.rs:288-294 | cuts the buffer to the declared length if that fits |
| `Collateral.FindCrl` | wasm-components/dcap-qvl-wasi/src/lib.rs:226-233 | the first PEM block with one of the two tags |
| `Collateral.ReadNumbers` | wasm-components/dcap-qvl-wasi/src/lib.rs:207-217 | an array gives bytes exactly if all its items are numbers from 0 to 255 |
| `Collateral.LongFormIsNoText` | wasm-components/dcap-qvl-wasi/src/lib.rs:250-265 | bytes that start 30 81 or 30 82 are not UTF-8 and are left alone |
| `Collateral.NormalFormIsStable` | wasm-components/dcap-qvl-wasi/src/lib.rs:250-294 | for everything that decodes to a long form, normalise-then-trim is idempotent and gives a whole element exactly if the declared length fits |
| `Collateral.StableIff` | wasm-components/dcap-qvl-wasi/src/lib.rs:250-294 | for every input the result of normalise-then-trim is stable exactly if it is not text that decodes, for standard Base64 and PEM blocks shorter than their text |
| `Collateral.NormalizedShrinks` | wasm-components/dcap-qvl-wasi/src/lib.rs:250-265 | bytes are left alone if they are not text that decodes, and otherwise become fewer |
| `Collateral.FirstCrlIs` | wasm-components/dcap-qvl-wasi/src/lib.rs:226-233 | the block found is the first one, by position, with one of the two tags |
| `Collateral.HexText` | wasm-components/dcap-qvl-wasi/src/lib.rs:185-204 | hexadecimal text decodes to its bytes, and empty text to nothing |
| `Collateral.PemText` | wasm-components/dcap-qvl-wasi/src/lib.rs:222-234 | text with a PEM list decodes to the first list in it |
| `Collateral.OtherText` | wasm-components/dcap-qvl-wasi/src/lib.rs:185-248 | other text is hexadecimal if it can be, digit by digit, and else Base64 of something that starts like a sequence; white space does not count |
| `Collateral.NumbersIff` | wasm-components/dcap-qvl-wasi/src/lib.rs:207-217 | an array decodes to exactly the bytes that are its numbers |
| `Text.TextReadsBack` | wasm-components/dcap-qvl-wasi/src/lib.rs:250-259 | every text reads back from its UTF-8 form |
| `Text.BytesReadBack` | wasm-components/dcap-qvl-wasi/src/lib.rs:250-259 | what reads as text is the UTF-8 form of that text |
| `Collateral.HexFileIsNormalized` | wasm-components/dcap-qvl-wasi/src/lib.rs:250-265 | a non-empty list stored as hexadecimal text is normalised to its bytes |
| `Collateral.ShortFormIsNotStable` | wasm-components/dcap-qvl-wasi/src/lib.rs:250-294 | an input on which normalise-then-trim is not idempotent |
| `Collateral.WholeShortFormCanBeText` | wasm-components/dcap-qvl-wasi/src/lib.rs:250-286 | a whole element of the short form that normalising destroys |
| `CollateralCache.ReadCache` | wasm-components/dcap-qvl-wasi/src/lib.rs:82-125 | gives collateral exactly if all parts are there and both lists have a whole element at the front of their decoded bytes |
| `CollateralCache.CachedListsAreElements` | wasm-components/dcap-qvl-wasi/src/lib.rs:105-113 | both lists that are read are exactly one DER element |
| `CollateralCache.CrlInIff` | wasm-components/dcap-qvl-wasi/src/lib.rs:103-113 | a stored list is read as the element at the front of what it decodes to, whatever follows, and only if there is one |
| `CollateralCache.BytesDecodeBack` | wasm-components/dcap-qvl-wasi/src/lib.rs:196-220 | written bytes decode back, as an array always and as hexadecimal text if there are any |
| `CollateralCache.CacheRoundTrip` | wasm-components/dcap-qvl-wasi/src/lib.rs:82-134 | reading what was written gives the collateral back exactly if hexadecimal signatures are not empty and both lists are whole and not text that decodes, under the same assumption |
| `CollateralCache.CrlReadsBack` | wasm-components/dcap-qvl-wasi/src/lib.rs:105-113 | a list reads back as written exactly if it is whole and not text that decodes; the whole long forms always do |
| `LocalFs.LocalFs.Set` | deps/key-value-storage/src/local_fs/mod.rs:57-85 | refuses invalid keys, writes the file of a valid one, and fails in every non-overwriting call |
| `LocalFs.LocalFs.Get` | deps/key-value-storage/src/local_fs/mod.rs:88-104 | the value in the file of a key |
| `LocalFs.LocalFs.List` | deps/key-value-storage/src/local_fs/mod.rs:106-134 | one key per file in any order |
| `LocalFs.LocalFs.Delete` | deps/key-value-storage/src/local_fs/mod.rs:137-158 | removes the file of a key and gives its value |
| `LocalFs.SetIff` | deps/key-value-storage/src/lib.rs:91-94 | a key can be set exactly if its characters are valid and it is not empty, "." or ".." |
| `LocalFs.UnescapeInverts` | deps/key-value-storage/src/local_fs/mod.rs:124-130 | the replacement at listing time inverts the escape exactly on keys without the escape sequence |
| `LocalFs.EscapeInjective` | deps/key-value-storage/src/lib.rs:91-94 | different valid keys have different files |
| `LocalFs.SharedFile` | deps/key-value-storage/src/local_fs/mod.rs:88-91 | exactly the keys with the escape sequence share a file with the key listed for it |
| `LocalFs.SharedFileAnswers` | deps/key-value-storage/src/local_fs/mod.rs:57-159 | a refused key that shares the file of a key cannot be set, and reads and deletes what is set under that key |
| `LocalFs.RefusedKeySharesFile` | deps/key-value-storage/src/local_fs/mod.rs:57-62 | a concrete refused key that shares its file with a/b |
| `LocalFs.StoreRefinesMap` | deps/key-value-storage/src/local_fs/mod.rs:57-159 | every run of overwriting sets, gets, lists and deletes on file keys answers like a finite map |
| `LocalFs.OtherKeysFail` | deps/key-value-storage/src/local_fs/mod.rs:57-104 | the valid keys that name directories can be neither set nor read |
| `LocalFs.CreateReportsFailure` | deps/key-value-storage/src/local_fs/mod.rs:68-82 | a set that does not overwrite never succeeds, yet stores the value of a new key |

## Left out

- HTTP and gRPC servers, clients, generated bindings, command line tools, configuration and error texts: plumbing.
- The crate that defines the kinds of TEEs is not part of this model; `Tees` has the kinds that `deps/verifier/src/lib.rs` dispatches on, under the names of the REST interface.
- Signatures, certificate chains, JWE, hashes, Rego and Wasmtime: function parameters.
- The verifiers for TDX and SGX quotes, CCA, CSV, DCU, NVIDIA devices and vTPMs: calls into libraries; they appear as the parameter that answers an evaluation.
- Parsing of the text of event details other than image-load events, and the rendering of a device path: a parameter of `EventLog` and `DevicePaths`.
- The conversion of claims between the JSON values of two libraries, and numbers in JSON that are not integers.
- Torn writes: a file write and a rename are atomic each. That two writers of the index share one temporary file is modelled.
- SessionService.AttestationService.Attest: one request at a time; interleavings are in `Sessions`. The evidence list it returns is ghost.
- Plugins.ApiServer.Api: calls of a plugin return values; state inside plugins, the query and path parsing, and the other branches of the API are not modelled.
- LocalFs.LocalFs: operations are atomic. In the program the lock of the directory is given up at once (`deps/key-value-storage/src/local_fs/mod.rs:65,89,107,138`), so concurrent operations can interleave between their file accesses.
- LocalFs.LocalFs.Set: names that are too long for the file system, and other processes in the directory.
- The gRPC adapter between the broker and a remote attestation service: the built-in one is modelled.
- Evaluation.Evaluate: the reference value service and the conversion of TOML init data are inside parameters.
- Snp.FindKey: the cache of keys fetched from the key service is inside the `fetch` parameter.
- Fetching of collateral, its freshness check and the root list of a certificate chain.
- Collateral.NormalFormIsStable: idempotence is stated for the long forms, because it fails for the short form (`Collateral.ShortFormIsNotStable`); the exact condition is in `Collateral.StableIff`.
- The other key-value backends: they do not agree on what a set without overwriting means.
- A 32-bit `usize`, on which the length arithmetic of the parsers could overflow.

# FixRepro in Dafny

FixRepro is a release gate for a signer-trust fix. One attack package goes to a vulnerable and to a
patched gateway, a trusted package serves as control, a verdict is derived from what was observed,
the evidence is sealed in a hashed bundle, and the bundle is verified again from its files alone.
This project models that path from end to end and proves what each stage keeps.

`dafny verify dfyconfig.toml` checks everything. The modules follow the program:

- **Signed packages**: `Utf8`, `Canonical`, `Base64`, `Package`, `Artifacts` give the byte format
  that is signed, its parser, base64, the decoding and integrity checks, the two policies, and the
  packages a demonstration generates.
- **A run**: `Device`, `Gateway`, `Scenario`, `Orchestrator` give the device, the read/decide/apply
  protocol, and one scenario as a system of steps in which other clients, lost acknowledgements and
  arbitrary replies are nondeterministic. `Verdicts` gives the verdict functions over the records of
  `Evidence`.
- **The bundle**: `Paths`, `Bundle`, `Verification`, `Sealing` give directory trees, the manifest
  and its digest, independent verification, and what a verified digest guarantees. `Guarantees` says
  what verification amounts to, in terms of the files alone. `Layout`,
  `Staging`, `SelfVerification`, `Publication`, `Runs` build a run's bundle, decide when it passes,
  publish it by renames that may fail, and put the run together. `Output` picks the destination.
  `Signers` asks whose key the positive control carries. `Consistency` and `Existence` show that the
  premises can be met, and exhibit the bundles that the results below speak of.
- **Around it**: `Presentation`, `Witness` and `WitnessLoader` are the dashboard's and the physical
  witness's use of a verified bundle; `Jobs`, `Workers`, `JobHistory` are the job manager under threads.

`Library` holds the functions FixRepro calls but does not define (SHA-256, Ed25519, the readers and
writers of its JSON documents, the JSON schema) as an arbitrary record of functions. The theorems
hold for every such record that obeys the laws they name: hashes are 64 lower-case hex digits, a
signature verifies under its own key (section 5.1 of RFC 8032), and a reader gives back what the
writer wrote, for records with the ids, time stamps and lengths that the models ask for and replies
that are not nested too deeply for it. `LawsAreConsistent`, `VerifiedRunExists` and
`VerifiedBundleExists` show that these premises, and a run that succeeds with PATCH_VERIFIED, are
possible. Injectivity of the hash is never assumed; where it matters the result is "equal, or here are two byte strings with the same
hash". No law speaks against forgeries either: `AcceptedForgery` hands over the forged message.

Methods carry the loops and the updates of the program and are proved against predicates and
functions; the lemmas are about those. A verification method's failure list is empty exactly when a
declarative predicate of the files holds, so `BundleAccepted` is what "the bundle verifies" means, and
`VerifiesExactly` gives a second account of it, from file names, bytes and library functions. The
functions that fix texts, statuses, fields and places have lemmas (named `...Exactly`, `...Says`) that
write these out.

## Results about the program

- A bundle can verify without its evidence being looked at. The strict reader answers an
  `evidence.json` that holds the JSON text `null` with Python's `None`, which the checks after it
  skip; such a sealed directory is valid and has no outcome (`NullEvidenceVerifies`). A valid result
  has an outcome exactly when the evidence is not `null` (`OutcomeUnlessNull`). The dashboard and the
  witness loader refuse such a bundle; the check before a demo bundle is replaced accepts it.
- The positive control of a verified bundle need not be signed by the bundle's trusted key:
  verification compares `packages/trusted-update.json` with the key, while an execution may name any
  listed package. `ControlSignerExactly` says when it is, `ForeignControlVerifies` shows a bundle in
  which it is not.
- An output outside the repository can be accepted, but nothing is ever published there. Where
  `evidence` is a link that leads to nothing, the walk over the destination's parents looks past it
  (`InsideExactly`, `DanglingEvidenceEscapes`). The run then stops when it needs the destination's
  path relative to the repository: at once if something stands there that it must not replace, else
  after all three scenarios, between the evidence and the report (`StageBundle`). What is published
  therefore never fails the verification after it.
- A run succeeds exactly when its output is accepted and may be replaced, its scenarios are captured,
  the staging name is free, the records are taken, the destination is in the repository, the captures
  are faithful and the host lets the bundle be published; each error has one such cause
  (`RunVerification`, `OneCause`). For a genuine demonstration without faults or interference only
  destination, names, patterns, schema and host are left, and the outcome is PATCH_VERIFIED
  (`QuietRunSucceeds`).
- Not every run publishes. When a gateway reply is malformed or contradicts the states the
  orchestrator read, the decision is replaced by ERROR but the raw record keeps the original reply,
  and the self-verification then rejects the staged bundle. `StagedBundleVerifiesExactly` and
  `FaithfulExactly` say exactly which runs pass. A gateway that could not read the device answers
  with empty states and is therefore among those that stop the run.
- `write_manifest` is not total. It sorts paths component by component but validates that their
  texts are sorted; `OrderAgreement` gives the pairs on which the two orders differ, and
  `WriteManifest` succeeds exactly on the trees without such a pair.
- The error text for base64 fields says "canonical", but encodings with non-zero pad bits decode
  (`NonCanonicalAccepted`). They are canonical exactly when those bits are zero.
- The digest file is accepted in three spellings of its line end, and no others.
- The envelope-mismatch, request-mismatch and signal-limit exits of the witness plan are dead for
  every document, and the late incoherence test of the outcome never fires.
- A failed thread start restores the job dictionary exactly when the drawn id was new, and an ended
  job's record survives until eviction exactly when its id is not drawn again.

## Model

| member | source | states |
|---|---|---|
| Utf8.EncodeExactly | fixrepro_core/package.py:36-41 | lead byte, length and continuation bytes of every character are those of the UTF-8 table |
| Utf8.DecodeEncode | fixrepro_core/package.py:36-41 | the UTF-8 bytes of every text decode to that text |
| Canonical.ParseManifestBytes | fixrepro_core/package.py:32-41 | a parser of sorted-key compact JSON with string escapes and decimal sizes reads every manifest back from its signed bytes |
| Canonical.TextExactly | fixrepro_core/package.py:35-41 | the signed text, key by key: sorted keys, no blanks, strings quoted, the size in decimal |
| Canonical.EscapesExactly | fixrepro_core/package.py:36-41 | which characters are escaped in it, and how |
| Canonical.ManifestBytesInjective | fixrepro_core/package.py:32-41 | two manifests have the same signed bytes if and only if they are equal, so a signature binds every field |
| Base64.DecodeEncode | fixrepro_core/package.py:44-51 | decoding the encoding of any bytes gives the bytes back |
| Base64.DigitExactly | fixrepro_core/package.py:44-51 | the base64 alphabet |
| Base64.SplitExactly | fixrepro_core/package.py:44-51 | four sextets hold the 24 bits of three bytes, first bit first |
| Base64.EncodeVectors | fixrepro_core/package.py:44-51 | the encodings of one, two and three bytes from section 10 of RFC 4648 |
| Base64.CanonicalExactlyWithZeroPadBits | fixrepro_core/package.py:44-51 | an accepted text is the encoding of what it decodes to if and only if its unused pad bits are zero |
| Base64.NonCanonicalAccepted | fixrepro_core/package.py:44-51 | a concrete text with non-zero pad bits that is accepted although it is not canonical |
| Package.CreateThenDecode | fixrepro_core/artifacts.py:27-49 | creation succeeds exactly for a legal id and version and a non-empty payload, and decoding then returns manifest, payload, key and signature, with integrity and signature checks passing |
| Package.PoliciesOnCreated | fixrepro_core/evaluation.py:70-140 | a created package always passes the vulnerable policy and passes the patched one exactly when its signer is the trusted key, else it is UNTRUSTED_SIGNER |
| Package.PatchedAcceptsExactly | fixrepro_core/evaluation.py:96-140 | the patched policy accepts exactly the decodable packages that are intact, correctly fingerprinted, from the trusted key and validly signed; the patch changes nothing else |
| Package.MalformedExactly | fixrepro_core/package.py:54-82 | both policies say MALFORMED_PACKAGE exactly for bytes that are no envelope, or whose base64 fields do not hold a payload, a 32-byte key and a 64-byte signature |
| Package.VulnerableReasons | fixrepro_core/evaluation.py:70-93 | each reason of the vulnerable policy comes exactly under its own condition on payload size and hash, and the result names the envelope's fields |
| Package.PatchedReasons | fixrepro_core/evaluation.py:96-140 | each of the six reasons of the patched policy comes exactly under its own condition, in the order size, hash, fingerprint, signer, signature |
| Package.ReasonsOnTheWire | fixrepro_core/evaluation.py:143-155 | the text of every reason, and the HTTP status of a refusal or an error for it |
| Package.AcceptedForgery | fixrepro_core/crypto.py:33-45 | an accepted package whose manifest the trusted key never signed exhibits a verifying signature on bytes of no signed manifest |
| Package.AcceptedPayload | fixrepro_core/package.py:85-97 | an accepted package with a payload's manifest carries that payload, or the two payloads collide |
| Artifacts.GeneratedInputsAreGenuine | fixrepro_core/artifacts.py:62-106 | the two generated packages are intact, validly signed, an untrusted 9.9.0-test and a trusted 1.1.0, for any keys that differ |
| Artifacts.GeneratedManifests | fixrepro_core/artifacts.py:62-106 | the manifests of the two packages field by field, and their keys |
| Device.VirtualDevice.Reset | device/state.py:31-36 | resetting leaves and returns the initial state |
| Device.VirtualDevice.Apply | device/state.py:38-43 | applying stores version and payload hash and raises the counter by one |
| Device.CounterCountsApplies | device/state.py:38-43 | after any applies the counter has risen by their number and the fields are the last one's |
| Gateway.ProcessGatewayUpdate | fixrepro_core/gateway.py:34-79 | the answer and the device after read, decide and apply, for every fault and with other clients' applies in between: status, decision, reason and states of each kind of answer are written out |
| Prelude.Sha256Exactly | verifier/models.py:11-11 | the form of every hash |
| Evidence.TimeStampExactly | verifier/models.py:12-12 | the form of every time stamp |
| Evidence.ExecutionModel | verifier/models.py:59-116 | the bounds and patterns of every field of an execution |
| Evidence.DocumentModel | verifier/models.py:118-131 | those of a document, with one execution of each role |
| Evidence.RawModel | verifier/models.py:134-144 | those of a raw record |
| Evidence.DumpExactly | device/state.py:16-24 | the field names of a dumped state |
| Scenario.DumpedReply | verifier/orchestrator.py:172-176 | the field names and values of a recorded reply |
| Scenario.ReportsExactly | verifier/orchestrator.py:173-180 | a recorded state agrees with one that was read exactly when its three fields do, the counter by numeric value |
| Scenario.CaptureExactly | verifier/orchestrator.py:141-204 | every field of a capture, from what was sent, read and received; a malformed reply or one that contradicts the states is an ERROR of its own reason |
| Scenario.StepKeepsInvariant | fixrepro_core/gateway.py:40-79 | every step of an honest scenario keeps the relation between what the gateway read and replied, the device's counter, and the foreign applies so far |
| Scenario.RunKeepsInvariant | verifier/orchestrator.py:141-204 | the relation holds after every interleaving |
| Scenario.InterferenceDetected | verifier/verdicts.py:46-68 | if other clients applied anything, and nobody else reset, between the reset and the final read, or the gateway lost the device, the execution has no verdict and every list it is in is INCONCLUSIVE |
| Scenario.RecordIsTruthful | verifier/orchestrator.py:147-171 | whatever the gateway does, the recorded states are the initial one and the device's real one at the final read |
| Scenario.MisreportDetected | verifier/orchestrator.py:172-185 | a reply that is malformed or misreports a state forces an execution without verdict and an INCONCLUSIVE outcome |
| Scenario.RunSchedule | verifier/orchestrator.py:141-204 | the orchestrator's own run of a scenario is the step system run on its schedule, for every fault, a lost reset among them |
| Scenario.ExecuteScenario | verifier/orchestrator.py:141-204 | the method's capture and the device it leaves are those of the scheduled run; a lost request is a verification error, and a capture holds the initial state and the device's last |
| Orchestrator.DefinitionExactly | verifier/orchestrator.py:343-374 | what each scenario sends, to which build, and what it expects |
| Orchestrator.RunScenarios | verifier/orchestrator.py:384-400 | the loop returns the three captures, each from the state the one before left, or the first scenario's error, and leaves the device where the last scenario that was run left it |
| Orchestrator.DemonstrationPolicies | fixrepro_core/evaluation.py:70-140 | what the real policies make of the demonstration's packages, role by role, whatever the untrusted signature is |
| Orchestrator.RunCompleteness | verifier/orchestrator.py:343-416 | without faults an intact untrusted and a genuine trusted package give PATCH_VERIFIED from any device state, with faithful captures |
| Orchestrator.RunSoundness | verifier/verdicts.py:131-170 | against arbitrary gateways PATCH_VERIFIED implies the device's real end states of all three scenarios |
| Verdicts.VerdictExactly | verifier/verdicts.py:62-128 | role by role, exactly when a record's verdict is PASS and exactly when it is FAIL |
| Verdicts.VerdictOfObservation | verifier/verdicts.py:62-128 | a verdict exists exactly for a complete coherent observation of one of a role's two behaviours |
| Verdicts.OutcomeOfTrio | verifier/verdicts.py:131-170 | for one execution per role, when each of the two conclusive outcomes holds, in terms of the records alone |
| Verdicts.VerifiedExactly | verifier/verdicts.py:131-170 | for lists of any length PATCH_VERIFIED and PATCH_NOT_VERIFIED hold exactly under their explicit three-role contracts |
| Verdicts.OutcomeIgnoresOrder | verifier/verdicts.py:131-170 | permuting the executions does not change the outcome |
| Verdicts.OutcomeIgnoresLabels | verifier/verdicts.py:131-170 | changing the stored verdict labels does not change the outcome |
| Verdicts.LateBranchUnreachable | verifier/verdicts.py:168-169 | executions that all have verdicts are coherent, so the late incoherence test never fires |
| Verdicts.OnePerRoleIsTrio | verifier/models.py:126-131 | a document that passes the role validator has exactly one execution of each role |
| Verdicts.ConsistencyFailures | verifier/verdicts.py:173-193 | the failure list holds exactly the stored verdicts, expectations and decisions that differ from the recomputed ones |
| Evidence.DumpsEqual | verifier/orchestrator.py:173-180 | the JSON comparison of two dumped device states is equality of the states |
| Paths.SafeExactly | verifier/bundle.py:179-191 | the path check accepts exactly the slash-joins of legal component lists without backslash or drive prefix, and returns the list |
| Paths.FaultsExactly | verifier/bundle.py:179-191 | which fault of a refused text is reported |
| Paths.SafeDistinct | verifier/bundle.py:179-191 | distinct accepted texts name distinct paths |
| Paths.SafeStaysBelow | verifier/bundle.py:179-191 | an accepted path leads strictly below any root it is joined to |
| Paths.PartsJoin | verifier/bundle.py:184-189 | splitting inverts joining on legal component lists |
| Paths.OrderAgreement | verifier/bundle.py:129-146 | path order and text order agree on two paths exactly when they are no conflict pair |
| Paths.OrdersCanDiffer | verifier/models.py:156-163 | a concrete pair that the two orders place differently |
| Bundle.DigestSpellings | verifier/bundle.py:340-347 | the digest file is accepted in exactly three spellings |
| Bundle.DigestLineExactly | verifier/bundle.py:152-155 | the digest line is the digest, two blanks and the manifest's name |
| Bundle.ListingUnique | verifier/bundle.py:131-131 | a set of paths has exactly one sorted listing |
| Bundle.ManifestEntries | verifier/bundle.py:129-146 | the walk gives the manifest of the tree, and fails exactly on a link to a file or a record the model refuses |
| Bundle.ManifestValidExactly | verifier/models.py:152-163 | the sorted entries pass the manifest's validator exactly when there is something to list, every entry is allowed and no two paths conflict |
| Bundle.ManifestUnique | verifier/bundle.py:149-155 | a tree has at most one manifest |
| Bundle.SealableExactly | verifier/bundle.py:129-155 | what can be sealed, written out: no link to a file, listed names of at most 500 characters, at least one, no conflict pair, no directory in the place of manifest or digest |
| Bundle.BundleDirectory.WriteManifest | verifier/bundle.py:149-155 | sealing succeeds exactly on sealable trees, and then the tree is the old one with its manifest and digest written |
| Verification.AllBundleFiles | verifier/bundle.py:194-210 | the walk finds every file name and reports a failure exactly when there is a link |
| Verification.EntryFailures | verifier/bundle.py:361-379 | no failure exactly when every manifest entry names, by a safe path, a file of that size and hash that is no link itself, whatever links lead to it |
| Verification.ManifestFailures | verifier/bundle.py:332-387 | no failure exactly when the digest seals the manifest and the manifest seals every other file |
| Verification.RecordFailures | verifier/bundle.py:213-232 | no failure exactly when the record's path is safe, listed, and has the recorded size and hash |
| Verification.PackageFailures | verifier/bundle.py:235-270 | no failure exactly when the package file is the recorded one, intact, and signed by its declared key |
| Verification.RawFailures | verifier/bundle.py:273-305 | no failure exactly when the raw record exists and tells the execution's own story |
| Verification.TrustFailures | verifier/bundle.py:442-473 | no failure exactly when the declared trust fits the roles and only the trusted package carries the bundle's key |
| Verification.DocumentFailures | verifier/bundle.py:418-473 | no failure exactly when files and recomputation bear out everything the document says |
| Verification.VerifyBundle | verifier/bundle.py:308-484 | a bundle is valid exactly when it is an unlinked directory in the allowed place whose files satisfy the declarative acceptance predicate, in which evidence that is JSON `null` passes unchecked; a valid result has an outcome exactly when the evidence is not `null`; digest, outcome and count are those of its files |
| Verification.OutcomeUnlessNull | verifier/bundle.py:389-418 | a bundle that verifies has a checked document exactly when its evidence file is not `null` |
| Existence.NullEvidenceVerifies | verifier/bundle.py:399-418 | every sealed directory of a `null` evidence file and any report verifies, with no outcome |
| Guarantees.VerifiesExactly | verifier/bundle.py:308-484 | a bundle verifies exactly when its files are sealed and bear out its document, or its evidence is `null`; stated on file names, bytes, hashes, signatures and parsed records, without the predicates of verification |
| Guarantees.SealExactly | verifier/bundle.py:332-387 | the same for digest, manifest, file set and report |
| Guarantees.DocumentExactly | verifier/bundle.py:418-473 | the same for the document: roles, input, outcome, the seven artifacts, executions and keys |
| Guarantees.PackageExactly | verifier/bundle.py:235-270 | the same for the package an execution names: size, hashes, fingerprint and signature |
| Guarantees.RawExactly | verifier/bundle.py:273-305 | the same for the raw record: every comparison is written out |
| Guarantees.VerifiedPackage | verifier/bundle.py:250-270 | for every execution of a verified document: the bytes, envelope, payload, key and verifying signature of its package |
| Sealing.SealThenVerify | verifier/bundle.py:149-155 | sealing a link-free tree of safe names makes its manifest part verify with the same digest, and sealing again changes nothing |
| Sealing.DifferingFileCollides | verifier/bundle.py:361-379 | the search for a file that differs between two accepted trees finds a hash collision, or every named file is the same |
| Sealing.AcceptedPaths | verifier/bundle.py:332-387 | in an accepted tree every path is the manifest, its digest, or named by the manifest |
| Sealing.SameDigestSameBundle | verifier/bundle.py:332-387 | two trees that verify with the same digest hold the same paths and bytes, up to the line end of the digest file, or the extracted pair is a collision |
| Layout.LayoutIsSealable | verifier/bundle.py:48-56 | the fixed layout of a bundle meets every condition for sealing, whatever its files hold |
| Layout.NineEntries | verifier/bundle.py:129-146 | the manifest of a staged bundle has nine entries |
| Staging.ExecutionSays | verifier/orchestrator.py:235-263 | every field of an execution record, from its capture |
| Staging.RawSays | verifier/orchestrator.py:215-232 | every field of a raw record, from its capture |
| Staging.DocumentSays | verifier/orchestrator.py:428-449 | the document's executions in order, its outcome, and its seven artifact records with names, media types, hashes and sizes |
| Staging.StageBundle | verifier/orchestrator.py:404-453 | staging succeeds exactly when the models and the schema take the records and the destination lies inside the repository, each error has its cause, and success leaves exactly the nine files and their seal |
| SelfVerification.FaithfulExactly | verifier/orchestrator.py:172-185 | a capture is faithful exactly when the reset was seen and the reply parsed, can be read back, and agreed with both states or already said what a conflict is recorded as |
| SelfVerification.UnreadableDeviceIsUnfaithful | fixrepro_core/gateway.py:40-44 | the answer of a gateway that could not read the device never gives a faithful capture |
| SelfVerification.FieldsExactly | verifier/models.py:74-99 | the patterns and bounds of the captured fields, written out |
| SelfVerification.SurroundingsExactly | verifier/models.py:52-56 | those of the run's id, time and test case |
| SelfVerification.StageableExactly | verifier/orchestrator.py:235-263 | for genuine inputs only the captured field values, the patterns of ids and time stamps, the test case's lengths, or the schema can stop staging |
| SelfVerification.StagedBundleVerifiesExactly | verifier/bundle.py:273-305 | the staged bundle verifies exactly when every capture is faithful, and its evidence is the staged document and its manifest the one sealed |
| Publication.FileSystem.PublishDirectory | verifier/bundle.py:487-506 | success leaves exactly the staged content, a restored failure leaves the old disk, each error has its exact cause, and every state a crash could leave holds the complete old or new directory |
| Publication.FileSystem.ReplaceDirectory | verifier/bundle.py:499-506 | the same for the three renames and the removal that replace an existing directory |
| Publication.FileSystem.RemoveTree | verifier/bundle.py:506-506 | removal only ever takes files from the one directory, and completes exactly when nothing refuses |
| Publication.FileWriter.AtomicWriteBytes | verifier/bundle.py:84-95 | a write succeeds exactly when the directories above can be made, nothing cuts it off, and no directory is in the file's place; at no moment is the file anything but the old one or the whole new one, a failed write leaves at most its temporary file behind, and no file ever lies below a file |
| Publication.PublishedIsIntact | verifier/bundle.py:499-506 | once the new directory is in place no state of the old one's removal can harm it |
| Runs.RunVerification | verifier/orchestrator.py:317-473 | a run succeeds exactly under the conditions of `RunSucceeds` and otherwise ends with the error whose cause holds; success changes exactly the directory that was asked for, or the run's own below `evidence/runs`, and leaves there a verified bundle of its own faithful captures, with the recomputed outcome, digest and entry count; the existence, link, demo and collision errors are about that directory and the staging directory of the id; the verification after publishing never fails and the digest never changes; a failed run leaves everything but its staging directory alone, unless the host fails while publishing; every crash leaves the old directory or a verified new one |
| Runs.NamesExactly | verifier/orchestrator.py:325-404 | destination, staging directory and backup, written out for a requested and for the default output |
| Runs.OneCause | verifier/orchestrator.py:325-463 | the causes of the errors exclude each other and success, so each error comes exactly under its cause |
| Runs.QuietRunIsPublishable | verifier/orchestrator.py:343-450 | a genuine demonstration without faults gives, from any device state, faithful captures with outcome PATCH_VERIFIED, whose records are taken exactly when the drawn ids and time stamps and the test case fit their patterns and the schema takes the document |
| Runs.QuietRunSucceeds | verifier/orchestrator.py:317-473 | the run of a genuine demonstration without faults or interference succeeds, from any device state, exactly when the destination may be used, both locations are in the repository, the staging name is free, stamps, test case and schema fit and the host publishes; what it then reports is PATCH_VERIFIED |
| Existence.UncheckedBundleExists | verifier/bundle.py:399-418 | there are functions that obey every law and such a bundle for them |
| Existence.VerifiedRunExists | verifier/orchestrator.py:317-473 | there is a calm run of a genuine demonstration that meets the conditions for success, with outcome PATCH_VERIFIED |
| Existence.VerifiedBundleExists | verifier/orchestrator.py:404-457 | there are lawful functions and a calm run whose captures are taken and sealed to a bundle that verifies as PATCH_VERIFIED |
| Signers.ControlSignerExactly | verifier/bundle.py:459-471 | the positive control of a verified bundle is signed by the bundle's key exactly when it records that key's fingerprint, up to a hash collision; naming the trusted file is enough |
| Existence.ForeignControlVerifies | verifier/bundle.py:235-270 | a bundle that verifies as PATCH_VERIFIED although its positive control is signed by another key |
| Output.ResolveOutputDirectory | verifier/orchestrator.py:270-296 | each refusal comes exactly under its own condition; the destination is accepted exactly when it is traversal-free, resolves strictly below the evidence directory, and has no link up to its first ancestor that resolves to the repository |
| Output.InsideExactly | verifier/orchestrator.py:283-288 | an accepted destination is inside the repository exactly when the evidence directory is, unless that resolves to an ancestor of the repository |
| Output.InsideWithoutEvidenceLink | verifier/orchestrator.py:283-296 | on a host that follows links component by component, an evidence directory that is no link keeps every accepted destination inside |
| Output.DanglingEvidenceEscapes | verifier/orchestrator.py:291-295 | with an `evidence` link that leads to nothing, the default destination is accepted outside the repository |
| Output.PlainHost | verifier/orchestrator.py:270-296 | without redirections that is exactly: strictly below evidence and no component a link, which the default always is by name |
| Presentation.BundleRegistry.RegisterLive | app/presentation.py:59-69 | registration succeeds exactly for a live id and an unlinked path that resolves, to no link, at or below evidence; the resolved path is stored under that id and nothing else changes |
| Presentation.PublicIdExactly | app/models.py:63-63 | which ids a presentation may carry |
| Presentation.PresentBundle | app/presentation.py:79-174 | on one snapshot presenting succeeds exactly for a registered verified bundle whose evidence is not `null`, with a public id, and no later check fails; on two snapshots what is shown is the re-read evidence under the recomputed outcome |
| Presentation.SnapshotAgrees | app/presentation.py:113-130 | the document of a bundle that verifies has one execution per role, the same input, the recomputed outcome and the recomputed verdicts |
| WitnessLoader.WitnessAgreesWithVerification | physical_witness/policy.py:60-100 | for every bundle that verifies with a document, signals are planned exactly when the recomputed outcome is PATCH_VERIFIED, for the two accepting roles, and declined for no other reason |
| WitnessLoader.LoadVerifiedPlan | scripts/roomba_witness.py:37-42 | the loader refuses a bundle exactly when it does not verify, or verifies with evidence `null`, and otherwise returns the plan of the checked document |
| Witness.PlanExactly | physical_witness/policy.py:60-100 | for every document, when signals are planned and for whom, when each reason is given, and which exits are never taken |
| Witness.EveryRoleHasAnAction | physical_witness/policy.py:45-46 | the lookup by role finds an action for every role in every plan: a signal exactly for the accepting roles of an eligible one |
| Witness.ExecuteLivePlan | scripts/roomba_witness.py:54-80 | for any plan, commands are sent in order, for signalled roles only, at least the cooldown apart, as many as planned when it succeeds; the limit error is never raised |
| Jobs.VerificationJobManager.StartJob | app/jobs.py:86-120 | the new state and answer of a start request, including the rollback of a refused thread; the cause of each refusal and the fields of the new record are written out |
| Jobs.VerificationJobManager.GetJob | app/jobs.py:122-125 | a status request finds the record of the id, and nothing exactly when there is none |
| Jobs.VerificationJobManager.Finish | app/jobs.py:153-172 | the new state when a worker ends, and whether its job was in the dictionary: the job's record keeps id, creation and start and holds exactly the reported error or presentation and the finish time, other records stay or, if ended, are evicted |
| Jobs.VerificationJobManager.TrimFinished | app/jobs.py:174-183 | the loop drops the oldest ended jobs until ten are left |
| Jobs.VerificationJobManager.BeginShutdown | app/jobs.py:185-190 | the flag is set for good, and the thread to join is the worker of that moment |
| Jobs.TrimKeeps | app/jobs.py:174-183 | trimming leaves at most ten ended records, adds none, and removes only ended ones |
| Workers.StepKeepsInvariant | app/jobs.py:86-190 | every atomic step of requests, workers and shutdowns keeps the manager's invariant, reused ids included |
| Workers.LookupNoticed | app/jobs.py:153-172 | a worker's end notes a failed lookup exactly when no record has its id |
| Workers.JoinExactly | app/jobs.py:185-190 | a waiting caller returns exactly when there was no thread or that thread is over |
| Workers.EveryInterleavingIsSafe | app/jobs.py:86-183 | after every interleaving at most one record runs and it is the active one, no lookup ever fails, ended records have a result or an error but not both, and the history is bounded |
| Workers.ShutdownIsFinal | app/jobs.py:185-190 | once a waiting shutdown has returned nothing runs and nothing ever starts again |
| JobHistory.RollbackExactly | app/jobs.py:109-115 | a refused thread start restores the state exactly when the id was new |
| JobHistory.JobLife | app/jobs.py:86-172 | from its start until its thread's last step a job has the running record it was opened with, and that step leaves exactly what the thread raised or presented |
| JobHistory.RaisedIsKept | app/jobs.py:126-152 | an expected exception becomes VERIFICATION_START_FAILED and any other INTERNAL_ERROR, whatever happens before the thread's last step |
| JobHistory.PresentedIsKept | app/jobs.py:126-160 | a registered bundle's presentation is kept until the thread's last step |
| JobHistory.EndedUntilEvicted | app/jobs.py:153-183 | after any events that do not draw its id again, an ended record is in the dictionary unchanged or its id is not there at all |
| JobHistory.AbsentUntilDrawn | app/jobs.py:92-183 | an id that is not in the dictionary, such as that of an evicted job, appears there only by being drawn |
| JobHistory.ReuseOverwrites | app/jobs.py:92-106 | drawing the id of an ended job again loses its record at once |
| JobHistory.HistoryIsFirstInFirstOut | app/jobs.py:174-183 | when no id is drawn twice the dictionary is the last ten ended jobs in order and the active one |

## Left out

- HTTP, FastAPI routing, middleware and the httpx clients: requests are steps, and an apply ends acknowledged, unavailable or failed, having reached the device or not.
- SHA-256 and Ed25519 themselves, JSON parsing of evidence, raw records and envelopes, the JSON schema, and Pydantic: arbitrary functions under the laws of `Library`; only the signed manifest bytes and base64 are concrete.
- Non-finite numbers and lone surrogates in a gateway's reply: replies are finite JSON over Unicode scalar values.
- Versions of Python whose base64 reader lets superfluous "=" pass: the reader follows section 4 of RFC 4648, as its strict mode does.
- Decimal digits other than 0 to 9 in time stamps and ids, which the models' patterns take and the schema does not.
- Limits on the length of numbers in the readers and writers of JSON, writers that fail, and readers that raise instead of refusing.
- The text of `run.log` and of the HTML report: arbitrary functions of the run's results.
- Process control, health polling, clocks and the drawing of random names: parameters; the staging, temporary and backup names are assumed unused when they are drawn.
- Empty sub-directories of a tree, devices and sockets, file permissions, and two writers on the same directory: a tree is its files and links.
- Symbolic links above a bundle: they enter only through how the host resolves paths, which no run changes.
- Windows paths: POSIX semantics only.
- The Roomba's transport and credentials: a locate call takes time and may raise.
- Floating-point rounding of the cooldown arithmetic: times are reals.
- Failures of a worker that are not ordinary exceptions: a run returns or raises what `_run_job` catches.
- Termination of the services and of `join`: what is proved is what holds when they return.
- `scripts/validate_*.py`, the demo and smoke runners and the dashboard's JavaScript: fixed cases and text searches.
- Runs.RunVerification: the staged files enter the disk's history in one step, because nothing reads the staging directory before it is complete, and what a staging that stops leaves in its own directory is not modelled; the host is assumed to let the staging directory be written.
- Publication.FileWriter.AtomicWriteBytes: the path is one with the links above it followed, because a tree does not say where a link to a directory leads.

# OpenUdon: verified models of validators and derivations

OpenUdon builds, reviews and checks workflow packages and the evidence that their browser steps leave behind.
This project models the parts whose behaviour rests on state, loops or a meaning that must be preserved, and
proves what those parts promise. `dafny verify dfyconfig.toml` checks all of it. Nothing was executed.

Code that changes things step by step is a class or a method with loops here (`Monitor`, `Decoder`, `Packer`, and the
methods named in the table), proved against functions and predicates; the lemmas then speak about those. The parts:

- **Browser run checker** (`RunChecker`, `RunSafety`, `RunHistory`, `RunEvidence`, `RunVerdict`, `RunMonitor`,
  `RunRules`, `RunConformance`, `RunAcceptance`, `RunWitness`, `RegistrationRun`, `AcceptedRun`). `Next` is one turn of
  the event loop and `Run` a whole trace; `Monitor` is the loop over its array and fields. `RunRules` says which event may
  follow which others by the trace alone, and `RunConformance` that exactly the traces that obey are followed. A `Story`
  is the sequence of states along a trace, and the ordering theorems are read off it.
- **Report v5 and browser contracts** (`ReportV5`, `ReportMeaning`, `BrowserContract`, `ConfigMeaning`, `Grammars`,
  `SessionBinding`, `BindingMeaning`).
- **Expression contracts** (`JsonSchema`, `ExpressionContracts`, `ExpressionAnswers`, `ExpressionSoundness`,
  `ExpressionTermination`): a checker for workflow references, an evaluator with lookups of its own that runs steps in
  order and outputs in name order, and the proof that the first is sound for the second.
- **Strict JSON decoding** (`WireTypes`, `WireFields`, `WireDominance`, `WireScanner`, `WirePositions`): record fields of
  possibly recursive struct types, and the duplicate-rejecting scan of a token stream.
- **Authoring cards** (`Quoting`, `CardText`, `CardReview`, `CardLayout`): the review text, line by line, and the reader
  that rebuilds the card.
- **Packages** (`Digests`, `PackageRecords`, `PackageFiles`, `PackageAssessment`, `PackageBuild`, `PackageInspect`,
  `PackageAgreement`, `PackageMeaning`, `BuildMeaning`, `BrowserSupplement`, `SupplementAgreement`, `SupplementMeaning`).
- **Browser-profile transactions** (`Transaction`, `TransactionRuns`) and **Unicode escapes** (`UnicodeEscapes`).

The modules ending in `Meaning`, and `RunRules`, `ExpressionAnswers`, `WirePositions`, `CardLayout` and `Grammars`, say
independently what the specification functions decide: every table, limit, text and edge is written out there, and lemmas
named `…Exactly`, `…Is` and `…Are` connect the two in both directions.

Some results say when the code does less than one might expect:

- The expression checker has two limits. The guard against cycles never fires: its key joins a step id and an output name
  with `/`, and the checker is built only for documents whose step ids passed the workflow schema, so they have no `/`
  (`GuardNeverFires`; `SchemaIds` is the pattern). The depth limit does change answers: `CheckIsUnbounded` says that a
  text gets the answer of the resolver without limits exactly while its chain of references needs depth 64 at most, and
  is unproved beyond. A workflow's reference to the thirty-third step of a relay is (`LongRelayIsUnproved`).
- Projecting a schema returns a subschema on its own. If that holds a reference, the document it pointed into is gone, and
  an instance may not satisfy what was projected (`ReferenceMisleads`). `ProjectionSound` and `CheckSound` are about
  declared schemas without reference keywords (`StandsAlone`); whether a shape table can declare others is decided by the
  binding library, which is not part of this model.
- `verifyBrowserSupplement` refuses a supplement that `addBrowserSupplement` wrote exactly when two steps that call the
  browser share an id that has a permission (`WrittenIsAccepted`); `RepeatedStepIsRefused` is such a workflow, and with
  distinct step ids it never happens.
- A struct that is embedded twice at one depth makes its own members ambiguous, but not those of the structs below it:
  they are kept, by the first of the equally short paths (`SharedBelowIsKept`). `IsRecord` says exactly what is kept, and
  `RecordIsUnique` that no two lists are kept.
- A second authentication of a session is noticed by the source id of an earlier one (`TwoAuthentications`); calls of a
  valid configuration all have one.
- A report whose finish is the zero time bounds none of its steps: they may start and end after it
  (`ZeroFinishIsNoBound`).
- `operationOutput` in packagev3/expression_contracts.go cannot be reached: `output` is only called with a step.

Hashes, codecs, grammars and resolvers are parameters. Where a theorem needs something of them it is a named predicate
(`Lawful`, `Faithful`, `Lossless`, `JoinsApart`, `NamesSources`, `LocalSchemas`), to be read as what SHA-256, strict JSON
decoding of what was encoded, the joining of clean paths below a scope, the binding resolver and the meaning of schema
keywords owe.

## Model

| member | source | states |
|---|---|---|
| RunMonitor.Monitor.Step | runevidence/browser.go:244-505 | one turn of the event loop refuses exactly when `Next` does, and otherwise moves the monitor's fields and array to the state `Next` gives, extending the recorded history |
| RunMonitor.Monitor.StopExecution | runevidence/browser.go:226-233 | every leaf still in flight becomes terminal and nothing else changes but the stop |
| RunMonitor.Monitor.FindLeaf | runevidence/browser.go:258-268 | finds the first approved call with the event's three ids, or -1 |
| RunMonitor.Monitor.DoClaim | runevidence/browser.go:371-420 | a claim moves the monitor as the transition function does: first claim in call order after earlier successes, or the reply to an answered and rechecked question |
| RunMonitor.Monitor.DoSend | runevidence/browser.go:421-446 | a send must match the pending claim's key, and marks its leaf sent with that message |
| RunMonitor.Monitor.DoResponse | runevidence/browser.go:447-462 | a response to the leaf's last message settles it, or stops the run |
| RunMonitor.Follow | runevidence/browser.go:214-505 | driving a monitor over a whole trace gives exactly `Run` of that trace, or its refusal |
| RunMonitor.ObserveBrowserReport | runevidence/browser.go:157-537 | the whole comparison returns the verdict `Judge` defines, on every input |
| RunMonitor.CheckStarts | runevidence/browser.go:186-213 | accepts exactly reports that start, and whose steps start, before the deadline and within a reused session's lifetime |
| RunMonitor.Compare | runevidence/browser.go:506-520 | the tests after the loop accept exactly a final state that proves the report |
| RunMonitor.Monitor.EarlierDone | runevidence/browser.go:393-397 | the loop of a first claim accepts exactly when every earlier leaf succeeded and every earlier registration is closed |
| RunMonitor.CheckLease | runevidence/browser.go:638-660 | the loops with their two maps accept exactly a matching credential lease |
| RunMonitor.CheckAccess | runevidence/browser.go:662-680 | a witnessed session access is accepted exactly when it narrows the plan and carries the expected binding |
| RunSafety.ReachableOrderly | runevidence/browser.go:214-505 | in every reachable state the sent leaves are a prefix of the approved calls, all but the last sent succeeded, unsent ones are not started, and a pending key is that of the claim just made |
| RunSafety.OneLeafInFlight | runevidence/browser.go:214-505 | at most one leaf is in flight, and it is the last one sent |
| RunSafety.OutcomesAreFinal | runevidence/browser.go:224-233 | success and failure are absorbing, and after a stop no later event changes any outcome, so terminal uncertainty is never upgraded |
| RunSafety.ClaimKeyDecides | runevidence/browser.go:135-137 | a send whose NUL-joined key equals the pending claim's agrees with it on all seven fields, even if the send's own fields contain NULs |
| Text.JoinNulDecides | runevidence/browser.go:135-137 | a key joined from NUL-free parts is the key of no other list of the same length |
| RunSafety.ValidCallsAreClean | browsercontract/validate.go:56-198 | the calls of a valid configuration have the NUL-free fields the claim key needs |
| RunSafety.LeaseIsExact | runevidence/browser.go:638-660 | for slots without NULs a lease matches exactly when it has the approved revisions and lists exactly the approved slots, each once, although slots are compared by joined keys |
| RunSafety.ValidSlotsClean | browsercontract/validate.go:100-104 | the slots of a valid configuration are such |
| RunHistory.Tell | runevidence/browser.go:244-505 | every followed trace has a story: a state per event, each explained by its event |
| RunEvidence.FinishedRunMilestones | runevidence/browser.go:302-508 | a finished run has exactly one launch, one join and one release, release last and every send between launch and join |
| RunEvidence.SendFollowsClaim | runevidence/browser.go:419-424 | each send directly follows the claim of exactly its message |
| RunEvidence.FirstMessage | runevidence/browser.go:138-148 | the first send of a leaf is "authenticate", "register" or "action" by the kind of its call |
| RunEvidence.OrdinalsAreConsecutive | runevidence/browser.go:379-434 | the ordinal of each send is one more than the number of sends before it |
| RunEvidence.OneRequestPerLeaf | runevidence/browser.go:398-437 | all sends of one leaf carry one request id |
| RunEvidence.SendsAreInOrder | runevidence/browser.go:382-397 | before a leaf is sent every earlier leaf had its successful response |
| RunEvidence.ContinuationIsAnswered | runevidence/browser.go:323-420 | between two sends of a leaf lie, in order, a question, a non-deny answer, a current recheck and a claim, all for that leaf, and the second send carries the reply kind of its question |
| RunEvidence.SaveIsPrepared | runevidence/browser.go:479-500 | a save is preceded in order by its leaf's success, that leaf's candidate, the join and a recheck of the session's generation, under a one-use permission to save with the session's name, binding and generation for that leaf's operation, which may save |
| RunEvidence.SaveIsUnique | runevidence/browser.go:494-500 | no trace saves twice |
| RunEvidence.DenialForbidsSave | runevidence/browser.go:361-365 | a trace with a denial contains no save, before or after it |
| RunEvidence.LossForbidsSave | runevidence/browser.go:270-306 | a trace with a missing or expired acquisition contains no save |
| RunEvidence.ResponseSettles | runevidence/browser.go:447-462 | a success or definite-failure response settles its leaf for the rest of the run |
| RunVerdict.AcceptedReport | runevidence/browser.go:506-537 | an accepted report has its three milestones in order; every outcome is the one the trace proves, in both directions; a success report means every approved call was sent, answered with success and, if a registration, closed before the join; a successor is eligible exactly when the host supplied a non-dispatch witness, and then every step is not started |
| RunVerdict.AcceptedIsUpheld | runevidence/browser.go:157-537 | acceptance means the trace is followed to its end and proves the report, under a configuration with at most one save |
| RunVerdict.OutcomesAreGrounded | runevidence/browser.go:509-513 | an upheld outcome is success if and only if the leaf got a success response, failure if and only if it got a definite-failure response, unknown if and only if it was sent and got neither, and not started if and only if it was never sent |
| RunVerdict.SuccessIsDone | runevidence/browser.go:509-513 | a success report means every approved call was sent and answered with success, and every registration closed before the join |
| RunVerdict.NonDispatchIsTotal | runevidence/browser.go:514-536 | non-dispatch is proved exactly when the host supplied its witness, and then the trace has no send and every step is not started |
| RunVerdict.RefusalIsUncertain | runevidence/browser.go:124-126 | every refusal answers with unknown outcomes only |
| RunWitness.OneActionRuns | runevidence/browser.go:214-508 | for every plan of one action without session or credentials the trace of launch, claim, send "action", success, join and release is followed to its end with the action succeeded |
| RunWitness.OneLoginSaves | runevidence/browser.go:214-508 | for every plan of one sign-in that may be saved, a trace with a question, its approval, a recheck, a second send and a save is followed to its end |
| RegistrationRun.OneRegistrationRuns | runevidence/browser.go:307-508 | for every plan of one registration, with its credentials leased if it has any, and each kind of question a registration may ask, the trace of input, launch, "register", question, answer, recheck, reply, success, context close, join and release is followed to its end |
| RegistrationRun.SentTwice | runevidence/browser.go:421-446 | that trace sends the registration twice |
| RunConformance.RunConforms | runevidence/browser.go:214-505 | a trace is followed if and only if every event obeys its rule after the events before it, the rules being about the trace alone |
| RunConformance.NextAgrees | runevidence/browser.go:244-505 | in a state that is what the trace so far shows, the tests of an event are its rule |
| RunConformance.RunSees | runevidence/browser.go:214-505 | after a followed trace every flag, outcome, last message and open question of the state is what the trace shows |
| RunAcceptance.AcceptedExactly | runevidence/browser.go:157-537 | a report is accepted if and only if the host is trusted, every event obeys its rule and the trace concludes as reported; the observation is the report's, and a successor is eligible exactly when non-dispatch is in the trace |
| RunAcceptance.TrustedExactly | runevidence/browser.go:157-213 | the tests before the event loop, spelled out witness by witness |
| RunAcceptance.ConcludedExactly | runevidence/browser.go:506-520 | the tests after it hold exactly of a trace that is joined and released, has no unsent claim and shows the reported outcomes, with every sent registration closed and a witnessed non-dispatch in it |
| RunAcceptance.LeafExactly | runevidence/browser.go:258-268 | an event's leaf is the first approved call with its three ids, if any has them |
| AcceptedRun.LoginIsAccepted | runevidence/browser.go:157-537 | a concrete configuration, inventory, report and host with such a trace are accepted |
| ReportV5.Validate | udonreport/v5.go:53-133 | accepts exactly the reports with unique ids, outcomes succeeded* (failed or unknown)? not_started*, and one nondecreasing chain of times within the report's |
| ReportV5.OutcomeShape | udonreport/v5.go:85-133 | the outcomes of a valid report split at one position into successes, at most one unsettled step, and not-started ones |
| ReportV5.ZeroFinishIsNoBound | udonreport/v5.go:61-112 | a report finish equal to the zero time bounds nothing: a valid report's step may lie after it |
| ReportV5.ObservationFaithful | udonreport/observation_v5.go:31-108 | for a valid inventory every observation validates and its inventory is the input, whatever the bytes |
| ReportV5.ObserveReport | udonreport/observation_v5.go:53-73 | the tests and the invocation loop give exactly the observation `Observe` defines |
| ReportV5.ValidateInventory | udonreport/observation_v5.go:31-41 | accepts exactly inventories of not-started steps that are valid as an incomplete report |
| ReportV5.MakeUnknown | udonreport/observation_v5.go:43-52 | the loop overwrites every outcome and keeps every invocation |
| ReportV5.ReadInventory | udonreport/observation_v5.go:75-82 | the loop gives back the inventory behind an observation |
| ReportMeaning.ReportExactly | udonreport/v5.go:53-133 | exactly these reports are valid: header, terminal fields, outcome rows, one split, and every instant after the earlier ones and within the report |
| ReportMeaning.ChainIsTimely | udonreport/v5.go:95-131 | the one chain of instants says that no started step starts before any earlier start or finish, ends before it starts, or passes the bound |
| ReportMeaning.ShapeIsSplit | udonreport/v5.go:85-133 | the outcomes are of the shape exactly when one position splits them |
| ReportMeaning.ObservedState | udonreport/observation_v5.go:53-73 | bytes that are no valid report are observed as invalid, a valid report of other invocations as mismatched, and only a valid report of these as validated |
| ReportMeaning.InventoryExactly | udonreport/observation_v5.go:31-41 | an inventory is valid exactly when these fields and rows are |
| Grammars.IdentifierIs | browsercontract/validate.go:18-23 | the length and alphabet of identifiers, at their edges |
| Grammars.DigestTextIs | browsercontract/validate.go:24-30 | exactly 64 lower-case hexadecimal digits |
| Grammars.SymbolIs | browsercontract/validate.go:19 | the length and alphabet of symbols |
| Grammars.ActionKeyIs | browsercontract/validate.go:20-57 | the length and alphabet of action keys |
| Grammars.EffectNameIs | browsercontract/validate.go:21 | the length and alphabet of effect names |
| Grammars.CommitTextIs | browsercontract/validate.go:118-123 | exactly forty lower-case hexadecimal digits |
| ConfigMeaning.ConfigExactly | browsercontract/validate.go:109-198 | exactly these configurations are valid: every field, pair of calls, origin, revision, session right and limit |
| ConfigMeaning.CallExactly | browsercontract/validate.go:56-108 | exactly these calls are valid, kind by kind |
| ConfigMeaning.CarriedExactly | browsercontract/protocol.go:5-25 | the profile versions of each kind and the drivers that carry them |
| BrowserContract.ValidateConfig | browsercontract/validate.go:109-198 | accepts exactly the valid configurations: calls with unique ids and permitted rights, origins and revisions covering them, consistent session flags, at most one save |
| BrowserContract.ValidateCall | browsercontract/validate.go:56-108 | the tests and the effect and slot loops accept exactly valid calls |
| BrowserContract.CheckRevisions | browsercontract/validate.go:162-169 | the revision loop accepts exactly revisions that name the calls' credentials in increasing order |
| BrowserContract.CheckNames | browsercontract/validate.go:170-176 | the loop with its seen map accepts exactly valid, distinct names |
| BrowserContract.ScanCalls | browsercontract/validate.go:128-150 | the call loop fails exactly on an invalid, repeated or unpermitted call, and collects all origins and credential names |
| BrowserContract.SessionFlags | browsercontract/validate.go:186-196 | tells whether some call of the session reuses or saves |
| BrowserContract.RevisionNames | browsercontract/validate.go:162-169 | in a valid configuration the revisions name exactly the calls' credentials |
| SessionBinding.DeriveBinding | runevidence/browser.go:681-758 | computes the expected binding, or the first failure, for every configuration and independent expectation |
| BindingMeaning.BindingExactly | runevidence/browser.go:681-758 | for a valid configuration the derivation gives a binding exactly when it is the one described: the profile digest is its actions' source, the authentication digest its sign-in's, the rest the plan's, and an independent expectation agrees and fills what is open |
| BindingMeaning.OneSignInIs | runevidence/browser.go:687-712 | it passes the tests of authentication exactly when there is one sign-in at most, which every action of the session names |
| SessionBinding.ScanSession | runevidence/browser.go:687-708 | the call loop fails exactly on an authentication after one with a source id, and collects the session's profiles, origins and credentials |
| SessionBinding.SortedOrigins | runevidence/browser.go:736-739 | the keys of the origin map, met in any order, sort to one list |
| SessionBinding.BoundOriginsIncrease | runevidence/browser.go:736-739 | a derived binding lists the session's origins, or the whole plan's, exactly and strictly increasing |
| SessionBinding.RevisionsNeverMissing | runevidence/browser.go:728-735 | for a valid configuration the derivation never lacks a credential revision |
| SessionBinding.BindingNeverLacksAuthentication | runevidence/browser.go:690-735 | for valid calls under session discipline it never fails for duplicate or mismatched authentication or for missing revisions |
| JsonSchema.LookupLiteral | packagev3/expression_contracts.go:113-136 | the lookup loop is the recursive lookup, canonical array indices included |
| JsonSchema.ChildContractLoop | packagev3/expression_contracts.go:137-209 | the projection loop is the recursive projection |
| JsonSchema.LookupStep | packagev3/expression_contracts.go:113-136 | a step of the lookup takes the member of an object by name, or of a list by an index in canonical decimal |
| JsonSchema.ProjectExactly | packagev3/expression_contracts.go:137-209 | what one step of the projection answers for every form of schema |
| JsonSchema.DynamicFound | packagev3/expression_contracts.go:81-112 | what lies below a literal that holds an expression is not fixed |
| JsonSchema.ProjectionSound | packagev3/expression_contracts.go:137-209 | of a schema without references, a Known projection other than false holds of the value every instance has at that path; a projection false means no instance has one |
| JsonSchema.ReferenceMisleads | packagev3/expression_contracts.go:137-209 | with a reference into the document the projection can fail an instance of the schema |
| JsonSchema.ProjectionJoined | packagev3/expression_contracts.go:137-209 | projecting in two stages, when Known, is projecting along the joined path |
| JsonSchema.ConstantSatisfied | packagev3/expression_contracts.go:81-112 | exactly the value itself satisfies the contract of a literal |
| ExpressionAnswers.VariableAnswers | packagev3/expression_contracts.go:294-322 | a variable is the reviewed data's before the document's, ambiguous beside a component's, and answered by exactly the value at its path |
| ExpressionAnswers.TargetIs | packagev3/expression_contracts.go:323-350 | a step reference resolves to the only step of its id, in a sequence, flat, unconditional and, for an owning step, earlier |
| ExpressionAnswers.UnresolvedIs | packagev3/expression_contracts.go:323-349 | which other step references are unproved and which incompatible |
| ExpressionAnswers.StepAnswers | packagev3/expression_contracts.go:350-362 | a step's output is answered as its text is in that step, with the path left |
| ExpressionAnswers.MissingOutput | packagev3/expression_contracts.go:442-457 | an output the step does not have is incompatible |
| ExpressionAnswers.OutputAnswers | packagev3/expression_contracts.go:363-386 | an own output is answered so too, if its name comes before |
| ExpressionAnswers.ShapeIs | packagev3/expression_contracts.go:57-80 | whose shape an owner's responses have |
| ExpressionAnswers.BelowAnswers | packagev3/expression_contracts.go:210-223 | a path below a scalar of a browser action is missing; every other is what projection proves |
| ExpressionAnswers.ResponseAnswers | packagev3/expression_contracts.go:235-422 | a response is answered from the first declaration of the place and name it reads; without one it is incompatible if the shape is complete |
| ExpressionAnswers.PlainAnswers | packagev3/expression_contracts.go:387-397 | without a shape it is unproved, and a status code is an integer of an http operation |
| ExpressionAnswers.OtherAnswers | packagev3/expression_contracts.go:281-424 | refused texts are incompatible, computed and other ones unproved |
| ExpressionSoundness.CheckSound | packagev3/expression_contracts.go:281-457 | where declared schemas have no references: if a text is compatible with a Known schema, the value that the step-ordered evaluator gives, with its own lookup of variables, shapes and outputs, satisfies it, and unless the schema is false there is one |
| ExpressionSoundness.CheckedStepDelivers | packagev3/expression_contracts.go:483-497 | when checking a step's outputs adds no finding, executing the document gives each output a value its contract promises |
| ExpressionSoundness.CheckOutputs | packagev3/expression_contracts.go:483-497 | the loop adds exactly the findings of outputs that are not compatible, in order |
| ExpressionSoundness.NoFindings | packagev3/expression_contracts.go:483-497 | no findings means every output is compatible |
| ExpressionTermination.DepthOnlyHides | packagev3/expression_contracts.go:281-283 | starting at a smaller depth never changes a compatible or incompatible answer |
| ExpressionTermination.LimitsOnlyHide | packagev3/expression_contracts.go:281-457 | anywhere in a resolution a decided answer is that of the resolver without limits |
| ExpressionTermination.GuardNeverFires | packagev3/expression_contracts.go:442-457 | for step ids that passed the schema, wherever a resolution gets, the checker answers as it would without the guard, indeterminate answers included |
| ExpressionTermination.DepthDecides | packagev3/expression_contracts.go:281-283 | without the guard the depth limit replaces the unlimited answer exactly where the chain is too deep |
| ExpressionTermination.CheckIsUnbounded | packagev3/expression_contracts.go:281-457 | for step ids that passed the schema, the answer is that of the resolver without limits if the chain of references needs depth 64 at most, and indeterminate otherwise; the resolver ends because resolving decreases (step, output name) lexicographically |
| ExpressionTermination.KeysApart | packagev3/expression_contracts.go:442-457 | two outputs of steps whose ids passed the schema never share a key |
| ExpressionTermination.LongRelayIsUnproved | packagev3/expression_contracts.go:281-283 | along steps that each pass on the output before, a workflow reference is proved up to the thirty-second step and unproved from the thirty-third |
| WireFields.Collect | wire/fields.go:89-136 | the breadth-first loop ends on recursive struct graphs and collects every member of every reachable struct at its shortest embedding distance, twice exactly when its struct was embedded repeatedly |
| WireFields.Level | wire/fields.go:94-136 | one round visits exactly the structs of its level that are new and lists what they embed |
| WireFields.Expand | wire/fields.go:100-134 | the field loop appends a struct's members in order and counts its embeddings |
| WireFields.FoundFirst | wire/fields.go:133-138 | the work list of a level holds the first of the shortest paths to each struct |
| WireFields.NothingDeeper | wire/fields.go:93-136 | once a level adds no struct, none lies deeper |
| WireTypes.TagNameIs | wire/fields.go:115-121 | a tag names its field by what stands before its first comma, if all of that may be in a name |
| WireTypes.FieldRoles | wire/fields.go:103-138 | which fields are members and which embed a struct |
| WireTypes.ItemIs | wire/fields.go:122-128 | a member has its tag's name, or else its Go name, and is tagged in the first case |
| WireTypes.IndexIs | wire/fields.go:154-169 | one index precedes another at their first difference, or as its prefix |
| WireTypes.FreshIs | wire/fields.go:95-101 | a struct's level is the length of its shortest walk of embeddings |
| WireFields.RepeatedIs | wire/fields.go:130-138 | embedded repeatedly means by two different fields of structs one level up |
| WireTypes.FreshIsShortest | wire/fields.go:95-99 | the level at which a struct is visited is the length of its shortest embedding path |
| WireTypes.WalkReaches | wire/fields.go:118-132 | a recorded index path leads to a struct at its length |
| WireDominance.JsonFields | wire/fields.go:89-170 | the result is the record of its struct: distinct names, strictly increasing indices, and exactly the fields that dominate, each by the first shortest path to its struct |
| WireDominance.RecordIsUnique | wire/fields.go:89-170 | a struct has at most one record |
| WireDominance.Dominant | wire/fields.go:154-168 | the grouping loop keeps exactly the fields collected once and better, by depth then tag, than every other of their name |
| WireDominance.WinnerDominates | wire/fields.go:154-168 | a kept field lies at the shortest distance its name has, alone there or alone tagged, in a struct not embedded repeatedly |
| WireDominance.DominatesWins | wire/fields.go:154-168 | conversely every such field is kept |
| WireDominance.GroupHead | wire/fields.go:155-166 | comparing the first two of a sorted group decides for the whole group |
| WireDominance.SharedBelowIsKept | wire/fields.go:86-136 | in a diamond of embeddings the member below the struct embedded twice is kept, with the first of its two equally short paths |
| WireDominance.JsonFieldIndex | wire/fields.go:73-85 | finds the first field of exactly that name if there is one, otherwise the first whose name folds to the key, and none only if no name matches either way |
| WireDominance.SelectedNames | wire/fields.go:73-85 | the specification's selection is that field and no other |
| WireDominance.OwnNameSelects | wire/fields.go:71-85 | every member of a record is selected by its own name, whatever folds |
| WireScanner.Decoder.Value | wire/json.go:67-161 | scanning consumes exactly the tokens of one value and adds its count, and for the tokens of a value it succeeds if and only if the value is acceptable |
| WireScanner.Decoder.Object | wire/json.go:85-125 | the member loop refuses exactly repeated keys, record fields selected twice, and members that are not acceptable |
| WireScanner.Decoder.Sequence | wire/json.go:126-157 | the element loop scans each element at its type, array excess without one |
| WireScanner.RejectDuplicateJSONKeys | wire/json.go:52-66 | a stream is accepted if and only if it is one value that repeats no key, selects no record field twice, nests at most 64 containers and counts at most 100000 values |
| WireScanner.Scan | wire/json.go:52-161 | the same with the record fields jsonFields gives for every struct in sight |
| WireScanner.SameValue | wire/json.go:52-66 | a token stream holds at most one value |
| WireScanner.KeyAdmitted | wire/json.go:103-118 | the two seen maps admit a key exactly when the object stays free of repetition |
| WirePositions.AcceptedIs | wire/json.go:52-161 | a value is acceptable exactly when no object in it has a key twice or two keys that name one record field, with at most 64 containers nested and 100000 values counted |
| WirePositions.NoFieldTwice | wire/json.go:85-121 | in an accepted value no object at a struct has two keys that both match only one field, exactly or folded |
| WirePositions.CleanEverywhere | wire/json.go:67-161 | freedom from repetition, said of every object in a value with the type it is decoded at |
| WirePositions.Budgets | wire/json.go:68-82 | 64 nested arrays or objects are accepted and 65 not, 99999 elements and no more |
| Quoting.ReadQuotedOfQuote | authoringcard/text.go:18-25 | a quoted value reads back as itself, whatever follows |
| Quoting.QuoteIsOneLine | authoringcard/text.go:9-25 | quoting leaves no control character, so no value starts a line |
| Quoting.ReadLinesOfText | authoringcard/text.go:18-25 | lines of labels and quoted values can be read back from their text |
| CardText.ReviewOmitsNothing | authoringcard/text.go:13-76 | every card is rebuilt from its review text: fields, order, absent and present payloads |
| CardText.ReviewsDiffer | authoringcard/text.go:9-76 | two cards with one review text are equal |
| CardText.ReadHeadOf | authoringcard/text.go:26-74 | no label of the review can be mistaken for another, with or without its number |
| CardLayout.RenderedIs | authoringcard/text.go:13-76 | the text written is this one, line by line and label by label |
| CardLayout.CardExactly | authoringcard/validate.go:116-211 | exactly these cards are valid: counts, sizes, identities, outcome |
| CardLayout.SizesAre | authoringcard/validate.go:173-211 | which texts count toward the 256 KiB |
| CardLayout.EscapeIs | authoringcard/text.go:9-25 | which characters are quoted as themselves or with an escape of their own |
| CardLayout.EscapeHex | authoringcard/text.go:9-25 | every other is quoted in two, four or eight hexadecimal digits |
| CardReview.RenderText | authoringcard/text.go:13-76 | exactly valid cards are rendered, and the loops write the specified text |
| CardReview.Validate | authoringcard/validate.go:116-171 | accepts exactly bounded, schema-valid cards with unique steps and targets, one identity per source and operation, and an outcome that fits |
| CardReview.IsBounded | authoringcard/validate.go:173-211 | accepts exactly cards within the counts, without empty literals, whose texts and literals total at most 256 KiB |
| CardReview.CheckOutline | authoringcard/validate.go:124-152 | the outline loop with its three maps decides pairwise consistency and whether anything is unfinished |
| UnicodeEscapes.ValidUnicodeEscapesInCard | authoringcard/validate.go:73-111 | accepts exactly bytes whose escapes inside strings are complete and whose surrogate escapes are paired, and never indexes out of range |
| UnicodeEscapes.ValidUnicodeEscapesInContract | browsercontract/json.go:40-80 | accepts exactly the same bytes |
| UnicodeEscapes.OneUnitIs | authoringcard/validate.go:92-104 | one escaped unit is accepted exactly if it is four hexadecimal digits and no surrogate |
| UnicodeEscapes.TwoUnitsAre | authoringcard/validate.go:92-110 | two in a row are accepted exactly if neither is a surrogate, or the first is high and the second low |
| UnicodeEscapes.OtherEscapes | browsercontract/json.go:40-62 | other escapes are complete with one byte, there are none outside strings, and none may be cut |
| BrowserSupplement.DeriveBrowserSupplement | packagev3/browser.go:228-317 | the derivation loops give exactly the supplement `Derive` defines, or its refusal |
| SupplementMeaning.MadeIs | packagev3/browser.go:114-226 | a step's call is made exactly when there is one whose fields come from the resolved shape, the step and its extension, with one credential per slot and the session rules of its kind kept |
| SupplementMeaning.RequestIs | packagev3/browser.go:114-170 | what each form of operation asks the resolver for |
| SupplementMeaning.NotBrowserIs | packagev3/browser.go:149-170 | which operations do not concern the browser |
| SupplementMeaning.RoundIs | packagev3/browser.go:277-307 | one round passes exactly a flat step of an unused operation, and adds its call with the step's permission or nothing |
| SupplementMeaning.DerivedCallIs | packagev3/browser.go:114-307 | every derived call has its step, the operation and the shape it resolves to, and all of its fields are theirs |
| SupplementMeaning.RequiredSessionIsThere | packagev3/browser.go:204-214 | an action whose shape requires authentication has a session, to which an earlier call signed in at the source it names |
| SupplementMeaning.DeriveIs | packagev3/browser.go:228-317 | a supplement is derived exactly from distinct operations, passing steps that use them all, 1 to 100 calls, permissions of called steps only, and sources with a profile and a version for each; nothing exactly without profiles, permissions and reviews |
| SupplementMeaning.DerivedParts | packagev3/browser.go:308-317 | it holds the workflow's digest, the profiles by id, the calls of the steps and the reviews |
| SupplementMeaning.AcceptsIs | packagev3/browser.go:354-383 | bytes are accepted exactly if they are the canonical text of a supplement that derives again from its own permissions, no step with a permission being called again |
| BrowserSupplement.RunSteps | packagev3/browser.go:277-307 | the step loop over its three maps is the fold of one round over the steps |
| BrowserSupplement.BindSlots | packagev3/browser.go:215-224 | the slot loop binds every slot in order or refuses |
| BrowserSupplement.IndexOperations | packagev3/browser.go:270-276 | the operations map exists exactly for distinct ids and answers by id |
| BrowserSupplement.ListSources | packagev3/browser.go:250-265 | the source loop lists the browser profiles or finds one without a version |
| SupplementAgreement.AddBrowserSupplement | packagev3/browser.go:318-353 | writes the canonical bytes of the derived supplement with sorted reviews, or refuses |
| SupplementAgreement.VerifyBrowserSupplement | packagev3/browser.go:354-383 | accepts exactly bytes whose supplement derives again from the permissions read back |
| SupplementAgreement.ReadPermissions | packagev3/browser.go:362-368 | reading back succeeds exactly when no step with a permission is called again, and gives each step its flags |
| SupplementAgreement.Rederived | packagev3/browser.go:277-310 | permissions that agree on the derived calls and name only their steps derive the same supplement, so all-false ones do not matter |
| SupplementAgreement.SourceOrderIsImmaterial | packagev3/browser.go:99-106 | the derivation does not depend on the order of distinct sources |
| SupplementAgreement.ReadBackDerives | packagev3/browser.go:354-383 | deriving again with the permissions of the derived calls gives the same supplement |
| SupplementAgreement.WrittenIsAccepted | packagev3/browser.go:318-383 | what was written is accepted, from the sources in any order, if and only if no two steps that call the browser share an id that has a permission |
| SupplementAgreement.CallsOfPositions | packagev3/browser.go:277-307 | the derived calls are those of the steps whose operations ask for the browser, in order |
| SupplementAgreement.SharedIffRepeated | packagev3/browser.go:277-368 | permissions cannot be read back exactly when two such steps share an id with a permission |
| SupplementAgreement.RepeatedStepIsRefused | packagev3/browser.go:318-383 | two sign-ins under one step id with a permission are written and then refused |
| SupplementAgreement.DistinctStepsAreAccepted | packagev3/browser.go:318-383 | with distinct step ids everything written is accepted |
| SupplementAgreement.AcceptedIsWritable | packagev3/browser.go:318-383 | whatever is accepted would be written from its own permissions and reviews |
| SupplementAgreement.DerivedCallsAreDisciplined | packagev3/browser.go:192-214 | every derived action with a session points to the source of the one earlier authentication of that session |
| SupplementAgreement.DerivedCallsBind | runevidence/browser.go:681-735 | a valid configuration of derived calls never fails to bind for duplicate or mismatched authentication or missing revisions |
| Digests.DigestFiles | handoff/digest.go:21-54 | seals the sorted, cleaned inventory, or refuses exactly improper ones |
| Digests.DigestIgnoresOrder | handoff/digest.go:32-48 | the digest does not depend on the order of the files |
| PackageMeaning.DigestExactly | handoff/digest.go:21-54 | a digest is given exactly for inventories within the limits whose clean paths differ, and is the seal of the version or the default one, the scope and the files by path |
| PackageMeaning.ManifestExactly | packagev3/records.go:108-157 | exactly these manifests are valid, path by path; that all inputs lie apart follows |
| PackageMeaning.HandoffExactly | packagev3/records.go:193-222 | exactly these handoffs are valid |
| PackageMeaning.AssessmentExactly | packagev3/records.go:223-241 | exactly these assessments are valid |
| PackageMeaning.PutExactly | packagev3/build.go:70-83 | a file is stored exactly when it is new, screened and within every limit |
| PackageMeaning.AcceptedExactly | packagev3/snapshot.go:21-102 | inspection accepts exactly packages that hold the manifest's inputs and the three records, all with their recorded hashes, in canonical text, under one scope and the expected digest |
| BuildMeaning.BuiltExactly | packagev3/build.go:58-173 | Build returns exactly the package assembled from its options: inputs, sources, shapes, supplement, sorted manifest, assessment, a handoff over every file, and the digest over all |
| BuildMeaning.GatheredExactly | packagev3/build.go:99-112 | the sources stored are exactly the ones given, each on a path of its own with its kind and hash, and the runtime's shapes by id |
| BuildMeaning.SupplementedExactly | packagev3/browser.go:318-353 | the supplement step stores the reviews given and the supplement derived from them in path order, or nothing where nothing was asked |
| BuildMeaning.AssessedExactly | packagev3/build.go:178-234 | the assessment of a package is exactly this: its digests, the worst remark, the first 128 of them |
| PackageRecords.ValidateManifest | packagev3/records.go:108-157 | accepts exactly manifests whose sources, browser file and reviews are valid, counted within limits and on paths of their own |
| PackageRecords.CheckSources | packagev3/records.go:117-138 | the source loop's two maps and two counters decide validity and distinctness of all sources |
| PackageRecords.InputArtifacts | packagev3/records.go:159-173 | lists exactly the named inputs sorted by path, for valid manifests only |
| PackageAssessment.ValidateHandoff | packagev3/records.go:193-222 | accepts exactly handoffs whose artifacts increase by path, include the package's own files, agree with the two record hashes and omit the handoff |
| PackageAssessment.ValidateAssessment | packagev3/records.go:223-241 | accepts exactly well-formed assessments |
| PackageAssessment.Add | packagev3/build.go:225-234 | one more remark joins the outcome and is kept among the first 128 or truncates |
| PackageAssessment.AddAll | packagev3/build.go:225-234 | after any remarks the outcome is the worst of all of them, though only 128 are kept |
| PackageAssessment.WorstIgnoresOrder | packagev3/build.go:225-234 | the joined outcome does not depend on the order of the remarks |
| PackageAssessment.Assess | packagev3/build.go:178-224 | assesses exactly packages whose manifest, inputs, shapes and supplement reproduce |
| PackageFiles.Packer.Put | packagev3/build.go:70-83 | stores a new screened file within all limits and keeps the byte total, or changes nothing |
| PackageBuild.Build | packagev3/build.go:58-173 | returns exactly the package `Built` specifies, whatever order the file map is read in |
| PackageBuild.GatherSources | packagev3/build.go:99-112 | the source loop stores every source and records its identity, or stops |
| PackageBuild.ListingsSort | packagev3/build.go:153-156 | sorted, every reading of the file map is the same list |
| PackageInspect.InspectSnapshot | packagev3/snapshot.go:21-102 | accepts exactly the snapshots `Accepted` describes, and returns the records they hold |
| PackageInspect.CopyFiles | packagev3/snapshot.go:27-40 | the screening loop accepts exactly files that are each allowed and together within the byte limit |
| PackageInspect.AcceptedFiles | packagev3/snapshot.go:48-65 | acceptance means the files are exactly the manifest's inputs and three records, every input with its recorded hash |
| PackageInspect.AcceptedBinding | packagev3/snapshot.go:66-79 | acceptance means every file but the handoff itself is bound by its hash in the handoff |
| PackageAgreement.BuiltIsAccepted | packagev3/build.go:58-173 | whatever Build returns is accepted with the returned scope and digest and the same screen, and reads back as the same records |
| PackageAgreement.DerivedIsVerified | packagev3/build.go:126-135 | a supplement derived during Build passes the verification Build then makes of it, after the sources were sorted, when step ids are distinct |
| Transaction.Validate | browsertransaction/transaction.go:163-199 | accepts exactly valid transactions |
| Transaction.CheckOrigins | browsertransaction/transaction.go:425-433 | the origin loop accepts exactly strictly increasing non-empty valid origins |
| Transaction.CheckBindings | browsertransaction/transaction.go:435-447 | the binding loop accepts exactly present lists of at most 32 symbols with increasing slots |
| Transaction.CheckLifecycle | browsertransaction/transaction.go:449-486 | accepts exactly the fields a state has, must have and must not have |
| Transaction.CheckComposition | browsertransaction/transaction.go:201-236 | accepts exactly the result and profile versions that belong together |
| Transaction.CanonicalBytes | browsertransaction/transaction.go:240-267 | encodes the sorted transaction when it is valid and fits |
| Transaction.ValidIsCanonical | browsertransaction/transaction.go:240-267 | sorting changes nothing in a valid transaction |
| Transaction.ValidFits | browsertransaction/transaction.go:263-265 | no valid transaction can reach the 256 KiB limit |
| Transaction.CanonicalBytesExist | browsertransaction/transaction.go:367-373 | canonicalising a valid transaction never fails |
| Transaction.ValidateTransition | browsertransaction/transaction.go:325-365 | accepts exactly steps between valid transactions that keep identity, preparation and promotion along an allowed edge; comparing canonical bytes loses nothing |
| TransactionRuns.EdgesExactly | browsertransaction/transaction.go:325-365 | valid transactions of one identity follow each other exactly along an edge of the lifecycle, when a preparation stays and appears only in prepared |
| TransactionRuns.ShapeIsRun | browsertransaction/transaction.go:325-525 | for every valid identity and preparation, every state sequence of the shape is that of a run |
| TransactionRuns.RunHasShape | browsertransaction/transaction.go:512-525 | and conversely |
| TransactionRuns.LifecycleExactly | browsertransaction/transaction.go:449-525 | which of preparation, promotion and failure each state has, and which failures there are |
| TransactionRuns.ProvenanceExactly | browsertransaction/transaction.go:410-434 | what a valid provenance says |
| TransactionRuns.BindingsExactly | browsertransaction/transaction.go:435-448 | which lists of bindings are valid |
| TransactionRuns.RegistrationExactly | browsertransaction/transaction.go:163-236 | which candidates, versions, bindings and session a registration has |
| TransactionRuns.AuthenticationExactly | browsertransaction/transaction.go:163-236 | and which a sign-in has |
| TransactionRuns.PromotionExists | browsertransaction/transaction.go:325-525 | some registration of each version runs to promotion |
| Transaction.IdentityIsForever | browsertransaction/transaction.go:325-351 | over any run identity, provenance, candidates, bindings and session never change |
| Transaction.PreparationIsForever | browsertransaction/transaction.go:352-359 | over any run a preparation once present stays equal |
| Transaction.FinalEndsTheRun | browsertransaction/transaction.go:512-525 | promoted, cancelled and failed end every run |
| Transaction.RunShape | browsertransaction/transaction.go:512-525 | a run from candidate is candidate, reviewed, prepared, (indeterminate, prepared)* with an optional ending, promoted only after prepared |
| Transaction.PreparationSincePrepared | browsertransaction/transaction.go:352-359 | on such a run a preparation is there exactly from the first prepared snapshot on |

## Left out

- Hashes and signatures: SHA-256 is a function; canonical digests are compared as the values they digest.
- Timestamps are instants, with the zero time its own value; origin, URL, path and scope grammars are predicates.
- The expression grammar: texts arrive parsed into references; the parser is not part of this model.
- Workflow schemas: of what they demand, only the pattern of step ids enters, which every embedded version gives `stepId` (packagev3/build.go:242, packagev3/schema.go:25); keywords that projection does not read have a parameter for meaning, which sees their object and its document.
- Regular expressions of identifiers, symbols and digests are written out; those of the credential policy are a predicate.
- Texts are sequences of Unicode scalar values, so invalid UTF-8 cannot occur; byte lengths are computed where the source counts the bytes of texts that need not be ASCII.
- The six parallel slices of the event loop are one array of records.
- Trace words, states, kinds and versions the code tests for are enumerations; other texts fall into one further case each.
- A call's effects are a list of names; that its raw JSON bytes are kept verbatim is not modelled.
- The union of origins in a browser configuration is compared as a set; both sides are sorted and distinct in the source.
- JSON presence checks (recordShape, closedShape, report fields), explicit null arrays and absent versus empty lists in records.
- Destinations of the JSON scanner by type only: populated interfaces, slice capacity and self-containing pointers.
- The field cache of the scanner is filled for every struct in advance rather than on first use.
- Library sorts are the sorted permutation; the keys compared are unique wherever the result depends on it.
- JsonSchema.ProjectionSound: for schemas without reference keywords only, since the code drops the document a reference points into (`ReferenceMisleads`); a schema that no value satisfies is projected soundly whatever it holds, so the condition is sufficient and not necessary.
- ExpressionSoundness.CheckSound: for documents whose declared schemas have no reference keywords, for the same reason.
- PackageAssessment.Assess: the checks that walk the workflow and call the binding library enter as the sequence of remarks they add.
- PackageBuild.Build: shape tables, workflow decoding and declared credentials are functions of the stored files; cancellation of the context is not modelled.
- BrowserSupplement.DeriveBrowserSupplement: the binding resolver, the shape table and decoded operation extensions are parameters.
- The duplicate-name scan inside browser-profile transaction decoding is the JSON scan without record fields at depth 32.
- Error texts, diagnostics, file and archive access, schema validation, signatures, approval, trust and brokerage.
- Fixed tables such as the default review state machine: finite, with nothing to prove over an unbounded domain.

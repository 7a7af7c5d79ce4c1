# Verified model of the app-server protocol, client and command core

This project models, in Dafny, the parts of the code base where state and meaning are
easiest to lose, and proves what each part is for. `dafny verify dfyconfig.toml` checks
the whole project.

**Schema export** (`codex-rs/app-server-protocol/src/export.rs`, `schema_fixtures.rs`).
JSON values are the datatype `Json`, objects are maps. A `$ref` is followed by walking a
JSON pointer through the definitions map (`SchemaRefs.Resolve`), and the meaning of a
schema is its unfolding: refs replaced by what they name, to any depth
(`SchemaRefs.Unfold`). Flattening, bundling and variant pruning are proved against that
meaning, and what a bundle holds is also stated name by name and field by field
(`BundleContent`). Both worklists are proved to compute least closed sets. Canonical fixtures are
compared through a model of the serialiser whose injectivity is proved, not assumed.

**TypeScript export** (`export.rs`). The scanner for brackets, strings, escapes and
comments is a class whose `Observe` follows the source branch by branch. Splitting at
top-level delimiters, filtering union arms and pruning imports are built on it. The
parsers that find an arm's method are proved to accept exactly the texts of a grammar.

**In-process event forwarder** (`codex-rs/app-server-client/src/lib.rs`). A state
machine over producer steps, polls of a pending send, consumer receives and closing,
with a class whose methods are the source's branches.

**Remote client** (`codex-rs/app-server-client/src/remote.rs`). The handshake, the worker
that multiplexes requests, and the event stream, as a state machine and a worker class.

**Analytics reducer** (`codex-rs/analytics/src/reducer.rs`). The five maps as a class.
What a turn's facts mean is defined separately from the maps, as the latest value each
field was given since the turn's last event, and the two are proved to agree.

**Command execution** (`codex-rs/app-server/src/command_exec.rs`). Three models: the
output pump (a loop over arbitrary chunking and timing), the run loop of one command with
its two pumps and its reply, and the table of sessions shared by all connections.

**Connection gate** (`codex-rs/app-server/src/connection_rpc_gate.rs`). All interleavings
of any number of `run` and `shutdown` calls.

Concurrency is modelled as runs: a step function per atomic action, applied to an
arbitrary list of steps, where a step that is not enabled changes nothing. A critical
section under a mutex is one step. The classes carry the same actions as methods, each
proved to take the abstract state to the result of its step function.

## Model

| member | source | states |
|---|---|---|
| `Serializer.JsonTextInjective` | codex-rs/app-server-protocol/src/schema_fixtures.rs:174-182 | the text used as a tie-break and compared between fixtures determines the value: two values with the same text are equal |
| `Serializer.EscapePrefixFree` | codex-rs/app-server-protocol/src/schema_fixtures.rs:174-182 | no character's escape is a proper prefix of another's, so an escaped string can be read back one way only |
| `Canonical.Canonicalize` | codex-rs/app-server-protocol/src/schema_fixtures.rs:152-208 | the recursive rewriting computes the canonical form of every value |
| `Canonical.CanonicalizeArray` | codex-rs/app-server-protocol/src/schema_fixtures.rs:154-196 | the canonical form of an array is its canonical items, sorted if and only if every one has a sort key |
| `Canonical.SortIfKeyed` | codex-rs/app-server-protocol/src/schema_fixtures.rs:174-195 | sorting is given up, and the order kept, at the first item without a key |
| `Canonical.CanonicalizeObject` | codex-rs/app-server-protocol/src/schema_fixtures.rs:197-205 | each member of an object is replaced by its canonical form |
| `Canonical.CanonCompleteInvariant` | codex-rs/app-server-protocol/src/schema_fixtures.rs:152-208 | two values have the same canonical form exactly when they differ only by reordering, at any depth, arrays all of whose elements are null, booleans, numbers, strings or objects with a `$ref` or a title |
| `Canonical.CanonIdempotent` | codex-rs/app-server-protocol/src/schema_fixtures.rs:152-208 | canonicalising twice is canonicalising once |
| `Canonical.CanonOnlyReorders` | codex-rs/app-server-protocol/src/schema_fixtures.rs:152-208 | the canonical form is itself such a reordering of the value |
| `PrettyText.JsonPrettyInjective` | codex-rs/app-server-protocol/src/schema_fixtures.rs:124-134 | the indented text that fixtures are rewritten to determines the value: dropping the blanks outside its strings gives the compact text |
| `Canonical.CanonicalTextDecides` | codex-rs/app-server-protocol/src/schema_fixtures.rs:124-134 | comparing the indented texts of canonical forms, as fixtures are compared, decides sameness up to reordering, both ways |
| `Canonical.SortOfPermutation` | codex-rs/app-server-protocol/src/schema_fixtures.rs:184-195 | sorting by key and then by text gives one list for all permutations of its input |
| `Canonical.BeforeExactly` | codex-rs/app-server-protocol/src/schema_fixtures.rs:184-227 | the order used is: by kind (boolean, number, null, `$ref`, string, titled object, as their prefixes sort), within a kind by the value's text, the ref's target or the title, a `$ref` counting before a title, and then by the whole text |
| `Canonical.CanonArrayExactly` | codex-rs/app-server-protocol/src/schema_fixtures.rs:174-196 | an array with an item that is itself an array or an object with neither a `$ref` nor a title as a string keeps its order, so tuples are never reordered; any other array becomes its canonical items in that order |
| `TsScanner.ScanState.constructor` | codex-rs/app-server-protocol/src/export.rs:880-889 | scanning starts at top level, outside strings and comments |
| `TsScanner.ScanState.Observe` | codex-rs/app-server-protocol/src/export.rs:891-959 | one character takes the scanner to the state the pure scanner gives, through line and block comments, strings, escapes and the four kinds of bracket |
| `TsScanner.ScanState.AtTopLevel` | codex-rs/app-server-protocol/src/export.rs:961-978 | true exactly outside all brackets, strings and comments |
| `TsScanner.SplitTopLevelMulti` | codex-rs/app-server-protocol/src/export.rs:754-777 | the loop yields exactly the trimmed, non-empty pieces between the top-level delimiters |
| `TsScanner.SplitJoin` | codex-rs/app-server-protocol/src/export.rs:754-777 | splitting clean parts joined by a padded or trailing-space delimiter gives exactly those parts back |
| `TsScanner.SplitClean` | codex-rs/app-server-protocol/src/export.rs:754-777 | every part of a text without line comments that ends at top level is clean |
| `TsScanner.SplitStable` | codex-rs/app-server-protocol/src/export.rs:754-777 | splitting such a text, joining the parts and splitting again gives the same parts |
| `TsScanner.SplitPieces` | codex-rs/app-server-protocol/src/export.rs:758-777 | however clean pieces are spaced, and with blank ones anywhere, splitting gives their trimmed forms in order |
| `TsScanner.SplitNested` | codex-rs/app-server-protocol/src/export.rs:758-777 | text is nested out of words, quoted strings and the four kinds of bracket; a delimiter inside quotes or between matching brackets never cuts, every other does, and the pieces come back in order, trimmed |
| `TsArms.FindTopLevelBraceSpan` | codex-rs/app-server-protocol/src/export.rs:735-752 | returns the last brace opened at top level before a brace first closes there, with no top-level brace opened between them; nothing exactly when no brace closes at top level after one was opened there |
| `TsArms.PropertyNameExactly` | codex-rs/app-server-protocol/src/export.rs:815-849 | a field has a name for the parser if and only if it is that name as a literal or an identifier, optional or not, with any blanks, before a colon |
| `TsArms.LiteralParses` | codex-rs/app-server-protocol/src/export.rs:851-874 | a quoted literal is read back whole, escaped pairs included |
| `TsArms.LiteralShape` | codex-rs/app-server-protocol/src/export.rs:851-874 | whatever is read as a literal is one, and the text is that literal and the rest |
| `TsArms.FirstMethodExactly` | codex-rs/app-server-protocol/src/export.rs:782-793 | the fields give a method if and only if the first field named `method` has a literal as its value, and it is that literal |
| `TsArms.MethodOfArmExactly` | codex-rs/app-server-protocol/src/export.rs:779-794 | the method found in an arm is exactly the one named by the fields of its first closed span of braces |
| `TsArms.StableExactly` | codex-rs/app-server-protocol/src/export.rs:309-321 | an arm is removed if and only if it names a method that is experimental and not empty |
| `TsArms.ArmTextExactly` | codex-rs/app-server-protocol/src/export.rs:779-794 | an arm in braces, its fields in any layout and with a trailing comma or not, is for a method exactly when its first field named `method` says so |
| `TsArms.GeneratedArmRemoved` | codex-rs/app-server-protocol/src/export.rs:315-321 | an arm whose first field named `method` is written as the generator writes it is removed exactly when that method is experimental and not empty |
| `TsArms.UnnamedArmStays` | codex-rs/app-server-protocol/src/export.rs:779-794 | an arm without a field named `method` stays whatever the methods are |
| `TsArms.CommentedArmEscapes` | codex-rs/app-server-protocol/src/export.rs:815-849 | an arm whose method field stands behind a block comment stays even if its method is experimental, and goes without the comment |
| `TsFilter.PruneUnusedTypeImports` | codex-rs/app-server-protocol/src/export.rs:651-679 | the loop keeps exactly the lines that import no type or import one that the body mentions, and the final newline |
| `TsFilter.FilterKeepsStableArms` | codex-rs/app-server-protocol/src/export.rs:305-328 | the filtered alias has exactly the arms whose first `method` field names no experimental method, in their order, under the same declaration, and of the lines before it exactly those that import no single name or one that its body still contains |
| `TsFilter.FilterIdempotent` | codex-rs/app-server-protocol/src/export.rs:305-328 | filtering a filtered file, import pruning included, changes nothing |
| `TsFilter.UsedExactly` | codex-rs/app-server-protocol/src/export.rs:655-662 | a line goes if and only if it is `import type { T } from ...`, in any spacing and with something behind, for one name `T` that is neither a list nor a renaming, and `T` is nowhere in the body |
| `TsFilter.JoinUndoesLines` | codex-rs/app-server-protocol/src/export.rs:651-668 | writing back the lines of a text without carriage returns gives the text |
| `TsFilter.ContentSplits` | codex-rs/app-server-protocol/src/export.rs:706-716 | a file of `=`-free lines and one alias is cut into prefix, body and suffix at the right places |
| `Reachability.MarkOnPop` | codex-rs/app-server-protocol/src/export.rs:1153-1173 | the worklist that marks names when it takes them ends with the least set that holds the roots and is closed under the relation |
| `Reachability.MarkOnPush` | codex-rs/app-server-protocol/src/export.rs:1417-1432 | the worklist that marks names when it adds them ends with that same least set |
| `Reachability.ReachLeast` | codex-rs/app-server-protocol/src/export.rs:1153-1173 | the set so specified is contained in every closed set that holds the roots |
| `SchemaFlat.CollectDefinitionDependencies` | codex-rs/app-server-protocol/src/export.rs:1125-1173 | returns exactly the definitions reachable through refs outside the v2 namespace |
| `SchemaFlat.DepsExactly` | codex-rs/app-server-protocol/src/export.rs:1125-1151 | a definition depends on just the names its refs outside v2 point at, and the search starts from what `ClientRequest` and `ServerNotification` depend on |
| `SchemaFlat.CheckFlat` | codex-rs/app-server-protocol/src/export.rs:1194-1265 | accepts a flat bundle if and only if no ref is still namespaced and every definitions ref names a definition that is there |
| `SchemaFlat.BuildFlatV2Schema` | codex-rs/app-server-protocol/src/export.rs:1075-1123 | each structural error occurs exactly on its condition; an accepted result has only refs that land and the v2 title; a ready bundle is accepted if and only if the refs around its definitions are to v2 or to what the shared schemas reach, and then the result holds exactly the v2 definitions and what is reached, and all of these, `ClientRequest` and `ServerNotification` by name, and the document around them unfold, to any depth, as before |
| `SchemaRefs.SimulatedUnfolding` | codex-rs/app-server-protocol/src/export.rs:1075-1123 | whenever following each rewritten ref in one set of definitions leads where following the ref leads in another, refs rewritten alike, documents unfold alike to every depth; flattening and pruning are both instances |
| `SchemaFlat.SameUnfolding` | codex-rs/app-server-protocol/src/export.rs:1175-1192 | rewriting the ref prefix and moving the definitions leaves the unfolding of any value to any depth unchanged |
| `SchemaFlat.FlattensExactlyWhen` | codex-rs/app-server-protocol/src/export.rs:1075-1123 | for a ready bundle the flattened one has no dangling ref if and only if that condition holds, and then the same meaning |
| `SchemaPrune.ReachableLocalDefinitions` | codex-rs/app-server-protocol/src/export.rs:1417-1501 | returns nothing without a definitions map, else exactly the names reachable from the refs outside it |
| `SchemaPrune.StripMethodVariants` | codex-rs/app-server-protocol/src/export.rs:1381-1415 | exactly the variants go whose `method` is fixed to one of the methods, by `const` or else by the first of an `enum`; the others stay in order, every other field is unchanged, precisely the definitions still reachable are kept, unchanged; what remains resolves and unfolds as before, and if every ref resolved before, every ref resolves after |
| `SchemaPrune.RetainedExactly` | codex-rs/app-server-protocol/src/export.rs:1389-1415 | in order, all variants but those that fix their method to one of the methods |
| `SchemaPrune.LocalNameExactly` | codex-rs/app-server-protocol/src/export.rs:1481-1501 | a ref mentions a definition exactly when it is to that definition or to something inside it |
| `SchemaPrune.RootsExactly` | codex-rs/app-server-protocol/src/export.rs:1434-1457 | with one definitions map, the search starts from exactly the names mentioned around it |
| `SchemaPrune.PrunedMeansAsBefore` | codex-rs/app-server-protocol/src/export.rs:1381-1501 | keeping a reachable set of definitions leaves every remaining ref, definition and the body with the meaning they had |
| `SchemaBundle.BuildSchemaBundle` | codex-rs/app-server-protocol/src/export.rs:980-1061 | the loop over the schemas gives the bundle or the first collision, the bundle whose content, meaning and failures the `BundleContent` rows state, and a successful bundle of ready schemas has no dangling ref |
| `SchemaBundle.BundleClosed` | codex-rs/app-server-protocol/src/export.rs:980-1061 | every ref of a successful bundle of ready schemas, at any depth, resolves in it |
| `SchemaBundle.RetargetedRefs` | codex-rs/app-server-protocol/src/export.rs:1542-1601 | after rewriting, each ref of a schema names either a v2-owned type under v2 or one of the schema's own definitions at the root |
| `SchemaBundle.NamespaceInsertGood` | codex-rs/app-server-protocol/src/export.rs:1267-1310 | inserting a definition into the namespace keeps every placed ref resolvable |
| `SchemaBundle.TypesBrought` | codex-rs/app-server-protocol/src/export.rs:1603-1623 | a type's recorded owner really brings it, and everything a namespaced schema brings has an owner |
| `BundleContent.V2Content` | codex-rs/app-server-protocol/src/export.rs:980-1061 | v2 holds every namespaced schema under its name, field by field as it was but for `definitions`, and every definition of it that is not skipped, with refs to v2-owned names sent to v2 and all others kept; it holds nothing else |
| `BundleContent.RootContent` | codex-rs/app-server-protocol/src/export.rs:1003-1047 | a root name holds what the last schema to write it put there: the body of a schema, field by field, or one of its definitions, with refs relocated in the same way |
| `BundleContent.RootOnly` | codex-rs/app-server-protocol/src/export.rs:1003-1047 | the root holds no name but those of root schemas and of the definitions they keep |
| `BundleContent.RetargetedExactly` | codex-rs/app-server-protocol/src/export.rs:1542-1601 | both rewriters, on a ready schema, send exactly the refs to v2-owned names to v2 and change nothing else |
| `BundleContent.NamespaceForExactly` | codex-rs/app-server-protocol/src/export.rs:1625-1637 | a name belongs to the namespace that brings it, or else to the one that brings it without its trailing number |
| `BundleContent.V2Meaning` | codex-rs/app-server-protocol/src/export.rs:980-1061 | a self-contained namespaced schema unfolds in the bundle, to every depth, as it did against its own definitions with their titles |
| `BundleContent.RootMeaning` | codex-rs/app-server-protocol/src/export.rs:980-1061 | so does a self-contained root schema that is the last to write its name, when the v2 schema that brings a definition it refers to, or else every later schema that writes it, has the same definition |
| `BundleContent.BundleFailsExactlyWhen` | codex-rs/app-server-protocol/src/export.rs:1267-1310 | bundling ready schemas succeeds if and only if no two of them put different things under one v2 name, and the error names such a collision |
| `SchemaPipeline.BundleIsFlatReady` | codex-rs/app-server-protocol/src/export.rs:980-1123 | a successful bundle of ready schemas, one of them in v2, whose root and v2 share no name, is ready to be flattened |
| `SchemaPipeline.BundleAndFlatten` | codex-rs/app-server-protocol/src/export.rs:980-1123 | for such schemas both passes succeed together and every definition means in the flat bundle what it meant in the mixed one |
| `EventForwarder.Forwarder.constructor` | codex-rs/app-server-client/src/lib.rs:488-540 | the forwarder starts idle, enabled and with nothing skipped |
| `EventForwarder.Forwarder.FlushMarker` | codex-rs/app-server-client/src/lib.rs:220-251 | a marker for the skipped events goes out before the next event and resets the count |
| `EventForwarder.Forwarder.TakeEvent` | codex-rs/app-server-client/src/lib.rs:540-590 | token-refresh requests are refused before forwarding; anything else is to be sent, behind a marker if events were skipped |
| `EventForwarder.Forwarder.Forward` | codex-rs/app-server-client/src/lib.rs:211-277 | one attempt on the queue, for the marker or for the event: it is enqueued if there is room, else the lossless tier waits and the rest is dropped, counted and refused; a closed queue disables the stream |
| `EventForwarder.Forwarder.NextEvent` | codex-rs/app-server-client/src/lib.rs:744-750 | the consumer takes the oldest queued event |
| `EventForwarder.PositionsReconstructible` | codex-rs/app-server-client/src/lib.rs:211-277 | in every run not disabled and not saturated, the consumer free to receive between any two attempts, an event's input index is the number of events enqueued before it plus the lag counts before it, and inputs are enqueued, counted as lag, currently skipped, or being forwarded |
| `EventForwarder.LosslessDelivered` | codex-rs/app-server-client/src/lib.rs:156-190 | in every such run the must-deliver events enqueued, with the one being forwarded, are exactly the input's, in order |
| `EventForwarder.RequestsAccounted` | codex-rs/app-server-client/src/lib.rs:540-590 | in every such run each server request handled is enqueued, refused or being forwarded, once and in one way only, and refused with the code for its reason |
| `EventForwarder.TakenIsSent` | codex-rs/app-server-client/src/lib.rs:211-277 | in every run an event taken while there is room is enqueued behind a marker for what was skipped before it; a token refresh is refused and leaves the queue alone |
| `EventForwarder.DropsExactlyWhen` | codex-rs/app-server-client/src/lib.rs:156-266 | an event is dropped and counted exactly when it meets a full queue and is not a completion, a message, plan or reasoning delta; those wait unchanged |
| `EventForwarder.BestEffortNeverWaits` | codex-rs/app-server-client/src/lib.rs:236-266 | in every run the forwarder is free again two attempts after taking an event that need not arrive, whatever the consumer does |
| `EventForwarder.OldestIsReceived` | codex-rs/app-server-client/src/lib.rs:744-750 | the consumer gets the oldest entry, and each entry once |
| `RemoteClient.RemoteWorker.constructor` | codex-rs/app-server-client/src/remote.rs:680-698 | a client starts in the handshake with nothing read |
| `RemoteClient.RemoteWorker.HandshakeMessage` | codex-rs/app-server-client/src/remote.rs:700-790 | events that arrive before the initialize response are buffered, unknown requests are refused, other ids are ignored, and the rest ends the handshake with its kind of error |
| `RemoteClient.RemoteWorker.HandleRequest` | codex-rs/app-server-client/src/remote.rs:222-256 | a request is written and recorded, turned away as a duplicate, or fails and ends the worker |
| `RemoteClient.RemoteWorker.HandleMessage` | codex-rs/app-server-client/src/remote.rs:310-455 | a reply completes its waiter, an event is forwarded, an unknown request is refused, and a broken connection ends the worker |
| `RemoteClient.RemoteWorker.Drain` | codex-rs/app-server-client/src/remote.rs:459-467 | the loop gives every waiter still in the map one outcome and empties the map |
| `RemoteClient.RemoteWorker.NextEvent` | codex-rs/app-server-client/src/remote.rs:602-607 | the caller gets the buffered events first, then the worker's, oldest first |
| `RemoteClient.OneCompletionPerRequest` | codex-rs/app-server-client/src/remote.rs:213-257 | in every run a request has at most one outcome, and exactly one once the worker has gone; replies reach only waiters for their id; of the requests written for an id all but the last are completed |
| `RemoteClient.WrittenGetsFirstReply` | codex-rs/app-server-client/src/remote.rs:213-467 | in every run a written request has been given exactly the first reply for its id read since it was written, else the worker's end with its kind, else nothing yet, whatever duplicates and later requests for that id came between |
| `RemoteClient.DuplicateDisplacesNothing` | codex-rs/app-server-client/src/remote.rs:224-231 | in every run a duplicate id fails its own waiter, leaves every other waiter alone and writes nothing |
| `RemoteClient.RequestFate` | codex-rs/app-server-client/src/remote.rs:222-256 | in every run a request is turned away as a duplicate exactly when an earlier one written for its id has had no reply since, fails exactly when it is no duplicate and cannot be written, and is otherwise written with its id, waiting for its reply |
| `RemoteClient.WorkerEndsExactlyWhen` | codex-rs/app-server-client/src/remote.rs:222-457 | in every run the worker ends exactly at a broken or closed connection, a failed write, an event without a consumer or the end of commands, each with its kind, and tells the listening caller exactly in the cases the connection is to blame for |
| `RemoteClient.MessageIsRead` | codex-rs/app-server-client/src/remote.rs:310-455 | in every run every message of a live connection is read, in order |
| `RemoteClient.CallerGetsNext` | codex-rs/app-server-client/src/remote.rs:602-607 | in every run the caller who asks is given the next event there is, and each once |
| `RemoteClient.HandshakeOutcome` | codex-rs/app-server-client/src/remote.rs:700-802 | there is a client exactly when the first step that decides the handshake is the acknowledged answer to `initialize`; any other decides for good on its own error |
| `RemoteClient.UnknownRequestsRefused` | codex-rs/app-server-client/src/remote.rs:338-384 | in every run the unknown server requests read have been refused, each once and in order, except one whose refusal could not be written and ended the connection |
| `RemoteClient.HandshakeTransparent` | codex-rs/app-server-client/src/remote.rs:700-802 | in every run what the caller has been given is a prefix of the recognised messages in wire order across the handshake, with at most one disconnection, which comes last and after all of them; while the caller listens, the rest is on its way and nothing is lost |
| `AnalyticsReducer.Reducer.constructor` | codex-rs/analytics/src/reducer.rs:72-79 | the reducer starts with five empty maps |
| `AnalyticsReducer.Reducer.IngestFact` | codex-rs/analytics/src/reducer.rs:156-237 | each kind of fact changes the maps and the output as its step does |
| `AnalyticsReducer.Reducer.IngestStartResponse` | codex-rs/analytics/src/reducer.rs:530-554 | the pending entry is taken whatever its kind; only a start request attaches its connection, thread and images |
| `AnalyticsReducer.Reducer.IngestSteerResponse` | codex-rs/analytics/src/reducer.rs:753-776 | the pending entry is taken; a steer counts only for a turn already known of |
| `AnalyticsReducer.Reducer.IngestErrorResponse` | codex-rs/analytics/src/reducer.rs:565-613 | the pending entry is taken; only a failed steer is reported |
| `AnalyticsReducer.Reducer.EmitSteerEvent` | codex-rs/analytics/src/reducer.rs:778-814 | a steer is reported only for a known connection and a registered thread |
| `AnalyticsReducer.Reducer.EmitThreadInitialized` | codex-rs/analytics/src/reducer.rs:674-710 | a thread is registered only over a known connection |
| `AnalyticsReducer.Reducer.MaybeEmitTurnEvent` | codex-rs/analytics/src/reducer.rs:816-870 | a turn that is complete and whose owners are known is emitted and forgotten, any other is kept |
| `AnalyticsReducer.TurnIsSummary` | codex-rs/analytics/src/reducer.rs:349-392 | after any facts, what is held about a turn is exactly the latest value of each field, and the number of matched steers since it became known, among the facts since its last event |
| `AnalyticsReducer.TurnEventExactlyWhen` | codex-rs/analytics/src/reducer.rs:816-870 | a fact brings out an event for a turn if and only if it concerns the turn and a matched start response, a configuration and a completion have all come since the last event, over a known connection and registered thread; the event carries the latest values |
| `AnalyticsReducer.OneTurnEvent` | codex-rs/analytics/src/reducer.rs:816-870 | one start response, one configuration and one completion, in any order among any other facts, bring out exactly one event, at the last of the three |
| `AnalyticsReducer.EventsNeedFreshFacts` | codex-rs/analytics/src/reducer.rs:816-870 | in all runs two events for one turn have a new start response, configuration and completion between them |
| `AnalyticsReducer.EventsBounded` | codex-rs/analytics/src/reducer.rs:816-870 | a turn never has more events than it has matched start responses, configurations or completions |
| `AnalyticsReducer.PendingIsLatestUse` | codex-rs/analytics/src/reducer.rs:318-347 | a request is pending exactly while it is the latest use of its connection and id |
| `AnalyticsReducer.AnsweredOnce` | codex-rs/analytics/src/reducer.rs:535-576 | after an answer or an error, any further response or error with that connection and id changes nothing and brings out nothing until it is requested again, so a failed start never attaches a connection and a failed steer is reported once |
| `AnalyticsReducer.OutputExactly` | codex-rs/analytics/src/reducer.rs:156-237 | for every history, what one more fact brings out is exactly what the history says: a steer event for an answer or an error to a key last used by a steer request, over an initialised connection and a thread opened over one, with that request's fields, the latest client and mode; a turn event when its last part comes; an initialised thread; nothing else |
| `AnalyticsReducer.SteerExactly` | codex-rs/analytics/src/reducer.rs:565-613 | accepted or rejected, a steer is reported with the turn or the reason exactly under those conditions |
| `AnalyticsReducer.OpeningExactly` | codex-rs/analytics/src/reducer.rs:674-710 | a thread has the connection and mode of its latest response over an initialised connection |
| `AnalyticsReducer.ClientExactly` | codex-rs/analytics/src/reducer.rs:247-270 | a connection has the client of its latest initialisation |
| `OutputPump.Coalesce` | codex-rs/app-server/src/command_exec.rs:570-583 | a batch is a run of consecutive chunks, none lost or repeated, and it ends only at the size hint or when no chunk is ready |
| `OutputPump.TurnFaithful` | codex-rs/app-server/src/command_exec.rs:584-614 | each turn of the loop keeps what was sent, or else buffered, equal to what the cap keeps of the data read so far, with the cap flag on at most the last delta |
| `OutputPump.Pump` | codex-rs/app-server/src/command_exec.rs:556-618 | for every chunking and timing, what is streamed, or else buffered, is the first bytes read up to the cap; the cap flag is on at most the last delta, exactly when the total equals the cap; reading stops only at the end, the timeout or the cap |
| `OutputPump.CutAtCap` | codex-rs/app-server/src/command_exec.rs:584-593 | the saturating arithmetic on one chunk agrees with cutting the whole stream once |
| `OutputPump.TimingDoesNotMatter` | codex-rs/app-server/src/command_exec.rs:569-616 | unless the drain timeout cut it short, what is kept is the same for every timing |
| `CommandRun.RunningCommand.constructor` | codex-rs/app-server/src/command_exec.rs:441-487 | a command starts in its loop with its control channel open and both pumps going |
| `CommandRun.RunningCommand.HandleWrite` | codex-rs/app-server/src/command_exec.rs:620-643 | writing needs stdin streaming; a write that fails does not close stdin |
| `CommandRun.RunningCommand.HandleControl` | codex-rs/app-server/src/command_exec.rs:491-514 | the oldest control request is carried out and answered |
| `CommandRun.RunningCommand.HandleControlClosed` | codex-rs/app-server/src/command_exec.rs:515-518 | when the last sender goes away the process is asked to terminate, once |
| `CommandRun.RunningCommand.HandleExpiration` | codex-rs/app-server/src/command_exec.rs:521-524 | the first expiration is recorded and the process is asked to terminate |
| `CommandRun.RunningCommand.HandleExit` | codex-rs/app-server/src/command_exec.rs:525-531 | leaving the loop fixes the exit code |
| `CommandRun.RunningCommand.Finish` | codex-rs/app-server/src/command_exec.rs:535-554 | after both pumps the reply is sent with the exit code and what each stream buffered |
| `CommandRun.RunningCommand.DropControlChannel` | codex-rs/app-server/src/command_exec.rs:455-554 | when the task ends, every control request still queued is failed |
| `CommandRun.ExitCodeOf` | codex-rs/app-server/src/command_exec.rs:489-533 | in every run the code is 124 exactly when the first expiration before the exit is a timeout, else the process's code, else -1 (a process may itself exit with 124) |
| `CommandRun.ControlsAnsweredOnce` | codex-rs/app-server/src/command_exec.rs:404-439 | in every run a control request is answered at most once, exactly once when the command is over, and with an answer fit for that request |
| `CommandRun.OldestIsTaken` | codex-rs/app-server/src/command_exec.rs:491-514 | in every run the loop takes the oldest request and accepts it exactly when it can be carried out: a write needs streamed stdin and, unless empty, a process that takes it; a resize needs a process that takes it; it then does just what was asked |
| `CommandRun.InputIsWhatWasAsked` | codex-rs/app-server/src/command_exec.rs:491-514 | in every run the bytes written, the closing of stdin and the sizes set are those of the accepted requests, in the order of the requests |
| `CommandRun.OutputIsCapped` | codex-rs/app-server/src/command_exec.rs:556-618 | in every run the deltas sent for a stream are those of what its pump has read, capped |
| `CommandRun.OneReplyAfterOutput` | codex-rs/app-server/src/command_exec.rs:535-554 | in every run there is at most one reply, no delta of either stream follows it, and it carries the exit code and, for each stream, what the cap keeps of all that was read, or nothing if it was streamed |
| `CommandRun.PumpReads` | codex-rs/app-server/src/command_exec.rs:569-616 | what a stream hands over while its pump is at work is read whole, and the other stream is left alone |
| `CommandRun.EndsWithReply` | codex-rs/app-server/src/command_exec.rs:525-554 | whatever has happened, once the process has exited and the pumps have ended the reply goes out and every control request ever sent is answered once |
| `CommandRun.TerminatesExactlyWhen` | codex-rs/app-server/src/command_exec.rs:489-524 | in every run the process has been asked to terminate if and only if a terminate request was taken, an expiration was recorded, or the last sender was seen to be gone |
| `CommandSessions.CommandExecManager.constructor` | codex-rs/app-server/src/command_exec.rs:53-60 | the table starts empty and generated ids start at 1 |
| `CommandSessions.CommandExecManager.Start` | codex-rs/app-server/src/command_exec.rs:143-262 | admission checks in the source's order, each with its own error; a streaming command always has a client's process id |
| `CommandSessions.CommandExecManager.Remove` | codex-rs/app-server/src/command_exec.rs:282-304 | the entry under a key goes, and no other |
| `CommandSessions.CommandExecManager.FindControl` | codex-rs/app-server/src/command_exec.rs:404-425 | a control request finds the command under exactly its key, or the right error |
| `CommandSessions.CommandExecManager.RemoveConnection` | codex-rs/app-server/src/command_exec.rs:375-390 | the loop removes exactly the connection's entries and returns exactly their control channels |
| `CommandSessions.ControlsReachOwnKey` | codex-rs/app-server/src/command_exec.rs:404-439 | in every run whatever waits in a command's control channel was sent to that command's own key and is a control asked for there, or the termination of its closed connection |
| `CommandSessions.ControlArrives` | codex-rs/app-server/src/command_exec.rs:404-439 | a control request for a live command on an open connection finds it, is not lost while it waits to be queued, and then stands last in that command's channel and in no other |
| `CommandSessions.OldestControlTaken` | codex-rs/app-server/src/command_exec.rs:491-514 | a running command takes what waits for it, oldest first |
| `CommandSessions.AdmittedExactly` | codex-rs/app-server/src/command_exec.rs:143-262 | in every orderly run a command is admitted exactly when its parameters are allowed and no command that is not gone has its id on its connection, and it then has that id |
| `CommandSessions.LifeOf` | codex-rs/app-server/src/command_exec.rs:262-304 | a command goes from spawning to running, finished and gone, and its key is free when it is gone |
| `CommandSessions.KeysAreUnique` | codex-rs/app-server/src/command_exec.rs:164-262 | in every run where closed connections start nothing, no two commands that are not gone share a key |
| `CommandSessions.StartKeepsDistinct` | codex-rs/app-server/src/command_exec.rs:249-262 | a start keeps keys distinct if and only if it is refused or no command left behind by a close of that connection holds the key |
| `CommandSessions.ReuseAfterClose` | codex-rs/app-server/src/command_exec.rs:375-402 | a concrete run in which a connection starts the same id again after being closed and two live commands share a key |
| `CommandSessions.ClosedConnectionsAreSwept` | codex-rs/app-server/src/command_exec.rs:375-402 | when closing has returned, every command of the connection with a control channel has a terminate queued or taken, or no longer listens, even if it was still being spawned |
| `CommandSessions.CloseTellsAll` | codex-rs/app-server/src/command_exec.rs:375-390 | in every orderly run closing a connection sets out to tell exactly its live commands with a control channel |
| `CommandSessions.TellArrives` | codex-rs/app-server/src/command_exec.rs:391-402 | a command that listens and has room gets a terminate last in its channel, and is told but once |
| `RpcGate.ConnectionRpcGate.constructor` | codex-rs/app-server/src/connection_rpc_gate.rs:17-23 | a gate starts open with no token out |
| `RpcGate.ConnectionRpcGate.AcquireToken` | codex-rs/app-server/src/connection_rpc_gate.rs:25-35 | a token is given out exactly while the gate accepts |
| `RpcGate.ConnectionRpcGate.DropToken` | codex-rs/app-server/src/connection_rpc_gate.rs:37-39 | a finished handler gives its token back |
| `RpcGate.ConnectionRpcGate.StopAccepting` | codex-rs/app-server/src/connection_rpc_gate.rs:41-46 | closing stops acceptance and closes the tracker together |
| `RpcGate.ShutdownIsFinal` | codex-rs/app-server/src/connection_rpc_gate.rs:25-48 | in every interleaving, once any shutdown has returned no handler runs and none ever starts; all that had started had finished |
| `RpcGate.NothingStartsAfterClose` | codex-rs/app-server/src/connection_rpc_gate.rs:41-48 | after closing, the number in flight never rises and no handler starts |
| `RpcGate.ReturnsExactlyWhenQuiet` | codex-rs/app-server/src/connection_rpc_gate.rs:41-48 | in every run a waiting shutdown can return if and only if no handler is running |
| `RpcGate.EntersExactlyWhen` | codex-rs/app-server/src/connection_rpc_gate.rs:25-35 | in every run a waiting handler that reaches the gate runs if and only if no shutdown has got there first |
| `RpcGate.FinishLeaves` | codex-rs/app-server/src/connection_rpc_gate.rs:37-39 | in every run a handler that finishes leaves one fewer in flight |

Some conditions deserve a word, because the code does less than a reader might expect.

* `SchemaFlat.FlatReady` asks that names are plain, refs resolve, v2 definitions refer
  only into v2, and no name is shared between root and v2. `SchemaBundle.Ready` asks for one namespace `v2`, refs to own
  or v2-owned types, no `$defs`, no ignored or special name as a target, and no name
  that is v2-owned only after trailing digits are dropped.
* A root definition is overwritten by the last schema that writes it, and a root schema
  gives up its own copy of a definition that v2 brings. So a root schema means in the
  bundle what it meant before when the others have the same definitions
  (`BundleContent.Agreed`), while v2 collisions are errors.
* `TsFilter.AliasFile` with `TsScanner.Settled` describes the files the generator
  writes: `=`-free lines, one alias, no line comment in its body, nothing in the body
  that looks like an import.
* An arm escapes the filter exactly when the fields of its first closed braces name no
  experimental method (`TsArms.NamesMethod`). A comment before the method's name hides it.
* `CommandSessions.OrderlyRun` says that a closed connection starts nothing. The caller
  arranges this: `codex-rs/app-server/src/message_processor.rs` shuts the connection's
  gate down, which `RpcGate.ShutdownIsFinal` shows to be final, before it closes the
  connection's commands.
* The forwarder's guarantees are for runs in which the consumer has not gone away and
  the skip counter has not saturated.
* A start notification without a time erases an earlier start time; `TurnIsSummary`
  states it as it is.
* The receiving end of a command's control channel lives until its reply is out, so
  requests that arrive after the process exits wait and are then failed.

## Left out

- File input and output, formatting with prettier, schema derivation and TypeScript derivation: the model starts from JSON values and texts.
- Titles and discriminator names (`annotate_schema`): a parameter of `BuildSchemaBundle`, required to preserve refs for the closure and content results, and not to look at refs for the meaning results.
- Experimental-field filtering and removal of experimental method types: easier instances of the ref and scanner models.
- JSON pointer escapes (`~0`, `~1`) and percent encoding: refs are cut at `/` only, as the source does.
- Update of JSON values in place: canonicalising, rewriting and pruning are modelled on values, so aliasing and object key order are not captured.
- The library sort in `canonicalize_json`: any sort gives the same list, which `SortOfPermutation` shows for the order used.
- Bracket depths are naturals, not 32-bit integers; overflow is not modelled.
- Number texts are opaque strings of number characters: number formatting is not modelled.
- WebSocket framing, TLS, authentication and the initialize timeout's clock: the connection is a sequence of messages and a timeout is a step.
- `Notify`, `ResolveServerRequest` and `RejectServerRequest` commands of the remote worker: each only answers its own caller. `Shutdown`, a closed command channel and an aborted worker are the one step `CommandsClosed`.
- Compaction, guardian review, subagent thread, skill, app, hook and plugin facts of the analytics reducer: they only push events and change none of the maps.
- Payload mapping of analytics events: configurations, clients and token usage are opaque values.
- PTY and pipe handling, base64, conversion of bytes to text, sandboxes and network proxies: the process is a source of chunks and an exit.
- CommandSessions.ClosedConnectionsAreSwept: commands on the Windows sandbox have no control channel and are not told to stop.
- CommandSessions.CommandExecManager.Start: the generated id is a natural number, not a wrapping 64-bit integer.
- An output pump whose own task fails, which the source replaces by an empty text.
- Liveness: runs are finite, and nothing is said about how soon a step is taken.

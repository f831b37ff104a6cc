# alfresco-node-processor, modelled in Dafny

alfresco-node-processor drains a bounded queue of Alfresco node ids. A *collector* fills the queue:
- a tree walk under a folder;
- a paged full-text search;
- a file of ids, one per line.

One or more *workers* poll the queue and hand each id to a *processor*. The processors are:
- move a node;
- add aspects and set properties;
- set permissions;
- delete a node;
- normalise metadata (two variants);
- a chain of other processors.

An aspect woven around the `NodesApi` client drops the mutating calls a processor makes while the application is read-only. Two small utility classes sit beside this:
- `CastUtils` converts loosely typed configuration values;
- the bulk-import `Properties` container is an append-only list of entries.

This project models that core in Dafny 4.11 and proves what it promises. State that the Java code updates in place is modelled as classes:
- the queue;
- the success counter;
- the collectors' `batchSize` fields;
- Move's cached target parent;
- the pending-property map of the normaliser;
- the bulk `Properties` list.

Loops stay loops with invariants:
- the worker loop;
- the paging loops;
- the explicit-stack tree walk;
- the caller-frame scan;
- the date-pattern fallbacks;
- the argument parsing.

Each method is proved against a specification function, and the properties of those functions are proved as lemmas.

The remote repository is a fixed snapshot that the read calls answer from:
- nodes by id;
- nodes by relative path;
- each node's children in listing order;
- the listing and search requests that fail;
- the mutating calls the server refuses.

The repository also keeps a log of every mutating call that reached it. Regex replacement, ISO-8601 parsing and `DateTimeFormatter` parsing are parameters of type `Platform`; the model does not interpret them. String operations work on ASCII: `trim`, `\s`, `Character.isWhitespace` and case mapping.

Modules, one per file:
- `Wrappers`
- `Values`: Java objects in configurations and properties
- `Text`: the string library functions
- `CastUtils`
- `Config`
- `Repository`
- `WorkQueue`
- `ReadOnlyGuard`: the aspect
- `Normalization`: both normalisers
- `Processors`: move, aspects, permissions, delete
- `Chaining`: the bean registry and the chain
- `Worker`: both worker loops and the cast helpers of `AbstractNodeProcessor`
- `TreeCollector`
- `QueryCollector`: `QueryNodeCollector`, `SearchService`, `AlfrescoService`
- `ListCollector`
- `BulkProperties`

## Model

All paths are under `src/main/java/org/saidone/`.

| member | source | states |
|---|---|---|
| Text.Trim | src/main/java/org/saidone/processors/NormalizeMetadataProcessor.java:152-155 | `String.trim`: the result is no longer than the input and neither starts nor ends with a character at or below a space |
| Text.TrimOfPadded | src/main/java/org/saidone/processors/NormalizeMetadataProcessor.java:153 | trimming a core padded on both sides with characters at or below a space gives back exactly that core |
| Text.TrimIdempotent | src/main/java/org/saidone/processors/NormalizeMetadataProcessor.java:153 | trimming twice gives what trimming once gives |
| Text.TrimEmptyIff | src/main/java/org/saidone/processors/NormalizeMetadataProcessor.java:229 | `v.trim().isEmpty()` holds exactly when every character is at or below a space |
| Text.TrimStartDrops | src/main/java/org/saidone/processors/NormalizeMetadataProcessor.java:153 | everything `trim` removes at the front is at or below a space |
| Text.TrimEndDrops | src/main/java/org/saidone/processors/NormalizeMetadataProcessor.java:153 | everything `trim` removes at the end is at or below a space |
| Text.CollapseIsCollapsed | src/main/java/org/saidone/processors/NormalizeMetadataProcessor.java:164 | after `replaceAll("\\s+", " ")` every whitespace character is a single space and no two are adjacent |
| Text.CollapseKeepsNonSpaces | src/main/java/org/saidone/processors/NormalizeMetadataProcessor.java:164 | collapsing whitespace keeps every non-whitespace character, in order |
| Text.CollapseIdempotent | src/main/java/org/saidone/processors/NormalizeMetadataProcessor.java:164 | collapsing whitespace twice gives what collapsing once gives |
| Text.ToLower | src/main/java/org/saidone/processors/NormalizeMetadataProcessor.java:184 | `toLowerCase` keeps the length and lower-cases each character in place |
| Text.ToUpper | src/main/java/org/saidone/processors/NormalizeMetadataProcessor.java:187 | `toUpperCase` keeps the length and upper-cases each character in place |
| Text.CaseFolds | src/main/java/org/saidone/processors/NormalizeMetadataProcessor.java:183-188 | lower- and upper-casing are idempotent, and each undoes the other's effect on letters |
| Text.Capitalize | src/main/java/org/saidone/processors/NormalizeMetadataProcessor.java:180 | `StringUtils.capitalize` upper-cases the first character and keeps the rest |
| Text.Uncapitalize | src/main/java/org/saidone/processors/ChainingNodeProcessor.java:63 | `StringUtils.uncapitalize` lower-cases the first character and keeps the rest |
| Text.SplitAll | src/main/java/org/saidone/processors/NormalizeMetadataProcessor.java:179 | splitting at each `\s` gives at least one piece, no piece holds whitespace, and every character of a piece comes from the input |
| Text.JoinJavaSplit | src/main/java/org/saidone/processors/NormalizeMetadataProcessor.java:179-181 | joining the pieces of `split("\\s")` with one space gives the input with each `\s` turned into a space and trailing spaces dropped |
| Text.StartCaseShape | src/main/java/org/saidone/processors/NormalizeMetadataProcessor.java:179-181 | mode `start` gives, letter for letter, the lower-cased input with each `\s` a space and trailing spaces dropped, with exactly the first letter and every letter after a space upper-cased |
| Text.JoinCapitalized | src/main/java/org/saidone/processors/NormalizeMetadataProcessor.java:180-181 | joining capitalised pieces with spaces capitalises exactly the first letter of each piece of the joined string |
| Text.StartCaseLowered | src/main/java/org/saidone/processors/NormalizeMetadataProcessor.java:179-181 | mode `start` changes only letter case: lower-cased, its result is the lower-cased input with each `\s` a space and trailing spaces dropped |
| CastUtils.CastElements | src/main/java/org/saidone/utils/CastUtils.java:72-74 | the element-wise `Class.cast` succeeds exactly when every element is null or of the type, and then returns the same list; otherwise ClassCastException |
| CastUtils.CastToListOfObjects | src/main/java/org/saidone/utils/CastUtils.java:61-75 | null gives the empty list; a non-list gives IllegalArgumentException; a list comes back with the same elements in the same order exactly when every element casts |
| CastUtils.CastToListOfStrings | src/main/java/org/saidone/utils/CastUtils.java:40-42 | the general cast at `String`: every element of a result is a string or null |
| CastUtils.CollectToMap | src/main/java/org/saidone/utils/CastUtils.java:111-116 | `Collectors.toMap` keeps the accumulated entries and adds only non-null values of the value type |
| CastUtils.CastToMapOfObjectObject | src/main/java/org/saidone/utils/CastUtils.java:100-117 | null gives the empty map; a non-map gives IllegalArgumentException; every value of a result is non-null and of the value type |
| CastUtils.CastToMapOfStringSerializable | src/main/java/org/saidone/utils/CastUtils.java:77-79 | the general cast at `Serializable`: no value of a result is null |
| CastUtils.CastToMapPreservesEntries | src/main/java/org/saidone/utils/CastUtils.java:111-116 | the map cast succeeds only for distinct keys with non-null values of the requested type; then it has exactly the input's keys, each with its own value |
| CastUtils.HashIterationOrder | src/main/java/org/saidone/utils/CastUtils.java:101-116 | iterating the `HashMap` the cast builds yields a permutation of the inserted keys: each exactly once, but not necessarily in insertion order |
| Config.BatchSizeOf | src/main/java/org/saidone/collectors/NodeTreeCollector.java:87 | an absent `batch-size` keeps the current value; a 32-bit integer replaces it; anything else is a ClassCastException |
| Repository.NodesApi.GetNode | src/main/java/org/saidone/processors/AbstractNodeProcessor.java:98-104 | a known id returns its node; an unknown one fails with a 404 `FeignException` |
| Repository.NodesApi.GetNodeByPath | src/main/java/org/saidone/collectors/NodeTreeCollector.java:92-94 | a relative path returns a node exactly when the path leads to a known node |
| Repository.NodesApi.ListNodeChildren | src/main/java/org/saidone/collectors/NodeTreeCollector.java:63-66 | a page of children from `skipCount` holds at most `maxItems` entries; `hasMoreItems` says whether children remain; failing requests throw or give a null list |
| Repository.NodesApi.Invoke | src/main/java/org/saidone/aspects/NodesApiReadOnlyAspect.java:83 | a body whose property map has a `null` key fails to encode (`EncodeException`, a `FeignException`) and nothing is sent; any other mutating call is appended to the log once and fails exactly when the server refuses it, with that status |
| Repository.SearchApi.Search | src/main/java/org/saidone/collectors/QueryNodeCollector.java:48-59 | a page of hits from `skipCount` holds at most `maxItems` ids, `hasMoreItems` says whether hits remain, and a failing request throws |
| Repository.SkipAtIsProduct | src/main/java/org/saidone/collectors/QueryNodeCollector.java:63-71 | after k pages the skip count, raised by the batch size once per page from 0, is k times the batch size |
| Repository.OffsetsAt | src/main/java/org/saidone/collectors/NodeTreeCollector.java:60-74 | the k-th listing or search request of a paging loop is made at skip k times the batch size |
| WorkQueue.Fill | src/main/java/org/saidone/AlfrescoNodeProcessorConfiguration.java:44-45 | what ends up in a queue of fixed capacity: the old contents plus the longest prefix of the new ids that fits |
| WorkQueue.FillAppend | src/main/java/org/saidone/AlfrescoNodeProcessorConfiguration.java:44-45 | filling in two batches equals filling with both batches in order, while the first fits |
| WorkQueue.FillThen | src/main/java/org/saidone/AlfrescoNodeProcessorConfiguration.java:44-45 | filling in two batches always equals filling with both batches in order |
| WorkQueue.Queue.Put | src/main/java/org/saidone/collectors/NodeTreeCollector.java:71 | `put` appends the id exactly when the queue is below capacity; a full queue is left unchanged |
| WorkQueue.Queue.Poll | src/main/java/org/saidone/processors/AbstractNodeProcessor.java:73 | `poll` returns null exactly when the queue is empty; otherwise it removes and returns the head |
| WorkQueue.Queue.PutAll | src/main/java/org/saidone/services/AlfrescoService.java:73 | adding ids one by one in order leaves the queue equal to `Fill`; it completes exactly when all of them fit |
| ReadOnlyGuard.ScanCallerFrames | src/main/java/org/saidone/aspects/NodesApiReadOnlyAspect.java:64-71 | the scan from frame 3 finds a processor frame exactly when some frame at index 3 or more starts with `org.saidone.processors` |
| ReadOnlyGuard.CoreCallsAreIntercepted | src/main/java/org/saidone/aspects/NodesApiReadOnlyAspect.java:43-50 | `updateNode`, `deleteNode` and `moveNode`, the only mutating calls the core makes, all fall under the pointcut |
| ReadOnlyGuard.ReadCallsAreNotIntercepted | src/main/java/org/saidone/aspects/NodesApiReadOnlyAspect.java:43-50 | `getNode` and `listNodeChildren` start with none of the seven prefixes |
| ReadOnlyGuard.ProcessorFrames | src/main/java/org/saidone/aspects/NodesApiReadOnlyAspect.java:59-62 | the call stack of a processor's call holds a processor frame past the three advice frames |
| ReadOnlyGuard.GuardedNodesApi.Invoke | src/main/java/org/saidone/aspects/NodesApiReadOnlyAspect.java:52-84 | the call is forwarded exactly once unless it is intercepted, made by a processor and read-only is set; a forwarded call is logged unless its body fails to encode, which is then its answer; a suppressed call returns null and leaves the log alone |
| ReadOnlyGuard.ReadOnlySuppressesProcessors | src/main/java/org/saidone/aspects/NodesApiReadOnlyAspect.java:78-82 | with read-only set, no mutating call from any processor class is forwarded |
| ReadOnlyGuard.OutsiderIsForwarded | src/main/java/org/saidone/aspects/NodesApiReadOnlyAspect.java:73-76 | a caller with no processor frame is forwarded whatever the flag says |
| Normalization.ParseDateString | src/main/java/org/saidone/processors/NormalizeMetadataProcessor.java:228-252 | a blank string gives null; the ISO-8601 reading wins when there is one; otherwise the first of the three patterns that parses; null exactly when all fail |
| Normalization.FirstLocalParseNone | src/main/java/org/saidone/processors/NormalizeMetadataProcessor.java:241-250 | the fallback search finds nothing exactly when no pattern parses the string |
| Normalization.ParseDateValueCases | src/main/java/org/saidone/processors/NormalizeMetadataProcessor.java:216-251 | `parseDate` gives a date or null: null for a non-string, a blank string or a string no format accepts, the ISO-8601 date when there is one |
| Normalization.PendingProperties.Apply | src/main/java/org/saidone/processors/NormalizeMetadataProcessor.java:131-144 | `apply` changes the pending map in place as the specification of one operation says, and leaves it unchanged when it throws |
| Normalization.NullReadIsNoop | src/main/java/org/saidone/processors/NormalizeMetadataProcessor.java:132-133 | with no non-null pending value and no original value, any operation leaves the pending map unchanged |
| Normalization.UnknownOpIsNoop | src/main/java/org/saidone/processors/NormalizeMetadataProcessor.java:142 | an operation name the variant does not know leaves the pending map unchanged |
| Normalization.MissingOpThrows | src/main/java/org/saidone/processors/NormalizeMetadataProcessor.java:134 | a descriptor without `op` throws NullPointerException once a value is read, as `switch` on null does |
| Normalization.CopyToWritesOnlyTarget | src/main/java/org/saidone/processors/NormalizeMetadataProcessor.java:139 | `copy-to` stores the current value under the target key and leaves every other key, the source included, as it was |
| Normalization.DeleteExposesOriginal | src/main/java/org/saidone/processors/NormalizeMetadataProcessor.java:132-140 | `delete` stores null, so the next operation on that property reads the node's original value again |
| Normalization.ParseDateToNeverThrows | src/main/java/org/saidone/processors/NormalizeMetadataProcessor.java:141 | `parse-date-to` never throws and writes the parsed date, or null, under its target key |
| Normalization.LegacyParseDateCopies | src/main/java/org/saidone/processors/MetadataNormalizationProcessor.java:129 | in the older variant `parse-date` writes a string to the target unchanged and null for anything else, and `parse-date-to` is unknown |
| Normalization.StringOpsKeepNonStrings | src/main/java/org/saidone/processors/NormalizeMetadataProcessor.java:152-207 | trim, collapse-whitespace, case and regex store a non-string value back unchanged |
| Normalization.CaseOpModes | src/main/java/org/saidone/processors/NormalizeMetadataProcessor.java:175-194 | `case`: `lower`/`upper` fold each character; `start` changes only case and spacing as `Text.StartCaseLowered` says; another mode keeps the string; no mode throws; other keys untouched |
| Normalization.RegexDefaults | src/main/java/org/saidone/processors/NormalizeMetadataProcessor.java:204-207 | a null pattern keeps the value, and a null replacement means the empty string |
| Normalization.TrimOpIdempotent | src/main/java/org/saidone/processors/NormalizeMetadataProcessor.java:135 | running `trim` twice on a property leaves the same pending map as running it once |
| Normalization.CollapseOpIdempotent | src/main/java/org/saidone/processors/NormalizeMetadataProcessor.java:136 | running `collapse-whitespace` twice leaves the same pending map as running it once |
| Normalization.RunOpsAppend | src/main/java/org/saidone/processors/NormalizeMetadataProcessor.java:95 | a property's operations run in list order: running `a + b` is running `a`, then `b` on its result, and an exception stops the rest |
| Normalization.RunAllAppend | src/main/java/org/saidone/processors/NormalizeMetadataProcessor.java:95 | properties run one after another: running `a + b` is running `a`, then `b` on its result |
| Normalization.OpMapIn | src/main/java/org/saidone/processors/NormalizeMetadataProcessor.java:107-117 | the parsed operation map lists the properties in the given order, one entry each |
| Normalization.ParseArgsSpec | src/main/java/org/saidone/processors/NormalizeMetadataProcessor.java:107-117 | the parsed arguments hold one entry per configured property, in the given iteration order |
| Normalization.ParseDescriptors | src/main/java/org/saidone/processors/NormalizeMetadataProcessor.java:110-113 | the descriptor loop casts each element of a property's list, in order, one descriptor per element |
| Normalization.ParseArgs | src/main/java/org/saidone/processors/NormalizeMetadataProcessor.java:107-117 | the `parseArgs` loop computes the parsed-arguments specification |
| Normalization.NormalizationProcessor.RunOperations | src/main/java/org/saidone/processors/NormalizeMetadataProcessor.java:94-96 | the two nested loops over properties and their operations compute the run of every operation map entry, in order, from an empty pending map, and stop at the first exception |
| Normalization.NormalizationProcessor.Normalize | src/main/java/org/saidone/processors/NormalizeMetadataProcessor.java:90-99 | for a given property order: runs every property's operations, then issues exactly one update carrying the whole pending map (suppressed when read-only); the update fails exactly when its map has a `null` key (nothing reaches the repository) or the server refuses it; any earlier failure issues nothing |
| Normalization.MissingTargetStoresNullKey | src/main/java/org/saidone/processors/NormalizeMetadataProcessor.java:139-141 | a `copy-to` or `parse-date-to` without `value` stores the current value under the `null` key |
| Normalization.RunOpsKeepsKeys | src/main/java/org/saidone/processors/NormalizeMetadataProcessor.java:131-144 | no operation removes a key from the pending map |
| Normalization.RunAllKeepsKeys | src/main/java/org/saidone/processors/NormalizeMetadataProcessor.java:94-98 | a key once in the pending map, the `null` key included, is still in the map the update carries |
| Normalization.NormalizationProcessor.ProcessNodeAsWritten | src/main/java/org/saidone/processors/NormalizeMetadataProcessor.java:90-99 | `processNode` as written, the one the bean registry runs: the same, with properties in the hash iteration order of the argument cast |
| Normalization.NormalizationProcessor.ProcessNode | src/main/java/org/saidone/processors/NormalizeMetadataProcessor.java:90-99 | `processNode` corrected: the same, with properties in configured order |
| Normalization.HashOrderChangesResult | src/main/java/org/saidone/processors/NormalizeMetadataProcessor.java:109 | with two `copy-to` properties, hash iteration order and configured order send different updates |
| Normalization.FindingCast | src/main/java/org/saidone/utils/CastUtils.java:102 | the cast that `parseArgs` iterates is an unordered map of the configured properties |
| Processors.Resolve | src/main/java/org/saidone/processors/MoveNodeProcessor.java:52-62 | a missing target is a warning with the cache unchanged; a failed resolution leaves the cache as it was |
| Processors.CachedTargetIgnoresConfig | src/main/java/org/saidone/processors/MoveNodeProcessor.java:52 | once a non-blank target is cached, the configuration is ignored, both as written and corrected |
| Processors.TargetArgument | src/main/java/org/saidone/processors/MoveNodeProcessor.java:53-57 | no argument means no move; a lowercase UUID is used as-is; any other string is resolved as a path and succeeds exactly when the path is known; a non-string fails |
| Processors.ResolveKeepsCacheValid | src/main/java/org/saidone/processors/MoveNodeProcessor.java:52-57 | the corrected resolution only caches, and only moves to, a UUID or the id of a resolved node |
| Processors.FailedResolutionStaysCached | src/main/java/org/saidone/processors/MoveNodeProcessor.java:54-56 | as written, a path that fails to resolve stays cached, and every later node is moved to that raw path string |
| Processors.LiftKeys | src/main/java/org/saidone/processors/AddAspectsAndSetPropertiesProcessor.java:57 | the configured properties keep their keys and values in the update body |
| Processors.MoveNodeProcessor.SendMove | src/main/java/org/saidone/processors/MoveNodeProcessor.java:63-73 | the move to the cached target is issued unless read-only; a refused move is swallowed, and a 409 reads the node for the warning |
| Processors.MoveNodeProcessor.ProcessNodeAsWritten | src/main/java/org/saidone/processors/MoveNodeProcessor.java:50-74 | the processor as written: cache update, move or no move, and the outcome, per the as-written resolution |
| Processors.MoveNodeProcessor.ProcessNode | src/main/java/org/saidone/processors/MoveNodeProcessor.java:50-74 | the corrected processor keeps the cache a valid target; the move goes to a valid target, is issued unless read-only, and failures issue nothing |
| Processors.AspectsAppended | src/main/java/org/saidone/processors/AddAspectsAndSetPropertiesProcessor.java:52-56 | the update's aspects are the node's own followed by the configured ones, in order, with repeats kept; no `aspects` argument leaves the node's list |
| Processors.PropertiesCopied | src/main/java/org/saidone/processors/AddAspectsAndSetPropertiesProcessor.java:57 | the update's properties are exactly the configured map, or empty when the argument is missing |
| Processors.AspectsUpdateFails | src/main/java/org/saidone/processors/AddAspectsAndSetPropertiesProcessor.java:52-57 | building the update fails exactly when the node is unknown, has no aspect list, or one of the two casts fails |
| Processors.AspectsCastFirst | src/main/java/org/saidone/processors/AddAspectsAndSetPropertiesProcessor.java:53-54 | the `aspects` cast is evaluated before the node's aspect list is dereferenced: a malformed argument fails with the cast's exception even when the list is null, and a well-formed one then meets NullPointerException |
| Processors.AddAspectsAndSetPropertiesProcessor.ProcessNode | src/main/java/org/saidone/processors/AddAspectsAndSetPropertiesProcessor.java:51-62 | exactly one update with that body unless read-only or building it failed |
| Processors.ConvertPermissionList | src/main/java/org/saidone/processors/SetPermissionsProcessor.java:47 | the converted permission list has one element per configured entry, in order |
| Processors.AccessStatusOf | src/main/java/org/saidone/processors/SetPermissionsProcessor.java:55 | `valueOf` succeeds exactly for `ALLOWED` and `DENIED`, and null throws NullPointerException |
| Processors.PermissionElements | src/main/java/org/saidone/processors/SetPermissionsProcessor.java:51-57 | each permission becomes one element, in order, with the same authority, name and access status; a null entry or unknown status fails |
| Processors.PermissionsBodyOf | src/main/java/org/saidone/processors/SetPermissionsProcessor.java:49-57 | the body copies the inheritance flag and holds the converted elements; a null `locallySet` throws |
| Processors.PermissionsCarriedOver | src/main/java/org/saidone/processors/SetPermissionsProcessor.java:47-59 | a configured permission list becomes the same list of request elements, with the configured inheritance flag (absent stays unset), and fails exactly at a null entry or an unknown status |
| Processors.MissingPermissionsSkip | src/main/java/org/saidone/processors/SetPermissionsProcessor.java:64-66 | no `permissions` argument means no update |
| Processors.SetPermissionsProcessor.ProcessNode | src/main/java/org/saidone/processors/SetPermissionsProcessor.java:46-67 | the update is issued only when the configuration's `readOnly` is present and false, and the global flag does not suppress it; no permissions or a failed conversion issues nothing |
| Processors.Permanent | src/main/java/org/saidone/processors/DeleteNodeProcessor.java:42 | `permanent` defaults to false, a boolean is passed through, and anything else fails, always with ClassCastException |
| Processors.DeleteNodeProcessor.ProcessNode | src/main/java/org/saidone/processors/DeleteNodeProcessor.java:39-44 | read-only issues nothing; otherwise exactly one delete of that id with the `permanent` flag |
| Chaining.LookupBean | src/main/java/org/saidone/processors/ChainingNodeProcessor.java:63-66 | a step's bean is found exactly when its uncapitalised name is a registered processor |
| Chaining.LookupIgnoresFirstLetterCase | src/main/java/org/saidone/processors/ChainingNodeProcessor.java:63 | names that differ only in the case of their first letter find the same bean |
| Chaining.ConvertConfig | src/main/java/org/saidone/processors/ChainingNodeProcessor.java:55 | a converted step configuration comes from an object, and its arguments are that object's `args` |
| Chaining.ConvertConfigs | src/main/java/org/saidone/processors/ChainingNodeProcessor.java:55 | the step configurations convert exactly when each element does, one per element, in order |
| Chaining.ChainConfigs | src/main/java/org/saidone/processors/ChainingNodeProcessor.java:55 | a missing `processors` argument throws NullPointerException, and a non-list throws ClassCastException |
| Chaining.SubConfigSmaller | src/main/java/org/saidone/processors/ChainingNodeProcessor.java:55 | each step's configuration is strictly inside the chain's, so nested chains terminate |
| Chaining.SubConfigOwnReadOnly | src/main/java/org/saidone/processors/ChainingNodeProcessor.java:55 | a step without its own `readOnly` gets null, not the parent's |
| Chaining.Answer | src/main/java/org/saidone/aspects/NodesApiReadOnlyAspect.java:78-83 | a mutating call fails exactly when it is sent and either its body fails to encode or the server refuses it, with that status |
| Chaining.LeafEffect | src/main/java/org/saidone/processors/ChainingNodeProcessor.java:66-67 | what `processNode` of each bean other than the chain does (Move and the normalisers as written); read-only issues no call, and only Move changes the cached target |
| Chaining.RunSteps | src/main/java/org/saidone/processors/ChainingNodeProcessor.java:62-71 | the steps run in order on one node, each on the cache the previous left; a failure is always the wrapped failure of one of the steps |
| Chaining.StepOutcome | src/main/java/org/saidone/processors/ChainingNodeProcessor.java:63-70 | one step: a null configuration throws NullPointerException outside the `try`; an unknown name or a failing bean fails as "Processor bean not found" with the step's name |
| Chaining.FailureStopsChain | src/main/java/org/saidone/processors/ChainingNodeProcessor.java:65-70 | once a step fails no later step runs: appending steps to a failing chain changes neither its result, nor its calls, nor the cache |
| Chaining.ChainAppend | src/main/java/org/saidone/processors/ChainingNodeProcessor.java:62-71 | after steps that all succeed, the next steps run on the cache they left, and the calls of both come in order |
| Chaining.OneStepChain | src/main/java/org/saidone/processors/ChainingNodeProcessor.java:62-71 | a one-step chain makes its bean's calls and leaves its cache, and fails exactly when the bean fails, as "Processor bean not found" with the step's name |
| Chaining.EmptyChainRunsNothing | src/main/java/org/saidone/processors/ChainingNodeProcessor.java:57-60 | an empty step list succeeds with no call and the cache unchanged |
| Chaining.ReadOnlyOutcome | src/main/java/org/saidone/aspects/NodesApiReadOnlyAspect.java:78-82 | in read-only mode no bean issues a call, however deeply it nests chains |
| Chaining.QuietOutcome | src/main/java/org/saidone/processors/ChainingNodeProcessor.java:62-71 | over beans that issue no call, neither does a chain of them |
| Chaining.LeafOutcome | src/main/java/org/saidone/processors/ChainingNodeProcessor.java:66-67 | a bean other than the chain behaves as `LeafEffect` says |
| Chaining.Beans.DispatchLeaf | src/main/java/org/saidone/processors/ChainingNodeProcessor.java:66-67 | calling the bean's `processNode` method has the result, the appended calls and the cache that `LeafEffect` gives |
| Chaining.Beans.RunChain | src/main/java/org/saidone/processors/ChainingNodeProcessor.java:53-72 | the loop over the steps has the result, the appended calls and the cache that the chain's `Outcome` gives |
| Chaining.Beans.RunStep | src/main/java/org/saidone/processors/ChainingNodeProcessor.java:63-70 | one step of the loop has the result, the appended calls and the cache that `StepOutcome` gives: a null configuration throws NullPointerException, and an unknown name or a failing bean gives "Processor bean not found" with the step's name |
| Chaining.Beans.Dispatch | src/main/java/org/saidone/processors/ChainingNodeProcessor.java:66-67 | a bean's `processNode` has the result, the appended calls and the cache that `Outcome` gives for that bean; calls are only appended, and none while read-only |
| Worker.Successes | src/main/java/org/saidone/processors/AbstractNodeProcessor.java:83-84 | the successes are at most the items, and equal them exactly when every item succeeded |
| Worker.SuccessesSnoc | src/main/java/org/saidone/processors/AbstractNodeProcessor.java:83-88 | one more item adds one success exactly when it returns normally |
| Worker.DrainSnoc | src/main/java/org/saidone/processors/AbstractNodeProcessor.java:72-90 | one more item runs its bean on the cache the earlier items left, and appends its outcome and calls |
| Worker.ReadOnlyDrain | src/main/java/org/saidone/processors/AbstractNodeProcessor.java:72-90 | in read-only mode draining any ids issues no call |
| Worker.LogNameDrain | src/main/java/org/saidone/processors/AbstractNodeProcessor.java:72-90 | with the log-name bean, an item succeeds exactly when its node exists |
| Worker.VoidDrain | src/main/java/org/saidone/processors/AbstractNodeProcessor.java:72-90 | with the void bean every item succeeds |
| Worker.NodeWorker.Handle | src/main/java/org/saidone/processors/AbstractNodeProcessor.java:81-88 | one item: the bean's outcome as `Drain` gives it; the counter goes up by one exactly when it returned normally |
| Worker.NodeWorker.Process | src/main/java/org/saidone/processors/AbstractNodeProcessor.java:67-92 | the worker stops exactly when a poll finds the queue empty, having handed each queued id, in order, to the bean; outcomes, calls and cache are those of `Drain` over the queued ids; the counter grows by exactly the number of items that returned normally, failures being swallowed; read-only issues no call; with the log-name bean an item succeeds exactly when its node exists, with the void bean always |
| Worker.FirstFailure | src/main/java/org/saidone/processors/NodeProcessor.java:35-49 | the position of the first failing id, or none exactly when every id succeeds |
| Worker.ProcessLegacy | src/main/java/org/saidone/processors/NodeProcessor.java:33-51 | the older loop processes ids in order until the queue is empty, or stops at the first exception and rethrows it, leaving the rest queued |
| Worker.CastListOfStrings | src/main/java/org/saidone/processors/AbstractNodeProcessor.java:114-119 | the same list in the same order when every element is a string or null; null throws NullPointerException |
| Worker.CastMapOfStringObject | src/main/java/org/saidone/processors/AbstractNodeProcessor.java:121-129 | the same keys, each with its own value, exactly when no value is null; null throws NullPointerException |
| TreeCollector.FoldersAndFiles | src/main/java/org/saidone/collectors/NodeTreeCollector.java:67-73 | the folder and non-folder children partition the listing, with membership exactly by the folder flag |
| TreeCollector.ListingWithin | src/main/java/org/saidone/collectors/NodeTreeCollector.java:59-76 | the paging of a node lists only that node's children |
| TreeCollector.ListingComplete | src/main/java/org/saidone/collectors/NodeTreeCollector.java:59-76 | with no failing request and a positive batch size, the paging lists every child from `skipCount` on, in order |
| TreeCollector.StackStep | src/main/java/org/saidone/collectors/NodeTreeCollector.java:49-56 | popping a node enqueues its files, then walks the stack with its folders pushed; folders rank below their parent |
| TreeCollector.WalkedAreFiles | src/main/java/org/saidone/collectors/NodeTreeCollector.java:46-57 | every id a walk enqueues is a non-folder child of some node; a root that is no node's child is never enqueued |
| TreeCollector.WalkRoot | src/main/java/org/saidone/collectors/NodeTreeCollector.java:88-106 | `node-id` wins over `path`; a path that does not resolve, or neither argument, walks nothing; a non-string `node-id` is a ClassCastException |
| TreeCollector.NodeTreeCollector.PushOrEnqueue | src/main/java/org/saidone/collectors/NodeTreeCollector.java:67-73 | folders are pushed in order and non-folders enqueued in order |
| TreeCollector.NodeTreeCollector.TakePage | src/main/java/org/saidone/collectors/NodeTreeCollector.java:63-75 | one page: the request is made at the current skip count; its folders are pushed and its files enqueued; the loop ends with the listing so far, or goes on at the next skip count |
| TreeCollector.NodeTreeCollector.ProcessNodeChildren | src/main/java/org/saidone/collectors/NodeTreeCollector.java:59-76 | pages are requested at 0, b, 2b, ...; folders are pushed, files enqueued in listing order; it fails exactly when a request throws |
| TreeCollector.NodeTreeCollector.Walk | src/main/java/org/saidone/collectors/NodeTreeCollector.java:46-57 | on an acyclic repository the walk terminates; it enqueues the depth-first file order and pops exactly the nodes of the traversal; a failing node is skipped |
| TreeCollector.NodeTreeCollector.WalkStep | src/main/java/org/saidone/collectors/NodeTreeCollector.java:49-56 | one iteration of the stack loop keeps the enqueued-so-far plus the rest of the walk constant, and shrinks what is left to visit |
| TreeCollector.NodeTreeCollector.CollectNodes | src/main/java/org/saidone/collectors/NodeTreeCollector.java:85-107 | a `batch-size` argument overwrites the field and persists; then the resolved root, if any, is walked |
| QueryCollector.HitsComplete | src/main/java/org/saidone/collectors/QueryNodeCollector.java:62-74 | with no failing request and a positive batch size, the paging yields every hit from `skipCount` on, in order |
| QueryCollector.QueryResult | src/main/java/org/saidone/services/AlfrescoService.java:73 | `add` into a full queue throws IllegalStateException; otherwise the outcome is the first failing request, if any |
| QueryCollector.PagedSearch | src/main/java/org/saidone/collectors/QueryNodeCollector.java:62-74 | requests go at skip 0, b, 2b, ... with `maxItems` b; every hit of every page is queued in page and entry order; the loop stops after a page with no more items |
| QueryCollector.TakePage | src/main/java/org/saidone/collectors/QueryNodeCollector.java:66-72 | one page: the request is made at the current skip count; its hits are queued in order; the loop ends with the outcome of the whole paging, or goes on at the next skip count |
| QueryCollector.QueryOf | src/main/java/org/saidone/collectors/QueryNodeCollector.java:85 | a missing `query` is null, a string is used, and anything else is a ClassCastException |
| QueryCollector.QueryNodeCollector.CollectNodes | src/main/java/org/saidone/collectors/QueryNodeCollector.java:83-86 | a `batch-size` argument overwrites the field and persists; then the query is paged into the queue |
| QueryCollector.SearchService.DoQuery | src/main/java/org/saidone/services/SearchService.java:64-79 | the hits are `put` into the queue in order, with requests at 0, b, 2b, ... |
| QueryCollector.AlfrescoService.DoQuery | src/main/java/org/saidone/services/AlfrescoService.java:64-77 | the hits are `add`ed to the given queue in order; a full queue throws IllegalStateException |
| ListCollector.ReadAllLines | src/main/java/org/saidone/collectors/NodeListCollector.java:51 | `Files.readAllLines` yields lines that hold no line terminator |
| ListCollector.ReadTerminated | src/main/java/org/saidone/collectors/NodeListCollector.java:51 | reading a file made of lines, each ended by a newline, gives back exactly those lines, empty lines included |
| ListCollector.ListedIds | src/main/java/org/saidone/collectors/NodeListCollector.java:48-59 | a missing or blank `node-list-file` lists nothing; an unreadable file lists nothing; otherwise every line of the file, in order |
| ListCollector.NodeListCollector.CollectNodes | src/main/java/org/saidone/collectors/NodeListCollector.java:48-59 | each listed line is `put` into the queue in file order |
| ListCollector.OneIdPerLine | src/main/java/org/saidone/collectors/NodeListCollector.java:51-53 | when the lines fit, exactly one id per line is enqueued, after the old contents |
| BulkProperties.Appended | src/main/java/org/saidone/model/alfresco/bulk/Properties.java:42-47 | the first entry of an empty container is the whole list; otherwise the entry is appended at the end, earlier entries unchanged |
| BulkProperties.AppendedAllInOrder | src/main/java/org/saidone/model/alfresco/bulk/Properties.java:40-47 | successive `addEntry` calls keep insertion order |
| BulkProperties.Properties.AddEntry | src/main/java/org/saidone/model/alfresco/bulk/Properties.java:42-47 | `addEntry` creates the list on first use and appends the entry |
| BulkProperties.Properties.AddKeyValue | src/main/java/org/saidone/model/alfresco/bulk/Properties.java:49-51 | `addEntry(key, value)` appends an entry with exactly that key and value |

## Left out

- Concurrency. The model has one worker and nothing else runs beside it. These are not modelled:
  - the `CompletableFuture` and executor submission;
  - races between workers and collectors;
  - the consumer timeout of `poll`.
  The queue is empty exactly when a poll returns null.
- `QueryNodeCollector.collectNodes` submits the query to an executor and returns before the query runs. The model runs the query inside the call. So the ClassCastException of a non-string `query` and every search failure, which in the source stay in a `Future` nobody reads, are returned by `QueryCollector.QueryNodeCollector.CollectNodes` instead.
- InterruptedException while polling or putting is not modelled, so the RuntimeException that interrupting a worker raises is left out.
- A full queue. `put` on a full `LinkedBlockingQueue` blocks until a worker makes room, and in a sequential model nobody does. In the tree, query and list collectors a refused `put` drops that id; paging and listing go on, and a later failing request is still reported. The queue ends as `WorkQueue.Fill` says. `add` throws IllegalStateException, as modelled.
- `skipCount` and `batchSize` are unbounded integers. Java `int` overflow of `skipCount += batchSize` is not modelled.
- A search page whose list, entries, entry or pagination is null would throw NullPointerException in the source. The model repository never answers with one.
- A child listing without pagination information ends the paging in the model, as in the code. The model repository never produces one.
- A listing or search server that keeps reporting more items forever is not modelled. The model repository describes a fixed snapshot of children and hits, so paging ends.
- A search query with a non-positive batch size is answered as a failing request.
- Jackson `convertValue` is reduced to field-by-field shape checks. Any other coercion is rejected.
- Chaining.ConvertConfig: an explicit `"args": null` in a chain step is read as no arguments, as an absent `args` is. Jackson would leave the field null, so the step's first `getArg` would throw NullPointerException; in the model every argument of that step reads as `null` instead.
- The Spring bean lookup is the fixed registry in `Chaining`.
- Logging is left out. So are the progress and stats loggers, `LockService`, and the command-line and configuration loading.
- Strings are ASCII-abstracted:
  - `trim` strips characters at or below a space;
  - `\s` is the six ASCII whitespace characters;
  - case mapping is ASCII only;
  - `String.hashCode` takes every character modulo 2^16.
- Regex replacement and date parsing (`Instant.parse`, `DateTimeFormatter`) are the uninterpreted functions of `Normalization.Platform`.
- `CastUtils.HashIterationOrder` assumes fewer than eight keys per bucket. Tree bins of `HashMap` are not modelled.
- Reading the node list file is the map `ListCollector.NodeListCollector.files`. A path outside it is an unreadable file (IOException, logged). A file that fails UTF-8 decoding is not distinguished from a missing one.
- `MoveNodeProcessor.targetParentId` is static in the source and shared by every instance. The model keeps it on the one processor instance that the bean registry holds.
- The bean registry (`Chaining.Beans.DispatchLeaf`) runs Move and both normalisers as written (`Processors.MoveNodeProcessor.ProcessNodeAsWritten`, `Normalization.NormalizationProcessor.ProcessNodeAsWritten`), so the chain and the worker behave as the code does. The corrected `ProcessNode` of each is proved on its own and is not dispatched.
- `DownloadNodeProcessor`, `CheckMailAttachmentsProcessor` and the stale `AddAspectAndSetPropertiesProcessor` are not part of this model. They are file, mail or XML I/O wrappers.
- `LogNodeNameProcessor` and `VoidProcessor` appear only as the beans `LogName` and `Void`. Dispatching `LogName` reads the node; `Void` does nothing.
- TreeCollector.NodeTreeCollector.Walk: it is stated weaker than "every non-folder descendant is enqueued exactly once". The contract proves three things:
  - the queue receives `TreeCollector.Walked`, the depth-first file order;
  - every enqueued id is a non-folder child (`TreeCollector.WalkedAreFiles`);
  - a node's paging lists all its children (`TreeCollector.ListingComplete`).
  A separate proof that each descendant occurs exactly once in a tree with unique child ids is not given.
- TreeCollector.NodeTreeCollector.Walk: it requires an acyclic repository, given as a ghost rank under which each folder child ranks below its parent. The source has no visited set and would loop forever on a cycle.

## Findings

| source | as written | input that shows it | evidently intended | confidence | as-written member | corrected member |
|---|---|---|---|---|---|---|
| src/main/java/org/saidone/processors/NormalizeMetadataProcessor.java:107-117 | `parseArgs` iterates the map returned by `CastUtils.castToMapOfObjectObject`, a `HashMap`, so properties run in hash order. The result goes into a `LinkedHashMap`, but only after the order is already lost. | `b: [copy-to c]`, `a: [copy-to b]` on a node with `a = "x"`, `b = "y"`: hash order runs `a` first and sends `b = "x"`, `c = "x"`; configured order sends `c = "y"`, `b = "x"` | properties run in configured order | not executed | Normalization.HashOrderChangesResult | Normalization.NormalizationProcessor.ProcessNode |
| src/main/java/org/saidone/processors/MoveNodeProcessor.java:54-56 | the raw `target-parent` string is stored in the static cache before the path is resolved, so when resolution throws, the path stays cached | `target-parent = "Sites/missing"`, a path that does not exist: the first node fails with a 404, and every later node is "moved" to the parent id `Sites/missing` instead of resolving again | the cache holds only a UUID or a resolved node id | not executed | Processors.FailedResolutionStaysCached | Processors.ResolveKeepsCacheValid |

Two places where the code differs from its documentation; the model follows the code:
- A chain step's configuration does not inherit the chain's `readOnly`. `objectMapper.convertValue` leaves it null, so `SetPermissionsProcessor` inside a chain never updates unless the step sets `readOnly: false` itself (`Chaining.SubConfigOwnReadOnly`).
- The normalisers the registry runs visit properties in hash order (the first finding), though the ordered map they fill suggests configured order; `Normalization.NormalizationProcessor.ProcessNode` is the corrected form in configured order.

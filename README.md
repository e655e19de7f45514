# ReCodEx API core, modelled in Dafny

This project models part of the ReCodEx web API, the server behind the
ReCodEx code-evaluation system. It covers two areas.

**The exercise-configuration compiler front end.**
- The pipelines merger builds a graph of nodes for each pipeline of a test. There is one node per box, and edges join the box that produces a variable to the boxes that consume it.
- It then folds the pipelines of a test into one tree. Where an output data node of the tree built so far and an input data node of the next pipeline carry the same variable, it removes both and puts a fresh join node without a box between their neighbours.
- The model also covers the boxes whose templates and compilers the merger's output feeds: fetch-files, elf-exec, javac and gcc.
- It covers the data holders these read: port metadata, limits and the exercise configuration with its tests.

**The decision rules of the API.**
- maximum points and the best solution of an assignment;
- the guards on creating a submission;
- choosing the locale of emails and grouping recipients by locale;
- finding, decoding and issuing access tokens;
- login through external authentication services;
- email verification;
- a user's display name.

The model keeps the source's shape:
- objects whose fields change in place are classes: the node arena `Tree.Forest`, `Ports.PortMeta`, `Limits.Limits`, `ExerciseConfigs.ExerciseConfig`, the boxes' class-wide statics, `Submissions.Submission`, `Users.User` and `ExternalServiceAuthenticators.ExternalServiceAuthenticator`;
- loops are methods with invariants, proved equal to functions over their inputs;
- pure rules are functions and lemmas.

PHP arrays are ordered dictionaries (`PhpArray.Dict`): assigning to an existing key keeps its position, and a new key is appended. PHP's `empty()` on a string (null, "" or "0") is `Wrappers.IsEmpty`.

Four modelling conventions:
- Exceptions are `Result` failures.
- Repositories, the clock, JWT signing and verification, and file existence are parameters.
- Nodes are ids in an arena: `NodeId` counts up from the arena's `next`. Their parent and child arrays are `map<NodeId, Dict<string, NodeId>>`.
- A join node is a node whose box is `None`.

Two places where the source reads oddly but behaves as intended:
- `ExternalServiceAuthenticator.php` line 74 closes a parenthesis late. It tests `empty()` of the whole conjunction. Because `empty()` of a boolean is its negation, an entry is still registered exactly when its name and its secret are both non-empty, and that is what the model states.
- The legacy email verification helper's default subject prefix ends in a space, and `createSubject` adds another, so its default subject has two spaces before the address. The model keeps that.

Where the source is evidently wrong (see Findings), the model holds both the code as written and a corrected version beside it. The access manager, the submission guards and the verification token are modelled as written, with the corrected versions as separate members. The pipeline build and merge use line 189 corrected, since as written a merge of matched pipelines fails; line 189 as written is kept as a reading of the linking functions.

## Model

| member | source | states |
|---|---|---|
| Ports.PortMeta.constructor | app/helpers/ExerciseConfig/Pipeline/Ports/PortMeta.php:24-36 | a fresh port has name, type and variable all null |
| Ports.PortMeta.SetName | app/helpers/ExerciseConfig/Pipeline/Ports/PortMeta.php:52-55 | the getter returns the new name, type and variable are unchanged, and the same object is returned |
| Ports.PortMeta.SetType | app/helpers/ExerciseConfig/Pipeline/Ports/PortMeta.php:70-73 | the getter returns the new type, the other two fields are unchanged, and the same object is returned |
| Ports.PortMeta.SetVariable | app/helpers/ExerciseConfig/Pipeline/Ports/PortMeta.php:88-91 | the getter returns the new variable, the other two fields are unchanged, and the same object is returned |
| Ports.PortMeta.ToArray | app/helpers/ExerciseConfig/Pipeline/Ports/PortMeta.php:98-105 | a record of exactly the type and the variable, standing for the "type" and "value" entries (the key strings themselves are not modelled); the name is never serialised |
| Ports.PortMeta.JsonSerialize | app/helpers/ExerciseConfig/Pipeline/Ports/PortMeta.php:119-121 | the JSON form is the array form |
| Ports.NewPort | app/helpers/ExerciseConfig/Pipeline/Box/Boxes/ElfExecutionBox.php:41-48 | a port built by the chained setters holds exactly the name, and the type and variable that were set |
| Limits.Limits.constructor | app/helpers/ExerciseConfig/Limits/Limits.php:24-28 | all three limits start at 0 |
| Limits.Limits.Create | app/helpers/ExerciseConfig/Limits/Limits.php:30-37 | a new holder storing exactly the given wall time, memory and parallel values |
| Limits.Limits.SetWallTime | app/helpers/ExerciseConfig/Limits/Limits.php:52-55 | sets only the wall time and returns the same object |
| Limits.Limits.SetMemoryLimit | app/helpers/ExerciseConfig/Limits/Limits.php:70-73 | sets only the memory and returns the same object |
| Limits.Limits.SetParallel | app/helpers/ExerciseConfig/Limits/Limits.php:88-91 | sets only the parallel count and returns the same object |
| Limits.Limits.Compile | app/helpers/ExerciseConfig/Limits/Limits.php:99-104 | the job limits carry the hardware-group id and the three values unchanged |
| Limits.Limits.ToArray | app/helpers/ExerciseConfig/Limits/Limits.php:111-117 | "wall-time" appears iff the wall time > 0, "memory" iff the memory is non-zero (negative kept), "parallel" iff parallel > 0; keys are unique and valid and come in the order wall-time, memory, parallel; the array is empty iff no key qualifies, so defaults serialise to an empty map |
| ExerciseConfigs.ExerciseConfig.constructor | app/helpers/ExerciseConfig/Config/ExerciseConfig.php:18 | a new configuration has no tests |
| ExerciseConfigs.ExerciseConfig.GetTest | app/helpers/ExerciseConfig/Config/ExerciseConfig.php:33-35 | the test stored under the name, null iff there is none |
| ExerciseConfigs.ExerciseConfig.GetTests | app/helpers/ExerciseConfig/Config/ExerciseConfig.php:24-26 | the whole test map: looking a name up in it gives exactly `getTest` of that name, its keys are unique, and its values are the tests in stored order |
| ExerciseConfigs.ExerciseConfig.AddTest | app/helpers/ExerciseConfig/Config/ExerciseConfig.php:42-45 | the test is found under its name; every other name keeps its test; a new name is appended, an existing one keeps its place |
| ExerciseConfigs.ExerciseConfig.RemoveTest | app/helpers/ExerciseConfig/Config/ExerciseConfig.php:52-55 | the name is gone, every other name keeps its test, and removing an absent name changes nothing |
| ExerciseConfigs.ExerciseConfig.ToArray | app/helpers/ExerciseConfig/Config/ExerciseConfig.php:62-70 | one entry per stored test, in the tests' order |
| JobConfig.PrefixedAll | app/helpers/ExerciseConfig/Pipeline/Box/Boxes/FetchFilesBox.php:107 | a prefixed array value has the same length and element `i` is element `i` prefixed |
| FetchFilesBox.Statics.constructor | app/helpers/ExerciseConfig/Pipeline/Box/Boxes/FetchFilesBox.php:26 | the statics start uninitialised with no templates |
| FetchFilesBox.GetType | app/helpers/ExerciseConfig/Pipeline/Box/Boxes/FetchFilesBox.php:59-61 | the box type is "fetch-files" |
| FetchFilesBox.GetDefaultName | app/helpers/ExerciseConfig/Pipeline/Box/Boxes/FetchFilesBox.php:85-87 | the default name is "Fetch Pipeline Files" |
| FetchFilesBox.Statics.Init | app/helpers/ExerciseConfig/Pipeline/Box/Boxes/FetchFilesBox.php:33-43 | after `init` the templates are one input "remote" of remote-file-array type and one output "input" of file-array type; a second call changes nothing |
| FetchFilesBox.Statics.GetDefaultInputPorts | app/helpers/ExerciseConfig/Pipeline/Box/Boxes/FetchFilesBox.php:67-70 | returns exactly the input templates |
| FetchFilesBox.Statics.GetDefaultOutputPorts | app/helpers/ExerciseConfig/Pipeline/Box/Boxes/FetchFilesBox.php:76-79 | returns exactly the output templates |
| FetchFilesBox.Compile | app/helpers/ExerciseConfig/Pipeline/Box/Boxes/FetchFilesBox.php:95-125 | a remote port without a value, then an input port without one, is a call on null; otherwise it fails with ExerciseConfigException iff the remote and local arrays differ in length, and else gives one task per local file in order, task `i` fetching `remote[i]` into the source-prefixed `local[i]` |
| ElfExecutionBox.Statics.constructor | app/helpers/ExerciseConfig/Pipeline/Box/Boxes/ElfExecutionBox.php:30 | the statics start uninitialised with no templates |
| ElfExecutionBox.GetType | app/helpers/ExerciseConfig/Pipeline/Box/Boxes/ElfExecutionBox.php:66-68 | the box type is "elf-exec" |
| ElfExecutionBox.GetDefaultName | app/helpers/ExerciseConfig/Pipeline/Box/Boxes/ElfExecutionBox.php:92-94 | the default name is "ELF Execution" |
| ElfExecutionBox.Statics.Init | app/helpers/ExerciseConfig/Pipeline/Box/Boxes/ElfExecutionBox.php:37-51 | the inputs are args, stdin, input-files and binary-file, the outputs stdout and output-file, all bound to ""; a second call changes nothing |
| ElfExecutionBox.Statics.GetDefaultInputPorts | app/helpers/ExerciseConfig/Pipeline/Box/Boxes/ElfExecutionBox.php:74-77 | returns exactly the input templates |
| ElfExecutionBox.Statics.GetDefaultOutputPorts | app/helpers/ExerciseConfig/Pipeline/Box/Boxes/ElfExecutionBox.php:83-86 | returns exactly the output templates |
| ElfExecutionBox.Compile | app/helpers/ExerciseConfig/Pipeline/Box/Boxes/ElfExecutionBox.php:100-118 | a binary-file port without a value is a call on null; otherwise exactly one EXECUTION task running the binary under the evaluation directory; it has arguments iff the args port has a value; the sandbox is "isolate", with stdin iff the stdin port has a value and stdout iff the stdout port has one, both prefixed |
| JavacCompilationBox.Statics.constructor | app/helpers/ExerciseConfig/Pipeline/Box/Boxes/JavacCompilationBox.php:28 | the statics start uninitialised with no templates |
| JavacCompilationBox.GetType | app/helpers/ExerciseConfig/Pipeline/Box/Boxes/JavacCompilationBox.php:61-63 | the box type is "javac" |
| JavacCompilationBox.GetDefaultName | app/helpers/ExerciseConfig/Pipeline/Box/Boxes/JavacCompilationBox.php:87-89 | the default name is "Javac Compilation" |
| JavacCompilationBox.Statics.Init | app/helpers/ExerciseConfig/Pipeline/Box/Boxes/JavacCompilationBox.php:35-46 | the inputs are args (string array) and source-files (file array), the output class-files (file array); a second call changes nothing |
| JavacCompilationBox.Statics.GetDefaultInputPorts | app/helpers/ExerciseConfig/Pipeline/Box/Boxes/JavacCompilationBox.php:69-72 | returns exactly the input templates |
| JavacCompilationBox.Statics.GetDefaultOutputPorts | app/helpers/ExerciseConfig/Pipeline/Box/Boxes/JavacCompilationBox.php:78-81 | returns exactly the output templates |
| JavacCompilationBox.Arguments | app/helpers/ExerciseConfig/Pipeline/Box/Boxes/JavacCompilationBox.php:102-112 | the user arguments (none without a value) followed by every source file under the evaluation directory, in order |
| JavacCompilationBox.Compile | app/helpers/ExerciseConfig/Pipeline/Box/Boxes/JavacCompilationBox.php:96-117 | a source-files port without a value is a call on null; otherwise exactly one INITIATION task with fatal failure, binary /usr/bin/javac, those arguments, and sandbox "isolate" with output on |
| GccCompilationBox.Statics.constructor | app/helpers/ExerciseConfig/Pipeline/Box/Boxes/GccCompilationBox.php:16 | the statics start uninitialised, with no name and no templates |
| GccCompilationBox.GetType | app/helpers/ExerciseConfig/Pipeline/Box/Boxes/GccCompilationBox.php:50-52 | the box type is "gcc" |
| GccCompilationBox.Statics.Init | app/helpers/ExerciseConfig/Pipeline/Box/Boxes/GccCompilationBox.php:24-35 | afterwards the name is "GCC Compilation", the single input is file port "source-file" and the single output file port "binary-file", both bound to ""; a second call changes nothing |
| GccCompilationBox.Statics.GetDefaultName | app/helpers/ExerciseConfig/Pipeline/Box/Boxes/GccCompilationBox.php:76-79 | the default name is always available: "GCC Compilation" |
| GccCompilationBox.Statics.GetDefaultInputPorts | app/helpers/ExerciseConfig/Pipeline/Box/Boxes/GccCompilationBox.php:58-61 | returns exactly the input templates |
| GccCompilationBox.Statics.GetDefaultOutputPorts | app/helpers/ExerciseConfig/Pipeline/Box/Boxes/GccCompilationBox.php:67-70 | returns exactly the output templates |
| Tree.BoundVar | app/helpers/ExerciseConfig/Compilation/PipelinesMerger.php:169-171 | a port's variable counts only when it is not empty |
| Tree.Forest.NewNode | app/helpers/ExerciseConfig/Compilation/PipelinesMerger.php:136 | a new node is the next id, holds its box (none for a join node), and has no edges, no tree flag and no tables; nothing else changes |
| Tree.Forest.AddChild | app/helpers/ExerciseConfig/Compilation/PipelinesMerger.php:177 | the child array gets the node under the variable; nothing else changes |
| Tree.Forest.AddParent | app/helpers/ExerciseConfig/Compilation/PipelinesMerger.php:176 | the parent array gets the node under the variable; nothing else changes |
| Tree.Forest.RemoveChild | app/helpers/ExerciseConfig/Compilation/PipelinesMerger.php:93 | every child edge to that node is dropped; nothing else changes (see Left out) |
| Tree.Forest.RemoveParent | app/helpers/ExerciseConfig/Compilation/PipelinesMerger.php:94 | every parent edge to that node is dropped; nothing else changes (see Left out) |
| Tree.Forest.SetInTree | app/helpers/ExerciseConfig/Compilation/PipelinesMerger.php:192 | the node is marked in the tree; nothing else changes |
| Tree.Forest.SetTables | app/helpers/ExerciseConfig/Compilation/PipelinesMerger.php:58-60 | the node holds the three variables tables; nothing else changes |
| Tree.LinkKeepsSound | app/helpers/ExerciseConfig/Compilation/PipelinesMerger.php:165-190 | linking a producer to a consumer keeps every edge joining a producer to a consumer |
| Tree.LinkKeepsKeysBound | app/helpers/ExerciseConfig/Compilation/PipelinesMerger.php:169-171 | edges are only ever keyed by non-empty variables |
| Tree.LinkKeepsSymmetric | app/helpers/ExerciseConfig/Compilation/PipelinesMerger.php:188-189 | with one producer per variable, a step recording both directions keeps every child edge matched by its parent edge |
| PipelinesMerger.IndexPorts | app/helpers/ExerciseConfig/Compilation/PipelinesMerger.php:141-160 | every bound variable of the ports now maps to the box, other entries are kept, and empty variables are skipped |
| PipelinesMerger.NodeOf | app/helpers/ExerciseConfig/Compilation/PipelinesMerger.php:138 | the node found for a box's name is the node of the last box with that name |
| PipelinesMerger.IndexBox | app/helpers/ExerciseConfig/Compilation/PipelinesMerger.php:135-161 | one box's node and ports extend the name index and the variable index by exactly that box |
| PipelinesMerger.CreateNodes | app/helpers/ExerciseConfig/Compilation/PipelinesMerger.php:132-161 | one fresh node per box, in order, without edges; the name index (last box wins), and for each non-empty variable its last consumer and last producer |
| PipelinesMerger.ProducerFound | app/helpers/ExerciseConfig/Compilation/PipelinesMerger.php:172 | under the merger's assumption the producer lookup succeeds, and with unique names it finds a producer of the variable |
| PipelinesMerger.ConsumerFound | app/helpers/ExerciseConfig/Compilation/PipelinesMerger.php:184 | under the merger's assumption the consumer lookup succeeds, and with unique names it finds a consumer of the variable |
| PipelinesMerger.NodeNamed | app/helpers/ExerciseConfig/Compilation/PipelinesMerger.php:138 | the name index gives a node of the pipeline for every box, and with unique names the box's own node |
| PipelinesMerger.NodeOfBox | app/helpers/ExerciseConfig/Compilation/PipelinesMerger.php:138 | with unique names, box `k` is found under its name as node `base + k` |
| PipelinesMerger.LookupProducer | app/helpers/ExerciseConfig/Compilation/PipelinesMerger.php:172 | the producer lookup of a variable gives the node of its last producing box, and nothing when no box produces it |
| PipelinesMerger.LookupConsumer | app/helpers/ExerciseConfig/Compilation/PipelinesMerger.php:184 | the consumer lookup of a variable gives the node of its last consuming box, and nothing when no box consumes it |
| PipelinesMerger.InputStepEdges | app/helpers/ExerciseConfig/Compilation/PipelinesMerger.php:167-178 | one input step changes exactly the node's parent under the port's variable (to the producer) and the producer's child under it (to the node), and only when the producer is not yet in the tree |
| PipelinesMerger.OutputStepEdges | app/helpers/ExerciseConfig/Compilation/PipelinesMerger.php:179-190 | one output step sets the node's child under the variable to the consumer; the consumer's parent edge back is set only with line 189 corrected; nothing else changes |
| PipelinesMerger.InputStepsEdges | app/helpers/ExerciseConfig/Compilation/PipelinesMerger.php:167-178 | all input ports of a node, edge by edge: the same change for every variable some port is bound to |
| PipelinesMerger.OutputStepsEdges | app/helpers/ExerciseConfig/Compilation/PipelinesMerger.php:179-190 | all output ports of a node, edge by edge, for either reading of line 189 |
| PipelinesMerger.NodeLinksEdges | app/helpers/ExerciseConfig/Compilation/PipelinesMerger.php:166-190 | linking one node sets exactly the edges its input and output steps give, the output steps applied after the input steps |
| PipelinesMerger.StepFlags | app/helpers/ExerciseConfig/Compilation/PipelinesMerger.php:173-185 | a looked-up producer or consumer is still outside the tree exactly when its box comes at or after the box being linked |
| PipelinesMerger.ChildAfterStep | app/helpers/ExerciseConfig/Compilation/PipelinesMerger.php:165-194 | how linking one more box changes each node's child edge as the characterisation states it |
| PipelinesMerger.ParentAfterStep | app/helpers/ExerciseConfig/Compilation/PipelinesMerger.php:165-194 | how linking one more box changes each node's parent edge, for either reading of line 189 |
| PipelinesMerger.EdgesAfterStep | app/helpers/ExerciseConfig/Compilation/PipelinesMerger.php:165-194 | linking box `i` takes every node's edges from their characterisation after `i` boxes to that after `i + 1` |
| PipelinesMerger.LinkedAfterStep | app/helpers/ExerciseConfig/Compilation/PipelinesMerger.php:165-194 | the characterisation of all edges is kept by linking each further box |
| PipelinesMerger.LinkedAtStart | app/helpers/ExerciseConfig/Compilation/PipelinesMerger.php:132-161 | fresh nodes without edges meet the characterisation before any box is linked |
| PipelinesMerger.AllLinksEdges | app/helpers/ExerciseConfig/Compilation/PipelinesMerger.php:165-194 | for all inputs: after the first `i` boxes are linked, a node's child under `w` is the last consumer (from a producer before it) or the consumers reaching the last producer, and its parent the last producer when it consumes `w` at or before it, or, with line 189 corrected, when it is the last consumer |
| PipelinesMerger.AsWrittenOrphan | app/helpers/ExerciseConfig/Compilation/PipelinesMerger.php:189 | as written, read as a one-argument `addParent` that records nothing: a box whose consumed variables all have their producers earlier in the queue ends with no parent edge at all (see Findings and Left out) |
| PipelinesMerger.AsWrittenMergeFails | app/helpers/ExerciseConfig/Compilation/PipelinesMerger.php:88-94 | as written, under the same reading: when such a box is the output node `mergeTrees` matches, looking up its parent finds nothing and the merge fails (see Findings and Left out) |
| PipelinesMerger.EarlierProducerMissesConsumer | app/helpers/ExerciseConfig/Compilation/PipelinesMerger.php:172-189 | under either reading, a consumer of `v` placed after its producer that is not the last consumer of `v` gets no parent under `v`: one child per variable holds only the last consumer |
| PipelinesMerger.CorrectedLastConsumerLinked | app/helpers/ExerciseConfig/Compilation/PipelinesMerger.php:188-189 | with line 189 corrected and one producer per variable, the last producer and the last consumer of a variable are linked in both directions |
| PipelinesMerger.PairEdges | app/helpers/ExerciseConfig/Compilation/PipelinesMerger.php:165-194 | with line 189 corrected, the characterised parent and child edges are present in the linked edges |
| PipelinesMerger.LastPairAfter | app/helpers/ExerciseConfig/Compilation/PipelinesMerger.php:165-194 | the characterisation pairs the last producer with the last consumer of a variable |
| PipelinesMerger.ConsumerPrefix | app/helpers/ExerciseConfig/Compilation/PipelinesMerger.php:140-160 | the last consumer within a prefix of the queue is the overall last consumer once the prefix covers it |
| PipelinesMerger.LinkedPipeline | app/helpers/ExerciseConfig/Compilation/PipelinesMerger.php:132-194 | under the merger's assumption, fresh nodes linked with line 189 corrected satisfy the edge invariants, leave earlier nodes alone and, with unique names, meet the characterisation |
| PipelinesMerger.LinkInputPort | app/helpers/ExerciseConfig/Compilation/PipelinesMerger.php:167-178 | a port bound to `v` makes the producer of `v` a parent of the node under `v`, and the node its child, unless the producer is already in the tree |
| PipelinesMerger.LinkOutputPort | app/helpers/ExerciseConfig/Compilation/PipelinesMerger.php:179-190 | with line 189 corrected: a port bound to `v` makes the consumer of `v` a child of the node under `v`, and the node its parent, unless the consumer is already in the tree (see Left out) |
| PipelinesMerger.LinkNode | app/helpers/ExerciseConfig/Compilation/PipelinesMerger.php:166-190 | the node's input ports and then its output ports, in order, with line 189 corrected |
| PipelinesMerger.LinkAll | app/helpers/ExerciseConfig/Compilation/PipelinesMerger.php:165-194 | every node of the queue is linked, line 189 corrected, while exactly the earlier nodes are in the tree, and every new node ends marked in the tree |
| PipelinesMerger.AllLinksInv | app/helpers/ExerciseConfig/Compilation/PipelinesMerger.php:165-194 | with line 189 corrected, linking keeps edge names non-empty; with unique box names every edge joins a producer to a consumer, and with one producer per variable every child edge has its parent edge back; earlier pipelines' nodes are untouched |
| PipelinesMerger.NodesOf | app/helpers/ExerciseConfig/Compilation/PipelinesMerger.php:197-200 | the node of each box of one role, in order |
| PipelinesMerger.CollectNodes | app/helpers/ExerciseConfig/Compilation/PipelinesMerger.php:196-209 | the input, output and other node lists of the pipeline |
| PipelinesMerger.BuildPipelineTree | app/helpers/ExerciseConfig/Compilation/PipelinesMerger.php:127-213 | the new forest is the built state: one fresh node per box holding that box, edges as linked with line 189 corrected, every new node in the tree; earlier nodes' edges untouched; edges satisfy the invariants and, with unique names, are exactly those the edge characterisation gives; the tree is the classification of the boxes |
| PipelinesMerger.ClassifyInRange | app/helpers/ExerciseConfig/Compilation/PipelinesMerger.php:196-209 | the tree holds only the pipeline's own nodes |
| PipelinesMerger.NodesForRole | app/helpers/ExerciseConfig/Compilation/PipelinesMerger.php:197-209 | with unique box names, a box's node is among a role's nodes iff the box has that role |
| PipelinesMerger.ClassifyPartition | app/helpers/ExerciseConfig/Compilation/PipelinesMerger.php:196-209 | with unique box names the three sets partition the nodes: as many entries as boxes, and a box's node is an input iff data-in, an output iff data-out, and other otherwise |
| PipelinesMerger.OutIndexLastWins | app/helpers/ExerciseConfig/Compilation/PipelinesMerger.php:75-79 | the output index exists iff every output node has an input port; under each variable it holds the last output node with that variable and nothing else |
| PipelinesMerger.OutIndexFrom | app/helpers/ExerciseConfig/Compilation/PipelinesMerger.php:75-79 | every indexed node is an output node of the first tree |
| PipelinesMerger.IndexOutputs | app/helpers/ExerciseConfig/Compilation/PipelinesMerger.php:75-79 | the loop computes exactly that index |
| PipelinesMerger.OrphanStepFails | app/helpers/ExerciseConfig/Compilation/PipelinesMerger.php:88-94 | matching an output node without a parent makes the splice step fail, where the source calls a method on a missing parent |
| PipelinesMerger.OrphanMatchFails | app/helpers/ExerciseConfig/Compilation/PipelinesMerger.php:84-94 | when the first input node that matches names an output node without a parent, the whole merge fails |
| PipelinesMerger.UnmatchedPass | app/helpers/ExerciseConfig/Compilation/PipelinesMerger.php:105-108 | input nodes that match nothing are kept in order and change nothing else |
| PipelinesMerger.FailedStays | app/helpers/ExerciseConfig/Compilation/PipelinesMerger.php:84-109 | once the splice has failed, further input nodes leave it as it is |
| PipelinesMerger.JoinEffect | app/helpers/ExerciseConfig/Compilation/PipelinesMerger.php:93-101 | after a splice the previous node's child and the next node's parent under `v` are the join node; the join's only parent is the previous node and its only child the next node; the cut nodes are gone; no other node's edges change |
| PipelinesMerger.JoinNodes | app/helpers/ExerciseConfig/Compilation/PipelinesMerger.php:93-101 | one fresh box-less node, spliced by exactly those edge changes |
| PipelinesMerger.SpliceMatched | app/helpers/ExerciseConfig/Compilation/PipelinesMerger.php:88-104 | a matched input node is replaced by a join node and its variable leaves the index |
| PipelinesMerger.SpliceInput | app/helpers/ExerciseConfig/Compilation/PipelinesMerger.php:84-109 | one input node of the second tree is either matched and spliced, or kept |
| PipelinesMerger.SpliceInputs | app/helpers/ExerciseConfig/Compilation/PipelinesMerger.php:84-109 | the input nodes in order, stopping where the source would call a method on a missing node |
| PipelinesMerger.SpliceCounts | app/helpers/ExerciseConfig/Compilation/PipelinesMerger.php:104-108 | every input node is kept or replaced by exactly one join node; each index entry is consumed at most once; the joins are the consecutive fresh ids |
| PipelinesMerger.SpliceBoxes | app/helpers/ExerciseConfig/Compilation/PipelinesMerger.php:97 | join nodes carry no box and every other node keeps its box |
| PipelinesMerger.MergeSizes | app/helpers/ExerciseConfig/Compilation/PipelinesMerger.php:111-118 | the merged inputs, outputs and others are the first tree's plus the unmatched second inputs, the remaining first outputs plus the second outputs, and both trees' others plus one join per match |
| PipelinesMerger.MergeIntoEmpty | app/helpers/ExerciseConfig/Compilation/PipelinesMerger.php:111-118 | merging into an empty tree gives back the second tree and changes no edge |
| PipelinesMerger.MergeNodesAllocated | app/helpers/ExerciseConfig/Compilation/PipelinesMerger.php:111-118 | a merged tree of two trees of existing nodes holds only existing nodes |
| PipelinesMerger.MergeTrees | app/helpers/ExerciseConfig/Compilation/PipelinesMerger.php:72-120 | the forest and the result are those of the merge plan, whose properties are the rows above |
| PipelinesMerger.SetVariablesTables | app/helpers/ExerciseConfig/Compilation/PipelinesMerger.php:53-62 | every node of the tree gets the same three tables; no other node and no edge changes |
| PipelinesMerger.ProcessPipeline | app/helpers/ExerciseConfig/Compilation/PipelinesMerger.php:224-238 | the forest and result are the pipeline's tree built, every one of its nodes given the test's, environment's and pipeline's tables, and merged into the given tree; the result holds existing nodes, and merged into an empty tree it is the pipeline's own tree |
| PipelinesMerger.PipelineTables | app/helpers/ExerciseConfig/Compilation/PipelinesMerger.php:224-238 | processing a pipeline gives every node of its tree the three tables, allocates its nodes, and leaves the tables of every earlier node as they were |
| PipelinesMerger.MergeAllocated | app/helpers/ExerciseConfig/Compilation/PipelinesMerger.php:236 | merging trees of existing nodes keeps flags and tables and yields existing nodes; into an empty tree it yields the second tree |
| PipelinesMerger.ChosenPipelines | app/helpers/ExerciseConfig/Compilation/PipelinesMerger.php:251-255 | fails iff the environment is undefined (a call on null); otherwise the environment's pipelines, or the test's own when the environment lists none; no pipelines at all only when the test lists none |
| PipelinesMerger.FoldPipelinesNext | app/helpers/ExerciseConfig/Compilation/PipelinesMerger.php:259-268 | one step of the fold over a test's pipelines |
| PipelinesMerger.FoldSucceeded | app/helpers/ExerciseConfig/Compilation/PipelinesMerger.php:260-268 | a fold that succeeds up to pipeline `i` succeeded up to `i - 1`, the pipeline was found, and step `i` processes it into the tree so far |
| PipelinesMerger.FoldFailedStays | app/helpers/ExerciseConfig/Compilation/PipelinesMerger.php:263-267 | once a pipeline fails, the fold keeps that failure to the end |
| PipelinesMerger.FoldStepTables | app/helpers/ExerciseConfig/Compilation/PipelinesMerger.php:260-268 | processing pipeline `i` gives each of its nodes the test's variables for it, the environment's and that pipeline's own tables, and keeps every earlier node's tables |
| PipelinesMerger.FoldTables | app/helpers/ExerciseConfig/Compilation/PipelinesMerger.php:257-268 | after a successful fold, every node of every pipeline `k` holds the tables of pipeline `k`, whatever was merged after it |
| PipelinesMerger.ProcessPipelines | app/helpers/ExerciseConfig/Compilation/PipelinesMerger.php:259-268 | the loop over the chosen pipelines computes the fold |
| PipelinesMerger.ProcessNext | app/helpers/ExerciseConfig/Compilation/PipelinesMerger.php:260-268 | one iteration of that loop computes the next step of the fold |
| PipelinesMerger.TestResultShort | app/helpers/ExerciseConfig/Compilation/PipelinesMerger.php:247-270 | an undefined environment fails; no pipelines give an empty tree; a single pipeline gives its own tree |
| PipelinesMerger.ProcessTest | app/helpers/ExerciseConfig/Compilation/PipelinesMerger.php:247-270 | the forest and result are those of the left-to-right fold over the chosen pipelines, starting from an empty tree; success implies the choice succeeded, and the tree holds existing nodes |
| PipelinesMerger.PutTreesBelow | app/helpers/ExerciseConfig/Compilation/PipelinesMerger.php:285 | storing a tree of existing nodes keeps every stored tree one of existing nodes |
| PipelinesMerger.MergeFailedStays | app/helpers/ExerciseConfig/Compilation/PipelinesMerger.php:284-286 | once a test fails, the fold over the tests keeps that failure |
| PipelinesMerger.MergeChosen | app/helpers/ExerciseConfig/Compilation/PipelinesMerger.php:284-286 | a fold over the tests that succeeds had every test's pipeline choice succeed |
| PipelinesMerger.Merge | app/helpers/ExerciseConfig/Compilation/PipelinesMerger.php:280-289 | the forest and result are those of the fold over the tests, each test processed in turn; on success exactly one tree per test id, in the configuration's order, every test's pipeline choice succeeded, and every tree holds existing nodes |
| PipelinesMerger.MergeNext | app/helpers/ExerciseConfig/Compilation/PipelinesMerger.php:284-286 | one iteration of the loop over the tests computes the next step of the fold and keeps the keys in the tests' order and unique |
| ExerciseAssignments.MaxPoints | app/model/entity/ExerciseAssignment.php:91-99 | the maximum is one of the two configured maxima or 0 (each case is stated by the lemmas below) |
| ExerciseAssignments.MaxPointsWithoutTime | app/model/entity/ExerciseAssignment.php:92-93 | with no time, or a time before the first deadline, the points before the first deadline |
| ExerciseAssignments.MaxPointsBetween | app/model/entity/ExerciseAssignment.php:94-95 | from the first deadline until before the second, the points before the second deadline |
| ExerciseAssignments.MaxPointsFromSecondDeadline | app/model/entity/ExerciseAssignment.php:94-97 | at or after the second deadline, once the first has passed, 0: the second deadline's own moment already gives 0 |
| ExerciseAssignments.MaxPointsAfterDeadline | app/model/entity/ExerciseAssignment.php:96-97 | after the second of two ordered deadlines, 0 |
| ExerciseAssignments.MaxPointsNonIncreasing | app/model/entity/ExerciseAssignment.php:91-99 | with ordered deadlines and decreasing maxima, the maximum never grows with time |
| ExerciseAssignments.ValidSubmissions | app/model/entity/ExerciseAssignment.php:157-164 | exactly the user's submissions that have a results URL, never more than there are submissions |
| ExerciseAssignments.ReceivingEarlier | app/model/entity/ExerciseAssignment.php:77-79 | `canReceiveSubmissions` (lines 131-135) is monotone in time: receiving at a moment implies receiving at every earlier one, and after the deadline it receives nothing |
| ExerciseAssignments.SubmissionNeverReopens | app/model/entity/ExerciseAssignment.php:166-168 | one more submission adds one valid submission exactly when it is the user's and has a results URL, so a reached limit stays reached and receiving afterwards implies receiving before |
| ExerciseAssignments.UnevaluableDoesNotCount | app/model/entity/ExerciseAssignment.php:166-168 | a submission without a results URL changes neither the valid submissions nor whether the limit is reached |
| ExerciseAssignments.GetDescription | app/model/entity/ExerciseAssignment.php:106-117 | the first non-empty description along the chain of the assignment and its ancestors, or the last one when all are empty |
| ExerciseAssignments.EvaluatedOf | app/model/entity/ExerciseAssignment.php:177-179 | exactly the user's evaluated submissions |
| ExerciseAssignments.BestIndex | app/model/entity/ExerciseAssignment.php:181-193 | the fold's pick is one of the candidates seen |
| ExerciseAssignments.BestSolutionIsBest | app/model/entity/ExerciseAssignment.php:181-193 | the first candidate becomes best, and a later one replaces it iff it is "done" and has at least the best's points |
| ExerciseAssignments.GetBestSolution | app/model/entity/ExerciseAssignment.php:176-194 | an evaluated submission of the user, null iff there is none |
| ExerciseAssignments.BestSolutionDominates | app/model/entity/ExerciseAssignment.php:176-194 | no "done" evaluated submission of the user has more points than the best one |
| Submissions.AsWrittenAdmissionRules | app/model/entity/Submission.php:168-187 | as written: a non-student submitting for themselves without supervisor rights is refused; an invalid licence refuses everyone else; deadline and limit bind only non-supervisors |
| Submissions.AsWrittenAdmitsStranger | app/model/entity/Submission.php:168-172 | as written, a stranger may submit in a student's name (see Findings) |
| Submissions.AdmissionMeans | app/model/entity/Submission.php:166-187 | admitted iff the user is a student, the logged-in user is that student or a supervisor, the licence is valid, and a non-supervisor is before the deadline and under the limit |
| Submissions.AdmissionNarrowsAsWritten | app/model/entity/Submission.php:168-172 | the corrected guards admit nothing that the guards as written refuse |
| Submissions.StudentAdmittedIffReceiving | app/model/entity/Submission.php:166-187 | a student submitting for themselves is admitted iff the assignment can receive their submissions |
| Submissions.Submission.constructor | app/model/entity/Submission.php:190-199 | the entity holds the given note, assignment, user, time, hardware group, flag and files, with no results URL and no evaluation |
| Submissions.Submission.GetTotalPoints | app/model/entity/Submission.php:131-137 | the evaluation's points, 0 without an evaluation |
| Submissions.Submission.GetMaxPoints | app/model/entity/Submission.php:63-65 | the assignment's maximum at submission time, 0 after the second of ordered deadlines |
| Submissions.Submission.AsAttempt | app/model/entity/Submission.php:53-55 | the assignment queries see the user, whether there is an evaluation (`hasEvaluation`, lines 97-99), the points, and a results URL exactly when the submission can be evaluated |
| Submissions.Submission.SetEvaluation | app/model/entity/Submission.php:109-112 | stores the evaluation and marks the solution evaluated; nothing else changes |
| Submissions.MaxPointsAfterDeadlineAt | app/model/entity/ExerciseAssignment.php:96-97 | the maximum after the second of ordered deadlines is 0 |
| Submissions.CreateSubmission | app/model/entity/Submission.php:166-200 | as written: fails iff the guards as written refuse, with their first reason, so a stranger may submit in a student's name (see Findings); otherwise a fresh entity with the given data and no evaluation |
| Submissions.CorrectedCreateSubmission | app/model/entity/Submission.php:166-200 | with the identity check its comment describes: fails iff the corrected guards refuse, with their first reason; otherwise the same fresh entity |
| Submissions.Admit | app/model/entity/Submission.php:189-199 | a rejection becomes the failure; otherwise a fresh entity holding the given data and no evaluation |
| EmailLocalization.GetLocalization | app/helpers/Emails/EmailLocalizationHelper.php:30-48 | the first text in the requested locale; failing that the last in "en"; failing that the first text; null iff there are no texts |
| EmailLocalization.ReplaceAbsent | app/helpers/Emails/EmailLocalizationHelper.php:59 | a path without the placeholder is the same for every locale |
| EmailLocalization.ReplaceOnce | app/helpers/Emails/EmailLocalizationHelper.php:59 | a placeholder occurring once, its first character nowhere else, is replaced there and the text around it is kept |
| EmailLocalization.LocalePathOf | app/helpers/Emails/EmailLocalizationHelper.php:59 | a path with one "{locale}" and no other brace names the locale in its place |
| EmailLocalization.GetTemplate | app/helpers/Emails/EmailLocalizationHelper.php:58-70 | the locale's path if that file exists, else the "en" path if it exists, else InvalidStateException; any result is an existing file |
| EmailLocalization.UsersWith | app/helpers/Emails/EmailLocalizationHelper.php:86-93 | only users of the given language, from the users seen |
| EmailLocalization.GroupsAreByLanguage | app/helpers/Emails/EmailLocalizationHelper.php:86-93 | each language has one group holding exactly its users in order, and there are no empty groups |
| EmailLocalization.GroupKeys | app/helpers/Emails/EmailLocalizationHelper.php:86-93 | a group exists for a language iff some user prefers it |
| EmailLocalization.UsersWithPresent | app/helpers/Emails/EmailLocalizationHelper.php:86-93 | a language's group is non-empty iff some user has that language |
| EmailLocalization.GroupByLanguage | app/helpers/Emails/EmailLocalizationHelper.php:86-93 | the loop computes exactly that grouping |
| EmailLocalization.SendLocalizedEmail | app/helpers/Emails/EmailLocalizationHelper.php:84-105 | one call per group, in order, with the group's users, locale and template, made after earlier failures too; true iff every call returned true; a missing template stops with an error |
| Users.TrimLeft | app/model/entity/User.php:44 | strips exactly the leading trimmable characters |
| Users.TrimRight | app/model/entity/User.php:44 | strips exactly the trailing trimmable characters |
| Users.Trim | app/model/entity/User.php:44 | the result is a window of the input with only trimmable characters outside it, and neither of its ends is trimmable; a string whose ends are not trimmable is its own trim |
| Users.TrimWindow | app/model/entity/User.php:44 | stripping the leading and then the trailing trimmable characters leaves such a window |
| Users.WindowUnique | app/model/entity/User.php:44 | a string has only one window with trimmable surroundings and untrimmable ends |
| Users.TrimUnique | app/model/entity/User.php:44 | any window with trimmable surroundings and untrimmable ends is the trim, so the contract of Trim determines its result |
| Users.TrimIdempotent | app/model/entity/User.php:44 | trimming twice is trimming once |
| Users.User.CreateUser | app/model/entity/User.php:138-160 | the given names, email, role and avatar; unverified and allowed; no groups and no exercises |
| Users.User.GetName | app/model/entity/User.php:43-45 | the display name is the four parts joined by single spaces with only trimmable characters removed from both ends, and neither of its ends is trimmable; at most the four parts plus three separators long |
| Users.User.ToJson | app/model/entity/User.php:112-130 | "fullName" is the display name, and the flags, role and groups are the user's |
| Users.TrimSpaces | app/model/entity/User.php:44 | the blank name parts around a solid name are exactly what trimming removes |
| Users.NameWithoutDegrees | app/model/entity/User.php:43-45 | without degrees the name is "first last" |
| Users.NameWithDegrees | app/model/entity/User.php:43-45 | with all parts solid the name is the four parts joined by single spaces |
| AccessManager.FirstCatch | app/V1Module/security/AccessManager.php:66-76 | the outcome of the first catch clause whose class catches the exception, null iff none does |
| AccessManager.AsWrittenSignatureNeverForbidden | app/V1Module/security/AccessManager.php:66-76 | as written, an invalid signature is reported as an invalid token, never as forbidden (see Findings) |
| AccessManager.SignatureForbidden | app/V1Module/security/AccessManager.php:66-76 | with the clauses reordered, an invalid signature is forbidden and every other decoding error an invalid token |
| AccessManager.DecodeToken | app/V1Module/security/AccessManager.php:61-83 | as written: accepted iff decoding succeeds and the payload has a subject, carrying that payload; every failure, an invalid signature included, is an invalid token (see Findings) |
| AccessManager.CorrectedDecodeToken | app/V1Module/security/AccessManager.php:61-83 | with the catch clauses reordered: accepted iff decoding succeeds with a subject; an invalid signature is forbidden, other failures and a missing subject an invalid token |
| AccessManager.DecodeOrdersDiffer | app/V1Module/security/AccessManager.php:66-76 | the two orders accept the same tokens and differ exactly on a token with an invalid signature |
| AccessManager.GetUser | app/V1Module/security/AccessManager.php:89-96 | the token's user when it exists and is allowed, forbidden otherwise |
| AccessManager.IssueToken | app/V1Module/security/AccessManager.php:105-121 | iat = nbf = now, exp = now plus the given or configured lifetime, sub is the user, the scopes as given, issuer and audience from the configuration, and no further claims |
| AccessManager.IssueTokenWithPayload | app/V1Module/security/AccessManager.php:105-121 | the same claims, plus the further claims a caller passes |
| AccessManager.SplitOnSpace | app/V1Module/security/AccessManager.php:160 | splitting always gives at least one piece |
| AccessManager.SplitJoin | app/V1Module/security/AccessManager.php:160 | joining the pieces with spaces gives back the header |
| AccessManager.SplitBearer | app/V1Module/security/AccessManager.php:159-166 | "Bearer" plus a space-free token splits into exactly those two pieces |
| AccessManager.GetGivenAccessToken | app/V1Module/security/AccessManager.php:154-169 | the query value when present; else the second piece of a two-piece header whose first piece is "Bearer"; else null |
| AccessManager.BearerHeaderAccepted | app/V1Module/security/AccessManager.php:159-166 | a "Bearer" header with a space-free token yields that token |
| AccessManager.GetGivenAccessTokenOrThrow | app/V1Module/security/AccessManager.php:142-148 | NoAccessToken iff no token is found, the token otherwise |
| AccessManager.GetIdentity | app/V1Module/security/AccessManager.php:39-53 | an identity iff a token is found, decodes (as written) with a subject, and names an allowed user; it carries that user and the token |
| AccessManager.IssuedTokenIdentifies | app/V1Module/security/AccessManager.php:105-121 | a token issued for an allowed user, presented as the query value and decoded to the claims encoded, gives that user's identity with the issued scopes |
| ExternalServiceAuthenticators.ExternalServiceAuthenticator.constructor | app/helpers/ExternalLogin/ExternalServiceAuthenticator.php:73-81 | the registry loop computes the registry of the configuration entries |
| ExternalServiceAuthenticators.RegistryLookup | app/helpers/ExternalLogin/ExternalServiceAuthenticator.php:73-81 | a service is registered iff some entry with a non-empty name and secret names it; the last such entry wins, with algorithms ["HS256"] and lifetime 60 by default |
| ExternalServiceAuthenticators.HasAuthenticatorIffConfigured | app/helpers/ExternalLogin/ExternalServiceAuthenticator.php:89-92 | an authenticator built from the configuration has a service iff some entry with a non-empty name and secret names it |
| ExternalServiceAuthenticators.ExternalServiceAuthenticator.DecodeToken | app/helpers/ExternalLogin/ExternalServiceAuthenticator.php:154-174 | an unknown service is a bad request before any decoding; a rejected token, or one with an empty iat or iat + lifetime < now, is an invalid token |
| ExternalServiceAuthenticators.GetInstance | app/helpers/ExternalLogin/ExternalServiceAuthenticator.php:198-220 | the token's instance id overrides the argument; a given id names its instance or nothing; with no id, the sole instance if there is exactly one |
| ExternalServiceAuthenticators.TokenInstanceOverrides | app/helpers/ExternalLogin/ExternalServiceAuthenticator.php:202-204 | with an instance id in the token, the suggested instance is irrelevant |
| ExternalServiceAuthenticators.ExternalServiceAuthenticator.Authenticate | app/helpers/ExternalLogin/ExternalServiceAuthenticator.php:106-144 | decoding errors pass through; success needs decoded user data; email matching only without an external login; registration only without both; wrong credentials only when no instance is found |
| ExternalServiceAuthenticators.AuthenticateOrder | app/helpers/ExternalLogin/ExternalServiceAuthenticator.php:117-141 | with a valid token: the external login if known, else the email match, else registration in the chosen instance, else wrong credentials |
| EmailVerification.Configure | app/helpers/Emails/EmailVerificationHelper/EmailVerificationHelper.php:71-74 | each configured value, or the helper version's default; the token lifetime defaults to 600 seconds (the legacy helper's lines 63-66 likewise, with its own defaults) |
| EmailVerification.ConfigureDefaults | app/helpers/Emails/EmailVerificationHelper/EmailVerificationHelper.php:71-74 | with nothing configured, each helper runs on its fixed defaults |
| EmailVerification.Verify | app/helpers/Emails/EmailVerificationHelper/EmailVerificationHelper.php:107-111 | forbidden iff the token lacks the verification scope; the email claim is read only when the ids agree, and reading an absent claim fails with the AccessToken error; true iff scope, user and email claim all match (the legacy helper's lines 99-103 are identical) |
| EmailVerification.Subject | app/helpers/Emails/EmailVerificationHelper/EmailVerificationHelper.php:142-144 | the prefix followed by the email; in the legacy helper (its lines 130-132) with a space between them |
| EmailVerification.ShownExpiry | app/helpers/Emails/EmailVerificationHelper/EmailVerificationHelper.php:156-157 | the lifetime shown is the token's less 60 seconds; a lifetime under 60 seconds makes `DateInterval` throw, which is None (the legacy helper's lines 142-143 likewise) |
| EmailVerification.Fragment | app/helpers/EmailVerificationHelper/EmailVerificationHelper.php:149 | the text after the last "#" of a link: a suffix without "#" |
| EmailVerification.Link | app/helpers/EmailVerificationHelper/EmailVerificationHelper.php:149 | the legacy link is the redirect URL, then "#", then the token, and nothing else |
| EmailVerification.FragmentAfterHash | app/helpers/EmailVerificationHelper/EmailVerificationHelper.php:149 | whatever precedes the last "#", the fragment is the text after it |
| EmailVerification.LinkCarriesToken | app/helpers/EmailVerificationHelper/EmailVerificationHelper.php:149 | the link's fragment gives back a token without "#" |
| EmailVerification.AsWrittenProcessPayload | app/helpers/Emails/EmailVerificationHelper/EmailVerificationHelper.php:85-87 | as written, the issued claims lack the email claim (see Findings) |
| EmailVerification.AsWrittenTokenNeverVerifies | app/helpers/Emails/EmailVerificationHelper/EmailVerificationHelper.php:85-87 | as written, a token from `process` decodes and has the scope and user, but `verify` never answers true: it fails reading the absent email claim |
| EmailVerification.ProcessPayload | app/helpers/Emails/EmailVerificationHelper/EmailVerificationHelper.php:85-87 | the intended claims: the user, the verification scope, the configured lifetime and the user's email |
| EmailVerification.ProcessedTokenVerifies | app/helpers/Emails/EmailVerificationHelper/EmailVerificationHelper.php:101-111 | a token from the corrected `process` verifies for its user, and answers false once the email claim differs from the user's email |
| EmailVerification.ShownExpiryPrecedesToken | app/helpers/Emails/EmailVerificationHelper/EmailVerificationHelper.php:155-157 | whenever an expiry is shown, it is exactly 60 seconds before the issued token's expiry |

## Left out

- Presenters, repositories, the file-server proxy, CAS login and the exercise configuration compiler (the `Compiler` class that consumes the merged trees) are not part of this model. The Node, MergeTree, Box, Variable, VariablesTable, Test, Pipeline and Task classes are not part of this model either; they appear only through the interface the modelled code uses.
- JWT encoding and verification, Latte rendering, mail sending, Gravatar and YAML dumps are opaque foreign calls. Decoding is given as its outcome; `jwtDecode`, `userData`, `execute` and `avatarUrl` are parameters.
- `time()` and `new DateTime` are the parameter `now`. The "H:i" formatting of the shown expiry is not modelled.
- The Solution, SolutionEvaluation, AccessToken, TokenScope and EmailLinkHelper classes are not part of this model:
  - a solution evaluation is reduced to its total points;
  - the token scope constant's text is a placeholder;
  - reading a claim the token does not carry fails with an error of the AccessToken class; that error is the parameter `absentClaim`;
  - the current helper's link (built through EmailLinkHelper) is not modelled.
- Rendering and sending the verification email (`sendEmail`, `createBody`), beyond the subject, the legacy link and the shown expiry, are left out.
- FetchFilesBox.Compile, JavacCompilationBox.Compile: the Box base class is not part of this model. The model takes `getInputPortValue`/`getOutputPortValue` of a port without a value to return null, so that the next method call is an Error (`CallOnNull`); a base class that threw its own exception there would fail the same calls with a different error. ElfExecutionBox.Compile reads the value through `getVariableValue()` directly, which the source itself compares with null.
- PipelinesMerger.LinkOutputPort: models line 189 corrected (`addParent($varName, $node)`), and so do LinkNode, LinkAll, AllLinksInv, LinkedPipeline, BuiltState, BuildPipelineTree, ProcessPipeline, ProcessTest and Merge. Line 189 as written is modelled by the functions OutputStep and AllLinks with the reading `AsWritten`, and its consequences are stated by AsWrittenOrphan and AsWrittenMergeFails (see Findings).
- PipelinesMerger.OutputStep / AsWrittenOrphan / AsWrittenMergeFails: the reading `AsWritten` of line 189 assumes that a one-argument `addParent` records no parent. The Node class is not part of this model: if its `addParent` requires the node, PHP 7.1 and later throw `ArgumentCountError` at line 189 and `buildPipelineTree` returns no tree at all; if the node defaults to null, the consumer gets a null parent entry and `current()` at line 93 gives null rather than false. Under every one of the three, the build or the merge fails; only the reading that records nothing is modelled.
- PipelinesMerger.AllLinksEdges: a producer holds one child per variable, so of several consumers of a variable placed after its producer only the last is linked; the others get no parent under that variable (EarlierProducerMissesConsumer). The model keeps this behaviour of the source under both readings of line 189.
- Tree.Forest.RemoveChild, Tree.Forest.RemoveParent: drop every edge to the given node, whatever its variable. The Node class is not part of this model, so this reading of `removeChild` and `removeParent` is an assumption about it.
- PipelinesMerger.BuildPipelineTree: requires `Closed`: every bound variable has a producing and a consuming box. Without it the source indexes a missing array entry, as its own "no validations take place here" warns.
- PipelinesMerger.ProcessTest: receives the pipeline repository as a map of already-loaded pipelines (`repo`); loading them is repository I/O.
- PipelinesMerger.Merge: the merged tree of each test is stated as the fold (TestResult, FoldPipelines) over its pipelines; the node tables after the fold are stated by FoldTables, but the shape of a merged tree of several pipelines is stated only through the merge plan of each step.
- ExerciseAssignments.GetDescription: the chain of ancestor exercises is given flattened as a sequence.
- EmailLocalization.GetTemplate: the placeholder is replaced literally. This assumes locales contain no `$` or `\`, which `preg_replace` would interpret.
- Limits: the wall time is a `real` that is only compared with 0 and copied.
- EmailVerification.AsWrittenProcessPayload, EmailVerification.ProcessPayload: require a persisted user (an id). An unpersisted user's token would have no subject and is rejected when decoded.

## Findings

| source | as written | input that shows it | evidently intended | confidence | as-written member | corrected member |
|---|---|---|---|---|---|---|
| app/helpers/ExerciseConfig/Compilation/PipelinesMerger.php:189 | `addParent($varName)` passes no node, so a producer's output step never gives the consumer a usable parent | a pipeline whose box 0 produces `v` and whose box 1 consumes `v` and nothing else, followed by a pipeline whose input matches node 1: either the call at line 189 throws for the missing argument and the build fails, or node 1 is left without a producer as its parent, `current()` of its parents is not a node, and line 93 calls `removeChild` on it, so the merge fails | `addParent($varName, $node)`, so that the last consumer is linked back to its producer | not executed; high | PipelinesMerger.AsWrittenMergeFails | PipelinesMerger.CorrectedLastConsumerLinked |
| app/model/entity/Submission.php:168-172 | rejects only a non-student submitting for themselves without supervisor rights | student "student", logged-in "stranger" (neither that student nor a supervisor), valid licence, before the deadline: admitted | reject unless the user is a student and the logged-in user is that student or a supervisor, as the comment above the check says | not executed; high | Submissions.CreateSubmission | Submissions.CorrectedCreateSubmission |
| app/V1Module/security/AccessManager.php:66-76 | the UnexpectedValueException clause precedes the SignatureInvalidException clause, and php-jwt's signature exception extends it | a token with an invalid signature: reported as an invalid token | an invalid signature is forbidden | not executed; medium (php-jwt's class hierarchy is not part of this model) | AccessManager.DecodeToken | AccessManager.CorrectedDecodeToken |
| app/helpers/Emails/EmailVerificationHelper/EmailVerificationHelper.php:85-87 | passes the email claim as a fourth argument to `issueToken`, which takes three (AccessManager.php:105), so PHP drops it | any persisted user: the token from `process` decodes and has the scope and user, but `verify` never answers true; reading the missing claim fails | the token carries the user's email, so that `verify` accepts it | not executed; medium (the AccessToken class, whose claim lookup decides the exact failure, is not part of this model) | EmailVerification.AsWrittenTokenNeverVerifies | EmailVerification.ProcessedTokenVerifies |

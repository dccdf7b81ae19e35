# Asakusa compiler core, modelled in Dafny

This project models ten small, sequential pieces of the Asakusa on Hadoop DSL
compiler (asakusafw-compiler). It proves what each piece promises. Each core Java
file is one Dafny module. Reflection, class loading, the file system and the
compiler tooling are replaced by abstract inputs: records, predicates and functions
given as parameters.

- `Operators` (operator.dfy) is the operator model `Operator`. It is a class over an
  ordered `seq` of properties (input ports, output ports and arguments) plus a
  constraint set. It has the order-preserving kind views (`getInputs`, `getOutputs`,
  `getArguments`), the first-match lookups (`findInput` and the rest), attribute
  copying onto a fresh operator, and `disconnectAll`. The builder methods append
  properties and connect ports. Port connections are an abstract edge list kept by
  a `Wiring` object.
- `Locations` (location.dfy) is the resource path `Location`, a parent-linked chain
  of names. It covers parsing a path string (empty segments dropped), joining it
  again, the two `append` forms, the prefix test, `count` and structural equality.
  The loop methods are proved against the segment sequence of a location.
- `MasterJoin` (master_join.dfy) holds `MasterJoinOperatorUtil`. `isSupported` tests
  the four master-join annotation types. `getSelection` is the cascade of failures,
  then the "no selection" answer, then the first annotated method of the given name.
- `CharacterizerAdapter` (characterizer_adapter.dfy) holds
  `OperatorCharacterizerAdapter`: the three `estimate` overloads, and how a single
  estimate relates to a batch estimate.
- `JobflowCompiler` (jobflow_compiler.dfy) holds `BasicJobflowCompiler.compile`. It
  is a method that returns the trace of stages it ran: before-hook, operator-graph
  processor, the optional external-port processor, after-hook. It also returns the
  exception that stopped it, if any. I/O failures become error diagnostics.
- `SerializableValue` (serializable_value.dfy) holds `SerializableValueDescription`.
  It covers the defensive copy of the serialized bytes and byte-wise `equals`. It
  also covers the array class-name resolution of its object input stream, where a
  name like `[[Lcom/example/Foo;` is a field descriptor in the sense of section 4.3.2
  of the Java Virtual Machine Specification.
- `Annotations` (annotation_description.dfy) holds `AnnotationDescription`. Its
  element map is an insertion-ordered list of entries. The module covers `of`
  (element methods filtered and invoked), `resolve` (every element resolved, same
  keys) and the proxy's `ElementHandler.invoke` dispatch.
- `ExternalIo` (external_io.dfy) holds `AbstractExternalIoProcessor`: the data-size
  mapping, supported types over an abstract assignability relation, and the
  pass-through construction of input and output information and references.
- `JavaCompilerUtil` (java_compiler_util.dfy) covers the class-loader chain walk,
  which stops at the system loader unless extension libraries are wanted. It emits
  library files root-first, keeping `file:` URLs only and, among regular files, only
  names matching `.+\.(zip|jar)`.
- `BatchCompilerCli` (batch_compiler_cli.dfy) covers option values, where an empty
  value counts as absent and a missing required option is an error. It covers
  splitting, trimming and dropping empty segments of class and file lists, and the
  include and exclude class patterns. It also covers the per-batch loop, with or
  without fail-fast, the exit code, and the `Configuration` defaults
  (`DefaultConfiguration`).
- `Common` (common.dfy) holds the shared results, exceptions and diagnostics. It also
  holds the Java string operations the sources rely on. `String.split` with a
  literal separator drops trailing empty fields. `String.trim` removes characters up
  to U+0020.

Source paths below are relative to the repository root.

## Model

| member | source | states |
|---|---|---|
| Operators.OperatorPort.Input | modules/asakusa-compiler-model/src/main/java/com/asakusafw/lang/compiler/model/graph/Operator.java:251-253 | the named constructor `new OperatorInput(owner, name, dataType, group)`: an input port that belongs to its owner and carries the given name, data type and group |
| Operators.OperatorPort.Output | modules/asakusa-compiler-model/src/main/java/com/asakusafw/lang/compiler/model/graph/Operator.java:292-295 | the named constructor `new OperatorOutput(owner, name, dataType)`: an output port that belongs to its owner, carries the given name and data type, and has no group |
| Operators.Detach | modules/asakusa-compiler-model/src/main/java/com/asakusafw/lang/compiler/model/graph/Operator.java:72-77 | no remaining edge touches any of the given ports |
| Operators.DetachMembers | modules/asakusa-compiler-model/src/main/java/com/asakusafw/lang/compiler/model/graph/Operator.java:72-77 | an edge survives disconnection exactly when it was there and touches none of the ports |
| Operators.DetachTwice | modules/asakusa-compiler-model/src/main/java/com/asakusafw/lang/compiler/model/graph/Operator.java:72-77 | disconnecting the ports one after another is the same as disconnecting them together |
| Operators.DetachNothing | modules/asakusa-compiler-model/src/main/java/com/asakusafw/lang/compiler/model/graph/Operator.java:72-77 | an operator without ports leaves every edge in place |
| Operators.Wiring.constructor | modules/asakusa-compiler-model/src/main/java/com/asakusafw/lang/compiler/model/graph/Operator.java:28-34 | a new graph has no connections |
| Operators.Wiring.DisconnectPort | modules/asakusa-compiler-model/src/main/java/com/asakusafw/lang/compiler/model/graph/Operator.java:72-77 | exactly the edges touching the port are removed, the rest keep their order |
| Operators.Wiring.Connect | modules/asakusa-compiler-model/src/main/java/com/asakusafw/lang/compiler/model/graph/Operator.java:254-256 | exactly one edge from upstream to downstream is added, after the existing ones |
| Operators.Connections | modules/asakusa-compiler-model/src/main/java/com/asakusafw/lang/compiler/model/graph/Operator.java:279-284 | one edge per upstream, in the order given, all into the new port |
| Operators.Operator.constructor | modules/asakusa-compiler-model/src/main/java/com/asakusafw/lang/compiler/model/graph/Operator.java:18-20 | a new operator has no properties and no constraints |
| Operators.Operator.CopyAttributesTo | modules/asakusa-compiler-model/src/main/java/com/asakusafw/lang/compiler/model/graph/Operator.java:42-66 | the copy's earlier properties are kept; then comes one copy of each source property, in order, with the same kind, name, data type, group or value; every copied port is a new port owned by the copy, with no connection; the constraints become the union |
| Operators.Operator.DisconnectAll | modules/asakusa-compiler-model/src/main/java/com/asakusafw/lang/compiler/model/graph/Operator.java:72-77 | every edge touching one of the operator's ports is gone, all others stay, and the operator itself is unchanged |
| Operators.Operator.GetPorts | modules/asakusa-compiler-model/src/main/java/com/asakusafw/lang/compiler/model/graph/Operator.java:72-77 | the operator's ports in property order; for a valid operator, every one of them is owned by it |
| Operators.PortsOwned | modules/asakusa-compiler-model/src/main/java/com/asakusafw/lang/compiler/model/graph/Operator.java:251-258 | when every port in a property list belongs to an operator, as the builders that create ports with `owner` ensure, every port of the list's port view belongs to it |
| Operators.Operator.GetProperties | modules/asakusa-compiler-model/src/main/java/com/asakusafw/lang/compiler/model/graph/Operator.java:155-163 | the order-preserving sub-sequence of properties of one kind |
| Operators.Operator.GetInputs | modules/asakusa-compiler-model/src/main/java/com/asakusafw/lang/compiler/model/graph/Operator.java:91-93 | the inputs, as that sub-sequence |
| Operators.Operator.GetOutputs | modules/asakusa-compiler-model/src/main/java/com/asakusafw/lang/compiler/model/graph/Operator.java:99-101 | the outputs, as that sub-sequence |
| Operators.Operator.GetArguments | modules/asakusa-compiler-model/src/main/java/com/asakusafw/lang/compiler/model/graph/Operator.java:107-109 | the arguments, as that sub-sequence |
| Operators.Operator.FindProperty | modules/asakusa-compiler-model/src/main/java/com/asakusafw/lang/compiler/model/graph/Operator.java:146-153 | none exactly when no property has both the kind and the name; otherwise the first such property in list order |
| Operators.Operator.FindInput | modules/asakusa-compiler-model/src/main/java/com/asakusafw/lang/compiler/model/graph/Operator.java:124-126 | the first input of that name, or none when there is none; a same-named property of another kind is skipped |
| Operators.Operator.FindOutput | modules/asakusa-compiler-model/src/main/java/com/asakusafw/lang/compiler/model/graph/Operator.java:133-135 | the same for outputs |
| Operators.Operator.FindArgument | modules/asakusa-compiler-model/src/main/java/com/asakusafw/lang/compiler/model/graph/Operator.java:142-144 | the same for arguments |
| Operators.Builder.constructor | modules/asakusa-compiler-model/src/main/java/com/asakusafw/lang/compiler/model/graph/Operator.java:214-216 | the builder works on the given operator |
| Operators.Builder.Build | modules/asakusa-compiler-model/src/main/java/com/asakusafw/lang/compiler/model/graph/Operator.java:228-230 | returns that operator |
| Operators.Builder.Input | modules/asakusa-compiler-model/src/main/java/com/asakusafw/lang/compiler/model/graph/Operator.java:251-258 | appends exactly one new input port, leaves earlier properties and constraints alone, and connects it to each upstream in order |
| Operators.Builder.InputWithType | modules/asakusa-compiler-model/src/main/java/com/asakusafw/lang/compiler/model/graph/Operator.java:239-241 | the same with no group |
| Operators.Builder.InputFrom | modules/asakusa-compiler-model/src/main/java/com/asakusafw/lang/compiler/model/graph/Operator.java:279-284 | the new input takes its data type from the mandatory upstream, which is connected first, then each further upstream in order |
| Operators.Builder.Output | modules/asakusa-compiler-model/src/main/java/com/asakusafw/lang/compiler/model/graph/Operator.java:292-295 | appends exactly one new output port of that name and data type, owned by the operator and without group, and changes nothing else |
| Operators.Builder.Argument | modules/asakusa-compiler-model/src/main/java/com/asakusafw/lang/compiler/model/graph/Operator.java:303-306 | appends exactly one argument and changes nothing else |
| Operators.Builder.Constraint | modules/asakusa-compiler-model/src/main/java/com/asakusafw/lang/compiler/model/graph/Operator.java:313-326 | adds the given constraints to the set and leaves the properties alone |
| Operators.OfKindConcat | modules/asakusa-compiler-model/src/main/java/com/asakusafw/lang/compiler/model/graph/Operator.java:155-163 | the view of a concatenation is the concatenation of the views |
| Operators.OfKindMembers | modules/asakusa-compiler-model/src/main/java/com/asakusafw/lang/compiler/model/graph/Operator.java:155-163 | a property is in a view exactly when it is in the list and has that kind |
| Operators.OfKindPartition | modules/asakusa-compiler-model/src/main/java/com/asakusafw/lang/compiler/model/graph/Operator.java:91-109 | the input, output and argument views together partition the property list, counting repetitions |
| Operators.AppendExtendsView | modules/asakusa-compiler-model/src/main/java/com/asakusafw/lang/compiler/model/graph/Operator.java:251-258 | appending a property extends its own kind's view by it and leaves the other views unchanged |
| Operators.CopyViewsAlign | modules/asakusa-compiler-model/src/main/java/com/asakusafw/lang/compiler/model/graph/Operator.java:42-63 | after copying, each kind view of the copy matches the source's view element by element |
| Operators.FreshPortUnconnected | modules/asakusa-compiler-model/src/main/java/com/asakusafw/lang/compiler/model/graph/Operator.java:28-34 | a newly allocated port appears on no existing edge |
| Locations.Location.Parent | modules/asakusa-compiler-model/src/main/java/com/asakusafw/lang/compiler/model/Location.java:49-51 | a location has no parent exactly when it is a root; otherwise the parent's segments, followed by this location's name, are this location's segments |
| Locations.Segments | modules/asakusa-compiler-model/src/main/java/com/asakusafw/lang/compiler/model/Location.java:40-43 | every location has at least one segment, and the last is its own name |
| Locations.FromSegments | modules/asakusa-compiler-model/src/main/java/com/asakusafw/lang/compiler/model/Location.java:40-43 | builds the location with exactly the given segments; it is a root exactly when there is one segment |
| Locations.SegmentsInjective | modules/asakusa-compiler-model/src/main/java/com/asakusafw/lang/compiler/model/Location.java:194-218 | two locations with the same segments are the same location |
| Locations.FromSegmentsOfSegments | modules/asakusa-compiler-model/src/main/java/com/asakusafw/lang/compiler/model/Location.java:40-43 | rebuilding a location from its segments gives it back |
| Locations.Path | modules/asakusa-compiler-model/src/main/java/com/asakusafw/lang/compiler/model/Location.java:133-147 | the joined path; when no segment holds the separator, splitting it gives back exactly the segments |
| Locations.Parse | modules/asakusa-compiler-model/src/main/java/com/asakusafw/lang/compiler/model/Location.java:105-118 | no location exactly when the string has no non-empty field; otherwise the location whose segments are the non-empty fields, in order (trailing empty fields dropped by `split` make no difference) |
| Locations.AppendName | modules/asakusa-compiler-model/src/main/java/com/asakusafw/lang/compiler/model/Location.java:66-68 | the result's parent is this location, its name is the given one, and its segments gain that one name |
| Locations.CollectSegments | modules/asakusa-compiler-model/src/main/java/com/asakusafw/lang/compiler/model/Location.java:133-139 | the walk along parent links collects the segments root-first |
| Locations.Append | modules/asakusa-compiler-model/src/main/java/com/asakusafw/lang/compiler/model/Location.java:75-87 | the segments of the result are this location's, then the suffix's |
| Locations.Of | modules/asakusa-compiler-model/src/main/java/com/asakusafw/lang/compiler/model/Location.java:105-118 | fails with IllegalArgumentException exactly when the string has no non-empty segment; otherwise the location of those segments in order |
| Locations.OfDefault | modules/asakusa-compiler-model/src/main/java/com/asakusafw/lang/compiler/model/Location.java:95-97 | the same with `/` as separator, again failing with IllegalArgumentException |
| Locations.ToPath | modules/asakusa-compiler-model/src/main/java/com/asakusafw/lang/compiler/model/Location.java:124-147 | the segments root-first, joined with the separator |
| Locations.Count | modules/asakusa-compiler-model/src/main/java/com/asakusafw/lang/compiler/model/Location.java:171-179 | the number of segments, which is at least one |
| Locations.Equals | modules/asakusa-compiler-model/src/main/java/com/asakusafw/lang/compiler/model/Location.java:194-218 | true exactly when the segment sequences are equal, which is exactly structural equality |
| Locations.SegmentsToEquality | modules/asakusa-compiler-model/src/test/java/com/asakusafw/lang/compiler/model/LocationTest.java:75-79 | equal segments and equal locations coincide, whichever way a location was built |
| Locations.OptionChains | modules/asakusa-compiler-model/src/main/java/com/asakusafw/lang/compiler/model/Location.java:207-217 | when one of two parents is missing, they are equal exactly when their chains are |
| Locations.IsPrefixOf | modules/asakusa-compiler-model/src/main/java/com/asakusafw/lang/compiler/model/Location.java:155-169 | fails with IllegalArgumentException exactly on a missing argument; otherwise true exactly when the segments are a prefix of, or equal to, the other's |
| Locations.CountAfterAppend | modules/asakusa-compiler-model/src/main/java/com/asakusafw/lang/compiler/model/Location.java:66-87 | `count` after `append(name)` is one more than before, and after `append(suffix)` it is the sum of both counts |
| Locations.SplitJoin | modules/asakusa-compiler-model/src/main/java/com/asakusafw/lang/compiler/model/Location.java:105-147 | splitting a join of separator-free segments gives the segments back |
| Locations.RoundTrip | modules/asakusa-compiler-model/src/test/java/com/asakusafw/lang/compiler/model/LocationTest.java:38-42 | a location whose segments are non-empty and separator-free is parsed back from its path |
| Locations.ParseWellFormed | modules/asakusa-compiler-model/src/main/java/com/asakusafw/lang/compiler/model/Location.java:105-118 | every parsed location has non-empty, separator-free segments, so the round trip applies to it |
| Locations.ChangeSeparator | modules/asakusa-compiler-model/src/test/java/com/asakusafw/lang/compiler/model/LocationTest.java:38-42 | joining with another separator only rewrites the separators |
| Locations.PathHasNoOuterSeparator | modules/asakusa-compiler-model/src/test/java/com/asakusafw/lang/compiler/model/LocationTest.java:27-33 | the path of a well-formed location neither starts nor ends with the separator |
| Locations.PrefixOfAppend | modules/asakusa-compiler-model/src/test/java/com/asakusafw/lang/compiler/model/LocationTest.java:47-73 | `l.isPrefixOf(l.append(suffix))` is true and `l.append(suffix).isPrefixOf(l)` is false, computed by the `append` and `isPrefixOf` methods themselves |
| MasterJoin.IsSupportedIff | compiler-project/analyzer/src/main/java/com/asakusafw/lang/compiler/analyzer/util/MasterJoinOperatorUtil.java:41-67 | supported exactly when the operator is a user operator whose annotation is one of the four master-join types; never for another kind |
| MasterJoin.IsSupported | compiler-project/analyzer/src/main/java/com/asakusafw/lang/compiler/analyzer/util/MasterJoinOperatorUtil.java:60-67 | the `isSupported` test itself (a predicate without a contract); what it decides is stated by `MasterJoin.IsSupportedIff` |
| MasterJoin.SimpleName | compiler-project/analyzer/src/main/java/com/asakusafw/lang/compiler/analyzer/util/MasterJoinOperatorUtil.java:41-49 | the dot-free tail of a class name after its last dot, or the whole name when there is no dot |
| MasterJoin.FirstSelection | compiler-project/analyzer/src/main/java/com/asakusafw/lang/compiler/analyzer/util/MasterJoinOperatorUtil.java:108-117 | none exactly when no method has that name and `@MasterSelection`; otherwise the first such index, skipping same-named unannotated methods |
| MasterJoin.GetSelection | compiler-project/analyzer/src/main/java/com/asakusafw/lang/compiler/analyzer/util/MasterJoinOperatorUtil.java:78-123 | IllegalArgumentException for an unsupported operator; IllegalStateException for a missing or non-string element; no selection for the sentinel; otherwise the first annotated method of that name, or NoSuchMethodException |
| CharacterizerAdapter.EstimateAll | compiler-project/optimizer/src/main/java/com/asakusafw/lang/compiler/optimizer/adapter/OperatorCharacterizerAdapter.java:64-67 | `estimate(Collection)` (a function without a contract): the adapter's estimator applied in the delegate context to the operators, in order; `CharacterizerAdapter.EstimateEach`, `CharacterizerAdapter.EstimateOne` and `CharacterizerAdapter.SeparableConsistent` are stated in terms of it |
| CharacterizerAdapter.EstimateEach | compiler-project/optimizer/src/main/java/com/asakusafw/lang/compiler/optimizer/adapter/OperatorCharacterizerAdapter.java:59-62 | the variadic estimate equals the estimate of the list |
| CharacterizerAdapter.EstimateOne | compiler-project/optimizer/src/main/java/com/asakusafw/lang/compiler/optimizer/adapter/OperatorCharacterizerAdapter.java:52-57 | the single estimate is the singleton batch estimate, looked up at the operator, and that lookup exists |
| CharacterizerAdapter.SeparableConsistent | compiler-project/optimizer/src/main/java/com/asakusafw/lang/compiler/optimizer/adapter/OperatorCharacterizerAdapter.java:36-67 | for an estimator that treats operators separately, a batch estimate agrees with the single estimate of each of its operators |
| JobflowCompiler.Converted | modules/asakusa-compiler-core/src/main/java/com/asakusafw/lang/compiler/core/basic/BasicJobflowCompiler.java:36-62 | a processor's I/O failure becomes an ERROR diagnostic with the stage's message; other exceptions pass unchanged; success throws nothing |
| JobflowCompiler.Planned | modules/asakusa-compiler-core/src/main/java/com/asakusafw/lang/compiler/core/basic/BasicJobflowCompiler.java:28-34 | the stages start with the before-hook, end with the after-hook, and include the external-port stage exactly when there are external ports |
| JobflowCompiler.RunOperatorGraphProcessor | modules/asakusa-compiler-core/src/main/java/com/asakusafw/lang/compiler/core/basic/BasicJobflowCompiler.java:36-46 | throws exactly that stage's converted failure |
| JobflowCompiler.RunExternalPortProcessor | modules/asakusa-compiler-core/src/main/java/com/asakusafw/lang/compiler/core/basic/BasicJobflowCompiler.java:48-62 | runs exactly when there are external ports, and throws only then |
| JobflowCompiler.Compile | modules/asakusa-compiler-core/src/main/java/com/asakusafw/lang/compiler/core/basic/BasicJobflowCompiler.java:28-72 | the trace is a non-empty prefix of the planned stages; every stage but the last succeeded; the last one's failure is what is thrown; with no failure, all stages ran |
| JobflowCompiler.RunStart | modules/asakusa-compiler-core/src/main/java/com/asakusafw/lang/compiler/core/basic/BasicJobflowCompiler.java:64-67 | a failing before-hook stops the run; otherwise the operator-graph processor runs next |
| JobflowCompiler.OperatorGraphOnce | modules/asakusa-compiler-core/src/main/java/com/asakusafw/lang/compiler/core/basic/BasicJobflowCompiler.java:36-40 | the operator-graph processor runs exactly once, as the second stage, unless the before-hook failed |
| JobflowCompiler.AfterRunsLast | modules/asakusa-compiler-core/src/main/java/com/asakusafw/lang/compiler/core/basic/BasicJobflowCompiler.java:69-72 | the after-hook runs exactly when every earlier stage succeeded |
| JobflowCompiler.CompileLaws | modules/asakusa-compiler-core/src/main/java/com/asakusafw/lang/compiler/core/basic/BasicJobflowCompiler.java:29-61 | the operator graph runs once, the external-port processor never runs without external ports, the after-hook runs exactly when nothing failed, and an I/O failure of the operator graph becomes an ERROR diagnostic |
| SerializableValue.WrapDimensions | modules/asakusa-compiler-model/src/main/java/com/asakusafw/lang/compiler/model/description/SerializableValueDescription.java:164-169 | wrapping adds exactly that many array levels |
| SerializableValue.LeadingBrackets | modules/asakusa-compiler-model/src/main/java/com/asakusafw/lang/compiler/model/description/SerializableValueDescription.java:147-155 | the number of leading `[`: all of them are brackets and the next character is not |
| SerializableValue.DescriptorResolution | modules/asakusa-compiler-model/src/main/java/com/asakusafw/lang/compiler/model/description/SerializableValueDescription.java:145-170 | a loaded class has exactly as many array levels as the name has leading `[`; a class is reported missing only when the loader does not know it; a fallback keeps the name as given |
| SerializableValue.ResolveClassDesc | modules/asakusa-compiler-model/src/main/java/com/asakusafw/lang/compiler/model/description/SerializableValueDescription.java:145-170 | counts the leading brackets, falls back unless the `L…;` shape follows, and otherwise loads the element class named between `L` and `;` with `/` turned into `.`, wrapped in exactly one array level per bracket |
| SerializableValue.LeadingBracketsOfPrefix | modules/asakusa-compiler-model/src/main/java/com/asakusafw/lang/compiler/model/description/SerializableValueDescription.java:147-155 | a run of brackets that ends at the end or at another character is the bracket count |
| SerializableValue.ResolveClass | modules/asakusa-compiler-model/src/main/java/com/asakusafw/lang/compiler/model/description/SerializableValueDescription.java:130-143 | array names are resolved as descriptors; other names are loaded directly, with the default resolution when the loader does not know them |
| SerializableValue.Repeat | modules/asakusa-compiler-model/src/main/java/com/asakusafw/lang/compiler/model/description/SerializableValueDescription.java:147-155 | a run of one character of the given length |
| SerializableValue.ResolveArrayName | modules/asakusa-compiler-model/src/main/java/com/asakusafw/lang/compiler/model/description/SerializableValueDescription.java:164-169 | the array name of a loadable class resolves to that class in exactly that many array levels, with `.` or `/` between packages |
| SerializableValue.ReplaceBack | modules/asakusa-compiler-model/src/main/java/com/asakusafw/lang/compiler/model/description/SerializableValueDescription.java:164-166 | turning `.` into `/` and back restores a name without `/` |
| SerializableValue.ResolveArrayNameOf | modules/asakusa-compiler-model/src/main/java/com/asakusafw/lang/compiler/model/description/SerializableValueDescription.java:157-169 | the element name of an array name is the text between its `L` and its `;` |
| SerializableValue.PrimitiveArraysFallBack | modules/asakusa-compiler-model/src/main/java/com/asakusafw/lang/compiler/model/description/SerializableValueDescription.java:157-163 | primitive arrays, and names made only of `[`, fall back to the default resolution |
| SerializableValue.ElementBounds | modules/asakusa-compiler-model/src/main/java/com/asakusafw/lang/compiler/model/description/SerializableValueDescription.java:164-166 | whenever the element name is taken, its bounds are in order |
| SerializableValue.SerializableValueDescription.constructor | modules/asakusa-compiler-model/src/main/java/com/asakusafw/lang/compiler/model/description/SerializableValueDescription.java:28-31 | stores the value type and the given byte array itself |
| SerializableValue.SerializableValueDescription.GetSerialized | modules/asakusa-compiler-model/src/main/java/com/asakusafw/lang/compiler/model/description/SerializableValueDescription.java:68-70 | a new array holding the stored bytes, so changing it cannot change them |
| SerializableValue.EqualsIsEquivalence | modules/asakusa-compiler-model/src/main/java/com/asakusafw/lang/compiler/model/description/SerializableValueDescription.java:93-112 | `equals` holds exactly when the value types and the bytes are equal; it is reflexive, symmetric and transitive, and false for null |
| SerializableValue.SerializableValueDescription.Equals | modules/asakusa-compiler-model/src/main/java/com/asakusafw/lang/compiler/model/description/SerializableValueDescription.java:93-112 | `equals` itself (a predicate without a contract); `SerializableValue.EqualsIsEquivalence` states that it holds exactly for equal value types and bytes and is an equivalence |
| Annotations.Keys | modules/asakusa-compiler-model/src/main/java/com/asakusafw/lang/compiler/model/description/AnnotationDescription.java:28-33 | the keys of the map in insertion order |
| Annotations.Lookup | modules/asakusa-compiler-model/src/main/java/com/asakusafw/lang/compiler/model/description/AnnotationDescription.java:28-33 | a key has a value exactly when it is one of the keys |
| Annotations.Update | modules/asakusa-compiler-model/src/main/java/com/asakusafw/lang/compiler/model/description/AnnotationDescription.java:61 | replacing a value keeps the keys and their order, gives the key the new value, and leaves other keys alone |
| Annotations.Put | modules/asakusa-compiler-model/src/main/java/com/asakusafw/lang/compiler/model/description/AnnotationDescription.java:61 | `put` adds a new key at the end and keeps an existing key in place; the key then has the new value and other keys are unaffected |
| Annotations.PutKeepsDistinct | modules/asakusa-compiler-model/src/main/java/com/asakusafw/lang/compiler/model/description/AnnotationDescription.java:48-61 | `put` never duplicates a key |
| Annotations.Create | modules/asakusa-compiler-model/src/main/java/com/asakusafw/lang/compiler/model/description/AnnotationDescription.java:28-33 | the description has the same type, the same keys in the same order, and the same value for every key as the given map |
| Annotations.Of | modules/asakusa-compiler-model/src/main/java/com/asakusafw/lang/compiler/model/description/AnnotationDescription.java:40-69 | IllegalArgumentException for a non-annotation type or a failed element call; otherwise the map of the element methods' values |
| Annotations.CollectFailureSticks | modules/asakusa-compiler-model/src/main/java/com/asakusafw/lang/compiler/model/description/AnnotationDescription.java:60-68 | once an element method fails, the whole analysis fails |
| Annotations.LastValue | modules/asakusa-compiler-model/src/main/java/com/asakusafw/lang/compiler/model/description/AnnotationDescription.java:49-61 | no value for a name no element method has; otherwise the value of the last element method of that name |
| Annotations.CollectLookup | modules/asakusa-compiler-model/src/main/java/com/asakusafw/lang/compiler/model/description/AnnotationDescription.java:49-61 | the collected map maps each name to the value of its last element method, and nothing else |
| Annotations.CollectDistinct | modules/asakusa-compiler-model/src/main/java/com/asakusafw/lang/compiler/model/description/AnnotationDescription.java:49-61 | the collected map has no duplicate key |
| Annotations.CollectKeys | modules/asakusa-compiler-model/src/main/java/com/asakusafw/lang/compiler/model/description/AnnotationDescription.java:49-61 | a name is a key exactly when an instance, own, non-synthetic, parameterless method has it |
| Annotations.CollectPrefix | modules/asakusa-compiler-model/src/main/java/com/asakusafw/lang/compiler/model/description/AnnotationDescription.java:49-68 | if the whole analysis succeeds, so does the analysis of every prefix of the methods |
| Annotations.CollectInvokes | modules/asakusa-compiler-model/src/main/java/com/asakusafw/lang/compiler/model/description/AnnotationDescription.java:60-68 | in a successful analysis every element method could be invoked |
| Annotations.Resolve | modules/asakusa-compiler-model/src/main/java/com/asakusafw/lang/compiler/model/description/AnnotationDescription.java:97-108 | ClassNotFoundException when the type is missing; on success exactly the same keys, each mapped to its resolved value; otherwise the first failed resolution, in element order |
| Annotations.Invoke | modules/asakusa-compiler-model/src/main/java/com/asakusafw/lang/compiler/model/description/AnnotationDescription.java:128-158 | `ElementHandler.invoke`: every failure is UnsupportedOperationException naming the method; a call without arguments returns the element's value whenever the element has one; a call with two or more arguments always fails |
| Annotations.InvokeWithoutArguments | modules/asakusa-compiler-model/src/main/java/com/asakusafw/lang/compiler/model/description/AnnotationDescription.java:131-145 | an element's value comes first; otherwise `annotationType`, `hashCode` and `toString` get their answers; every other name is unsupported |
| Annotations.InvokeEquals | modules/asakusa-compiler-model/src/main/java/com/asakusafw/lang/compiler/model/description/AnnotationDescription.java:146-151 | `equals(Object)` is true exactly for the proxy itself |
| Annotations.InvokeUnsupported | modules/asakusa-compiler-model/src/main/java/com/asakusafw/lang/compiler/model/description/AnnotationDescription.java:146-158 | every call with arguments other than `equals(Object)` throws UnsupportedOperationException naming the method |
| ExternalIo.Convert | modules/asakusa-compiler-extension-externalio/src/main/java/com/asakusafw/lang/compiler/extension/externalio/AbstractExternalIoProcessor.java:124-138 | the result is UNKNOWN exactly for null or UNKNOWN; every other result is the size of the same name |
| ExternalIo.ConvertLaws | modules/asakusa-compiler-extension-externalio/src/main/java/com/asakusafw/lang/compiler/extension/externalio/AbstractExternalIoProcessor.java:124-138 | null becomes UNKNOWN; each size maps to the size of its name; the result is UNKNOWN exactly for null or UNKNOWN |
| ExternalIo.IsSupported | modules/asakusa-compiler-extension-externalio/src/main/java/com/asakusafw/lang/compiler/extension/externalio/AbstractExternalIoProcessor.java:71-76 | `isSupported` itself (a predicate without a contract); `ExternalIo.AnalyzedAreSupported` states that every description `analyzeInput` or `analyzeOutput` accepts has a supported class |
| ExternalIo.AnalyzedAreSupported | modules/asakusa-compiler-extension-externalio/src/main/java/com/asakusafw/lang/compiler/extension/externalio/AbstractExternalIoProcessor.java:71-99 | every description accepted for analysis has a supported class |
| ExternalIo.AnalyzeInput | modules/asakusa-compiler-extension-externalio/src/main/java/com/asakusafw/lang/compiler/extension/externalio/AbstractExternalIoProcessor.java:78-92 | IllegalArgumentException exactly when not an instance of the input type; otherwise the class, module name, data model, converted size and computed properties |
| ExternalIo.AnalyzeOutput | modules/asakusa-compiler-extension-externalio/src/main/java/com/asakusafw/lang/compiler/extension/externalio/AbstractExternalIoProcessor.java:94-107 | the same for the output type, without a size |
| ExternalIo.ResolveInput | modules/asakusa-compiler-extension-externalio/src/main/java/com/asakusafw/lang/compiler/extension/externalio/AbstractExternalIoProcessor.java:109-113 | keeps the name and information and uses exactly the computed paths |
| ExternalIo.ResolveOutput | modules/asakusa-compiler-extension-externalio/src/main/java/com/asakusafw/lang/compiler/extension/externalio/AbstractExternalIoProcessor.java:115-122 | passes the name, information and internal paths through unchanged |
| ExternalIo.AnalyzeThenResolve | modules/asakusa-compiler-extension-externalio/src/main/java/com/asakusafw/lang/compiler/extension/externalio/AbstractExternalIoProcessor.java:78-113 | an importer of the input type is analysed successfully and its reference keeps its name, module and converted size |
| JavaCompilerUtil.ArchivePattern | modules/asakusa-compiler-javac/src/main/java/com/asakusafw/lang/compiler/javac/JavaCompilerUtil.java:23 | a file name matches `.+\.(zip\|jar)` exactly when it has a non-empty, line-terminator-free stem before `.zip` or `.jar` |
| JavaCompilerUtil.IsArchiveName | modules/asakusa-compiler-javac/src/main/java/com/asakusafw/lang/compiler/javac/JavaCompilerUtil.java:23 | the executable test for `PATTERN_ARCHIVE` (a predicate without a contract); `JavaCompilerUtil.ArchivePattern` proves it equal to the regular expression `.+\.(zip\|jar)` |
| JavaCompilerUtil.ToFile | modules/asakusa-compiler-javac/src/main/java/com/asakusafw/lang/compiler/javac/JavaCompilerUtil.java:81-97 | non-`file` URLs and malformed URIs give nothing; the IllegalArgumentException from `new File(uri)` is reported exactly for a well-formed file URI that it rejects; otherwise that file |
| JavaCompilerUtil.Keep | modules/asakusa-compiler-javac/src/main/java/com/asakusafw/lang/compiler/javac/JavaCompilerUtil.java:55-58 | the filter of `getLibraries` (a predicate without a contract): a regular file is kept only with an archive name; `JavaCompilerUtil.LoaderFiles` and `JavaCompilerUtil.RootFirst` state that every emitted file passes it |
| JavaCompilerUtil.LoaderFiles | modules/asakusa-compiler-javac/src/main/java/com/asakusafw/lang/compiler/javac/JavaCompilerUtil.java:51-58 | every file kept from a loader is a non-regular file or an archive by name |
| JavaCompilerUtil.RootFirst | modules/asakusa-compiler-javac/src/main/java/com/asakusafw/lang/compiler/javac/JavaCompilerUtil.java:48-60 | every library emitted over a loader chain is a kept file |
| JavaCompilerUtil.Walked | modules/asakusa-compiler-javac/src/main/java/com/asakusafw/lang/compiler/javac/JavaCompilerUtil.java:65-79 | the walk is a prefix of the parent chain, all of it with extension libraries; otherwise it stops right after the system loader, which it includes |
| JavaCompilerUtil.UrlLoaders | modules/asakusa-compiler-javac/src/main/java/com/asakusafw/lang/compiler/javac/JavaCompilerUtil.java:69-73 | exactly the URL-type loaders of the walk |
| JavaCompilerUtil.UrlLoadersConcat | modules/asakusa-compiler-javac/src/main/java/com/asakusafw/lang/compiler/javac/JavaCompilerUtil.java:69-73 | the URL loaders keep the order of the walk: those of a concatenation are those of the first part followed by those of the second, so `getClassLoaders` lists them child first |
| JavaCompilerUtil.WalkedStops | modules/asakusa-compiler-javac/src/main/java/com/asakusafw/lang/compiler/javac/JavaCompilerUtil.java:74-76 | without extension libraries the walk ends at the first system loader |
| JavaCompilerUtil.WalkedAll | modules/asakusa-compiler-javac/src/main/java/com/asakusafw/lang/compiler/javac/JavaCompilerUtil.java:65-79 | a chain without the system loader is walked to its root |
| JavaCompilerUtil.GetClassLoaders | modules/asakusa-compiler-javac/src/main/java/com/asakusafw/lang/compiler/javac/JavaCompilerUtil.java:65-79 | the URL-type loaders of the walked chain, child first |
| JavaCompilerUtil.LoaderFilesFailureSticks | modules/asakusa-compiler-javac/src/main/java/com/asakusafw/lang/compiler/javac/JavaCompilerUtil.java:51-54 | an IllegalArgumentException from `new File(uri)` on one of a loader's URLs is the loader's result |
| JavaCompilerUtil.RootFirstFailureSticks | modules/asakusa-compiler-javac/src/main/java/com/asakusafw/lang/compiler/javac/JavaCompilerUtil.java:48-54 | an IllegalArgumentException from `new File(uri)` on a loader nearer the root is the result of the whole chain |
| JavaCompilerUtil.LibrariesOf | modules/asakusa-compiler-javac/src/main/java/com/asakusafw/lang/compiler/javac/JavaCompilerUtil.java:45-62 | the reverse-index loops produce the root-first library list |
| JavaCompilerUtil.GetLibraries | modules/asakusa-compiler-javac/src/main/java/com/asakusafw/lang/compiler/javac/JavaCompilerUtil.java:45-62 | the libraries of the URL loaders of the walked chain, root-first |
| JavaCompilerUtil.GetLibrariesDefault | modules/asakusa-compiler-javac/src/main/java/com/asakusafw/lang/compiler/javac/JavaCompilerUtil.java:35-37 | the same without extension libraries |
| JavaCompilerUtil.RootFirstOrder | modules/asakusa-compiler-javac/src/main/java/com/asakusafw/lang/compiler/javac/JavaCompilerUtil.java:48-50 | the libraries of the ancestors come before those of the descendants |
| JavaCompilerUtil.LoaderFilesFromUrls | modules/asakusa-compiler-javac/src/main/java/com/asakusafw/lang/compiler/javac/JavaCompilerUtil.java:51-58 | every library comes from a well-formed `file:` URL of the loader |
| BatchCompilerCli.ParseValue | modules/asakusa-compiler-cli/src/main/java/com/asakusafw/lang/compiler/cli/BatchCompilerCli.java:158-170 | an empty value counts as absent; it is an IllegalArgumentException exactly for an absent required option; otherwise the value when present |
| BatchCompilerCli.OutputIsRequired | modules/asakusa-compiler-cli/src/main/java/com/asakusafw/lang/compiler/cli/BatchCompilerCli.java:416 | a missing or empty `--output` is rejected with the message naming it |
| BatchCompilerCli.Segments | modules/asakusa-compiler-cli/src/main/java/com/asakusafw/lang/compiler/cli/BatchCompilerCli.java:222-226 | the trim-and-drop-empty rule (a function without a contract); `BatchCompilerCli.SegmentsMembers`, `BatchCompilerCli.SegmentsTrimmed` and `BatchCompilerCli.SegmentsConcat` state what it keeps |
| BatchCompilerCli.SegmentsConcat | modules/asakusa-compiler-cli/src/main/java/com/asakusafw/lang/compiler/cli/BatchCompilerCli.java:216-230 | cleaning a concatenation of parts cleans each half |
| BatchCompilerCli.SegmentsTrimmed | modules/asakusa-compiler-cli/src/main/java/com/asakusafw/lang/compiler/cli/BatchCompilerCli.java:222-226 | every kept segment is non-empty and already trimmed |
| BatchCompilerCli.SegmentsMembers | modules/asakusa-compiler-cli/src/main/java/com/asakusafw/lang/compiler/cli/BatchCompilerCli.java:222-226 | a string is a kept segment exactly when it is non-empty and the trim of some part |
| BatchCompilerCli.SegmentsOfSplit | modules/asakusa-compiler-cli/src/main/java/com/asakusafw/lang/compiler/cli/BatchCompilerCli.java:222 | dropping trailing empty fields in `split` does not change the kept segments |
| BatchCompilerCli.ClassesOfAppend | modules/asakusa-compiler-cli/src/main/java/com/asakusafw/lang/compiler/cli/BatchCompilerCli.java:256-258 | one class description per name, in order |
| BatchCompilerCli.ParseClasses | modules/asakusa-compiler-cli/src/main/java/com/asakusafw/lang/compiler/cli/BatchCompilerCli.java:216-230 | the option's error, or the comma-separated segments, trimmed, without empty ones, in order; an absent option gives none |
| BatchCompilerCli.ResolveFiles | modules/asakusa-compiler-cli/src/main/java/com/asakusafw/lang/compiler/cli/BatchCompilerCli.java:245-254 | `resolveFile` over the entries in order: a success has one file per entry, and a failure happens only when checking and is an IllegalArgumentException |
| BatchCompilerCli.ResolveFilesFailureSticks | modules/asakusa-compiler-cli/src/main/java/com/asakusafw/lang/compiler/cli/BatchCompilerCli.java:197-204 | a missing file ends the resolution whatever follows |
| BatchCompilerCli.ResolveFilesSucceeds | modules/asakusa-compiler-cli/src/main/java/com/asakusafw/lang/compiler/cli/BatchCompilerCli.java:192-254 | resolution succeeds exactly when it is unchecked or every entry exists, and then gives one file per entry in order |
| BatchCompilerCli.ResolveFilesFirstMissing | modules/asakusa-compiler-cli/src/main/java/com/asakusafw/lang/compiler/cli/BatchCompilerCli.java:245-254 | with checking, the IllegalArgumentException names the first missing entry and the option |
| BatchCompilerCli.ResolveFilesAppend | modules/asakusa-compiler-cli/src/main/java/com/asakusafw/lang/compiler/cli/BatchCompilerCli.java:197-204 | resolving one more entry extends a success by one file, or fails on a missing one |
| BatchCompilerCli.MissingEntryStops | modules/asakusa-compiler-cli/src/main/java/com/asakusafw/lang/compiler/cli/BatchCompilerCli.java:245-254 | a missing entry after existing ones decides the result |
| BatchCompilerCli.SegmentsAround | modules/asakusa-compiler-cli/src/main/java/com/asakusafw/lang/compiler/cli/BatchCompilerCli.java:197-204 | the segments of a list are those before a non-blank part, that part trimmed, and those after |
| BatchCompilerCli.ParseFiles | modules/asakusa-compiler-cli/src/main/java/com/asakusafw/lang/compiler/cli/BatchCompilerCli.java:192-206 | the option's error, or the path-separated segments, trimmed and without empty ones, resolved in order, failing on the first missing file when checked |
| BatchCompilerCli.ParsePattern | modules/asakusa-compiler-cli/src/main/java/com/asakusafw/lang/compiler/cli/BatchCompilerCli.java:172-182 | the option's error, no predicate for an absent or empty value, or a predicate accepting matching classes, negated on request |
| BatchCompilerCli.SourcePredicates | modules/asakusa-compiler-cli/src/main/java/com/asakusafw/lang/compiler/cli/BatchCompilerCli.java:150-151 | exactly the include and exclude predicates that are present |
| BatchCompilerCli.SelectionPredicate | modules/asakusa-compiler-cli/src/main/java/com/asakusafw/lang/compiler/cli/BatchCompilerCli.java:353-357 | the combined predicate accepts a class exactly when it is a batch class and every source predicate accepts it |
| BatchCompilerCli.IncludeExclude | modules/asakusa-compiler-cli/src/main/java/com/asakusafw/lang/compiler/cli/BatchCompilerCli.java:150-182 | a batch class is selected exactly when it matches the include pattern, if any, and does not match the exclude pattern, if any |
| BatchCompilerCli.Escalated | modules/asakusa-compiler-cli/src/main/java/com/asakusafw/lang/compiler/cli/BatchCompilerCli.java:398-402 | a diagnostic becomes an ERROR naming the batch class; any other exception passes unchanged |
| BatchCompilerCli.Process | modules/asakusa-compiler-cli/src/main/java/com/asakusafw/lang/compiler/cli/BatchCompilerCli.java:353-406 | a setup failure compiles nothing; batches are compiled in order until one stops the loop, whose exception is escalated; on success all were compiled, none stopped, and the result is true exactly when no diagnostic was raised |
| BatchCompilerCli.ProcessLaws | modules/asakusa-compiler-cli/src/main/java/com/asakusafw/lang/compiler/cli/BatchCompilerCli.java:361-405 | with fail-fast, a completed run is never false; without it, diagnostics do not stop the loop; the result is true exactly when setup and every batch succeed |
| BatchCompilerCli.DefaultConfigurationValues | modules/asakusa-compiler-cli/src/main/java/com/asakusafw/lang/compiler/cli/BatchCompilerCli.java:64-71 | the defaults of `Configuration` (lines 494-525): the basic class analyzer, batch compiler and data model loader factory, the runtime working directory `target/hadoopwork/${executionId}`, no output, no source predicates, and `failOnError` false |
| BatchCompilerCli.Execute | modules/asakusa-compiler-cli/src/main/java/com/asakusafw/lang/compiler/cli/BatchCompilerCli.java:99-128 | the exit code is 0 or 1, and 0 exactly when parsing, setup and every batch succeed |
| Common.Diagnose | modules/asakusa-compiler-core/src/main/java/com/asakusafw/lang/compiler/core/basic/BasicJobflowCompiler.java:42-44 | a diagnostic exception with exactly one diagnostic of that level and message |
| Common.DropTrailingEmpty | modules/asakusa-compiler-model/src/main/java/com/asakusafw/lang/compiler/model/Location.java:106 | a prefix of the fields that ends with a non-empty one, dropping only empty fields |
| Common.NonEmpty | modules/asakusa-compiler-model/src/main/java/com/asakusafw/lang/compiler/model/Location.java:105-118 | exactly the non-empty strings of the list |
| Common.NonEmptyConcat | modules/asakusa-compiler-model/src/main/java/com/asakusafw/lang/compiler/model/Location.java:105-118 | dropping empty strings distributes over concatenation |
| Common.JavaSplitNonEmpty | modules/asakusa-compiler-model/src/main/java/com/asakusafw/lang/compiler/model/Location.java:105-118 | dropping trailing empty fields in `split` does not change the non-empty fields |
| Common.SplitAllWithoutSeparator | modules/asakusa-compiler-model/src/main/java/com/asakusafw/lang/compiler/model/Location.java:105-118 | a string without the separator is one field |
| Common.SplitAllLastField | modules/asakusa-compiler-model/src/main/java/com/asakusafw/lang/compiler/model/Location.java:105-118 | splitting after the last separator adds one field |
| Common.Replace | modules/asakusa-compiler-model/src/main/java/com/asakusafw/lang/compiler/model/description/SerializableValueDescription.java:164-166 | same length, each occurrence of one character replaced and nothing else |
| Common.TrimBounds | modules/asakusa-compiler-cli/src/main/java/com/asakusafw/lang/compiler/cli/BatchCompilerCli.java:222-226 | a trimmed string neither starts nor ends with a control character or space, and is empty exactly when the string was blank |

## Left out

- Port internals (`OperatorInput`, `OperatorOutput`, `OperatorPort.connect` and `disconnectAll`) are not part of this model. A connection is one edge in a `Wiring` edge list. Copy-on-connect and duplicate checks of the real ports are not modelled.
- `OperatorGraph` copy and flatten, and the concrete operator variants, are not part of this model.
- Operators.Operator.CopyAttributesTo: requires the copy to be another operator than the source. The Java code is only called on a fresh `copy()` result.
- `Operator.getProperties()` and `getConstraints()` return unmodifiable views. The model returns the values themselves.
- Locations.Equals: the `this == obj` shortcut, the class check and the hash are taken as value equality of two locations. `Location.hashCode` and its 32-bit arithmetic are left out, as is `SerializableValueDescription.hashCode`.
- Location's `toString` and its `@JsonValue` handling are left out, because they only delegate to `toPath`.
- MasterJoin: the `MasterSelection.ELEMENT_NAME` and `NO_SELECTION` constants are defined outside the core, so they are parameters. The annotation's element values come from a resolving oracle, and the methods of the operator class are a given list with annotation flags.
- CharacterizerAdapter.EstimateOne: the `contains` assertion is a precondition of the single estimate, not a checked branch. The estimator and its context are parameters, and the adapter keeps no state.
- JobflowCompiler: the jobflow processor and the external-port processor are parameters, given as the outcome each stage has. `ExternalPortContainer` is reduced to whether it is empty, and what the tools and processors do inside is not modelled.
- SerializableValue: serialisation itself (`ObjectInputStream`/`ObjectOutputStream`), `of(Object)`, `resolve` and `getValueKind` are left out. They are reflection and I/O, and `String` and numeric valuation come from the JDK.
- SerializableValue.SerializableValueDescription.Equals: comparing with a description of another `ValueDescription` class is not modelled. The model has only this class.
- Annotations: a Java `Method`, `Proxy` and the class loader become records. `getValueType` and the annotation's own `hashCode`/`toString`/`equals` are left out.
- ExternalIo: the `AnalyzeContext`/`Context` parameters of the hook methods are dropped, as are the importer's attribute checks in subclasses. `ImporterDescription.DataSize` is taken to have exactly the four values `UNKNOWN`, `TINY`, `SMALL` and `LARGE`, because its declaration is not part of this model. The `toString` of the descriptions is kept as a `display` field.
- JavaCompilerUtil: class loaders, `URL`, `URI` and `File` are records (`isFile`, name, parsing outcome). The system class loader is given by its identity.
- BatchCompilerCli: commons-cli parsing and the reflection over `Opts` fields are left out. So are `parse(String...)` as a whole, `parseProperties`, the temp directory, building the project and tool repositories, the loading of classes, logging and `System.exit`.
- BatchCompilerCli.Process: everything before the loop becomes a single `setup` outcome. Each batch's compilation becomes the outcome of a `compile` function. The project classes are given in the order in which the project reports them. The cleanup after the loop, closing the project repository (BatchCompilerCli.java:264) and `temporary.reset()` in the `finally` (BatchCompilerCli.java:270), is assumed to succeed; if either threw, `execute` would return 1 even after every batch succeeded.
- BatchCompilerCli.SelectionPredicate: `ListHolder` is not part of this model. The source predicate list is taken to hold only the predicates that were given, since `Predicates.and` would fail on a null.
- BatchCompilerCli.ParsePattern: `ClassNamePredicate.parse` is not part of this model. The pattern's meaning is a `matches` parameter.
- BatchCompilerCli.ParseFiles: `File.exists` is the `fileExists` parameter. `File` keeps the path as given, with no normalisation.
- BatchCompilerCli: the `Configuration` defaults are the constant `DefaultConfiguration`. How `ValueHolder` applies them is not part of this model.

# Testability metrics: the cost walk and its building blocks, in Dafny

Testability metrics scores how hard a Java method is to test. A method's
cost is its cyclomatic complexity less one. To that is added the cost of
every method it calls and that a test could not replace. A call can be
replaced when its target can be overridden and its receiver is injectable,
meaning a test could hand in a substitute. Every method is charged at most
once per computation, which also stops the walk on recursive calls.

This project models the following parts:

- `CostEngine` and `CostProperties`: the cost walk itself, shared by
  `MethodInfo.computeMetric`, `MethodInvokation.computeMetric` and
  `ReturnOperation.computeMetric`. The context object is
  `InjectabilityContext`, a Dafny class updated in place. The walk itself is
  done by module-level methods (`ComputeMethodMetric`,
  `ComputeOperationMetric`, `ComputeInvokationMetric`,
  `ComputeReturnMetric`) that take the context and update it through its
  methods. They are proved to reach exactly the state computed by three
  mutually recursive specification functions. Properties are then proved about those
  functions: the walk terminates; each method's charge is added once; calls
  that can be intercepted and calls to methods already visited are free; a
  failed lookup aborts the walk. The metric tests' scenarios are also
  computed.
- `MethodInfos` and `Invokations`: the printed forms of methods and calls,
  and the overridability test.
- `PutFields` and `Duplicates`: the stack operations `putfield`/`putstatic`
  and `dup`/`dup_x1`/`dup_x2` (section 6.5 of the JVM Specification). This
  covers how many operand slots each pops, with two slots for long and
  double (section 2.6.1), what each produces, and its printed form.
- `Returns` and `MethodCosts`: how a return operation and a method cost
  are printed. The printed cost can be parsed back.
- `ClassRepositories`: the cache of classes by name in front of the class
  loader. Array descriptors resolve as `java.lang.Object`. A class read from
  the loader is taken to be registered while it is parsed (see Left out),
  so asking again is a cache hit.
- `ClasspathStrings`: splitting a classpath on `:` and `;` with the exact
  semantics of Java's `String.split`.

`JavaLang` holds the Java library behaviour the model relies on:
`Option`/`Result`, `Long.toString` with its parser, `String.replace` and
`startsWith`. `Types` holds the shared value types.

## Model

| member | source | states |
|---|---|---|
| MethodInfos.NameDesc | src/com/google/test/metric/MethodInfo.java:53-55 | the name-and-descriptor is the method name followed directly by its descriptor, both recoverable by position |
| MethodInfos.MethodText | src/com/google/test/metric/MethodInfo.java:57-60 | the printed method is the class name, a '.', then the name-and-descriptor |
| MethodInfos.IsConstructor | src/com/google/test/metric/MethodInfo.java:78-80 | a method is a constructor by its name alone: its name-and-descriptor, and its printed form after the class name, start with "<init>" |
| MethodInfos.CanOverride | src/com/google/test/metric/MethodInfo.java:109-111 | each of a constructor name, static and private on its own rules overriding out |
| MethodInfos.CanOverrideExactly | src/com/google/test/metric/MethodInfo.java:109-111 | a method can be overridden if and only if it is not named `<init>`, not static and not private; a constructor never can |
| MethodInfos.MethodTextDeterminesNameDesc | src/com/google/test/metric/MethodInfo.java:53-60 | for the same class, equal printed methods have equal name-and-descriptors |
| MethodInfos.MetricTestMethods | trunk/src-test/com/google/test/metric/MetricComputerTest.java:65-91 | static `statiCost1` and the constructor cannot be overridden, public instance `cost2` can |
| MethodInfos.SingleMethodClassText | trunk/src-test/com/google/test/metric/ClassInfoTest.java:65-70 | the one method of a one-method class has name-and-descriptor "methodA()V" and prints as its class name + ".methodA()V" |
| Invokations.MethodName | src/com/google/test/metric/method/op/turing/MethodInvokation.java:46-48 | the call's method name is its owner, a '.', then its name |
| Invokations.InvokationText | src/com/google/test/metric/method/op/turing/MethodInvokation.java:58-61 | the printed call is the method name followed by the signature |
| Invokations.TargetNameDesc | src/com/google/test/metric/method/op/turing/MethodInvokation.java:65 | the lookup key's name-and-descriptor is the call's name followed by its signature |
| Invokations.CallPrintsLikeTarget | src/com/google/test/metric/method/op/turing/MethodInvokation.java:58-65 | a call prints exactly like the method it resolves to, and looks that method up by the method's own name-and-descriptor |
| Invokations.BlockTestCallText | trunk/src-test/com/google/test/metric/method/BlockTest.java:75-79 | a call to `methodA(II)I` on owner "null" prints as "null.methodA(II)I" |
| CostEngine.RunMethod | src/com/google/test/metric/MethodInfo.java:90-103 | entering a method adds it to the visited set; nothing outside the method table is ever visited; the visited set never shrinks |
| CostEngine.RunOps | src/com/google/test/metric/MethodInfo.java:100-102 | running the operations in order only adds table methods to the visited set |
| CostEngine.RunOp | src/com/google/test/metric/method/op/turing/MethodInvokation.java:63-75 | one operation only adds table methods to the visited set |
| CostEngine.ComputeMethodMetric | src/com/google/test/metric/MethodInfo.java:90-103 | the in-place walk of a method leaves the context in exactly the state `RunMethod` gives, and reports the same outcome |
| CostEngine.ComputeOperationMetric | src/com/google/test/metric/method/op/turing/MethodInvokation.java:63-64 | dispatch on the operation kind reaches the state `RunOp` gives |
| CostEngine.ComputeInvokationMetric | src/com/google/test/metric/method/op/turing/MethodInvokation.java:63-75 | the in-place call step reaches the state `RunOp` gives: free if intercepted or already visited, otherwise a recursive walk of the target |
| CostEngine.ComputeReturnMetric | src/com/google/test/metric/method/op/turing/ReturnOperation.java:31-34 | a return records its value as the return value; cost and visited set are unchanged |
| CostEngine.InjectabilityContext.IsInjectable | src/com/google/test/metric/method/op/turing/MethodInvokation.java:66 | a receiver is injectable exactly when it is in the context's injectable set |
| CostEngine.InjectabilityContext.MethodAlreadyVisited | src/com/google/test/metric/method/op/turing/MethodInvokation.java:71 | a method counts as visited exactly when it is in the visited set of the walk's state |
| CostEngine.InjectabilityContext.GetMethod | src/com/google/test/metric/method/op/turing/MethodInvokation.java:65 | the lookup returns the table entry for (owner, name + signature), or fails naming that key |
| CostEngine.InjectabilityContext.VisitMethod | src/com/google/test/metric/MethodInfo.java:91 | the method joins the visited set; nothing else changes |
| CostEngine.InjectabilityContext.AddMethodCost | src/com/google/test/metric/MethodInfo.java:98 | the cost grows by exactly the given amount |
| CostEngine.InjectabilityContext.SetReturnValue | src/com/google/test/metric/method/op/turing/ReturnOperation.java:33 | the return value becomes the given variable |
| CostProperties.MethodCharge | src/com/google/test/metric/MethodInfo.java:90-103 | entering a method adds its own complexity less one, plus the charges of every method newly visited beneath it |
| CostProperties.OpsCharge | src/com/google/test/metric/MethodInfo.java:100-102 | a run of operations adds exactly the summed charges of the methods it visits for the first time, even when it aborts |
| CostProperties.OpCharge | src/com/google/test/metric/method/op/turing/MethodInvokation.java:63-75 | one operation adds exactly the summed charges of the methods it newly visits |
| CostProperties.RootCostIsBaselineOfVisited | src/com/google/test/metric/MethodInfo.java:90-103 | a computation on a fresh context visits the root, and its cost is the sum of complexity less one over the visited methods: each one charged once |
| CostProperties.StraightLineMethodsCostNothing | src/com/google/test/metric/MethodInfo.java:92-98 | any set of methods of complexity 1 costs 0 in total, so splitting a simple method into many changes nothing |
| CostProperties.BaselineUnion | src/com/google/test/metric/MethodInfo.java:92-98 | the charges of two disjoint sets of methods add up |
| CostProperties.InterceptedCallChangesNothing | src/com/google/test/metric/method/op/turing/MethodInvokation.java:66-67 | a call to an overridable method on an injectable receiver leaves the whole state unchanged |
| CostProperties.VisitedCallChangesNothing | src/com/google/test/metric/method/op/turing/MethodInvokation.java:71 | a call to a method already visited, recursion included, leaves the whole state unchanged |
| CostProperties.UnvisitedCallEntersTarget | src/com/google/test/metric/method/op/turing/MethodInvokation.java:68-73 | any other call walks its target from the caller's state |
| CostProperties.MissingTargetAborts | src/com/google/test/metric/method/op/turing/MethodInvokation.java:65 | a call whose target cannot be found stops the walk with that key; the later operations do not run |
| CostProperties.ReturnRecordsValueOnly | src/com/google/test/metric/method/op/turing/ReturnOperation.java:31-34 | in the walk, a return changes only the return value |
| CostProperties.StaticCostOne | trunk/src-test/com/google/test/metric/MetricComputerTest.java:65-70 | a static method of complexity 2 without calls costs 1 |
| CostProperties.MediumConstructorCostsOne | trunk/src-test/com/google/test/metric/MetricComputerTest.java:87-92 | the constructor that calls static `statiCost1` and overridable `cost2` on `this` costs 1; only `statiCost1` is visited |
| CostProperties.InjectableReceiverCostsNothing | trunk/src-test/com/google/test/metric/MetricComputerTest.java:255-279 | `indirection` calling `cost4` on an injectable reference costs 0 |
| CostProperties.FreshReceiverCostsFour | trunk/src-test/com/google/test/metric/MetricComputerTest.java:255-279 | the same call on a non-injectable reference enters `cost4` and the static `staticCost4` and costs 4 |
| CostProperties.MutualRecursionChargesEachOnce | src/com/google/test/metric/method/op/turing/MethodInvokation.java:71-73 | two private methods calling each other are each visited and charged once, and the walk ends |
| PutFields.OperatorCount | src/com/google/test/metric/method/op/stack/PutField.java:39-44 | putfield/putstatic pop 1 to 3 slots: value slots (2 for long/double) plus a receiver for instance fields; 1 exactly for a static single-slot field, 3 exactly for an instance long/double field |
| PutFields.ToOperation | src/com/google/test/metric/method/op/stack/PutField.java:46-50 | the put becomes an assignment of the slot just above the receiver to the field, on the same line |
| PutFields.PutFieldText | src/com/google/test/metric/method/op/stack/PutField.java:34-37 | prints "put ", then "static " for a static field, then the field |
| PutFields.AssignsFirstValueSlot | src/com/google/test/metric/method/op/stack/PutField.java:39-50 | with receiver then value slots on the stack, the slot count is the operator count and the assigned value is the value's first slot, never the receiver |
| PutFields.BlockTestAssignments | trunk/src-test/com/google/test/metric/method/BlockTest.java:45-58 | a static put assigns the only input; an instance put after `this` and `1` assigns `1` |
| Duplicates.OperatorCount | src/com/google/test/metric/method/op/stack/Duplicate.java:32-35 | the operation pops at least one slot exactly when its offset is not negative |
| Duplicates.CopyGoesBeneathOffsetSlots | src/com/google/test/metric/method/op/stack/Duplicate.java:32-42 | given exactly its operator count of slots, it pushes one more; the copy of the top slot lands beneath the offset slots under the top, and those slots keep their order above it |
| Duplicates.DuplicateText | src/com/google/test/metric/method/op/stack/Duplicate.java:44-47 | the text starts with "duplicate", and is exactly "duplicate" if and only if the offset is not positive |
| Duplicates.Apply | src/com/google/test/metric/method/op/stack/Duplicate.java:37-42 | the result is the input with a copy of its top slot put in front |
| Duplicates.ApplyAddsOneCopy | src/com/google/test/metric/method/op/stack/Duplicate.java:37-42 | as a multiset, the output is the input plus one more copy of the top slot: nothing is lost or invented |
| Duplicates.JvmForms | src/com/google/test/metric/method/op/stack/Duplicate.java:32-42 | offsets 0, 1 and 2 pop 1, 2 and 3 slots and give the dup, dup_x1 and dup_x2 stack layouts |
| Duplicates.DuplicateTextNamesOffset | src/com/google/test/metric/method/op/stack/Duplicate.java:44-47 | prints plain "duplicate" for offset 0 or less, otherwise "duplicate_X" followed by text that parses back to the offset |
| Returns.ReturnText | src/com/google/test/metric/method/op/turing/ReturnOperation.java:36-39 | prints "return " followed by the returned variable |
| Returns.ReturnTextIdentifiesValue | src/com/google/test/metric/method/op/turing/ReturnOperation.java:36-39 | two returns print alike if and only if their values print alike |
| MethodCosts.Complexity | src/com/google/test/metric/MethodCost.java:28-30 | the complexity is the number the printed cost reports after " cost: " |
| MethodCosts.CostNameDesc | src/com/google/test/metric/MethodCost.java:32-34 | the cost is reported under its method's name followed by its descriptor |
| MethodCosts.CostText | src/com/google/test/metric/MethodCost.java:43-47 | the printed cost is the name-and-descriptor, " cost: ", then the complexity's `Long.toString` text |
| MethodCosts.ToStringInto | src/com/google/test/metric/MethodCost.java:43-47 | appends the name-and-descriptor, " cost: " and the complexity to the buffer, keeping its earlier contents |
| MethodCosts.ToString | src/com/google/test/metric/MethodCost.java:36-41 | the text is exactly the printed cost: the name-and-descriptor, then " cost: ", then the decimal text of the complexity, which parses back to it |
| MethodCosts.CostTextParses | src/com/google/test/metric/MethodCost.java:28-47 | the printed cost can be read back: name-and-descriptor, separator, and exactly the complexity |
| ClassRepositories.CacheKey | branches/jawolter-0.1/src/com/google/test/metric/ClassRepository.java:47 | the table key has the name's length, a '.' wherever the name has a '/', every other character of the name in place, and no '/' |
| ClassRepositories.ClassResource | branches/jawolter-0.1/src/com/google/test/metric/ClassRepository.java:55 | the resource is the name with a '/' wherever it has a '.', every other character in place, no '.' left, followed by ".class" |
| ClassRepositories.ReadClass | branches/jawolter-0.1/src/com/google/test/metric/ClassRepository.java:57-61 | with classpath roots only the roots are read; without them only the system loader is |
| ClassRepositories.LoadClass | branches/jawolter-0.1/src/com/google/test/metric/ClassRepository.java:49-64 | reading fails exactly when the resource is missing, and then names the requested class; otherwise it gives the class the resource holds |
| ClassRepositories.Lookup | branches/jawolter-0.1/src/com/google/test/metric/ClassRepository.java:43-52 | a non-array name whose key is in the table is answered from the table; a non-array name whose key is not is answered exactly as loading its resource answers, the class or the not-found failure |
| ClassRepositories.TableAfter | branches/jawolter-0.1/src/com/google/test/metric/ClassRepository.java:43-52 | a failed lookup or a cache hit leaves the table unchanged; a successful miss adds the loaded class under its own name; an array name's lookup leaves it unchanged or adds the class found |
| ClassRepositories.ClassRepository.GetClass | branches/jawolter-0.1/src/com/google/test/metric/ClassRepository.java:43-52 | a lookup answers what the table and class source determined beforehand, and leaves the table `TableAfter` gives |
| ClassRepositories.ClassRepository.InputStreamForClass | branches/jawolter-0.1/src/com/google/test/metric/ClassRepository.java:54-66 | the class comes from the classpath roots when given, otherwise from the system loader; it fails, naming the requested class, exactly when the resource is missing |
| ClassRepositories.ClassRepository.AddClass | branches/jawolter-0.1/src/com/google/test/metric/ClassRepository.java:79-81 | the class is stored under its own name, replacing any earlier entry; no other entry changes |
| ClassRepositories.ClassRepository.constructor | branches/jawolter-0.1/src/com/google/test/metric/ClassRepository.java:32-33 | a new repository has an empty table and reads from the system loader |
| ClassRepositories.ClassRepository.WithRoots | branches/jawolter-0.1/src/com/google/test/metric/ClassRepository.java:35-37 | a repository over classpath roots starts with an empty table |
| ClassRepositories.LookupIsStable | branches/jawolter-0.1/src/com/google/test/metric/ClassRepository.java:43-52 | the table a lookup leaves gives the same answer to the same request |
| ClassRepositories.SecondLookupHitsCache | trunk/src-test/com/google/test/metric/ClassInfoTest.java:40-45 | once a class named as requested has been looked up, the table holds it, the next lookup is answered from the table whatever the class source holds, and it changes the table no further |
| ClassRepositories.RepeatedLookup | trunk/src-test/com/google/test/metric/ClassInfoTest.java:40-45 | asking twice gives the same answer; when the class is named as requested, the table holds it after the first request |
| ClassRepositories.ArrayNamesResolveAsObject | branches/jawolter-0.1/src/com/google/test/metric/ClassRepository.java:44-46 | any name starting with '[' resolves exactly as `java.lang.Object` |
| ClassRepositories.CacheHitIgnoresSource | branches/jawolter-0.1/src/com/google/test/metric/ClassRepository.java:47-51 | a class already in the table is returned whatever the class source holds |
| ClassRepositories.NotFoundNamesRequest | branches/jawolter-0.1/src/com/google/test/metric/ClassRepository.java:62-64 | a failed lookup names the requested class, or `java.lang.Object` for an array descriptor |
| ClassRepositories.LookupAfterAdd | branches/jawolter-0.1/src/com/google/test/metric/ClassRepository.java:79-81 | after adding a class, looking up its name, dotted or slashed, yields it |
| ClassRepositories.KeyAndResourceAgree | branches/jawolter-0.1/src/com/google/test/metric/ClassRepository.java:47-55 | the table key has no '/', the resource stem has no '.', and both name the same class |
| ClasspathStrings.Delimiters | trunk/src/com/google/classpath/ColonDelimitedStringParser.java:18 | the delimiters found are all ':' or ';', and there are none exactly when the string has none |
| ClasspathStrings.Pieces | trunk/src/com/google/classpath/ColonDelimitedStringParser.java:18-23 | there is one more piece than delimiters, and no piece contains a delimiter |
| ClasspathStrings.DropTrailingEmpty | trunk/src/com/google/classpath/ColonDelimitedStringParser.java:23 | the result is a prefix of the pieces, ends in a non-empty piece, and only empty pieces were dropped |
| ClasspathStrings.JoinPieces | trunk/src/com/google/classpath/ColonDelimitedStringParser.java:18-23 | the pieces, joined with the delimiters in order, give back the string |
| ClasspathStrings.Split | trunk/src/com/google/classpath/ColonDelimitedStringParser.java:23 | no delimiter gives the whole string as the only element; no element contains a delimiter; there are at most one more elements than delimiters |
| ClasspathStrings.SplitProperties | trunk/src/com/google/classpath/ColonDelimitedStringParser.java:23 | no delimiter gives the whole string; otherwise the elements are delimiter-free, the last is non-empty, and only trailing empty pieces are missing |
| ClasspathStrings.RejoinUpToTrailingDelimiters | trunk/src/com/google/classpath/ColonDelimitedStringParser.java:23 | the elements joined with the input's delimiters are a prefix of the input, and what is left consists of delimiters only |
| ClasspathStrings.SplitWithoutDelimiter | trunk/src/com/google/classpath/ColonDelimitedStringParser.java:23 | "" splits to [""] and "a" to ["a"] |
| ClasspathStrings.SplitsOnColonAndSemicolon | trunk/src/com/google/classpath/ColonDelimitedStringParser.java:18-23 | "a:b;c" splits to ["a", "b", "c"] |
| ClasspathStrings.SplitEmptyPieces | trunk/src/com/google/classpath/ColonDelimitedStringParser.java:23 | "a:" gives ["a"], ":a" gives ["", "a"], "::" gives [] |
| ClasspathStrings.ColonDelimitedStringParser.constructor | trunk/src/com/google/classpath/ColonDelimitedStringParser.java:21-25 | a null string gives the empty list, any other string its split pieces |
| ClasspathStrings.ColonDelimitedStringParser.GetListOfStrings | trunk/src/com/google/classpath/ColonDelimitedStringParser.java:49-51 | returns the list built by the constructor |
| ClasspathStrings.ColonDelimitedStringParser.GetListOfFiles | trunk/src/com/google/classpath/ColonDelimitedStringParser.java:40-47 | one file per list element, in order, each made from that element's path |

## Left out

- CostEngine.InjectabilityContext.constructor: the context is created by `MetricComputer`, which is not part of this model; the constructor only states that a new context holds the given method table and injectable set and starts from `Fresh` (nothing visited, cost 0, no return value).
- `Assignment.computeMetric` is not part of this model. An assignment is modelled as changing nothing in the cost walk.
- `InjectabilityContext.java` is not part of this model. Only what the walk reads and writes is modelled: the method lookup, the injectable variables, the visited set, the cost and the return value. Making more variables injectable as the walk proceeds (through field assignments or return values) is not modelled.
- Method lookup through the class repository is given as a finite table from (owner, name-and-descriptor) to method. A missing entry stands for the `ClassNotFoundException` or missing-method failure, which aborts every enclosing walk.
- CostEngine.RunMethod: the cost is an unbounded integer; the Java `long` can overflow, which is not modelled.
- The visited set compares methods by value, not by object identity.
- `ReturnOperation.computeMetric` takes a `TestabilityContext` and the current method, while the rest of the walk passes an `InjectabilityContext`. The model gives all three one context and ignores the method argument.
- `ClassRepository.getClass(Class)` is only a call to `getClass(String)` with the class's name; it is used for `java.lang.Object` and is not modelled separately.
- ClassRepositories.ClassRepository.InputStreamForClass: the byte reading and the ASM parse (`parseClass`) are one oracle, a map from resource path to class. The `IOException` path of `parseClass` is not modelled.
- `ClassInfoBuilderVisitor` is not part of this model. The class it builds is taken to be registered through `addClass` under its own name while it is parsed; this is what makes a second lookup return the same class (ClassInfoTest.java, lines 40-45). Other classes the parse may load, such as a superclass, are not modelled.
- `ColonDelimitedStringParser.getListOfURLs` is left out: turning a path into a URL consults the file system.
- ClasspathStrings.ColonDelimitedStringParser.GetListOfFiles: a `File` is modelled only by its path.
- ClasspathStrings.ColonDelimitedStringParser.GetListOfStrings: the source hands out its own mutable list, so a caller can change the parser's list through it. The model returns the list as a value, so this aliasing is not captured.
- PutFields.ToOperation: it requires at least the operator count of inputs, where the source only needs the index it reads to exist. The stack translation always supplies the operator count.
- Duplicates.Apply: it requires a non-empty input, which the source also needs in order to read the top slot. The source raises an exception instead.
- `Variable`, `FieldInfo`, `Type` and `ClassInfo` are not part of this model. Their printed forms are carried as text in the datatypes. `Type.isDouble` is taken as true for long and double, the two-slot types.
- Getters that only return a field (`getName`, `getOwner`, `getParameters`, `getComplexity`, `getOperations` and the rest) are the datatypes' fields.

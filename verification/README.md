# Blank-instance synthesis of fluentbuilder, in Dafny

fluentbuilder backs abstract builder classes with runtime proxies. Each proxy wraps a
"blank" instance of the target class. `AbstractBuilderFactory` creates that instance in
three steps:

1. It picks the public constructor with the fewest parameters. The scan keeps a running
   minimum seeded with the sentinel `MAX_ARGUMENTS = 100` and compares with a strict `<`,
   so the first shortest constructor wins.
2. It builds one default argument per parameter. Reference types get `null`.
   `boolean`, `char`, `byte` and `short` get a table entry. Every other primitive gets
   the boxed integer `0`.
3. It invokes the constructor reflectively. Four reflective exceptions are caught and
   turned into a `null` result.

`Constants` pins down the collection interfaces the generator supports for varargs
setters: `java.util.Set`, then `java.util.List`.

The files:

- `wrappers.dfy`: `Option`.
- `java_types.dfy`: primitive kinds and their names, boxed argument values, and reflective
  unboxing with widening (section 5.1.2 of the Java Language Specification). It also has
  the default value of every type (section 4.12.5 of the same specification).
- `abstract_builder_factory.dfy`: constructor selection, as a loop and as an independent
  recursive argmin, proved equal. It also has the default-value table, the argument
  synthesis, and the reflective call as an oracle function.
- `constants.dfy`: qualified class names as `Class.getName()` spells them, and the list of
  supported collections.

Two behaviours of `createShortestInstance` are easy to miss:

- When no constructor is selected, line 84 dereferences `null` outside the `try`, so a
  `NullPointerException` propagates. This happens for a class with no public constructor
  and also for a class whose constructors all take 100 or more parameters. The model
  returns `Propagated(NullPointerException)` in both cases.
- Only `InstantiationException`, `InvocationTargetException`, `IllegalAccessException` and
  `IllegalArgumentException` are caught. `ExceptionInInitializerError`, which
  `Constructor.newInstance` also documents, escapes. The model returns
  `Propagated(Escaped(..))` for it.

## Model

| member | source | states |
|---|---|---|
| AbstractBuilderFactory.SelectShortestConstructor | src/main/java/info/ludwikowski/fluentbuilder/common/AbstractBuilderFactory.java:99-111 | The running-minimum scan returns no constructor exactly when every constructor has at least 100 parameters, which includes the empty list. Otherwise it returns the constructor with fewer than 100 parameters that has no more parameters than any other and strictly fewer than every earlier one. The result equals the recursive argmin `Shortest`. |
| AbstractBuilderFactory.ShortestFrom | src/main/java/info/ludwikowski/fluentbuilder/common/AbstractBuilderFactory.java:99-111 | An independent recursive argmin over a suffix satisfies the same selection rule: below the sentinel, minimal, first among equals. |
| AbstractBuilderFactory.SelectionIsUnique | src/main/java/info/ludwikowski/fluentbuilder/common/AbstractBuilderFactory.java:101-110 | At most one outcome satisfies the selection rule, so the rule fully determines the chosen constructor. |
| AbstractBuilderFactory.TieGoesToEarliest | src/main/java/info/ludwikowski/fluentbuilder/common/AbstractBuilderFactory.java:105-108 | Of two constructors with equal parameter counts, the later one is never selected. |
| AbstractBuilderFactory.FirstNoArgumentConstructorIsChosen | src/main/java/info/ludwikowski/fluentbuilder/common/AbstractBuilderFactory.java:99-119 | If the class has a no-argument constructor, the first one enumerated is selected and gets the empty argument list. |
| AbstractBuilderFactory.OneOfThreeOneTwoIsChosen | src/main/java/info/ludwikowski/fluentbuilder/common/AbstractBuilderFactory.java:99-111 | For constructors with 3, 1 and 2 parameters, in that order, the 1-parameter constructor is selected. |
| AbstractBuilderFactory.PrimitiveDefaultTable | src/main/java/info/ludwikowski/fluentbuilder/common/AbstractBuilderFactory.java:138-145 | The keys are exactly the names boolean, char, byte and short. Each value is the Java default value of the primitive type its key names. |
| AbstractBuilderFactory.DefaultOfPrimitiveType | src/main/java/info/ludwikowski/fluentbuilder/common/AbstractBuilderFactory.java:129-136 | A primitive's default is never null. After reflective unboxing and widening, it becomes that primitive type's Java default value, so it never causes an IllegalArgumentException. |
| AbstractBuilderFactory.IntegerFallbackKinds | src/main/java/info/ludwikowski/fluentbuilder/common/AbstractBuilderFactory.java:130-135 | Exactly int, long, float and double fall back to the integer 0. The default is already the type's own zero exactly for boolean, char, byte, short and int. |
| AbstractBuilderFactory.DefaultOfClass | src/main/java/info/ludwikowski/fluentbuilder/common/AbstractBuilderFactory.java:121-127 | The default is null if and only if the parameter type is not primitive. The parameter always receives its type's Java default value. |
| AbstractBuilderFactory.CreateEmptyParameters | src/main/java/info/ludwikowski/fluentbuilder/common/AbstractBuilderFactory.java:113-119 | The argument list is as long as the parameter-type list. Element i is the default of parameter type i, in order. It is null exactly at the reference-typed positions. Every argument converts to its parameter's Java default value. |
| AbstractBuilderFactory.DefaultArguments | src/main/java/info/ludwikowski/fluentbuilder/common/AbstractBuilderFactory.java:113-119 | The synthesized argument list for a parameter-type list: one default per parameter, in order, each converting to its parameter's Java default value. |
| AbstractBuilderFactory.DefaultsNeverRejectedAsIllegal | src/main/java/info/ludwikowski/fluentbuilder/common/AbstractBuilderFactory.java:82-97 | If reflection throws IllegalArgumentException only for an argument list that does not convert to the parameter types, then the selected constructor's call with the default arguments never throws it. |
| AbstractBuilderFactory.CreateShortestInstance | src/main/java/info/ludwikowski/fluentbuilder/common/AbstractBuilderFactory.java:82-97 | A NullPointerException propagates exactly when no constructor is selected. Otherwise the selected constructor is called with the default arguments. A returned object is the result. The four caught exceptions become null. Any other exception escapes, and no caught exception ever escapes. |
| JavaTypes.KindNamedInvertsPrimitiveName | src/main/java/info/ludwikowski/fluentbuilder/common/AbstractBuilderFactory.java:131 | The primitive type names used as table keys are distinct, and each one reads back as its own type. |
| ClassNames.SplitQualifiedName | src/main/java/info/ludwikowski/fluentbuilder/util/Constants.java:27-28 | Splitting a `getName()`-style qualified name at its last dot gives back the package and the simple name it was built from. |
| ClassNames.JoinSplitName | src/main/java/info/ludwikowski/fluentbuilder/util/Constants.java:27-28 | Conversely, any name that does not start with its last dot is rebuilt from its package part and simple-name part. |
| Constants.SupportedCollections | src/main/java/info/ludwikowski/fluentbuilder/util/Constants.java:19-30 | The list has exactly two distinct entries: "java.util.Set" first, then "java.util.List". Both are in package `java.util`, with simple names Set and List. |

## Left out

- The cglib `Enhancer` proxy and the `FactoryMethodInterceptor` wiring of both `createImplementation` overloads (AbstractBuilderFactory.java:51-58). This is runtime bytecode generation by a library that is not part of this model.
- Spring's `GenericTypeResolver` lookup of the target class (AbstractBuilderFactory.java:73-77) is a foreign call. The model takes the target class's constructors as input instead.
- Reflection. The model represents `getConstructors()` as a sequence of parameter-type lists in enumeration order. It represents `Constructor.newInstance` as a caller-supplied oracle. `setAccessible(true)` (line 87) is assumed to succeed, so its possible `SecurityException` is not modelled.
- Logging (lines 34, 91, 94) is a side effect only.
- Java object identity and boxing caches. Arguments are a small value datatype. Integral values are unbounded integers and floating values are reals. This is exact for the zeros that flow here. Rounding of general widening conversions is not modelled.
- `void` is not a primitive kind in the model, because it is never a constructor parameter type.
- The type classifier (`TypeUtils`) and the import resolver (`ImportsFactory`) are separate utilities of the code generator and are not part of this model.

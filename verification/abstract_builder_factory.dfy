/**
 Blank-instance synthesis of `AbstractBuilderFactory`: pick the public
 constructor with the fewest parameters, build one default argument per
 parameter, and invoke it. Reflection is abstracted: the constructors of the
 target class arrive as a sequence in enumeration order, and the effect of
 `Constructor.newInstance` is an oracle function supplied by the caller.
 */
module AbstractBuilderFactory {
  import opened Wrappers
  import opened JavaTypes

  /** Sentinel that seeds the running minimum: constructors with this many
      parameters or more are never selected. */
  const MaxArguments: nat := 100

  // ---------------------------------------------------------------------
  // Constructor selection
  // ---------------------------------------------------------------------

  /** `k` is the constructor the scan over `cs[lo..hi]` settles on: below the
      sentinel, no longer than any other, and strictly shorter than every
      constructor enumerated before it (the first minimum wins). */
  predicate FirstShortestIn(cs: seq<Constructor>, lo: nat, hi: nat, k: nat)
    requires lo <= hi <= |cs|
  {
    && lo <= k < hi
    && Arity(cs[k]) < MaxArguments
    && (forall j | lo <= j < hi :: Arity(cs[k]) <= Arity(cs[j]))
    && (forall j | lo <= j < k :: Arity(cs[k]) < Arity(cs[j]))
  }

  /** Every constructor in `cs[lo..hi]` reaches the sentinel (vacuously so when the range is empty). */
  predicate AllAtSentinel(cs: seq<Constructor>, lo: nat, hi: nat)
    requires lo <= hi <= |cs|
  {
    forall j | lo <= j < hi :: Arity(cs[j]) >= MaxArguments
  }

  /** `r` is a correct outcome of the scan over `cs[lo..hi]`: no selection exactly
      when every constructor reaches the sentinel, otherwise the first shortest one. */
  predicate SelectsIn(cs: seq<Constructor>, lo: nat, hi: nat, r: Option<nat>)
    requires lo <= hi <= |cs|
  {
    match r
    case None => AllAtSentinel(cs, lo, hi)
    case Some(k) => FirstShortestIn(cs, lo, hi, k)
  }

  /** At most one outcome is correct for any range. */
  lemma SelectionIsUnique(cs: seq<Constructor>, lo: nat, hi: nat, r1: Option<nat>, r2: Option<nat>)
    requires lo <= hi <= |cs|
    requires SelectsIn(cs, lo, hi, r1) && SelectsIn(cs, lo, hi, r2)
    ensures r1 == r2
  {
  }

  /** Reference argmin over `cs[lo..]`, recursing from the front: the head is
      chosen when it is below the sentinel and no longer than the best of the rest. */
  function ShortestFrom(cs: seq<Constructor>, lo: nat): (r: Option<nat>)
    requires lo <= |cs|
    ensures SelectsIn(cs, lo, |cs|, r)
    decreases |cs| - lo
  {
    if lo == |cs| then None
    else
      var rest := ShortestFrom(cs, lo + 1);
      if Arity(cs[lo]) < MaxArguments && (rest.None? || Arity(cs[lo]) <= Arity(cs[rest.value]))
      then Some(lo)
      else rest
  }

  /** The constructor `selectShortestConstructor` picks, as an index into `cs`. */
  function Shortest(cs: seq<Constructor>): (r: Option<nat>)
    ensures SelectsIn(cs, 0, |cs|, r)
  {
    ShortestFrom(cs, 0)
  }

  /** `selectShortestConstructor`: one pass with a running minimum seeded by the
      sentinel and a strict comparison; `None` plays the role of the null result. */
  method SelectShortestConstructor(cs: seq<Constructor>) returns (shortest: Option<nat>)
    ensures SelectsIn(cs, 0, |cs|, shortest)
    ensures shortest == Shortest(cs)
  {
    shortest := None;
    var minParameter := MaxArguments;
    var i := 0;
    while i < |cs|
      invariant i <= |cs|
      invariant SelectsIn(cs, 0, i, shortest)
      invariant shortest.None? ==> minParameter == MaxArguments
      invariant shortest.Some? ==> minParameter == Arity(cs[shortest.value])
    {
      var parameterCount := Arity(cs[i]);
      if parameterCount < minParameter {
        shortest := Some(i);
        minParameter := parameterCount;
      }
      i := i + 1;
    }
    SelectionIsUnique(cs, 0, |cs|, shortest, Shortest(cs));
  }

  /** Of two constructors with the same parameter count, the later one is never
      selected: a later equal count does not pass the strict comparison. */
  lemma TieGoesToEarliest(cs: seq<Constructor>, i: nat, j: nat)
    requires i < j < |cs| && Arity(cs[i]) == Arity(cs[j])
    ensures Shortest(cs) != Some(j)
  {
  }

  /** A class with a no-argument constructor is built through the first such
      constructor, and with an empty argument list. */
  lemma FirstNoArgumentConstructorIsChosen(cs: seq<Constructor>, k: nat)
    requires k < |cs| && Arity(cs[k]) == 0
    requires forall j | 0 <= j < k :: Arity(cs[j]) > 0
    ensures Shortest(cs) == Some(k)
    ensures AreDefaultArguments(cs[k].parameterTypes, [])
  {
  }

  /** Constructors with 3, 1 and 2 parameters, enumerated in that order: the
      one-parameter constructor is selected. */
  lemma OneOfThreeOneTwoIsChosen(t: ParamType)
    ensures Shortest([Constructor([t, t, t]), Constructor([t]), Constructor([t, t])]) == Some(1)
  {
    var cs := [Constructor([t, t, t]), Constructor([t]), Constructor([t, t])];
    assert FirstShortestIn(cs, 0, |cs|, 1);
    SelectionIsUnique(cs, 0, |cs|, Shortest(cs), Some(1));
  }

  // ---------------------------------------------------------------------
  // Default arguments
  // ---------------------------------------------------------------------

  /** `getMapWithDefaultValuesForPrimitiveTypes`: the explicit entries of the table
      keyed by primitive type name. */
  function PrimitiveDefaultTable(): (table: map<string, Value>)
    ensures forall name | name in table :: KindNamed(name).Some?
    ensures forall name | name in table :: table[name] == ZeroOf(KindNamed(name).value)
    ensures table.Keys == {PrimitiveName(Boolean), PrimitiveName(Char), PrimitiveName(Byte), PrimitiveName(Short)}
    ensures |table| == 4
  {
    map["boolean" := BoolValue(false), "char" := CharValue('\0'),
        "byte" := ByteValue(0), "short" := ShortValue(0)]
  }

  /** `getDefaultValueOfPrimitiveType`: look the type's name up in the table and
      fall back to the boxed integer zero for every name the table lacks. */
  function DefaultOfPrimitiveType(k: PrimitiveKind): (v: Value)
    ensures v != Null
    ensures Unbox(v, k) == Some(ZeroOf(k))
  {
    var table := PrimitiveDefaultTable();
    var name := PrimitiveName(k);
    if name in table then table[name] else IntValue(0)
  }

  /** Exactly the four primitive types without a table entry get the integer zero,
      which widening then turns into their own zero. */
  lemma IntegerFallbackKinds(k: PrimitiveKind)
    ensures DefaultOfPrimitiveType(k) == IntValue(0) <==> k in {Int, Long, Float, Double}
    ensures k in {Boolean, Char, Byte, Short, Int} <==> DefaultOfPrimitiveType(k) == ZeroOf(k)
  {
  }

  /** `getDefaultValueOfClass`: primitives get their table default, every other type null. */
  function DefaultOfClass(t: ParamType): (v: Value)
    ensures v == Null <==> t.Reference?
    ensures Convert(t, v) == Some(DefaultFieldValue(t))
  {
    match t
    case Primitive(k) => DefaultOfPrimitiveType(k)
    case Reference(_) => Null
  }

  /** `args` is the argument list synthesized for `types`: one default per
      parameter, position by position. */
  predicate AreDefaultArguments(types: seq<ParamType>, args: seq<Value>)
  {
    && |args| == |types|
    && forall i | 0 <= i < |types| :: args[i] == DefaultOfClass(types[i])
  }

  /** The argument list synthesized for `types`. */
  function DefaultArguments(types: seq<ParamType>): (args: seq<Value>)
    ensures AreDefaultArguments(types, args)
    ensures WellTypedArguments(types, args)
  {
    seq(|types|, i requires 0 <= i < |types| => DefaultOfClass(types[i]))
  }

  /** Every argument in `args` is one reflection accepts for its parameter, and
      there is one argument per parameter. */
  predicate WellTypedArguments(types: seq<ParamType>, args: seq<Value>)
  {
    && |args| == |types|
    && forall i | 0 <= i < |types| :: Convert(types[i], args[i]).Some?
  }

  /** `createEmptyParametersFromTypes`: default arguments in parameter order. */
  method CreateEmptyParameters(types: seq<ParamType>) returns (parameters: seq<Value>)
    ensures |parameters| == |types|
    ensures forall i | 0 <= i < |types| :: parameters[i] == Null <==> types[i].Reference?
    ensures forall i | 0 <= i < |types| :: Convert(types[i], parameters[i]) == Some(DefaultFieldValue(types[i]))
    ensures AreDefaultArguments(types, parameters)
    ensures parameters == DefaultArguments(types)
  {
    parameters := [];
    var i := 0;
    while i < |types|
      invariant i <= |types|
      invariant AreDefaultArguments(types[..i], parameters)
    {
      parameters := parameters + [DefaultOfClass(types[i])];
      i := i + 1;
    }
    assert types[..i] == types;
    DefaultArgumentsAreUnique(types, parameters, DefaultArguments(types));
  }

  /** Only one argument list is the default one for given parameter types. */
  lemma DefaultArgumentsAreUnique(types: seq<ParamType>, a1: seq<Value>, a2: seq<Value>)
    requires AreDefaultArguments(types, a1) && AreDefaultArguments(types, a2)
    ensures a1 == a2
  {
  }

  // ---------------------------------------------------------------------
  // Invocation
  // ---------------------------------------------------------------------

  /** The throwables the documentation of `Constructor.newInstance` lists. */
  datatype ReflectiveException =
    | InstantiationException
    | InvocationTargetException
    | IllegalAccessException
    | IllegalArgumentException
    | ExceptionInInitializerError

  /** What one reflective constructor call does. */
  datatype Invocation<O> = Returned(instance: O) | Threw(exception: ReflectiveException)

  /** The exceptions the two catch clauses of `createShortestInstance` handle. */
  predicate IsCaught(e: ReflectiveException)
  {
    e in {InstantiationException, InvocationTargetException, IllegalAccessException, IllegalArgumentException}
  }

  /** A throwable that leaves `createShortestInstance`. */
  datatype Uncaught =
    | NullPointerException            // no constructor selected: `getParameterTypes()` on null
    | Escaped(cause: ReflectiveException)

  /** Result of `createShortestInstance`: the new object, the null it returns after a
      caught failure, or a throwable that propagates to the caller. */
  datatype Synthesis<O> = Created(instance: O) | NullInstance | Propagated(error: Uncaught)

  /** `createShortestInstance`: select, synthesize the defaults, invoke, and turn the
      caught reflective failures into null. `newInstance` stands for the reflective call. */
  method CreateShortestInstance<O>(cs: seq<Constructor>, newInstance: (Constructor, seq<Value>) -> Invocation<O>)
    returns (r: Synthesis<O>)
    ensures r == Propagated(NullPointerException) <==> AllAtSentinel(cs, 0, |cs|)
    // Corollary of the other two: a caught exception never escapes.
    ensures r.Propagated? && r.error.Escaped? ==> !IsCaught(r.error.cause)
    ensures match Shortest(cs)
            case None => true
            case Some(k) =>
              match newInstance(cs[k], DefaultArguments(cs[k].parameterTypes))
              case Returned(o) => r == Created(o)
              case Threw(e) => if IsCaught(e) then r == NullInstance else r == Propagated(Escaped(e))
  {
    var shortest := SelectShortestConstructor(cs);
    if shortest.None? {
      return Propagated(NullPointerException);
    }
    var chosen := cs[shortest.value];
    var parameters := CreateEmptyParameters(chosen.parameterTypes);
    match newInstance(chosen, parameters)
    case Returned(o) =>
      r := Created(o);
    case Threw(e) =>
      if IsCaught(e) {
        r := NullInstance;
      } else {
        r := Propagated(Escaped(e));
      }
  }

  /** Reflection rejects an argument list with `IllegalArgumentException` only when
      it does not fit the constructor's parameters. */
  ghost predicate RejectsOnlyIllTyped<O>(newInstance: (Constructor, seq<Value>) -> Invocation<O>)
  {
    forall c: Constructor, args: seq<Value> ::
      newInstance(c, args) == Threw(IllegalArgumentException) ==> !WellTypedArguments(c.parameterTypes, args)
  }

  /** Under that reading of reflection, the call `createShortestInstance` makes never
      fails with `IllegalArgumentException`: the second catch clause is unreachable. */
  lemma DefaultsNeverRejectedAsIllegal<O>(cs: seq<Constructor>, newInstance: (Constructor, seq<Value>) -> Invocation<O>)
    requires RejectsOnlyIllTyped(newInstance)
    ensures Shortest(cs).Some? ==>
      newInstance(cs[Shortest(cs).value], DefaultArguments(cs[Shortest(cs).value].parameterTypes))
        != Threw(IllegalArgumentException)
  {
  }
}

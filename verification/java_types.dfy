/**
 The fragment of Java's type system that blank-instance synthesis touches:
 the primitive types and their names, boxed argument values, the conversion
 reflection applies when a boxed argument meets a primitive parameter, and
 the default value every type has (section 4.12.5 of the Java Language
 Specification).
 */
module JavaTypes {
  import opened Wrappers

  /** The primitive types a constructor parameter can have (`void` never is one). */
  datatype PrimitiveKind = Boolean | Char | Byte | Short | Int | Long | Float | Double

  /** What `Class.getName()` returns for the class object of a primitive type. */
  function PrimitiveName(k: PrimitiveKind): string
  {
    match k
    case Boolean => "boolean"
    case Char => "char"
    case Byte => "byte"
    case Short => "short"
    case Int => "int"
    case Long => "long"
    case Float => "float"
    case Double => "double"
  }

  /** The primitive type a name denotes, if any: the inverse of `PrimitiveName`. */
  function KindNamed(name: string): (r: Option<PrimitiveKind>)
    ensures r.Some? ==> PrimitiveName(r.value) == name
  {
    if name == "boolean" then Some(Boolean)
    else if name == "char" then Some(Char)
    else if name == "byte" then Some(Byte)
    else if name == "short" then Some(Short)
    else if name == "int" then Some(Int)
    else if name == "long" then Some(Long)
    else if name == "float" then Some(Float)
    else if name == "double" then Some(Double)
    else None
  }

  /** Naming a primitive type and reading the name back gives the type again,
      so no two primitive types share a name. */
  lemma KindNamedInvertsPrimitiveName(k: PrimitiveKind)
    ensures KindNamed(PrimitiveName(k)) == Some(k)
  {
  }

  /** The type of a constructor parameter: a primitive, or a reference type named
      by its fully-qualified class name. */
  datatype ParamType = Primitive(kind: PrimitiveKind) | Reference(className: string)

  /** A public constructor, known by the ordered list of its parameter types. */
  datatype Constructor = Constructor(parameterTypes: seq<ParamType>)

  /** Number of parameters, `getParameterTypes().length`. */
  function Arity(c: Constructor): nat
  {
    |c.parameterTypes|
  }

  /**
   An argument passed to a reflective constructor call: the null reference or
   a boxed primitive. Integral values are mathematical integers and floating
   values are reals; only zeros ever flow through this model, so no range or
   rounding is needed.
   */
  datatype Value =
    | Null
    | BoolValue(b: bool)
    | CharValue(c: char)
    | ByteValue(n: int)
    | ShortValue(n: int)
    | IntValue(n: int)
    | LongValue(n: int)
    | FloatValue(x: real)
    | DoubleValue(x: real)

  /** The default value of a primitive type (section 4.12.5 of the Java Language Specification). */
  function ZeroOf(k: PrimitiveKind): (v: Value)
    ensures v != Null
  {
    match k
    case Boolean => BoolValue(false)
    case Char => CharValue('\0')
    case Byte => ByteValue(0)
    case Short => ShortValue(0)
    case Int => IntValue(0)
    case Long => LongValue(0)
    case Float => FloatValue(0.0)
    case Double => DoubleValue(0.0)
  }

  /** The default value of any parameter type: null for references. */
  function DefaultFieldValue(t: ParamType): Value
  {
    match t
    case Primitive(k) => ZeroOf(k)
    case Reference(_) => Null
  }

  /**
   Method-invocation conversion as reflection applies it to one argument of
   a primitive parameter: unboxing followed by an identity or widening
   primitive conversion (section 5.1.2 of the Java Language Specification).
   `None` is the case where `Constructor.newInstance` throws
   `IllegalArgumentException`.
   */
  function Unbox(v: Value, k: PrimitiveKind): Option<Value>
  {
    match v
    case Null => None
    case BoolValue(b) => if k == Boolean then Some(v) else None
    case CharValue(c) =>
      (match k
       case Char => Some(v)
       case Int => Some(IntValue(c as int))
       case Long => Some(LongValue(c as int))
       case Float => Some(FloatValue(c as int as real))
       case Double => Some(DoubleValue(c as int as real))
       case _ => None)
    case ByteValue(n) =>
      (match k
       case Byte => Some(v)
       case Short => Some(ShortValue(n))
       case Int => Some(IntValue(n))
       case Long => Some(LongValue(n))
       case Float => Some(FloatValue(n as real))
       case Double => Some(DoubleValue(n as real))
       case _ => None)
    case ShortValue(n) =>
      (match k
       case Short => Some(v)
       case Int => Some(IntValue(n))
       case Long => Some(LongValue(n))
       case Float => Some(FloatValue(n as real))
       case Double => Some(DoubleValue(n as real))
       case _ => None)
    case IntValue(n) =>
      (match k
       case Int => Some(v)
       case Long => Some(LongValue(n))
       case Float => Some(FloatValue(n as real))
       case Double => Some(DoubleValue(n as real))
       case _ => None)
    case LongValue(n) =>
      (match k
       case Long => Some(v)
       case Float => Some(FloatValue(n as real))
       case Double => Some(DoubleValue(n as real))
       case _ => None)
    case FloatValue(x) =>
      (match k
       case Float => Some(v)
       case Double => Some(DoubleValue(x))
       case _ => None)
    case DoubleValue(x) => if k == Double then Some(v) else None
  }

  /** What a parameter of type `t` receives when `v` is passed for it reflectively;
      `None` when the call is rejected with `IllegalArgumentException`. A reference
      parameter is only ever handed null in this model, which every reference type admits. */
  function Convert(t: ParamType, v: Value): Option<Value>
  {
    match t
    case Primitive(k) => Unbox(v, k)
    case Reference(_) => if v == Null then Some(Null) else None
  }
}

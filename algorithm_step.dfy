/** The algorithm-queue entries of `image_processor.h`: the Halcon operator
    enumeration, the parameter dictionary of a step, and the conversions of
    Qt's `QVariant` that read it. */
module AlgorithmSteps {
  import opened Wrappers

  /** `HalconAlgoType`, in declaration order (tags 0 to 12). */
  datatype HalconAlgoType =
    | OpeningCircle | OpeningRect | ClosingCircle | ClosingRect
    | DilationCircle | DilationRect | ErosionCircle | ErosionRect
    | Union | Connection | FillUp | ShapeTrans | SelectShapeArea

  /** The integer value of an enumerator. */
  function Tag(t: HalconAlgoType): (n: nat)
    ensures n < 13
  {
    match t
    case OpeningCircle => 0
    case OpeningRect => 1
    case ClosingCircle => 2
    case ClosingRect => 3
    case DilationCircle => 4
    case DilationRect => 5
    case ErosionCircle => 6
    case ErosionRect => 7
    case Union => 8
    case Connection => 9
    case FillUp => 10
    case ShapeTrans => 11
    case SelectShapeArea => 12
  }

  /** `static_cast<HalconAlgoType>(n)`: the enumerator with value `n`, or
      `None` for a value no enumerator has. */
  function AlgoTypeOf(n: int): (t: Option<HalconAlgoType>)
    ensures t.Some? <==> 0 <= n < 13
  {
    if n == 0 then Some(OpeningCircle)
    else if n == 1 then Some(OpeningRect)
    else if n == 2 then Some(ClosingCircle)
    else if n == 3 then Some(ClosingRect)
    else if n == 4 then Some(DilationCircle)
    else if n == 5 then Some(DilationRect)
    else if n == 6 then Some(ErosionCircle)
    else if n == 7 then Some(ErosionRect)
    else if n == 8 then Some(Union)
    else if n == 9 then Some(Connection)
    else if n == 10 then Some(FillUp)
    else if n == 11 then Some(ShapeTrans)
    else if n == 12 then Some(SelectShapeArea)
    else None
  }

  /** The cast and the enumerator values are inverse to each other. */
  lemma TagRoundTrip(t: HalconAlgoType, n: int)
    ensures AlgoTypeOf(Tag(t)) == Some(t)
    ensures AlgoTypeOf(n).Some? ==> Tag(AlgoTypeOf(n).value) == n
  {
  }

  /** A `QVariant`: invalid (what a missing key reads as), or holding an
      integer, a double or a string. */
  datatype Variant = Invalid | IntV(i: int) | RealV(r: real) | TextV(s: string)

  /** The cross-type conversions of `QVariant` (rounding a double to an int,
      parsing a string, printing a number), which are Qt's own. */
  datatype VariantConv = VariantConv(
    intOfReal: real -> int,
    intOfText: string -> int,
    realOfText: string -> real,
    textOfInt: int -> string,
    textOfReal: real -> string)

  /** `QVariant::toInt`: an invalid variant reads as 0, an integer as itself. */
  function ToInt(conv: VariantConv, v: Variant): (n: int)
    ensures v.Invalid? ==> n == 0
    ensures v.IntV? ==> n == v.i
  {
    match v
    case Invalid => 0
    case IntV(i) => i
    case RealV(r) => conv.intOfReal(r)
    case TextV(s) => conv.intOfText(s)
  }

  /** `QVariant::toDouble`: an integer converts exactly, a double is itself. */
  function ToReal(conv: VariantConv, v: Variant): (x: real)
    ensures v.Invalid? ==> x == 0.0
    ensures v.IntV? ==> x == v.i as real
    ensures v.RealV? ==> x == v.r
  {
    match v
    case Invalid => 0.0
    case IntV(i) => i as real
    case RealV(r) => r
    case TextV(s) => conv.realOfText(s)
  }

  /** `QVariant::toString`: an invalid variant is the empty string. */
  function ToText(conv: VariantConv, v: Variant): (s: string)
    ensures v.Invalid? ==> s == ""
    ensures v.TextV? ==> s == v.s
  {
    match v
    case Invalid => ""
    case IntV(i) => conv.textOfInt(i)
    case RealV(r) => conv.textOfReal(r)
    case TextV(s) => s
  }

  type Params = map<string, Variant>

  /** `params[key]` on a constant map: the stored variant, or an invalid one. */
  function Get(p: Params, key: string): (v: Variant)
    ensures key !in p ==> v == Invalid
    ensures key in p ==> v == p[key]
  {
    if key in p then p[key] else Invalid
  }

  /** `params.value(key, dflt)`: the stored variant, or the default. */
  function ValueOr(p: Params, key: string, dflt: Variant): (v: Variant)
    ensures key !in p ==> v == dflt
    ensures key in p ==> v == p[key]
  {
    if key in p then p[key] else dflt
  }

  /** `AlgorithmStep`: display name, type tag, parameters, switch and note. */
  datatype AlgorithmStep = AlgorithmStep(
    name: string, kind: string, params: Params, enabled: bool, description: string)

  /** The type tag of the steps the queue executes. */
  const HalconKind: string := "HalconAlgorithm"

  /** Whether the queue executes a step: enabled and of the Halcon kind. */
  predicate Runs(s: AlgorithmStep)
  {
    s.enabled && s.kind == HalconKind
  }

  /** A new step is enabled (`enabled = true` by default). */
  function NewStep(name: string, kind: string, params: Params, description: string): (s: AlgorithmStep)
    ensures s.enabled && s.name == name && s.kind == kind && s.params == params
    ensures Runs(s) <==> kind == HalconKind
  {
    AlgorithmStep(name, kind, params, true, description)
  }
}

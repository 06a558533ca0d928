/**
 * The values an option can hold, the option types the model supports, and
 * the scalar rendering `boost::lexical_cast<std::string>` performs
 * (raconfig/include/raconfig/raconfig.hpp:86-104).
 *
 * Container user values (vector, set, multiset and their unordered variants)
 * are represented by the sequence the container yields when iterated: that is
 * what `std::begin(v), std::end(v)` hand to the backend and to the renderers.
 */
module Values {
  import opened Colors

  /** The comparator of an ordered container: `std::less` or `std::greater`. */
  datatype Order = Less | Greater

  /** The inclusive range of an integer type (unsigned short, unsigned, int). */
  datatype Bounds = Bounds(lo: int, hi: int)

  datatype ScalarKind = TextKind | IntKind(range: Bounds) | BoolKind | ColorKind

  /**
   * The C++ type of an option. Plain and Vector use the identity adaptor
   * (`option_value<T>`); the four set kinds use `convertible_option_value`
   * with a `std::vector` backend.
   */
  datatype Shape =
    | Plain(kind: ScalarKind)
    | Vector(elem: Bounds)
    | OrderedSet(elem: Bounds, cmp: Order)
    | OrderedMultiset(elem: Bounds, cmp: Order)
    | UnorderedSet(elem: Bounds)
    | UnorderedMultiset(elem: Bounds)

  datatype Scalar = Text(text: string) | Int(n: int) | Bool(b: bool) | Hue(c: Color)

  /** A scalar, or a container given by its elements in iteration order. */
  datatype Value = One(scalar: Scalar) | Many(elems: seq<int>)

  predicate InBounds(b: Bounds, x: int)
  {
    b.lo <= x <= b.hi
  }

  /** `v` is a well-typed value of an option of type `shape`. */
  predicate Conforms(shape: Shape, v: Value)
  {
    match shape
    case Plain(kind) =>
      v.One? &&
      (match kind
       case TextKind => v.scalar.Text?
       case IntKind(b) => v.scalar.Int? && InBounds(b, v.scalar.n)
       case BoolKind => v.scalar.Bool?
       case ColorKind => v.scalar.Hue?)
    case _ => v.Many? && forall x :: x in v.elems ==> InBounds(shape.elem, x)
  }

  function DigitChar(d: nat): char
    requires d < 10
  {
    "0123456789"[d]
  }

  /** Decimal text of a natural number, without leading zeros. */
  function NatToString(n: nat): string
  {
    if n < 10 then [DigitChar(n)] else NatToString(n / 10) + [DigitChar(n % 10)]
  }

  /** `lexical_cast<std::string>` of an integer. */
  function IntToString(n: int): string
  {
    if n < 0 then "-" + NatToString(-n) else NatToString(n)
  }

  /**
   * `lexical_cast<std::string>` of a scalar: a string is itself, a bool is
   * "1" or "0", a color goes through its `operator<<`.
   */
  function RenderScalar(s: Scalar): string
  {
    match s
    case Text(t) => t
    case Int(n) => IntToString(n)
    case Bool(b) => if b then "1" else "0"
    case Hue(c) => ColorToString(c)
  }
}

/** Element-type tables for vertex attributes (`Peridot::Utils`). */
module Utils {

  /** The element types a vertex attribute can have; `None` is the "not set" value. */
  datatype Type =
    | None
    | Bool | Int | Vec2i | Vec3i | Vec4i | Mat3x3i | Mat4x3i | Mat4x4i
    | Float | Vec2 | Vec3 | Vec4 | Mat3x3 | Mat4x3 | Mat4x4

  /** The scalar kind of a type's components. */
  datatype Scalar = BoolScalar | IntScalar | FloatScalar

  /** Rows by columns of components; a scalar is 1 x 1 and an n-vector n x 1. */
  datatype Shape = Shape(rows: nat, cols: nat)

  /** The shape a supported type's name announces (`Mat4x3` is 4 x 3). */
  function ShapeOf(t: Type): Shape
    requires t != None
  {
    match t
    case Bool | Int | Float => Shape(1, 1)
    case Vec2i | Vec2 => Shape(2, 1)
    case Vec3i | Vec3 => Shape(3, 1)
    case Vec4i | Vec4 => Shape(4, 1)
    case Mat3x3i | Mat3x3 => Shape(3, 3)
    case Mat4x3i | Mat4x3 => Shape(4, 3)
    case Mat4x4i | Mat4x4 => Shape(4, 4)
  }

  /** The scalar kind a supported type's name announces (an `i` suffix means integer). */
  function ScalarOf(t: Type): Scalar
    requires t != None
  {
    match t
    case Bool => BoolScalar
    case Int | Vec2i | Vec3i | Vec4i | Mat3x3i | Mat4x3i | Mat4x4i => IntScalar
    case Float | Vec2 | Vec3 | Vec4 | Mat3x3 | Mat4x3 | Mat4x4 => FloatScalar
  }

  /** Printable name of every type, `None` included. */
  function TypeName(t: Type): (name: string)
    ensures |name| > 6 && name[..6] == "Type::"
  {
    match t
    case None => "Type::None"
    case Bool => "Type::Bool"
    case Int => "Type::Int"
    case Vec2i => "Type::Vec2i"
    case Vec3i => "Type::Vec3i"
    case Vec4i => "Type::Vec4i"
    case Mat3x3i => "Type::Mat3x3i"
    case Mat4x3i => "Type::Mat4x3i"
    case Mat4x4i => "Type::Mat4x4i"
    case Float => "Type::Float"
    case Vec2 => "Type::Vec2"
    case Vec3 => "Type::Vec3"
    case Vec4 => "Type::Vec4"
    case Mat3x3 => "Type::Mat3x3"
    case Mat4x3 => "Type::Mat4x3"
    case Mat4x4 => "Type::Mat4x4"
  }

  /** Number of components of a supported type: rows times columns of its shape. */
  function TypeSize(t: Type): (n: nat)
    requires t != None
    ensures n == ShapeOf(t).rows * ShapeOf(t).cols
    ensures 1 <= n <= 16
  {
    match t
    case Bool | Int | Float => 1
    case Vec2 | Vec2i => 2
    case Vec3 | Vec3i => 3
    case Vec4 | Vec4i => 4
    case Mat3x3 | Mat3x3i => 9
    case Mat4x3 | Mat4x3i => 12
    case Mat4x4 | Mat4x4i => 16
  }

  /** Bytes of a supported type: every component takes four bytes. */
  function SizeInBytes(t: Type): (bytes: nat)
    requires t != None
    ensures bytes == 4 * TypeSize(t)
    ensures bytes > 0
  {
    match t
    case Bool | Int | Float => 4
    case Vec2 | Vec2i => 8
    case Vec3 | Vec3i => 12
    case Vec4 | Vec4i => 16
    case Mat3x3 | Mat3x3i => 36
    case Mat4x3 | Mat4x3i => 48
    case Mat4x4 | Mat4x4i => 64
  }

  /** Two types of the same shape (an integer type and its float twin) have the same sizes. */
  lemma SameShapeSameSize(a: Type, b: Type)
    requires a != None && b != None
    requires ShapeOf(a) == ShapeOf(b)
    ensures TypeSize(a) == TypeSize(b)
    ensures SizeInBytes(a) == SizeInBytes(b)
  {
  }

  /** Every float type has an integer twin of the same shape, and conversely (Bool aside). */
  lemma IntegerAndFloatTwins(t: Type)
    requires t != None && t != Bool
    ensures exists u: Type :: u != None && ShapeOf(u) == ShapeOf(t) && ScalarOf(u) != ScalarOf(t) && u != Bool
  {
    var u := match t
      case Int => Float case Float => Int
      case Vec2i => Vec2 case Vec2 => Vec2i
      case Vec3i => Vec3 case Vec3 => Vec3i
      case Vec4i => Vec4 case Vec4 => Vec4i
      case Mat3x3i => Mat3x3 case Mat3x3 => Mat3x3i
      case Mat4x3i => Mat4x3 case Mat4x3 => Mat4x3i
      case Mat4x4i => Mat4x4 case Mat4x4 => Mat4x4i;
    assert u != None && ShapeOf(u) == ShapeOf(t) && ScalarOf(u) != ScalarOf(t) && u != Bool;
  }

  /** Value of a decimal digit character. */
  function DigitValue(c: char): nat
    requires '0' <= c <= '9'
  {
    (c as int) - ('0' as int)
  }

  /** The scalar kind is what the name says: `Type::Bool` is boolean, `Type::Int` and the names
      ending in `i` are integer, all others are float. */
  lemma ScalarOfMatchesName(t: Type)
    requires t != None
    ensures ScalarOf(t) == BoolScalar <==> TypeName(t) == "Type::Bool"
    ensures ScalarOf(t) == IntScalar <==> (TypeName(t) == "Type::Int" || TypeName(t)[|TypeName(t)| - 1] == 'i')
  {
  }

  /** The shape is what the name says: `Type::Vec<n>...` is n x 1, `Type::Mat<r>x<c>...` is r x c,
      and the scalar names are 1 x 1. */
  lemma {:induction false} ShapeOfMatchesName(t: Type)
    requires t != None
    ensures var name := TypeName(t);
      && (name[6] == 'V' ==> |name| >= 10 && '0' <= name[9] <= '9' && ShapeOf(t) == Shape(DigitValue(name[9]), 1))
      && (name[6] == 'M' ==> |name| >= 12 && '0' <= name[9] <= '9' && name[10] == 'x' && '0' <= name[11] <= '9'
                             && ShapeOf(t) == Shape(DigitValue(name[9]), DigitValue(name[11])))
      && (name[6] != 'V' && name[6] != 'M' ==> ShapeOf(t) == Shape(1, 1))
  {
    var name := TypeName(t);
    match t
    case Bool | Int | Float => assert name[6] != 'V' && name[6] != 'M';
    case Vec2i | Vec2 => assert name[6] == 'V' && name[9] == '2';
    case Vec3i | Vec3 => assert name[6] == 'V' && name[9] == '3';
    case Vec4i | Vec4 => assert name[6] == 'V' && name[9] == '4';
    case Mat3x3i | Mat3x3 => assert name[6] == 'M' && name[9] == '3' && name[10] == 'x' && name[11] == '3';
    case Mat4x3i | Mat4x3 => assert name[6] == 'M' && name[9] == '4' && name[10] == 'x' && name[11] == '3';
    case Mat4x4i | Mat4x4 => assert name[6] == 'M' && name[9] == '4' && name[10] == 'x' && name[11] == '4';
  }

  /** No two types share a name. */
  lemma TypeNameInjective(a: Type, b: Type)
    requires TypeName(a) == TypeName(b)
    ensures a == b
  {
  }
}

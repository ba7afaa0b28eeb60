/** Field values of the structured logger: the closed variant of value kinds,
    the C character arrays the header works with, and the text a value is
    rendered as. */
module Values {

  newtype int8 = x: int | -0x80 <= x < 0x80
  newtype uint8 = x: int | 0 <= x < 0x100
  newtype int16 = x: int | -0x8000 <= x < 0x8000
  newtype uint16 = x: int | 0 <= x < 0x1_0000
  newtype int32 = x: int | -0x8000_0000 <= x < 0x8000_0000
  newtype uint32 = x: int | 0 <= x < 0x1_0000_0000
  newtype uint64 = x: int | 0 <= x < 0x1_0000_0000_0000_0000

  /** A C character array `const char[N]`: N is at least 1, and its last slot
      is the terminator slot, which the `strlenConst` copies leave out. */
  type CharArray = s: seq<char> | |s| > 0 witness "\0"

  /** The number of characters of an array before its terminator slot. */
  function StrlenConst(str: CharArray): (n: nat)
    ensures n < |str| && n + 1 == |str|
  {
    |str| - 1
  }

  /** The characters an array contributes when copied with `StrlenConst`. */
  function Chars(str: CharArray): (s: string)
    ensures |s| + 1 == |str|
    ensures str == s + [str[|str| - 1]]
  {
    str[..StrlenConst(str)]
  }

  const FieldMsgKey: CharArray := "msg\0"
  const FieldErrKey: CharArray := "error\0"
  const FieldDelim: CharArray := "=\0"
  const FieldValueQuoted: CharArray := "'\0"

  /** A literal loses exactly its terminator when copied. */
  lemma CharsOfLiteral(s: string)
    ensures Chars(s + "\0") == s
  {
  }

  /** The header's four field constants (the two keys, the delimiter and the
      quote), as the text they contribute. */
  lemma FieldConstants()
    ensures Chars(FieldMsgKey) == "msg"
    ensures Chars(FieldErrKey) == "error"
    ensures Chars(FieldDelim) == "="
    ensures Chars(FieldValueQuoted) == "'"
  {
    CharsOfLiteral("msg");
    CharsOfLiteral("error");
    CharsOfLiteral("=");
    CharsOfLiteral("'");
  }

  datatype Option<T> = None | Some(value: T)

  /** A `const char *` as a formatter reads it: the characters before its
      first terminator, so none of them is a terminator. */
  type CString = s: string | '\0' !in s

  /** The value kinds a field may hold; there is no 64-bit signed kind.
      Floating-point values carry the text the formatter gives them. */
  datatype Value =
    | I8(i8: int8)
    | U8(u8: uint8)
    | I16(i16: int16)
    | U16(u16: uint16)
    | I32(i32: int32)
    | U32(u32: uint32)
    | U64(u64: uint64)
    | Float(floatText: string)
    | Double(doubleText: string)
    | Bool(b: bool)
    | Owned(str: string)
    | Borrowed(cstr: CString)
  {
    predicate IsInteger() {
      I8? || U8? || I16? || U16? || I32? || U32? || U64?
    }

    /** The number an integer value holds. */
    function IntegerValue(): int
      requires IsInteger()
    {
      match this
      case I8(x) => x as int
      case U8(x) => x as int
      case I16(x) => x as int
      case U16(x) => x as int
      case I32(x) => x as int
      case U32(x) => x as int
      case U64(x) => x as int
    }
  }

  predicate IsDigit(c: char) {
    '0' <= c <= '9'
  }

  predicate AllDigits(s: string) {
    forall i :: 0 <= i < |s| ==> IsDigit(s[i])
  }

  function Digit(d: nat): (c: char)
    requires d < 10
    ensures IsDigit(c)
  {
    ('0' as int + d) as char
  }

  function DigitValue(c: char): nat
    requires IsDigit(c)
  {
    c as int - '0' as int
  }

  /** Decimal numeral of a natural number, most significant digit first. */
  function NatText(n: nat): (s: string)
    ensures |s| > 0 && AllDigits(s)
    ensures s[0] == '0' ==> n == 0
    decreases n
  {
    if n < 10 then [Digit(n)] else NatText(n / 10) + [Digit(n % 10)]
  }

  /** Decimal numeral of an integer: a minus sign before a negative number. */
  function IntText(i: int): string {
    if i < 0 then "-" + NatText(-i) else NatText(i)
  }

  /** The text shape a decimal numeral has. */
  predicate IsNumeral(s: string) {
    |s| > 0 &&
    if s[0] == '-' then |s| > 1 && AllDigits(s[1..]) else AllDigits(s)
  }

  /** Reads a string of digits back as a number. */
  function ParseNat(s: string): nat
    requires AllDigits(s)
  {
    if s == [] then 0 else ParseNat(s[..|s| - 1]) * 10 + DigitValue(s[|s| - 1])
  }

  function ParseInt(s: string): int
    requires IsNumeral(s)
  {
    if s[0] == '-' then -(ParseNat(s[1..]) as int) else ParseNat(s)
  }

  lemma {:induction false} ParseNatText(n: nat)
    ensures ParseNat(NatText(n)) == n
    decreases n
  {
    if n < 10 {
      assert NatText(n)[..0] == [];
    } else {
      var s := NatText(n);
      assert s[..|s| - 1] == NatText(n / 10);
      ParseNatText(n / 10);
    }
  }

  /** Reading the numeral of an integer gives back that integer. */
  lemma ParseIntText(i: int)
    ensures IsNumeral(IntText(i))
    ensures ParseInt(IntText(i)) == i
  {
    if i < 0 {
      assert IntText(i)[1..] == NatText(-i);
      ParseNatText(-i);
    } else {
      ParseNatText(i);
    }
  }

  /** The text a value is formatted as inside a field: decimal for integers,
      `true`/`false` for booleans, the characters themselves for text, and the
      carried rendering for floating point. */
  function Text(v: Value): string {
    match v
    case I8(x) => IntText(x as int)
    case U8(x) => IntText(x as int)
    case I16(x) => IntText(x as int)
    case U16(x) => IntText(x as int)
    case I32(x) => IntText(x as int)
    case U32(x) => IntText(x as int)
    case U64(x) => IntText(x as int)
    case Float(t) => t
    case Double(t) => t
    case Bool(b) => if b then "true" else "false"
    case Owned(s) => s
    case Borrowed(s) => s
  }

  /** An integer value is written as its decimal numeral, which reads back as
      the same number and never holds a quote or a terminator. */
  lemma TextOfInteger(v: Value)
    requires v.IsInteger()
    ensures IsNumeral(Text(v))
    ensures ParseInt(Text(v)) == v.IntegerValue()
    ensures '\'' !in Text(v) && '\0' !in Text(v)
  {
    var i := v.IntegerValue();
    assert Text(v) == IntText(i);
    ParseIntText(i);
    var s := IntText(i);
    forall k | 0 <= k < |s| ensures s[k] != '\'' && s[k] != '\0' {
      if k > 0 || s[0] != '-' {
        if s[0] == '-' {
          assert IsDigit(s[1..][k - 1]);
        } else {
          assert IsDigit(s[k]);
        }
      }
    }
  }

  /** Booleans are written as words. */
  lemma TextOfBool(b: bool)
    ensures Text(Bool(b)) == (if b then "true" else "false")
    ensures '\'' !in Text(Bool(b)) && '\0' !in Text(Bool(b))
  {
  }
}

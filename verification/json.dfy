/** Option, shared by every module of the model. */
module Common {

  datatype Option<+T> = None | Some(value: T) {
    function GetOr(default: T): T {
      match this
      case Some(v) => v
      case None => default
    }
  }
}

/**
 * JSON values as the edge device and the worker exchange them, and the hex
 * text encoding of image bytes used inside the image envelope
 * (bytes.hex() on the edge, bytes.fromhex() in the worker).
 */
module Json {
  import opened Common

  newtype byte = x: int | 0 <= x < 256

  /** A decoded JSON document. Numbers are kept as reals. */
  datatype Value =
    | Null
    | Bool(b: bool)
    | Num(n: real)
    | Str(s: string)
    | Arr(items: seq<Value>)
    | Obj(fields: map<string, Value>)

  /** Python's dict.get(key, default). */
  function Get(fields: map<string, Value>, key: string, default: Value): (v: Value)
    ensures key in fields ==> v == fields[key]
    ensures key !in fields ==> v == default
  {
    if key in fields then fields[key] else default
  }

  const HEX_DIGITS := "0123456789abcdef"

  /** The lowercase hex digit of a nibble. */
  function HexChar(n: int): (c: char)
    requires 0 <= n < 16
    ensures IsHexDigit(c) && DigitValue(c) == n
    ensures '0' <= c <= '9' || 'a' <= c <= 'f'
  {
    HEX_DIGITS[n]
  }

  /** Characters bytes.fromhex accepts as digits (either case). */
  predicate IsHexDigit(c: char) {
    '0' <= c <= '9' || 'a' <= c <= 'f' || 'A' <= c <= 'F'
  }

  /** ASCII whitespace, which bytes.fromhex skips between byte pairs. */
  predicate IsSpace(c: char) {
    c == ' ' || c == '\t' || c == '\n' || c == '\r' || c == '\U{000B}' || c == '\U{000C}'
  }

  function DigitValue(c: char): (n: int)
    requires IsHexDigit(c)
    ensures 0 <= n < 16
  {
    if '0' <= c <= '9' then c as int - '0' as int
    else if 'a' <= c <= 'f' then c as int - 'a' as int + 10
    else c as int - 'A' as int + 10
  }

  /** bytes.hex(): two lowercase digits per byte, high nibble first. */
  function ToHex(b: seq<byte>): (s: string)
    ensures |s| == 2 * |b|
    ensures forall i :: 0 <= i < |s| ==> '0' <= s[i] <= '9' || 'a' <= s[i] <= 'f'
  {
    if b == [] then []
    else [HexChar(b[0] as int / 16), HexChar(b[0] as int % 16)] + ToHex(b[1..])
  }

  /**
   * bytes.fromhex(): whitespace may separate byte pairs but not split one;
   * a non-hex character or a lone trailing digit is an error (None).
   */
  function FromHex(s: string): (r: Option<seq<byte>>)
    ensures r.Some? ==> 2 * |r.value| <= |s|
    decreases |s|
  {
    if s == [] then Some([])
    else if IsSpace(s[0]) then FromHex(s[1..])
    else if |s| >= 2 && IsHexDigit(s[0]) && IsHexDigit(s[1]) then
      match FromHex(s[2..])
      case None => None
      case Some(rest) => Some([(DigitValue(s[0]) * 16 + DigitValue(s[1])) as byte] + rest)
    else None
  }

  /** The worker recovers exactly the bytes the edge device encoded. */
  lemma {:induction false} HexRoundTrip(b: seq<byte>)
    ensures FromHex(ToHex(b)) == Some(b)
  {
    if b != [] {
      var s := ToHex(b);
      EncodeFirst(b);
      HexRoundTrip(b[1..]);
      DecodePair(s, b[1..]);
      NibblesRoundTrip(b[0]);
      assert [b[0]] + b[1..] == b;
    }
  }

  /** A non-empty encoding starts with the first byte's two digits, then encodes the rest. */
  lemma EncodeFirst(b: seq<byte>)
    requires b != []
    ensures var s := ToHex(b);
      && s[0] == HexChar(b[0] as int / 16) && s[1] == HexChar(b[0] as int % 16)
      && s[2..] == ToHex(b[1..])
  {
    var s := ToHex(b);
    assert s == [HexChar(b[0] as int / 16), HexChar(b[0] as int % 16)] + ToHex(b[1..]);
  }

  /** Two hex digits in front of a decodable rest decode to one more byte. */
  lemma DecodePair(s: string, rest: seq<byte>)
    requires |s| >= 2 && IsHexDigit(s[0]) && IsHexDigit(s[1]) && !IsSpace(s[0])
    requires FromHex(s[2..]) == Some(rest)
    ensures FromHex(s) == Some([(DigitValue(s[0]) * 16 + DigitValue(s[1])) as byte] + rest)
  {
  }

  /** A byte is its high nibble times sixteen plus its low nibble. */
  lemma NibblesRoundTrip(x: byte)
    ensures (DigitValue(HexChar(x as int / 16)) * 16 + DigitValue(HexChar(x as int % 16))) as byte == x
  {
  }

  /** A string of odd length with no whitespace is always rejected. */
  lemma {:induction false} OddLengthRejected(s: string)
    requires |s| % 2 == 1
    requires forall i :: 0 <= i < |s| ==> !IsSpace(s[i])
    ensures FromHex(s) == None
  {
    if |s| >= 2 && IsHexDigit(s[0]) && IsHexDigit(s[1]) {
      OddLengthRejected(s[2..]);
    }
  }

  /** A character that is neither a hex digit nor whitespace makes decoding fail. */
  lemma {:induction false} NonHexRejected(s: string, k: nat)
    requires k < |s| && !IsHexDigit(s[k]) && !IsSpace(s[k])
    ensures FromHex(s) == None
  {
    if IsSpace(s[0]) {
      NonHexRejected(s[1..], k - 1);
    } else if |s| >= 2 && IsHexDigit(s[0]) && IsHexDigit(s[1]) {
      NonHexRejected(s[2..], k - 2);
    }
  }
}

/**
  Opaque pagination cursors (app/utils/pagination.py): a JSON integer (section 6
  of RFC 8259) in padded base64url (section 5 of RFC 4648).
 */
module CursorCodec {
  import opened Common

  type byte = x: int | 0 <= x < 256
  type sextet = x: int | 0 <= x < 64

  // ------------------------------------------------------------ JSON integers

  function Digit(d: int): char
    requires 0 <= d < 10
  {
    ('0' as int + d) as char
  }

  /** Decimal digits without leading zeros. */
  function Digits(n: nat): (s: string)
    ensures |s| >= 1
  {
    if n < 10 then [Digit(n)] else Digits(n / 10) + [Digit(n % 10)]
  }

  /** `json.dumps` of an integer. */
  function PrintInt(n: int): string
  {
    if n < 0 then "-" + Digits(-n) else Digits(n)
  }

  predicate IsDigit(c: char) { '0' <= c <= '9' }

  /** The value of a digit string; None if some character is no digit. */
  function ParseDigits(s: string): Option<nat>
  {
    if s == [] then Some(0)
    else
      var c := s[|s| - 1];
      var before := ParseDigits(s[..|s| - 1]);
      if before.None? || !IsDigit(c) then None else Some(10 * before.value + (c as int - '0' as int))
  }

  /** `json.loads` on integer literals: an optional minus, then 0 or digits with no leading zero. */
  function ParseInt(s: string): Option<int>
  {
    var body := if s != [] && s[0] == '-' then s[1..] else s;
    if body == [] || (body[0] == '0' && |body| > 1) then None
    else
      match ParseDigits(body)
      case None => None
      case Some(n) =>
        var v: int := n;
        Some(if body == s then v else -v)
  }

  lemma {:induction false} DigitsParse(n: nat)
    ensures ParseDigits(Digits(n)) == Some(n)
    ensures IsDigit(Digits(n)[0]) && (Digits(n)[0] == '0' ==> |Digits(n)| == 1)
    decreases n
  {
    var s := Digits(n);
    if n < 10 {
      assert s[..|s| - 1] == [];
    } else {
      DigitsParse(n / 10);
      assert s[..|s| - 1] == Digits(n / 10);
      assert s[0] == Digits(n / 10)[0];
      if s[0] == '0' { LeadingZero(n / 10); }
    }
  }

  /** Only zero prints with a leading zero. */
  lemma {:induction false} LeadingZero(n: nat)
    requires Digits(n)[0] == '0'
    ensures n == 0
    decreases n
  {
    if n >= 10 { LeadingZero(n / 10); }
  }

  lemma IntRoundTrip(n: int)
    ensures ParseInt(PrintInt(n)) == Some(n)
  {
    var m := if n < 0 then -n else n;
    DigitsParse(m);
    if n < 0 { assert PrintInt(n)[1..] == Digits(m); }
  }

  // --------------------------------------------------------------- base64url

  function Symbol(v: int): char
    requires 0 <= v < 64
  {
    if v < 26 then ('A' as int + v) as char
    else if v < 52 then ('a' as int + v - 26) as char
    else if v < 62 then ('0' as int + v - 52) as char
    else if v == 62 then '-'
    else '_'
  }

  function SymbolValue(c: char): Option<sextet>
  {
    if 'A' <= c <= 'Z' then Some(c as int - 'A' as int)
    else if 'a' <= c <= 'z' then Some(c as int - 'a' as int + 26)
    else if '0' <= c <= '9' then Some(c as int - '0' as int + 52)
    else if c == '-' then Some(62)
    else if c == '_' then Some(63)
    else None
  }

  lemma SymbolRoundTrip(v: int)
    requires 0 <= v < 64
    ensures SymbolValue(Symbol(v)) == Some(v) && Symbol(v) != '='
  {
  }

  /** The padded group of the last one or two bytes. */
  function EncodeTail(b: seq<byte>): (s: string)
    requires 1 <= |b| <= 2
    ensures |s| == 4 && s[3] == '='
  {
    if |b| == 1 then [Symbol(b[0] / 4), Symbol(b[0] % 4 * 16), '=', '=']
    else [Symbol(b[0] / 4), Symbol(b[0] % 4 * 16 + b[1] / 16), Symbol(b[1] % 16 * 4), '=']
  }

  /** `base64.urlsafe_b64encode`: three bytes to four symbols, padded with '='. */
  function Encode64(b: seq<byte>): string
  {
    if b == [] then []
    else if |b| <= 2 then EncodeTail(b)
    else [Symbol(b[0] / 4), Symbol(b[0] % 4 * 16 + b[1] / 16), Symbol(b[1] % 16 * 4 + b[2] / 64), Symbol(b[2] % 64)]
         + Encode64(b[3..])
  }

  /** One or two bytes from a padded group; the spare bits must be zero. */
  function DecodeTail(s: string): Option<seq<byte>>
    requires |s| == 4
  {
    var v0, v1, v2 := SymbolValue(s[0]), SymbolValue(s[1]), SymbolValue(s[2]);
    if v0.None? || v1.None? then None
    else if s[2] == '=' then (if v1.value % 16 == 0 then Some([v0.value * 4 + v1.value / 16]) else None)
    else if v2.None? || v2.value % 4 != 0 then None
    else Some([v0.value * 4 + v1.value / 16, v1.value % 16 * 16 + v2.value / 4])
  }

  /** Four symbol values to three bytes. */
  function Group(v0: sextet, v1: sextet, v2: sextet, v3: sextet): seq<byte>
  {
    [v0 * 4 + v1 / 16, v1 % 16 * 16 + v2 / 4, v2 % 4 * 64 + v3]
  }

  /** `base64.urlsafe_b64decode` on padded text; None where it is not canonical base64url. */
  function Decode64(s: string): Option<seq<byte>>
  {
    if s == [] then Some([])
    else if |s| < 4 then None
    else if |s| == 4 && s[3] == '=' then DecodeTail(s)
    else
      var v0, v1, v2, v3 := SymbolValue(s[0]), SymbolValue(s[1]), SymbolValue(s[2]), SymbolValue(s[3]);
      if v0.None? || v1.None? || v2.None? || v3.None? then None
      else
        match Decode64(s[4..])
        case None => None
        case Some(rest) =>
          Some(Group(v0.value, v1.value, v2.value, v3.value) + rest)
  }

  /** One group of three bytes survives its four symbols. */
  lemma GroupRoundTrip(a: byte, b: byte, c: byte)
    ensures var v0, v1, v2, v3 := a / 4, a % 4 * 16 + b / 16, b % 16 * 4 + c / 64, c % 64;
      && SymbolValue(Symbol(v0)) == Some(v0) && SymbolValue(Symbol(v1)) == Some(v1)
      && SymbolValue(Symbol(v2)) == Some(v2) && SymbolValue(Symbol(v3)) == Some(v3)
      && Symbol(v2) != '=' && Symbol(v3) != '='
      && Group(v0, v1, v2, v3) == [a, b, c]
  {
    SymbolRoundTrip(a / 4);
    SymbolRoundTrip(a % 4 * 16 + b / 16);
    SymbolRoundTrip(b % 16 * 4 + c / 64);
    SymbolRoundTrip(c % 64);
  }

  lemma TailRoundTrip(b: seq<byte>)
    requires 1 <= |b| <= 2
    ensures DecodeTail(EncodeTail(b)) == Some(b)
  {
    hide Symbol, SymbolValue;
    SymbolRoundTrip(b[0] / 4);
    if |b| == 1 {
      SymbolRoundTrip(b[0] % 4 * 16);
      assert DecodeTail(EncodeTail(b)).value == [b[0]] == b;
    } else {
      SymbolRoundTrip(b[0] % 4 * 16 + b[1] / 16);
      SymbolRoundTrip(b[1] % 16 * 4);
      assert DecodeTail(EncodeTail(b)).value == [b[0], b[1]] == b;
    }
  }

  /** A full group in front of text that already survives. */
  lemma GroupStep(b: seq<byte>, rest: string)
    requires |b| >= 3 && Encode64(b[3..]) == rest && Decode64(rest) == Some(b[3..])
    ensures Decode64(Encode64(b)) == Some(b)
  {
    hide Symbol, SymbolValue, EncodeTail, DecodeTail, Group;
    GroupRoundTrip(b[0], b[1], b[2]);
    var s := Encode64(b);
    assert s[4..] == rest;
    assert [b[0], b[1], b[2]] + b[3..] == b;
  }

  lemma {:induction false} Base64RoundTrip(b: seq<byte>)
    ensures Decode64(Encode64(b)) == Some(b)
    decreases |b|
  {
    if 1 <= |b| <= 2 {
      hide Symbol, SymbolValue, EncodeTail, DecodeTail;
      TailRoundTrip(b);
    } else if |b| >= 3 {
      hide Encode64, Decode64;
      Base64RoundTrip(b[3..]);
      GroupStep(b, Encode64(b[3..]));
    }
  }

  // ------------------------------------------------------------------ cursors

  function ToBytes(s: string): seq<byte>
    requires forall i | 0 <= i < |s| :: s[i] as int < 128
  {
    seq(|s|, i requires 0 <= i < |s| => s[i] as int)
  }

  /** ASCII text of the bytes; None outside ASCII. */
  function FromBytes(b: seq<byte>): Option<string>
  {
    if forall i | 0 <= i < |b| :: b[i] < 128
    then Some(seq(|b|, i requires 0 <= i < |b| => b[i] as char))
    else None
  }

  lemma {:induction false} PrintedDigitsAreAscii(n: nat)
    ensures forall i | 0 <= i < |Digits(n)| :: Digits(n)[i] as int < 128
    decreases n
  {
    if n >= 10 { PrintedDigitsAreAscii(n / 10); }
  }

  lemma PrintedIntIsAscii(n: int)
    ensures forall i | 0 <= i < |PrintInt(n)| :: PrintInt(n)[i] as int < 128
  {
    PrintedDigitsAreAscii(if n < 0 then -n else n);
  }

  function EncodeCursor(n: int): string
  {
    PrintedIntIsAscii(n);
    Encode64(ToBytes(PrintInt(n)))
  }

  function DecodeCursor(s: string): Option<int>
  {
    match Decode64(s)
    case None => None
    case Some(b) =>
      match FromBytes(b)
      case None => None
      case Some(text) => ParseInt(text)
  }

  /** Every integer survives the trip through its cursor, and the cursor is never empty. */
  lemma CursorRoundTrip(n: int)
    ensures DecodeCursor(EncodeCursor(n)) == Some(n)
    ensures EncodeCursor(n) != ""
  {
    hide Decode64, ParseInt;
    PrintedIntIsAscii(n);
    var text := PrintInt(n);
    Base64RoundTrip(ToBytes(text));
    assert FromBytes(ToBytes(text)).value == text;
    IntRoundTrip(n);
  }

  /** The test vectors of section 10 of RFC 4648, and the two symbols of the URL-safe alphabet. */
  lemma KnownEncodings()
    ensures Encode64([102]) == "Zg==" && Encode64([102, 111]) == "Zm8=" && Encode64([102, 111, 111]) == "Zm9v"
    ensures Encode64([102, 111, 111, 98, 97, 114]) == "Zm9vYmFy"
    ensures Encode64([251, 255]) == "-_8="
  {
    var none: seq<byte>, foo: seq<byte>, bar: seq<byte> := [], [102, 111, 111], [98, 97, 114];
    assert foo[3..] == none && bar[3..] == none;
    assert Encode64(bar) == "YmFy";
    var foobar: seq<byte> := [102, 111, 111, 98, 97, 114];
    assert foobar[3..] == bar;
  }

  lemma KnownCursors()
    ensures EncodeCursor(0) == "MA==" && EncodeCursor(12) == "MTI=" && EncodeCursor(-1) == "LTE="
  {
    assert Digits(1) == "1" && Digits(12) == Digits(1) + "2";
    assert ToBytes(PrintInt(0)) == [48];
    assert ToBytes(PrintInt(12)) == [49, 50];
    assert ToBytes(PrintInt(-1)) == [45, 49];
  }
}

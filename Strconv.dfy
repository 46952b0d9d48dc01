/**
 * The part of Go's `strconv` and `fmt` that the API uses on integers and quoted
 * strings: decimal formatting (`%d`, `Itoa`), `ParseInt` and `Atoi` in base 10,
 * `Quote` and `Unquote`.
 */
module Strconv {
  import opened Wrappers

  /** The bit sizes the API asks `ParseInt` for. */
  datatype BitSize = Bits32 | Bits64

  /** 2^(bitSize-1): the magnitude of the most negative value of that size. */
  function Half(size: BitSize): nat {
    match size
    case Bits32 => 0x8000_0000
    case Bits64 => 0x8000_0000_0000_0000
  }

  predicate InRange(v: int, size: BitSize) {
    -(Half(size) as int) <= v < Half(size)
  }

  type Int32 = v: int | -0x8000_0000 <= v < 0x8000_0000
  type Int64 = v: int | -0x8000_0000_0000_0000 <= v < 0x8000_0000_0000_0000

  predicate IsDigit(c: char) {
    '0' <= c <= '9'
  }

  predicate AllDigits(s: string) {
    forall i :: 0 <= i < |s| ==> IsDigit(s[i])
  }

  /** The value of a string of decimal digits, most significant first. */
  function DecimalValue(s: string): nat
    requires AllDigits(s)
  {
    if s == [] then 0 else DecimalValue(s[..|s| - 1]) * 10 + (s[|s| - 1] as int - '0' as int)
  }

  function DigitChar(d: nat): (c: char)
    requires d < 10
    ensures IsDigit(c) && c as int - '0' as int == d
  {
    ('0' as int + d) as char
  }

  /** The decimal digits of `n`, with no leading zero. */
  function FormatNat(n: nat): (s: string)
    ensures s != [] && AllDigits(s)
    ensures DecimalValue(s) == n
    ensures s[0] == '0' ==> s == "0"
  {
    if n < 10 then [DigitChar(n)]
    else
      var s := FormatNat(n / 10) + [DigitChar(n % 10)];
      assert s[..|s| - 1] == FormatNat(n / 10);
      s
  }

  /** fmt's `%d` and strconv.Itoa: an optional minus sign and the digits of the magnitude. */
  function FormatInt(n: int): (s: string)
    ensures ' ' !in s && '"' !in s && '\\' !in s && '\n' !in s
    ensures s != [] && '/' !in s
  {
    if n < 0 then "-" + FormatNat(-n) else FormatNat(n)
  }

  /**
   * strconv.ParseInt(s, 10, bitSize): an optional sign, then at least one decimal
   * digit, and the value must fit the bit size. Every caller here treats the
   * syntax error and the range error alike, so both are `None`.
   */
  function ParseInt(s: string, size: BitSize): (r: Option<int>)
    ensures r.Some? ==> InRange(r.value, size)
    ensures r.Some? ==> s != [] && AllDigits(if s[0] == '+' || s[0] == '-' then s[1..] else s)
  {
    if s == [] then None
    else
      var digits := if s[0] == '+' || s[0] == '-' then s[1..] else s;
      if digits == [] || !AllDigits(digits) then None
      else
        var v := if s[0] == '-' then -(DecimalValue(digits) as int) else DecimalValue(digits);
        if InRange(v, size) then Some(v) else None
  }

  /** strconv.Atoi on a 64-bit platform, where `int` has 64 bits. */
  function Atoi(s: string): (r: Option<int>)
    ensures r.Some? ==> InRange(r.value, Bits64)
  {
    ParseInt(s, Bits64)
  }

  /** Formatting then parsing an in-range integer gives it back. */
  lemma ParseFormat(n: int, size: BitSize)
    requires InRange(n, size)
    ensures ParseInt(FormatInt(n), size) == Some(n)
  {
    var s := FormatInt(n);
    if n < 0 {
      assert s[1..] == FormatNat(-n);
    } else {
      assert s[0] != '+' && s[0] != '-';
    }
  }

  /** The escape sequence strconv.Quote writes for one character. */
  function EscapeChar(c: char): string {
    if c == '"' then ['\\', '"']
    else if c == '\\' then ['\\', '\\']
    else if c == '\n' then ['\\', 'n']
    else [c]
  }

  function Escape(s: string): string {
    if s == [] then [] else EscapeChar(s[0]) + Escape(s[1..])
  }

  /**
   * strconv.Quote, for the text it is applied to here (digits and " mins"): only the
   * double quote, the backslash and the newline are escaped. Go also escapes other
   * control and non-printable characters, which this model leaves as they are.
   */
  function Quote(s: string): (q: string)
    ensures |q| >= 2 && q[0] == '"' && q[|q| - 1] == '"'
  {
    "\"" + Escape(s) + "\""
  }

  /** The value of a hexadecimal digit, as Go's unhex reads it. */
  function HexDigit(c: char): (d: Option<nat>)
    ensures d.Some? ==> d.value < 16
  {
    if '0' <= c <= '9' then Some(c as nat - '0' as nat)
    else if 'a' <= c <= 'f' then Some(c as nat - 'a' as nat + 10)
    else if 'A' <= c <= 'F' then Some(c as nat - 'A' as nat + 10)
    else None
  }

  function Pow16(n: nat): nat {
    if n == 0 then 1 else 16 * Pow16(n - 1)
  }

  /** The value of a run of hexadecimal digits, most significant first; `None` on a non-digit. */
  function HexValue(s: string): (v: Option<nat>)
    ensures v.Some? ==> v.value < Pow16(|s|)
  {
    if s == [] then Some(0)
    else
      match HexValue(s[..|s| - 1])
      case None => None
      case Some(high) =>
        match HexDigit(s[|s| - 1])
        case None => None
        case Some(low) => Some(16 * high + low)
  }

  /** The value of an octal digit. */
  function OctalDigit(c: char): (d: Option<nat>)
    ensures d.Some? ==> d.value < 8
  {
    if '0' <= c <= '7' then Some(c as nat - '0' as nat) else None
  }

  /** utf8.ValidRune: a Unicode scalar value, the code points a `char` can hold. */
  predicate ValidRune(v: int) {
    0 <= v < 0xD800 || 0xE000 <= v <= 0x10FFFF
  }

  /** The one-letter escapes of Go string literals and the characters they stand for. */
  const LetterEscapes: map<char, char> :=
    map['a' := 7 as char, 'b' := 8 as char, 'f' := 12 as char, 'n' := '\n', 'r' := '\r',
        't' := '\t', 'v' := 11 as char, '\\' := '\\']

  /**
   * strconv.UnquoteChar on a non-empty body, together with unquote's rejection of a
   * raw newline: the first character the body denotes and how many characters of
   * it that took. `None` is ErrSyntax: a bare `quote` or newline, a lone backslash,
   * an unknown escape, too few or non-hexadecimal digits, a `\u` or `\U` value that
   * is not a Unicode scalar value, an octal value above 255, or an escaped quote of
   * the other kind. A `\x` or octal escape stands for one byte; it is the
   * character with that code here.
   */
  function DecodeChar(b: string, quote: char): (r: Option<(char, nat)>)
    requires b != []
    ensures r.Some? ==> 1 <= r.value.1 <= |b|
    ensures r.Some? && b[0] != '\\' ==> r.value == (b[0], 1)
    ensures r.Some? ==> b[0] != quote && b[0] != '\n'
  {
    if b[0] == quote || b[0] == '\n' then None
    else if b[0] != '\\' then Some((b[0], 1))
    else if |b| < 2 then None
    else
      var c := b[1];
      if c in LetterEscapes then Some((LetterEscapes[c], 2))
      else if c == '\'' || c == '"' then (if c == quote then Some((c, 2)) else None)
      else if c == 'x' || c == 'u' || c == 'U' then
        var n := if c == 'x' then 2 else if c == 'u' then 4 else 8;
        if |b| < 2 + n then None
        else
          match HexValue(b[2..2 + n])
          case None => None
          case Some(v) =>
            if c == 'x' then Some((v as char, 2 + n))
            else if ValidRune(v) then Some((v as char, 2 + n))
            else None
      else if '0' <= c <= '7' then
        if |b| < 4 then None
        else
          match OctalDigit(b[2])
          case None => None
          case Some(mid) =>
            match OctalDigit(b[3])
            case None => None
            case Some(low) =>
              var v := 64 * (c as nat - '0' as nat) + 8 * mid + low;
              if v > 255 then None else Some((v as char, 4))
      else None
  }

  /** The body of a double-quoted literal, decoded character by character; `None` on a syntax error. */
  function Unescape(b: string): Option<string>
    decreases |b|
  {
    if b == [] then Some([])
    else
      match DecodeChar(b, '"')
      case None => None
      case Some((c, n)) =>
        match Unescape(b[n..])
        case None => None
        case Some(rest) => Some([c] + rest)
  }

  /** Decoding a body yields its first character's denotation followed by the decoding of the rest. */
  lemma UnescapeDecoded(b: string, c: char, n: nat, rest: string)
    requires b != [] && DecodeChar(b, '"') == Some((c, n))
    requires Unescape(b[n..]) == Some(rest)
    ensures Unescape(b) == Some([c] + rest)
  {
  }

  /** A decimal digit written as a `\u` escape, `\u0030` to `\u0039`, in front of any tail. */
  lemma UnicodeEscapedDigit(c: char, tail: string)
    requires '0' <= c <= '9'
    ensures DecodeChar("\\u003" + [c] + tail, '"') == Some((c, 6))
  {
    var b := "\\u003" + [c] + tail;
    assert b[0] == '\\' && b[1] == 'u' && 'u' !in LetterEscapes;
    var digits := b[2..6];
    assert digits[..3] == "003" && digits[3] == c;
    assert HexValue("0") == Some(0);
    assert "00"[..1] == "0";
    assert HexValue("00") == Some(0);
    assert "003"[..2] == "00";
    assert HexValue("003") == Some(3);
    assert HexValue(digits) == Some(c as nat);
  }

  /** A double-quoted literal unquotes to the decoding of its body. */
  lemma UnquoteDoubleQuoted(body: string)
    ensures Unquote("\"" + body + "\"") == Unescape(body)
  {
    var q := "\"" + body + "\"";
    assert q[1..|q| - 1] == body;
  }

  /** A plain text whose leading digit is written as a `\u` escape decodes to the text itself. */
  lemma UnescapeEscapedLeadingDigit(t: string)
    requires t != [] && '0' <= t[0] <= '9'
    requires '"' !in t && '\\' !in t && '\n' !in t
    ensures Unescape("\\u003" + [t[0]] + t[1..]) == Some(t)
  {
    var tail := t[1..];
    var body := "\\u003" + [t[0]] + tail;
    UnicodeEscapedDigit(t[0], tail);
    assert body[6..] == tail;
    EscapePlain(tail);
    UnescapeEscape(tail);
    UnescapeDecoded(body, t[0], 6, tail);
    assert [t[0]] + tail == t;
  }

  /** The same text in double quotes unquotes to the text itself. */
  lemma UnquoteEscapedLeadingDigit(t: string)
    requires t != [] && '0' <= t[0] <= '9'
    requires '"' !in t && '\\' !in t && '\n' !in t
    ensures Unquote("\"" + ("\\u003" + [t[0]] + t[1..]) + "\"") == Some(t)
  {
    UnescapeEscapedLeadingDigit(t);
    UnquoteDoubleQuoted("\\u003" + [t[0]] + t[1..]);
  }

  /** Removes carriage returns, as Go does inside a raw string literal. */
  function RemoveCR(s: string): (r: string)
    ensures '\r' !in r
  {
    if s == [] then [] else (if s[0] == '\r' then [] else [s[0]]) + RemoveCR(s[1..])
  }

  /**
   * strconv.Unquote: a double-quoted, back-quoted or single-quoted Go literal,
   * decoded. `None` is Go's ErrSyntax.
   */
  function Unquote(q: string): (r: Option<string>)
    ensures r.Some? ==> |q| >= 2 && q[0] == q[|q| - 1] && q[0] in "\"`'"
    ensures r.Some? && q[0] == '\'' ==> |r.value| == 1
    ensures r.Some? && q[0] == '`' ==> '`' !in q[1..|q| - 1] && '\r' !in r.value
  {
    if |q| < 2 || q[0] != q[|q| - 1] then None
    else
      var body := q[1..|q| - 1];
      if q[0] == '"' then Unescape(body)
      else if q[0] == '`' then (if '`' in body then None else Some(RemoveCR(body)))
      else if q[0] == '\'' then
        (if body == [] then None
         else match DecodeChar(body, '\'')
           case None => None
           case Some((c, n)) => if n == |body| then Some([c]) else None)
      else None
  }

  lemma {:induction false} UnescapeEscape(s: string)
    ensures Unescape(Escape(s)) == Some(s)
    decreases |s|
  {
    if s != [] {
      UnescapeEscape(s[1..]);
      UnescapeStep(s[0], Escape(s[1..]), s[1..]);
      assert [s[0]] + s[1..] == s;
    }
  }

  /** Decoding undoes the escape of one character in front of a decodable tail. */
  lemma UnescapeStep(c: char, tail: string, rest: string)
    requires Unescape(tail) == Some(rest)
    ensures Unescape(EscapeChar(c) + tail) == Some([c] + rest)
  {
    var e := EscapeChar(c) + tail;
    if c == '"' || c == '\\' || c == '\n' {
      assert e[0] == '\\' && |e| >= 2 && e[2..] == tail;
      UnescapeEscaped(e, tail, rest);
    } else {
      assert e[0] == c && e[1..] == tail;
      UnescapeUnescaped(e, tail, rest);
    }
  }

  /** An escape sequence followed by a decodable tail decodes to the escaped character and that tail. */
  lemma UnescapeEscaped(e: string, tail: string, rest: string)
    requires |e| >= 2 && e[0] == '\\' && e[1] in "\"\\n" && e[2..] == tail
    requires Unescape(tail) == Some(rest)
    ensures Unescape(e) == Some([if e[1] == 'n' then '\n' else e[1]] + rest)
  {
    assert DecodeChar(e, '"') == Some((if e[1] == 'n' then '\n' else e[1], 2));
  }

  /** A character that needs no escape followed by a decodable tail decodes to itself and that tail. */
  lemma UnescapeUnescaped(e: string, tail: string, rest: string)
    requires |e| >= 1 && e[0] !in "\"\\\n" && e[1..] == tail
    requires Unescape(tail) == Some(rest)
    ensures Unescape(e) == Some([e[0]] + rest)
  {
  }

  /** Unquoting a quoted string gives it back. */
  lemma UnquoteQuote(s: string)
    ensures Unquote(Quote(s)) == Some(s)
  {
    var q := Quote(s);
    assert q[1..|q| - 1] == Escape(s);
    UnescapeEscape(s);
  }

  /** A string without quote, backslash or newline is quoted by just surrounding it with quotes. */
  lemma QuotePlain(s: string)
    requires '"' !in s && '\\' !in s && '\n' !in s
    ensures Quote(s) == "\"" + s + "\""
  {
    EscapePlain(s);
  }

  /** Quote leaves a string without quote, backslash or newline unchanged between its quotes. */
  lemma {:induction false} EscapePlain(s: string)
    requires '"' !in s && '\\' !in s && '\n' !in s
    ensures Escape(s) == s
    decreases |s|
  {
    if s != [] {
      EscapePlain(s[1..]);
      assert [s[0]] + s[1..] == s;
    }
  }
}

/** The compact JSON text `json.dumps(..., ensure_ascii=False, separators=(',', ':'))` writes for
    strings, lists and integers, and a reader for exactly that text.  Every reader returns the
    value together with what follows it, so the readers compose like the writers do. */
module JsonText {
  import opened Wrappers

  // ----- literals ------------------------------------------------------------------------

  function Skip(literal: string, s: string): Option<string> {
    if literal <= s then Some(s[|literal|..]) else None
  }

  lemma SkipWritten(literal: string, rest: string)
    ensures Skip(literal, literal + rest) == Some(rest)
  {
  }

  // ----- strings (RFC 8259, section 7) ---------------------------------------------------

  function HexDigit(n: nat): (c: char)
    requires n < 16
  {
    if n < 10 then '0' + n as char else 'a' + (n - 10) as char
  }

  function HexValue(c: char): Option<nat> {
    if '0' <= c <= '9' then Some(c as int - '0' as int)
    else if 'a' <= c <= 'f' then Some(c as int - 'a' as int + 10)
    else None
  }

  function EscapeChar(c: char): (s: string)
    ensures s != ""
  {
    if c == '"' then "\\\""
    else if c == '\\' then "\\\\"
    else if c == '\n' then "\\n"
    else if c == '\r' then "\\r"
    else if c == '\t' then "\\t"
    else if c == '\U{0C}' then "\\f"
    else if c == '\U{08}' then "\\b"
    else if c < ' ' then "\\u00" + [HexDigit(c as int / 16), HexDigit(c as int % 16)]
    else [c]
  }

  function Escape(text: string): string {
    if text == "" then "" else EscapeChar(text[0]) + Escape(text[1..])
  }

  function Quote(text: string): (s: string)
    ensures s != "" && s[0] == '"'
  {
    "\"" + Escape(text) + "\""
  }

  /** The character behind a backslash with a one-letter escape. */
  function ShortEscape(c: char): Option<char> {
    match c
    case '"' => Some('"')
    case '\\' => Some('\\')
    case 'n' => Some('\n')
    case 'r' => Some('\r')
    case 't' => Some('\t')
    case 'f' => Some('\U{0C}')
    case 'b' => Some('\U{08}')
    case _ => None
  }

  /** One character of a string body: the character and how much text it takes. */
  function ReadChar(s: string): Option<(char, nat)>
    requires s != ""
  {
    if s[0] != '\\' then Some((s[0], 1))
    else if |s| < 2 then None
    else if s[1] != 'u' then
      match ShortEscape(s[1])
      case None => None
      case Some(c) => Some((c, 2))
    else if |s| < 6 || s[2] != '0' || s[3] != '0' then None
    else
      match (HexValue(s[4]), HexValue(s[5]))
      case (Some(high), Some(low)) => Some(((16 * high + low) as char, 6))
      case _ => None
  }

  function ReadBody(s: string): Option<(string, string)> {
    if s == "" then None
    else if s[0] == '"' then Some(("", s[1..]))
    else
      match ReadChar(s)
      case None => None
      case Some((c, width)) =>
        if width == 0 || |s| < width then None
        else
          match ReadBody(s[width..])
          case None => None
          case Some((text, rest)) => Some(([c] + text, rest))
  }

  function ReadString(s: string): Option<(string, string)> {
    match Skip("\"", s)
    case None => None
    case Some(body) => ReadBody(body)
  }

  lemma ReadEscapedChar(c: char, rest: string)
    ensures (EscapeChar(c) + rest)[0] != '"'
    ensures ReadChar(EscapeChar(c) + rest) == Some((c, |EscapeChar(c)|))
  {
    var s := EscapeChar(c) + rest;
    if c < ' ' && |EscapeChar(c)| == 6 {
      var n := c as int;
      assert s[4] == HexDigit(n / 16) && s[5] == HexDigit(n % 16);
      assert HexValue(s[4]) == Some(n / 16) && HexValue(s[5]) == Some(n % 16);
      assert n == 16 * (n / 16) + n % 16;
    }
  }

  lemma ReadBodyStep(c: char, tail: string)
    requires ReadBody(tail).Some?
    ensures var (text, rest) := ReadBody(tail).value; ReadBody(EscapeChar(c) + tail) == Some(([c] + text, rest))
  {
    var s := EscapeChar(c) + tail;
    ReadEscapedChar(c, tail);
    assert s[|EscapeChar(c)|..] == tail;
  }

  lemma {:induction false} ReadEscaped(text: string, rest: string)
    ensures ReadBody(Escape(text) + "\"" + rest) == Some((text, rest))
  {
    if text == "" {
      assert "\"" + rest == Escape(text) + "\"" + rest;
    } else {
      var head, tail := EscapeChar(text[0]), Escape(text[1..]) + "\"" + rest;
      ReadEscaped(text[1..], rest);
      ReadBodyStep(text[0], tail);
      assert Escape(text) + "\"" + rest == head + tail;
      assert [text[0]] + text[1..] == text;
    }
  }

  /** A quoted text is read back as itself, whatever follows it. */
  lemma ReadQuoted(text: string, rest: string)
    ensures ReadString(Quote(text) + rest) == Some((text, rest))
  {
    hide Escape, ReadBody;
    var body := Escape(text);
    Regrouped("\"", body, "\"", rest);
    SkipWritten("\"", body + "\"" + rest);
    ReadEscaped(text, rest);
  }

  lemma Regrouped(a: string, b: string, c: string, d: string)
    ensures a + b + c + d == a + (b + c + d)
  {
  }

  /** A text without a control character, a quote or a backslash is written as it is. */
  predicate Simple(text: string) {
    forall c | c in text :: c >= ' ' && c != '"' && c != '\\'
  }

  lemma {:induction false} SimpleIsPlain(text: string)
    requires Simple(text)
    ensures Escape(text) == text && Quote(text) == "\"" + text + "\""
  {
    if text != "" {
      assert text[0] in text && forall c | c in text[1..] :: c in text;
      SimpleIsPlain(text[1..]);
      assert EscapeChar(text[0]) == [text[0]];
    }
  }

  /** The escapes of RFC 8259, section 7, as the program writes them. */
  lemma EscapesAreTheStandard()
    ensures EscapeChar('"') == ['\\', '"'] && EscapeChar('\\') == ['\\', '\\']
    ensures EscapeChar('\U{08}') == ['\\', 'b'] && EscapeChar('\U{0C}') == ['\\', 'f'] && EscapeChar('\n') == ['\\', 'n']
    ensures EscapeChar('\r') == ['\\', 'r'] && EscapeChar('\t') == ['\\', 't']
    ensures EscapeChar('\U{01}') == "\\u0001" && EscapeChar('\U{1F}') == "\\u001f" && EscapeChar('/') == "/"
  {
  }

  // ----- integers ------------------------------------------------------------------------

  predicate IsDigit(c: char) {
    '0' <= c <= '9'
  }

  function Digits(n: nat): (s: string)
    ensures s != "" && forall c | c in s :: IsDigit(c)
  {
    var last := '0' + (n % 10) as char;
    if n < 10 then [last] else Digits(n / 10) + [last]
  }

  function Decimal(n: int): (s: string)
    ensures s != ""
  {
    if n < 0 then "-" + Digits(-n) else Digits(n)
  }

  function Value(digits: string): nat
    requires forall c | c in digits :: IsDigit(c)
  {
    if digits == "" then 0
    else
      var last := digits[|digits| - 1];
      assert last in digits && IsDigit(last);
      Value(digits[..|digits| - 1]) * 10 + (last as int - '0' as int)
  }

  function DigitRun(s: string): (n: nat)
    ensures n <= |s| && forall c | c in s[..n] :: IsDigit(c)
  {
    if s == "" || !IsDigit(s[0]) then 0 else
      var n := DigitRun(s[1..]);
      assert s[..n + 1] == [s[0]] + s[1..][..n];
      n + 1
  }

  function ReadNat(s: string): Option<(nat, string)> {
    var n := DigitRun(s);
    if n == 0 then None else Some((Value(s[..n]), s[n..]))
  }

  function ReadInt(s: string): Option<(int, string)> {
    var sign: int := if Skip("-", s).Some? then -1 else 1;
    match ReadNat(if sign == -1 then s[1..] else s)
    case None => None
    case Some((n, rest)) => Some((sign * n, rest))
  }

  lemma {:induction false} DigitRunWritten(digits: string, rest: string)
    requires forall c | c in digits :: IsDigit(c)
    requires rest == "" || !IsDigit(rest[0])
    ensures DigitRun(digits + rest) == |digits|
  {
    if digits == "" {
      assert digits + rest == rest;
    } else {
      assert (digits + rest)[1..] == digits[1..] + rest;
      DigitRunWritten(digits[1..], rest);
    }
  }

  lemma {:induction false} ValueOfDigits(n: nat)
    ensures Value(Digits(n)) == n
  {
    var ds := Digits(n);
    if n < 10 {
      assert ds[..|ds| - 1] == "";
    } else {
      ValueOfDigits(n / 10);
      assert ds[..|ds| - 1] == Digits(n / 10);
    }
  }

  lemma ReadDigits(n: nat, rest: string)
    requires rest == "" || !IsDigit(rest[0])
    ensures ReadNat(Digits(n) + rest) == Some((n, rest))
  {
    DigitRunWritten(Digits(n), rest);
    ValueOfDigits(n);
    assert (Digits(n) + rest)[..|Digits(n)|] == Digits(n);
    assert (Digits(n) + rest)[|Digits(n)|..] == rest;
  }

  lemma ReadDecimal(n: int, rest: string)
    requires rest == "" || !IsDigit(rest[0])
    ensures ReadInt(Decimal(n) + rest) == Some((n, rest))
  {
    hide Digits, ReadNat, IsDigit;
    var m := if n < 0 then -n else n;
    ReadDigits(m, rest);
    if n < 0 {
      assert Decimal(n) + rest == "-" + (Digits(m) + rest);
      SkipWritten("-", Digits(m) + rest);
    } else {
      NoSign(m, rest);
    }
  }

  lemma NoSign(n: nat, rest: string)
    ensures Skip("-", Digits(n) + rest) == None
  {
    hide Digits;
    var digits := Digits(n);
    assert digits[0] in digits && (digits + rest)[0] == digits[0] && IsDigit(digits[0]);
  }

  // ----- lists ---------------------------------------------------------------------------

  /** The elements and the closing bracket; every element but the first brings its comma. */
  function Elements<T>(write: T -> string, items: seq<T>, first: bool): (s: string)
    ensures items == [] ==> s == "]"
  {
    if items == [] then "]"
    else (if first then "" else ",") + write(items[0]) + Elements(write, items[1..], false)
  }

  function List<T>(write: T -> string, items: seq<T>): string {
    "[" + Elements(write, items, true)
  }

  function ReadElements<T>(read: string -> Option<(T, string)>, s: string, first: bool): Option<(seq<T>, string)>
    decreases |s|
  {
    if s == "" then None
    else if s[0] == ']' then Some(([], s[1..]))
    else if !first && s[0] != ',' then None
    else
      match read(if first then s else s[1..])
      case None => None
      case Some((item, rest)) =>
        if |rest| >= |s| then None
        else
          match ReadElements(read, rest, false)
          case None => None
          case Some((items, end)) => Some(([item] + items, end))
  }

  function ReadList<T>(read: string -> Option<(T, string)>, s: string): Option<(seq<T>, string)> {
    match Skip("[", s)
    case None => None
    case Some(body) => ReadElements(read, body, true)
  }

  /** The reader undoes the writer on every value and before every continuation. */
  ghost predicate Inverse<T(!new)>(write: T -> string, read: string -> Option<(T, string)>) {
    forall x: T, rest: string :: ReadsBack(write, read, x, rest)
  }

  ghost predicate ReadsBack<T(!new)>(write: T -> string, read: string -> Option<(T, string)>, x: T, rest: string) {
    write(x) != "" && write(x)[0] != ']' && read(write(x) + rest) == Some((x, rest))
  }

  lemma {:induction false} ReadElementsWritten<T(!new)>(
      write: T -> string, read: string -> Option<(T, string)>, items: seq<T>, first: bool, rest: string)
    requires Inverse(write, read)
    ensures ReadElements(read, Elements(write, items, first) + rest, first) == Some((items, rest))
    decreases |items|
  {
    var s := Elements(write, items, first) + rest;
    if items == [] {
      assert s[1..] == rest;
    } else {
      var tail := Elements(write, items[1..], false) + rest;
      assert ReadsBack(write, read, items[0], tail);
      assert s == (if first then "" else ",") + (write(items[0]) + tail);
      assert write(items[0]) != "" && write(items[0])[0] != ']';
      assert (if first then s else s[1..]) == write(items[0]) + tail;
      assert s[0] != ']' && (!first ==> s[0] == ',');
      ReadElementsWritten(write, read, items[1..], false, rest);
      assert [items[0]] + items[1..] == items;
    }
  }

  lemma ReadWrittenList<T(!new)>(
      write: T -> string, read: string -> Option<(T, string)>, items: seq<T>, rest: string)
    requires Inverse(write, read)
    ensures ReadList(read, List(write, items) + rest) == Some((items, rest))
  {
    assert List(write, items) + rest == "[" + (Elements(write, items, true) + rest);
    SkipWritten("[", Elements(write, items, true) + rest);
    ReadElementsWritten(write, read, items, true, rest);
  }
}

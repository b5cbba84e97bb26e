/** Strings in canonical JSON, as `json.dumps` renders them: printable ASCII is kept, everything else escaped. */
module Json {
  import opened Identity

  function HexDigit(d: nat): char
    requires d < 16
  {
    if d < 10 then '0' + d as char else 'a' + (d - 10) as char
  }

  function Hex4(n: nat): (s: string)
    requires n < 0x1_0000
    ensures |s| == 4
  {
    [HexDigit(n / 4096), HexDigit(n / 256 % 16), HexDigit(n / 16 % 16), HexDigit(n % 16)]
  }

  /** The letter of a two-character escape. */
  function Short(c: char): (s: string)
    ensures |s| <= 1 && s != "u"
  {
    if c == '\"' then "\""
    else if c == '\\' then "\\"
    else if c == '\n' then "n"
    else if c == '\r' then "r"
    else if c == '\t' then "t"
    else if c == 8 as char then "b"
    else if c == 12 as char then "f"
    else ""
  }

  predicate Plain(c: char) {
    ' ' <= c <= '~' && c != '\"' && c != '\\'
  }

  /** The first, or only, UTF-16 unit of a character. */
  function FirstUnit(c: char): (n: nat)
    ensures n < 0x1_0000
  {
    if c as int < 0x1_0000 then c as int else 0xd800 + (c as int - 0x1_0000) / 1024
  }

  function SecondUnit(c: char): (n: nat)
    ensures n < 0x1_0000
  {
    if c as int < 0x1_0000 then 0 else 0xdc00 + (c as int - 0x1_0000) % 1024
  }

  function Escape(c: char): (s: string)
    ensures s != [] && s[0] != '\"'
  {
    if Plain(c) then [c]
    else if Short(c) != "" then ['\\'] + Short(c)
    else if c as int < 0x1_0000 then "\\u" + Hex4(FirstUnit(c))
    else "\\u" + Hex4(FirstUnit(c)) + "\\u" + Hex4(SecondUnit(c))
  }

  function EscapeAll(s: string): string {
    if s == [] then [] else Escape(s[0]) + EscapeAll(s[1..])
  }

  /** A string literal; `rest` is what follows its opening quotation mark. */
  function Literal(s: string, rest: string): string {
    EscapeAll(s) + ['\"'] + rest
  }

  // ---- reading it back ----

  function HexValue(c: char): nat {
    if '0' <= c <= '9' then (c - '0') as nat else if 'a' <= c <= 'f' then 10 + (c - 'a') as nat else 0
  }

  function Hex4Value(s: string): nat
    requires |s| == 4
  {
    ((HexValue(s[0]) * 16 + HexValue(s[1])) * 16 + HexValue(s[2])) * 16 + HexValue(s[3])
  }

  lemma Hex4Reads(n: nat)
    requires n < 0x1_0000
    ensures Hex4Value(Hex4(n)) == n
  {
    assert n == 16 * (n / 16) + n % 16 && n / 16 == 16 * (n / 16 / 16) + n / 16 % 16;
    assert n / 256 == n / 16 / 16 && n / 4096 == n / 256 / 16 && n / 256 == 16 * (n / 256 / 16) + n / 256 % 16;
    HexDigitReads(n / 4096);
    HexDigitReads(n / 256 % 16);
    HexDigitReads(n / 16 % 16);
    HexDigitReads(n % 16);
    hide HexDigit, HexValue;
  }

  lemma HexDigitReads(d: nat)
    requires d < 16
    ensures HexValue(HexDigit(d)) == d
  {
  }

  /** A unit that stands for a character of its own. */
  predicate IsScalar(n: nat) {
    n < 0xd800 || 0xe000 <= n < 0x1_0000
  }

  /** The character of a pair of units. */
  predicate IsPair(hi: nat, lo: nat) {
    0xd800 <= hi < 0xdc00 && 0xdc00 <= lo < 0xe000
  }

  function Short2(c: char): Option<char> {
    match c
    case '\"' => Some('\"')
    case '\\' => Some('\\')
    case '/' => Some('/')
    case 'n' => Some('\n')
    case 'r' => Some('\r')
    case 't' => Some('\t')
    case 'b' => Some(8 as char)
    case 'f' => Some(12 as char)
    case _ => None
  }

  /** A JSON reader's next character of a string, and what follows it. */
  function ReadChar(s: string): Option<(char, string)> {
    if s == [] || s[0] < ' ' || s[0] == '\"' then None
    else if s[0] != '\\' then Some((s[0], s[1..]))
    else if |s| >= 2 && Short2(s[1]).Some? then Some((Short2(s[1]).value, s[2..]))
    else if |s| < 6 || s[1] != 'u' then None
    else ReadUnits(s)
  }

  function ReadUnits(s: string): Option<(char, string)>
    requires |s| >= 6
  {
    var hi := Hex4Value(s[2..6]);
    if IsScalar(hi) then Some((hi as char, s[6..]))
    else if |s| >= 12 && s[6..8] == "\\u" && IsPair(hi, Hex4Value(s[8..12])) then
      var lo := Hex4Value(s[8..12]);
      Some(((0x1_0000 + (hi - 0xd800) * 1024 + (lo - 0xdc00)) as char, s[12..]))
    else None
  }

  /** A JSON reader's string, from after its opening quotation mark, and what follows it. */
  function ReadLiteral(s: string): Option<(string, string)>
    decreases |s|
  {
    if s != [] && s[0] == '\"' then Some(([], s[1..]))
    else
      match ReadChar(s)
      case None => None
      case Some((c, rest)) =>
        if |rest| >= |s| then None
        else
          match ReadLiteral(rest)
          case None => None
          case Some((cs, more)) => Some(([c] + cs, more))
  }

  lemma EscapeReads(c: char, rest: string)
    ensures ReadChar(Escape(c) + rest) == Some((c, rest))
  {
    var s := Escape(c) + rest;
    if Plain(c) || Short(c) != "" {
      hide Hex4;
      assert s[|Escape(c)|..] == rest;
    } else {
      UnitsRead(c, rest);
    }
  }

  lemma UnitsRead(c: char, rest: string)
    requires !Plain(c) && Short(c) == ""
    ensures ReadChar(Escape(c) + rest) == Some((c, rest))
  {
    hide Hex4, Hex4Value;
    var s := Escape(c) + rest;
    Hex4Reads(FirstUnit(c));
    Hex4Reads(SecondUnit(c));
    assert s[0] == '\\' && s[1] == 'u' && s[2..6] == Hex4(FirstUnit(c));
    if c as int < 0x1_0000 {
      assert s[6..] == rest;
    } else {
      assert s[6..8] == "\\u" && s[8..12] == Hex4(SecondUnit(c)) && s[12..] == rest;
    }
  }

  /** A literal is read back, whatever the string holds and whatever follows. */
  lemma {:induction false} LiteralReads(s: string, rest: string)
    ensures ReadLiteral(Literal(s, rest)) == Some((s, rest))
    decreases |s|
  {
    hide Escape, ReadChar;
    if s == [] {
      assert Literal(s, rest)[1..] == rest;
    } else {
      assert Literal(s, rest) == Escape(s[0]) + Literal(s[1..], rest);
      EscapeReads(s[0], Literal(s[1..], rest));
      LiteralReads(s[1..], rest);
      assert s == [s[0]] + s[1..];
    }
  }

  lemma LiteralInjective(s: string, x: string, t: string, y: string)
    ensures Literal(s, x) == Literal(t, y) <==> s == t && x == y
  {
    LiteralReads(s, x);
    LiteralReads(t, y);
  }
}

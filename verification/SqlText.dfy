/** internal/storage/mysql/store.go: string literals as quoteString writes them, read back under the
    string-literal grammar of section 9.1.1 of the MySQL 8.0 Reference Manual (backslash escapes on). */
module SqlText {

  // ---------- Writing ----------

  // The replacer's rule for one character.
  function Escape(c: char): string {
    if c == '\\' then "\\\\"
    else if c == 0 as char then "\\0"
    else if c == '\n' then "\\n"
    else if c == '\r' then "\\r"
    else if c == 26 as char then "\\Z"
    else if c == '\'' then "\\'"
    else if c == '\"' then "\\\""
    else [c]
  }

  function EscapeAll(s: string): string {
    if s == "" then "" else Escape(s[0]) + EscapeAll(s[1..])
  }

  function QuoteString(s: string): string {
    "'" + EscapeAll(s) + "'"
  }

  // A value list of literals as the statements hold it.
  function ValueList(fields: seq<string>): string {
    if fields == [] then ""
    else if |fields| == 1 then QuoteString(fields[0])
    else QuoteString(fields[0]) + (", " + ValueList(fields[1..]))
  }

  // ---------- The grammar ----------

  datatype Token = Literal(value: string, rest: string) | NoLiteral

  // What a backslash followed by c stands for.
  function Unescape(c: char): string {
    match c
    case '0' => [0 as char]
    case 'b' => [8 as char]
    case 'n' => "\n"
    case 'r' => "\r"
    case 't' => "\t"
    case 'Z' => [26 as char]
    case '%' => "\\%"
    case '_' => "\\_"
    case _ => [c]
  }

  // The inside of a literal up to its closing quote; a doubled quote stands for one.
  function LexBody(s: string): (t: Token)
    ensures t.Literal? ==> |t.rest| < |s|
  {
    if s == "" then NoLiteral
    else if s[0] == '\\' then
      if |s| == 1 then NoLiteral else Prefixed(Unescape(s[1]), LexBody(s[2..]))
    else if s[0] == '\'' then
      if |s| > 1 && s[1] == '\'' then Prefixed("'", LexBody(s[2..])) else Literal("", s[1..])
    else Prefixed([s[0]], LexBody(s[1..]))
  }

  function Prefixed(head: string, t: Token): (r: Token)
    ensures r.Literal? == t.Literal? && (r.Literal? ==> r.rest == t.rest)
  {
    if t.Literal? then Literal(head + t.value, t.rest) else NoLiteral
  }

  function LexString(s: string): (t: Token)
    ensures t.Literal? ==> |t.rest| < |s|
  {
    if s != "" && s[0] == '\'' then LexBody(s[1..]) else NoLiteral
  }

  // Literals separated by ", ", with what follows the last one.
  datatype Tokens = Literals(values: seq<string>, rest: string) | NoLiterals

  function LexValueList(s: string): Tokens
    decreases |s|
  {
    match LexString(s)
    case NoLiteral => NoLiterals
    case Literal(value, rest) =>
      if |rest| >= 2 && rest[..2] == ", " then
        match LexValueList(rest[2..])
        case NoLiterals => NoLiterals
        case Literals(values, after) => Literals([value] + values, after)
      else Literals([value], rest)
  }

  // ---------- Reading back what was written ----------

  predicate StartsWithQuote(s: string) {
    s != "" && s[0] == '\''
  }

  // An escape is a backslash and what undoes it, or the character itself when the lexer takes it so.
  lemma EscapeShape(c: char)
    ensures |Escape(c)| == 1 || |Escape(c)| == 2
    ensures |Escape(c)| == 2 ==> Escape(c)[0] == '\\' && Unescape(Escape(c)[1]) == [c]
    ensures |Escape(c)| == 1 ==> Escape(c)[0] == c && c != '\\' && c != '\''
  {
  }

  lemma LexesEscaped(c: char, tail: string)
    ensures LexBody(Escape(c) + tail) == Prefixed([c], LexBody(tail))
  {
    EscapeShape(c);
    hide Escape, Unescape, Prefixed;
    var e := Escape(c);
    var s := e + tail;
    assert s[0] == e[0];
    if |e| == 2 {
      assert s[1] == e[1] && s[2..] == tail;
    } else {
      assert s[1..] == tail;
      assert e == [c];
    }
  }

  // After the escaped text, the lexer is at whatever follows it.
  lemma {:induction false} LexesText(s: string, tail: string)
    ensures LexBody(EscapeAll(s) + tail) == Prefixed(s, LexBody(tail))
  {
    hide Escape, LexBody;
    if s == "" {
      assert EscapeAll(s) + tail == tail;
      if LexBody(tail).Literal? {
        assert "" + LexBody(tail).value == LexBody(tail).value;
      }
    } else {
      var after := EscapeAll(s[1..]) + tail;
      assert EscapeAll(s) + tail == Escape(s[0]) + after;
      LexesEscaped(s[0], after);
      LexesText(s[1..], tail);
      if LexBody(tail).Literal? {
        assert [s[0]] + (s[1..] + LexBody(tail).value) == s + LexBody(tail).value;
      }
    }
  }

  /** A quoted string followed by any text is lexed as exactly that string, leaving exactly that text,
      if and only if the text does not start with a quote. */
  lemma QuotedIsOneLiteral(s: string, rest: string)
    ensures LexString(QuoteString(s) + rest) == Literal(s, rest) <==> !StartsWithQuote(rest)
  {
    var text := QuoteString(s) + rest;
    assert text[1..] == EscapeAll(s) + ("'" + rest);
    LexesText(s, "'" + rest);
    assert ("'" + rest)[1..] == rest;
    if StartsWithQuote(rest) {
      assert ("'" + rest)[2..] == rest[1..];
    } else {
      assert s + "" == s;
    }
  }

  /** A value list lexes back to its fields, whatever closes it. */
  lemma {:induction false} ValueListRoundTrip(fields: seq<string>, rest: string)
    requires fields != [] && !StartsWithQuote(rest) && !(", " <= rest)
    ensures LexValueList(ValueList(fields) + rest) == Literals(fields, rest)
  {
    hide QuoteString, LexString;
    if |fields| == 1 {
      QuotedIsOneLiteral(fields[0], rest);
      assert fields == [fields[0]];
      assert |rest| >= 2 && rest[..2] == ", " ==> ", " <= rest;
    } else {
      var after := ", " + ValueList(fields[1..]) + rest;
      assert ValueList(fields) + rest == QuoteString(fields[0]) + after;
      QuotedIsOneLiteral(fields[0], after);
      assert after[2..] == ValueList(fields[1..]) + rest;
      ValueListRoundTrip(fields[1..], rest);
      assert [fields[0]] + fields[1..] == fields;
    }
  }

  // ---------- The table, character by character ----------

  /** Each character with an escape, as it is written. */
  lemma WrittenEscapes()
    ensures QuoteString([92 as char]) == "'" + [92 as char, 92 as char] + "'"
    ensures QuoteString([0 as char]) == "'" + [92 as char, '0'] + "'"
    ensures QuoteString([10 as char]) == "'" + [92 as char, 'n'] + "'"
    ensures QuoteString([13 as char]) == "'" + [92 as char, 'r'] + "'"
    ensures QuoteString([26 as char]) == "'" + [92 as char, 'Z'] + "'"
    ensures QuoteString([39 as char]) == "'" + [92 as char, 39 as char] + "'"
    ensures QuoteString([34 as char]) == "'" + [92 as char, 34 as char] + "'"
    ensures ValueList(["a", "b"]) == "'a', 'b'"
  {
    QuotesOne(92 as char);
    QuotesOne(0 as char);
    QuotesOne(10 as char);
    QuotesOne(13 as char);
    QuotesOne(26 as char);
    QuotesOne(39 as char);
    QuotesOne(34 as char);
    QuotesOne('a');
    QuotesOne('b');
    hide QuoteString;
    assert ["a", "b"][1..] == ["b"];
  }

  lemma QuotesOne(c: char)
    ensures QuoteString([c]) == "'" + Escape(c) + "'"
  {
    hide Escape;
    assert [c][1..] == "" && EscapeAll("") == "";
    assert EscapeAll([c]) == Escape(c) + "";
  }

  /** Every other character is written as it is. */
  lemma OthersAsTheyAre(c: char)
    requires c as int !in {0, 10, 13, 26, 34, 39, 92}
    ensures QuoteString([c]) == "'" + [c] + "'"
  {
    QuotesOne(c);
  }

  /** The escape sequences of Table 9.1 of the manual; a backslash before any other character goes. */
  lemma ReadEscapes(c: char)
    ensures Unescape('0') == [0 as char] && Unescape('b') == [8 as char] && Unescape('n') == [10 as char]
    ensures Unescape('r') == [13 as char] && Unescape('t') == [9 as char] && Unescape('Z') == [26 as char]
    ensures Unescape('%') == [92 as char, '%'] && Unescape('_') == [92 as char, '_']
    ensures c !in "0bnrtZ%_" ==> Unescape(c) == [c]
  {
    var listed := "0bnrtZ%_";
    assert listed[0] == '0' && listed[1] == 'b' && listed[2] == 'n' && listed[3] == 'r';
    assert listed[4] == 't' && listed[5] == 'Z' && listed[6] == '%' && listed[7] == '_';
  }
}

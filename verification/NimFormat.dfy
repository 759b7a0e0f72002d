/**
 The string formatters on the Nim side, and what is on the other end of each: a database's lexer
 for quoted literals, its numbering of placeholders, and the split of a statement's arguments.
 */
module NimFormat {
  import opened Wrappers
  import opened Decimal

  const BACKSPACE := 8 as char
  const SUBSTITUTE := 0x1a as char

  /** What dbQuote writes for one character. */
  function Escape(c: char): (e: string)
    ensures |e| == 1 ==> e[0] == c && c != '\'' && c != '"' && c != '\\'
    ensures |e| != 1 ==> |e| == 2 && e[0] == '\\' && Unescape(e[1]) == c
  {
    match c
    case '\0' => "\\0"
    case '\t' => "\\t"
    case '\n' => "\\n"
    case '\r' => "\\r"
    case '"' => "\\\""
    case '\'' => "\\'"
    case '\\' => "\\\\"
    case '_' => "\\_"
    case _ => if c == BACKSPACE then "\\b" else if c == SUBSTITUTE then "\\Z" else [c]
  }

  /** What a lexer makes of a character after a backslash. */
  function Unescape(c: char): char {
    match c
    case '0' => '\0'
    case 'b' => BACKSPACE
    case 't' => '\t'
    case 'n' => '\n'
    case 'r' => '\r'
    case 'Z' => SUBSTITUTE
    case _ => c
  }

  /** The ten characters that dbQuote escapes: NUL, backspace, tab, newline, return, SUB, " \' \\ and _. */
  predicate Special(c: char) {
    c as int in {0, 8, 9, 10, 13, 26, 34, 39, 92, 95}
  }

  function Escaped(s: string): string {
    if s == "" then "" else Escape(s[0]) + Escaped(s[1..])
  }

  /** The escaped characters: as many more as the string has special ones. */
  function Specials(s: string): nat {
    if s == "" then 0 else (if Special(s[0]) then 1 else 0) + Specials(s[1..])
  }

  /** What is special stands behind a backslash, in the form that reads back as it; the rest as it is. */
  lemma EscapeIs(c: char)
    ensures Special(c) ==> |Escape(c)| == 2 && Escape(c)[0] == '\\' && Unescape(Escape(c)[1]) == c
    ensures Special(c) ==> Escape(c)[1] as int >= 32
    ensures !Special(c) ==> Escape(c) == [c]
  {
  }

  /** No control character that has an escape is left in quoted text, and nothing is escaped in vain. */
  lemma {:induction false} EscapesTheSpecial(s: string)
    ensures |Escaped(s)| == |s| + Specials(s)
    ensures forall i :: 0 <= i < |Escaped(s)| ==> Escaped(s)[i] as int !in {0, 8, 9, 10, 13, 26}
  {
    if s != "" {
      hide Escape;
      EscapeIs(s[0]);
      EscapesTheSpecial(s[1..]);
    }
  }

  function DbQuote(s: string): string {
    "'" + Escaped(s) + "'"
  }

  method AddEscaped(text: string, c: char) returns (result: string)
    ensures result == text + Escape(c)
  {
    match c
    case '\0' => result := text + "\\0";
    case '\t' => result := text + "\\t";
    case '\n' => result := text + "\\n";
    case '\r' => result := text + "\\r";
    case '"' => result := text + "\\\"";
    case '\'' => result := text + "\\'";
    case '\\' => result := text + "\\\\";
    case '_' => result := text + "\\_";
    case _ =>
      if c == BACKSPACE {
        result := text + "\\b";
      } else if c == SUBSTITUTE {
        result := text + "\\Z";
      } else {
        result := text + [c];
      }
  }

  method DbQuoteLoop(s: string) returns (result: string)
    ensures result == DbQuote(s)
  {
    hide Escape;
    result := "'";
    for i := 0 to |s|
      invariant result + Escaped(s[i..]) == "'" + Escaped(s)
    {
      assert s[i..][1..] == s[i + 1..];
      result := AddEscaped(result, s[i]);
    }
    result := result + "'";
  }

  // --- dbFormat --------------------------------------------------------------------------

  /** The number of placeholders in a template. */
  function Marks(t: string): nat {
    if t == "" then 0 else (if t[0] == '?' then 1 else 0) + Marks(t[1..])
  }

  /** dbFormat; None stands for the index error when there are too few arguments. */
  function DbFormat(t: string, args: seq<string>): (r: Option<string>)
    ensures r.Some? <==> Marks(t) <= |args|
  {
    if t == "" then Some("")
    else if t[0] == '?' then
      if args == [] then None else Prefixed(DbQuote(args[0]), DbFormat(t[1..], args[1..]))
    else Prefixed([t[0]], DbFormat(t[1..], args))
  }

  /** Text in front of a result, if there is one. */
  function Prefixed(text: string, r: Option<string>): Option<string> {
    match r
    case Some(rest) => Some(text + rest)
    case None => None
  }

  lemma PrefixedTwice(a: string, b: string, r: Option<string>)
    ensures Prefixed(a, Prefixed(b, r)) == Prefixed(a + b, r)
    ensures Prefixed("", r) == r
  {
    if r.Some? {
      assert a + (b + r.value) == a + b + r.value;
      assert "" + r.value == r.value;
    }
  }

  method DbFormatLoop(t: string, args: seq<string>) returns (r: Option<string>)
    ensures r == DbFormat(t, args)
  {
    hide DbQuote;
    var result := "";
    var count := 0;
    assert t[0..] == t && args[0..] == args;
    PrefixedTwice("", "", DbFormat(t, args));
    for i := 0 to |t|
      invariant count <= |args|
      invariant DbFormat(t, args) == Prefixed(result, DbFormat(t[i..], args[count..]))
    {
      assert t[i..][1..] == t[i + 1..];
      if t[i] == '?' {
        if count >= |args| {
          return None;
        }
        assert args[count..][1..] == args[count + 1..];
        var quoted := DbQuoteLoop(args[count]);
        PrefixedTwice(result, quoted, DbFormat(t[i + 1..], args[count + 1..]));
        result := result + quoted;
        count := count + 1;
      } else {
        PrefixedTwice(result, [t[i]], DbFormat(t[i + 1..], args[count..]));
        result := result + [t[i]];
      }
    }
    assert result + "" == result;
    r := Some(result);
  }

  /** What a lexer sees: plain characters and literals. */
  datatype Item = Ch(c: char) | Lit(s: string)

  /** A literal from after its opening quote: its text and what follows, if it is ever closed. */
  function LexLiteral(s: string, quote: char): (r: Option<(string, string)>)
    ensures r.Some? ==> |r.value.1| < |s|
  {
    if s == "" then None
    else if s[0] == quote then Some(("", s[1..]))
    else if s[0] == '\\' then
      if |s| == 1 then None
      else
        match LexLiteral(s[2..], quote)
        case Some(r) => Some(([Unescape(s[1])] + r.0, r.1))
        case None => None
    else
      match LexLiteral(s[1..], quote)
      case Some(r) => Some(([s[0]] + r.0, r.1))
      case None => None
  }

  predicate IsQuote(c: char) {
    c == '\'' || c == '"'
  }

  function Lex(s: string): Option<seq<Item>>
    decreases |s|
  {
    if s == "" then Some([])
    else if IsQuote(s[0]) then
      match LexLiteral(s[1..], s[0])
      case None => None
      case Some(r) =>
        match Lex(r.1)
        case Some(rest) => Some([Lit(r.0)] + rest)
        case None => None
    else
      match Lex(s[1..])
      case Some(rest) => Some([Ch(s[0])] + rest)
      case None => None
  }

  /** A template with its arguments put in as literals. */
  function Filled(t: string, args: seq<string>): seq<Item>
    requires Marks(t) <= |args|
  {
    if t == "" then []
    else if t[0] == '?' then [Lit(args[0])] + Filled(t[1..], args[1..])
    else [Ch(t[0])] + Filled(t[1..], args)
  }

  /** An escaped character in a literal is read as that character. */
  lemma LexEscape(c: char, tail: string)
    ensures LexLiteral(Escape(c) + tail, '\'') ==
              match LexLiteral(tail, '\'') case Some(r) => Some(([c] + r.0, r.1)) case None => None
  {
    var e := Escape(c);
    if |e| == 1 {
      assert (e + tail)[1..] == tail;
    } else {
      assert (e + tail)[2..] == tail;
    }
  }

  lemma LexClosingQuote(rest: string)
    ensures LexLiteral("'" + rest, '\'') == Some(("", rest))
  {
    assert ("'" + rest)[1..] == rest;
  }

  /** The quoted argument is one literal to the lexer, whatever it contains. */
  lemma {:induction false} LexQuoted(s: string, rest: string)
    ensures LexLiteral(Escaped(s) + ("'" + rest), '\'') == Some((s, rest))
  {
    hide Escape, LexLiteral;
    var end := "'" + rest;
    if s == "" {
      LexClosingQuote(rest);
      assert Escaped(s) + end == end;
    } else {
      var tail := Escaped(s[1..]) + end;
      LexQuoted(s[1..], rest);
      LexEscape(s[0], tail);
      assert Escaped(s) + end == Escape(s[0]) + tail;
      assert s == [s[0]] + s[1..];
    }
  }

  /** A quoted argument in front of a text is a literal in front of what the lexer sees there. */
  lemma LexArgument(arg: string, rest: string, items: seq<Item>)
    requires Lex(rest) == Some(items)
    ensures Lex(DbQuote(arg) + rest) == Some([Lit(arg)] + items)
  {
    hide Escaped, LexLiteral;
    var body := Escaped(arg) + ("'" + rest);
    LexQuoted(arg, rest);
    assert DbQuote(arg) + rest == "'" + body;
    assert ("'" + body)[1..] == body;
  }

  lemma LexPlain(c: char, rest: string, items: seq<Item>)
    requires Lex(rest) == Some(items) && !IsQuote(c)
    ensures Lex([c] + rest) == Some([Ch(c)] + items)
  {
    assert ([c] + rest)[1..] == rest;
  }

  predicate NoQuote(t: string) {
    forall c :: c in t ==> !IsQuote(c)
  }

  /**
   The lexer gets back from the formatted query exactly the template's characters and, for every
   placeholder, the original argument, whatever quotes, backslashes or question marks it contains.
   */
  lemma {:induction false} FormatLexes(t: string, args: seq<string>)
    requires Marks(t) <= |args|
    requires NoQuote(t)
    ensures Lex(DbFormat(t, args).value) == Some(Filled(t, args))
  {
    if t != "" {
      hide Lex, DbQuote, IsQuote;
      if t[0] == '?' {
        FormatLexes(t[1..], args[1..]);
        LexArgument(args[0], DbFormat(t[1..], args[1..]).value, Filled(t[1..], args[1..]));
      } else {
        FormatLexes(t[1..], args);
        LexPlain(t[0], DbFormat(t[1..], args).value, Filled(t[1..], args));
      }
    }
  }

  /** The template and the arguments that items were made of. */
  function TemplateOf(items: seq<Item>): string {
    if items == [] then "" else [if items[0].Ch? then items[0].c else '?'] + TemplateOf(items[1..])
  }

  function LiteralsOf(items: seq<Item>): seq<string> {
    if items == [] then [] else (if items[0].Lit? then [items[0].s] else []) + LiteralsOf(items[1..])
  }

  lemma {:induction false} FilledBack(t: string, args: seq<string>)
    requires Marks(t) <= |args|
    ensures TemplateOf(Filled(t, args)) == t && LiteralsOf(Filled(t, args)) == args[..Marks(t)]
  {
    if t != "" {
      var f := Filled(t, args);
      if t[0] == '?' {
        FilledBack(t[1..], args[1..]);
        assert f[1..] == Filled(t[1..], args[1..]);
        assert args[..Marks(t)] == [args[0]] + args[1..][..Marks(t[1..])];
      } else {
        FilledBack(t[1..], args);
        assert f[1..] == Filled(t[1..], args);
      }
    }
  }

  /** So no two different queries look alike: the formatted text determines template and arguments. */
  lemma FormatInjective(t: string, args: seq<string>, t': string, args': seq<string>)
    requires Marks(t) <= |args| && Marks(t') <= |args'|
    requires NoQuote(t) && NoQuote(t')
    requires DbFormat(t, args) == DbFormat(t', args')
    ensures t == t' && args[..Marks(t)] == args'[..Marks(t')]
  {
    FormatLexes(t, args);
    FormatLexes(t', args');
    FilledBack(t, args);
    FilledBack(t', args');
  }

  /** A lexer never takes a quote for a plain character. */
  lemma {:induction false} LexNoQuote(s: string)
    ensures Lex(s).Some? ==> forall c :: Ch(c) in Lex(s).value ==> !IsQuote(c)
    decreases |s|
  {
    if s != "" && Lex(s).Some? {
      if IsQuote(s[0]) {
        LexNoQuote(LexLiteral(s[1..], s[0]).value.1);
      } else {
        LexNoQuote(s[1..]);
      }
    }
  }

  /** Every character of the template but the placeholders is to be seen. */
  lemma {:induction false} FilledHas(t: string, args: seq<string>, c: char)
    requires Marks(t) <= |args| && c in t && c != '?'
    ensures Ch(c) in Filled(t, args)
  {
    if t[0] == '?' {
      FilledHas(t[1..], args[1..], c);
    } else if t[0] != c {
      FilledHas(t[1..], args, c);
    }
  }

  /**
   Template and arguments are recovered if and only if the template contains no quote; the
   arguments may contain anything.
   */
  lemma FormatLexesIff(t: string, args: seq<string>)
    requires Marks(t) <= |args|
    ensures Lex(DbFormat(t, args).value) == Some(Filled(t, args)) <==> NoQuote(t)
  {
    if NoQuote(t) {
      FormatLexes(t, args);
    } else {
      var c :| c in t && IsQuote(c);
      FilledHas(t, args, c);
      LexNoQuote(DbFormat(t, args).value);
    }
  }

  /** For one: with quotes around the placeholder, they pair up differently. */
  lemma QuotedTemplateLeaks()
    ensures DbFormat("'?'", ["x"]) == Some("''x''")
    ensures Lex("''x''") == Some([Lit(""), Ch('x'), Lit("")])
  {
    assert "'?'"[1..] == "?'" && "?'"[1..] == "'" && "'"[1..] == "" && "x"[1..] == "" && ["x"][1..] == [];
    assert Escaped("x") == "x" + Escaped("") == "x";
    assert DbQuote("x") == "'x'";
    assert DbFormat("'", []) == Some("'" + "") && "'" + "" == "'";
    assert "'x'" + "'" == "'x''" && "'" + "'x''" == "''x''";
    assert "''x''"[1..] == "'x''" && "'x''"[1..] == "x''" && "x''"[1..] == "''" && "''"[1..] == "'";
    assert Lex("") == Some([]);
    var last := [Lit("")];
    assert last + [] == last;
    assert [Ch('x')] + last == [Ch('x'), Lit("")] && last + [Ch('x'), Lit("")] == [Lit(""), Ch('x'), Lit("")];
    assert Lex("''") == Some(last);
    assert Lex("x''") == Some([Ch('x'), Lit("")]);
    assert LexLiteral("'x''", '\'') == Some(("", "x''"));
  }

  /** With a quote two different queries can look alike: a literal and the placeholder for it. */
  lemma QuotedTemplatesCollide()
    ensures DbFormat("?", ["x"]) == Some("'x'") == DbFormat("'x'", [])
  {
    assert "?"[1..] == "" && "x"[1..] == "" && ["x"][1..] == [];
    assert "'x'"[1..] == "x'" && "x'"[1..] == "'" && "'"[1..] == "";
    assert Escaped("x") == "x" + Escaped("") == "x";
    assert DbQuote("x") == "'x'" && "'x'" + "" == "'x'";
    assert DbFormat("'", []) == Some("'" + "") && "'" + "" == "'";
    assert "x" + "'" == "x'" && "'" + "x'" == "'x'";
    assert DbFormat("x'", []) == Some("x'");
    assert DbFormat("'x'", []) == Some("'x'");
    assert DbFormat("", []) == Some("");
    assert DbFormat("?", ["x"]) == Some("'x'" + "");
  }

  // --- pqDBFormat ------------------------------------------------------------------------

  /** Each placeholder becomes a dollar sign and its number, counting from n. */
  function PqFormat(t: string, n: nat): string {
    if t == "" then ""
    else if t[0] == '?' then "$" + (FormatNat(n) + PqFormat(t[1..], n + 1))
    else [t[0]] + PqFormat(t[1..], n)
  }

  method PqDBFormat(t: string) returns (result: string)
    ensures result == PqFormat(t, 1)
  {
    result := "";
    var count := 1;
    for i := 0 to |t|
      invariant count >= 1
      invariant PqFormat(t, 1) == result + PqFormat(t[i..], count)
    {
      assert t[i..][1..] == t[i + 1..];
      if t[i] == '?' {
        result := result + ("$" + FormatNat(count));
        count := count + 1;
      } else {
        result := result + [t[i]];
      }
    }
    assert result + "" == result;
  }

  /** A numbered placeholder starts here: a dollar sign and at least one digit. */
  predicate ParamAt(s: string) {
    |s| > 1 && s[0] == '$' && IsDigit(s[1])
  }

  /** The numbers of the placeholders, as the server reads them. */
  function Params(s: string): seq<nat>
    decreases |s|
  {
    if s == "" then []
    else if ParamAt(s) then [Value(TakeDigits(s[1..]))] + Params(DropDigits(s[1..]))
    else Params(s[1..])
  }

  /** The query with every numbered placeholder turned back into a question mark. */
  function Unnumbered(s: string): string
    decreases |s|
  {
    if s == "" then ""
    else if ParamAt(s) then "?" + Unnumbered(DropDigits(s[1..]))
    else [s[0]] + Unnumbered(s[1..])
  }

  /** No placeholder and no dollar sign of the template has a digit right behind it. */
  predicate NoDigitBehind(t: string) {
    forall i :: 0 <= i < |t| - 1 && (t[i] == '?' || t[i] == '$') ==> !IsDigit(t[i + 1])
  }

  /** Digits at the front of a template are left as they are. */
  lemma {:induction false} FormatDigits(t: string, n: nat)
    ensures TakeDigits(PqFormat(t, n)) == TakeDigits(t) && DropDigits(PqFormat(t, n)) == PqFormat(DropDigits(t), n)
  {
    if t != "" && t[0] != '?' {
      var f := PqFormat(t, n);
      assert f[1..] == PqFormat(t[1..], n);
      FormatDigits(t[1..], n);
    }
  }

  /** What one placeholder looks like to the server. */
  lemma ParamInFront(t: string, n: nat)
    requires t != "" && t[0] == '?'
    ensures var f := PqFormat(t, n);
      && ParamAt(f)
      && TakeDigits(f[1..]) == FormatNat(n) + TakeDigits(t[1..])
      && DropDigits(f[1..]) == PqFormat(DropDigits(t[1..]), n + 1)
  {
    var rest := FormatNat(n) + PqFormat(t[1..], n + 1);
    assert ("$" + rest)[1..] == rest;
    DigitsInFront(FormatNat(n), PqFormat(t[1..], n + 1));
    FormatDigits(t[1..], n + 1);
  }

  /** What one other character looks like. */
  lemma OtherInFront(t: string, n: nat)
    requires t != "" && t[0] != '?'
    ensures var f := PqFormat(t, n);
      && f != "" && f[0] == t[0] && f[1..] == PqFormat(t[1..], n)
      && (ParamAt(f) <==> ParamAt(t))
      && DropDigits(f[1..]) == PqFormat(DropDigits(t[1..]), n)
  {
    var f := PqFormat(t, n);
    assert f[1..] == PqFormat(t[1..], n);
    FormatDigits(t[1..], n);
  }

  lemma NoDigitTail(t: string)
    requires t != ""
    ensures NoDigitBehind(t) <==>
              NoDigitBehind(t[1..]) && ((t[0] == '?' || t[0] == '$') && |t| > 1 ==> !IsDigit(t[1]))
  {
    if NoDigitBehind(t[1..]) && ((t[0] == '?' || t[0] == '$') && |t| > 1 ==> !IsDigit(t[1])) {
      forall i | 0 <= i < |t| - 1 && (t[i] == '?' || t[i] == '$') ensures !IsDigit(t[i + 1]) {
        if i > 0 {
          assert t[1..][i - 1] == t[i] && t[1..][i] == t[i + 1];
        }
      }
    }
    if NoDigitBehind(t) {
      forall i | 0 <= i < |t[1..]| - 1 && (t[1..][i] == '?' || t[1..][i] == '$') ensures !IsDigit(t[1..][i + 1]) {
        assert t[i + 1] == t[1..][i];
      }
    }
  }

  /** What comes back is never longer than the template, and as long only if no digit was swallowed. */
  lemma {:induction false} UnnumberedLength(t: string, n: nat)
    ensures |Unnumbered(PqFormat(t, n))| <= |t|
    ensures |Unnumbered(PqFormat(t, n))| == |t| ==> NoDigitBehind(t)
    decreases |t|
  {
    if t != "" {
      NoDigitTail(t);
      if t[0] == '?' {
        ParamInFront(t, n);
        UnnumberedLength(DropDigits(t[1..]), n + 1);
      } else {
        OtherInFront(t, n);
        if ParamAt(t) {
          UnnumberedLength(DropDigits(t[1..]), n);
        } else {
          UnnumberedLength(t[1..], n);
        }
      }
    }
  }

  lemma {:induction false} UnnumberedBack(t: string, n: nat)
    requires NoDigitBehind(t)
    ensures Unnumbered(PqFormat(t, n)) == t
    decreases |t|
  {
    if t != "" {
      NoDigitTail(t);
      assert t == [t[0]] + t[1..];
      if t[0] == '?' {
        ParamInFront(t, n);
        UnnumberedBack(t[1..], n + 1);
      } else {
        OtherInFront(t, n);
        UnnumberedBack(t[1..], n);
      }
    }
  }

  /**
   The template can be read back from the numbered query if and only if no placeholder and no
   dollar sign in it is followed by a digit.
   */
  lemma PqRoundTrip(t: string)
    ensures Unnumbered(PqFormat(t, 1)) == t <==> NoDigitBehind(t)
  {
    UnnumberedLength(t, 1);
    if NoDigitBehind(t) {
      UnnumberedBack(t, 1);
    }
  }

  /** n, n + 1, and so on. */
  function CountingFrom(n: nat, k: nat): (r: seq<nat>)
    ensures |r| == k && forall i :: 0 <= i < k ==> r[i] == n + i
  {
    if k == 0 then [] else CountingFrom(n, k - 1) + [n + k - 1]
  }

  lemma {:induction false} NumbersFrom(t: string, n: nat)
    requires NoDigitBehind(t)
    ensures Params(PqFormat(t, n)) == CountingFrom(n, Marks(t))
    decreases |t|
  {
    hide PqFormat, NoDigitBehind, FormatNat;
    if t != "" {
      NoDigitTail(t);
      if t[0] == '?' {
        ParamInFront(t, n);
        NumbersFrom(t[1..], n + 1);
        ValueOfFormat(n);
        assert FormatNat(n) + "" == FormatNat(n);
      } else {
        OtherInFront(t, n);
        NumbersFrom(t[1..], n);
      }
    } else {
      EmptyFormat(n);
    }
  }

  lemma EmptyFormat(n: nat)
    ensures PqFormat("", n) == ""
  {
  }

  lemma {:induction false} MarksBehindDigits(t: string)
    ensures Marks(DropDigits(t)) == Marks(t)
  {
    if t != "" && IsDigit(t[0]) {
      MarksBehindDigits(t[1..]);
    }
  }

  /** More digits make a larger number. */
  lemma {:induction false} MoreDigits(a: string, b: string)
    requires AllDigits(a) && AllDigits(b) && Value(a) > 0
    ensures AllDigits(a + b) && Value(a + b) >= Value(a)
    ensures b != "" ==> Value(a + b) > Value(a)
  {
    if b == "" {
      assert a + b == a;
    } else {
      MoreDigits(a, b[..|b| - 1]);
      assert (a + b)[..|a + b| - 1] == a + b[..|b| - 1];
    }
  }

  /** No placeholder is lost; what a digit behind a dollar sign adds is one more. */
  lemma {:induction false} AtLeastMarks(t: string, n: nat)
    ensures |Params(PqFormat(t, n))| >= Marks(t)
    decreases |t|
  {
    hide PqFormat, FormatNat;
    if t == "" {
      EmptyFormat(n);
    } else {
      if t[0] == '?' {
        ParamInFront(t, n);
        MarksBehindDigits(t[1..]);
        AtLeastMarks(DropDigits(t[1..]), n + 1);
      } else {
        OtherInFront(t, n);
        if ParamAt(t) {
          MarksBehindDigits(t[1..]);
          AtLeastMarks(DropDigits(t[1..]), n);
        } else {
          AtLeastMarks(t[1..], n);
        }
      }
    }
  }

  /** A digit in the wrong place shows: in the number of one placeholder, or in how many there are. */
  lemma {:induction false} NumbersTell(t: string, n: nat)
    requires n > 0 && Params(PqFormat(t, n)) == CountingFrom(n, Marks(t))
    ensures NoDigitBehind(t)
    decreases |t|
  {
    hide PqFormat, FormatNat, NoDigitBehind;
    if t == "" {
      NothingBehind();
    } else {
      NoDigitTail(t);
      if t[0] == '?' {
        ParamInFront(t, n);
        var digits := TakeDigits(t[1..]);
        ValueOfFormat(n);
        MoreDigits(FormatNat(n), digits);
        assert CountingFrom(n, Marks(t))[0] == n;
        assert digits == "";
        assert DropDigits(t[1..]) == t[1..];
        CountingTail(n, Marks(t));
        NumbersTell(t[1..], n + 1);
      } else {
        OtherInFront(t, n);
        if ParamAt(t) {
          MarksBehindDigits(t[1..]);
          AtLeastMarks(DropDigits(t[1..]), n);
        } else {
          NumbersTell(t[1..], n);
        }
      }
    }
  }

  lemma NothingBehind()
    ensures NoDigitBehind("")
  {
  }

  lemma CountingTail(n: nat, k: nat)
    requires k > 0
    ensures CountingFrom(n, k)[1..] == CountingFrom(n + 1, k - 1)
  {
  }

  /**
   The server sees the placeholders numbered 1 to k, without gaps, if and only if no placeholder and no
   dollar sign of the template is followed by a digit.
   */
  lemma PqNumbersIff(t: string)
    ensures Params(PqFormat(t, 1)) == CountingFrom(1, Marks(t)) <==> NoDigitBehind(t)
  {
    hide PqFormat, NoDigitBehind, Params;
    if NoDigitBehind(t) {
      NumbersFrom(t, 1);
    }
    if Params(PqFormat(t, 1)) == CountingFrom(1, Marks(t)) {
      NumbersTell(t, 1);
    }
  }

  // --- stmtFormat ------------------------------------------------------------------------

  function Joined(args: seq<string>): string {
    if args == [] then "" else if |args| == 1 then args[0] else args[0] + "," + Joined(args[1..])
  }

  method StmtFormat(args: seq<string>) returns (result: string)
    ensures result == Joined(args)
  {
    result := "";
    var argsLen := |args|;
    var count := 1;
    for i := 0 to argsLen
      invariant i < argsLen ==> count == i + 1
      invariant Joined(args) == result + Joined(args[i..])
    {
      var c := args[i];
      if count == argsLen {
        assert args[i..] == [c] && args[i + 1..] == [];
        result := result + c;
        assert result + "" == result;
      } else {
        assert args[i..][1..] == args[i + 1..];
        result := result + (c + ",");
        count := count + 1;
      }
    }
    assert result + "" == result;
  }

  /** Go's split on a comma: the text up to each comma, and what is left at the end. */
  function Split(s: string): (r: seq<string>)
    ensures r != []
  {
    if s == "" then [""]
    else
      var rest := Split(s[1..]);
      if s[0] == ',' then [""] + rest else [[s[0]] + rest[0]] + rest[1..]
  }

  predicate NoComma(args: seq<string>) {
    forall i :: 0 <= i < |args| ==> ',' !in args[i]
  }

  lemma {:induction false} SplitParts(s: string)
    ensures NoComma(Split(s))
  {
    if s != "" {
      SplitParts(s[1..]);
    }
  }

  /** A piece without a comma in front of a string joins its first part. */
  lemma {:induction false} SplitInFront(a: string, s: string)
    requires ',' !in a
    ensures Split(a + s) == [a + Split(s)[0]] + Split(s)[1..]
  {
    if a == "" {
      assert a + s == s && a + Split(s)[0] == Split(s)[0];
    } else {
      SplitInFront(a[1..], s);
      assert (a + s)[1..] == a[1..] + s;
      assert [a[0]] + (a[1..] + Split(s)[0]) == a + Split(s)[0];
      assert a[0] in a;
    }
  }

  lemma {:induction false} SplitJoined(args: seq<string>)
    requires args != [] && NoComma(args)
    ensures Split(Joined(args)) == args
  {
    if |args| == 1 {
      SplitInFront(args[0], "");
      assert args[0] + "" == args[0];
    } else {
      var rest := Joined(args[1..]);
      SplitJoined(args[1..]);
      SplitInFront(args[0], "," + rest);
      assert ("," + rest)[1..] == rest;
      assert Split("," + rest) == [""] + Split(rest);
      assert args[0] + ("," + rest) == Joined(args);
      assert args[0] + "" == args[0];
      assert args == [args[0]] + args[1..];
    }
  }

  /** The arguments arrive as they were sent if and only if there are some and none has a comma. */
  lemma ArgsRoundTrip(args: seq<string>)
    ensures Split(Joined(args)) == args <==> args != [] && NoComma(args)
  {
    SplitParts(Joined(args));
    if args != [] && NoComma(args) {
      SplitJoined(args);
    }
  }
}

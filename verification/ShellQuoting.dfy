/**
 Quoting for a remote shell, and the shell's own reading of it: token recognition and quoting as in
 sections 2.2.1, 2.2.2 and 2.3 of POSIX.1-2017 XCU, Shell Command Language.
 */
module ShellQuoting {
  import opened Wrappers

  // ---- What the client prints ----

  /** `s.replace('\'', "'\\''")`: close the quotes, an escaped quote, open them again. */
  function Replaced(s: string): string {
    if s == "" then ""
    else (if s[0] == '\'' then "'\\''" else [s[0]]) + Replaced(s[1..])
  }

  function ShellEscape(s: string): string {
    "'" + Replaced(s) + "'"
  }

  function ShellEscapePath(s: string): string {
    if s == "~" then "~"
    else if "~/" <= s then "~/" + ShellEscape(s[2..])
    else ShellEscape(s)
  }

  function JoinWith(parts: seq<string>, separator: string): string {
    if parts == [] then ""
    else if |parts| == 1 then parts[0]
    else parts[0] + separator + JoinWith(parts[1..], separator)
  }

  function EscapeAll(args: seq<string>): (r: seq<string>)
    ensures |r| == |args|
  {
    if args == [] then [] else [ShellEscape(args[0])] + EscapeAll(args[1..])
  }

  // ---- How the shell reads it ----

  /** A character of a word, and whether quoting made it literal. */
  datatype Mark = Plain(c: char) | Quoted(c: char)

  datatype Token = Word(marks: seq<Mark>) | AndIf

  predicate Blank(c: char) {
    c == ' ' || c == '\t'
  }

  /** Characters that need a rule this lexer does not have when they stand unquoted. */
  predicate Special(c: char) {
    c in {'"', '$', '`', '|', ';', '<', '>', '(', ')', '\n'}
  }

  /** The token delimited so far, if one has begun. */
  function Flush(current: Option<seq<Mark>>): seq<Token> {
    if current.Some? then [Word(current.value)] else []
  }

  function Before(tokens: seq<Token>, rest: Option<seq<Token>>): Option<seq<Token>> {
    if rest.Some? then Some(tokens + rest.value) else None
  }

  /** Position of the closing quote, or the length when there is none. */
  function Closing(s: string): (n: nat)
    ensures n <= |s|
  {
    if s == "" || s[0] == '\'' then 0 else 1 + Closing(s[1..])
  }

  function Literal(s: string): (r: seq<Mark>)
    ensures |r| == |s|
  {
    if s == "" then [] else [Quoted(s[0])] + Literal(s[1..])
  }

  function Bare(s: string): (r: seq<Mark>)
    ensures |r| == |s|
  {
    if s == "" then [] else [Plain(s[0])] + Bare(s[1..])
  }

  /** The tokens of an input, given the token begun so far; none when some other rule would apply. */
  function Lex(s: string, current: Option<seq<Mark>>): Option<seq<Token>>
    decreases |s|
  {
    if s == "" then Some(Flush(current))
    else
      var c, word := s[0], current.GetOr([]);
      if Blank(c) then Before(Flush(current), Lex(s[1..], None))
      else if c == '\'' then
        var n := Closing(s[1..]);
        if n == |s| - 1 then None
        else Lex(s[n + 2..], Some(word + Literal(s[1..][..n])))
      else if c == '\\' then
        if |s| == 1 then None
        else if s[1] == '\n' then Lex(s[2..], current)
        else Lex(s[2..], Some(word + [Quoted(s[1])]))
      else if c == '&' then
        if |s| > 1 && s[1] == '&' then Before(Flush(current) + [AndIf], Lex(s[2..], None)) else None
      else if Special(c) || (c == '#' && current.None?) then None
      else Lex(s[1..], Some(word + [Plain(c)]))
  }

  function Text(marks: seq<Mark>): (s: string)
    ensures |s| == |marks|
  {
    if marks == [] then "" else [marks[0].c] + Text(marks[1..])
  }

  // ---- Steps of the lexer ----

  lemma {:induction false} ClosingAt(pre: string, rest: string)
    requires '\'' !in pre
    ensures Closing(pre + "'" + rest) == |pre|
  {
    var s := pre + "'" + rest;
    if pre != "" {
      assert s[1..] == pre[1..] + "'" + rest;
      ClosingAt(pre[1..], rest);
    }
  }

  lemma LexQuotes(pre: string, rest: string, current: Option<seq<Mark>>)
    requires '\'' !in pre
    ensures Lex("'" + pre + "'" + rest, current) == Lex(rest, Some(current.GetOr([]) + Literal(pre)))
  {
    var s := "'" + pre + "'" + rest;
    assert s[1..] == pre + "'" + rest;
    ClosingAt(pre, rest);
    assert s[1..][..|pre|] == pre && s[|pre| + 2..] == rest;
  }

  lemma LexEscaped(c: char, rest: string, current: Option<seq<Mark>>)
    requires c != '\n'
    ensures Lex("\\" + [c] + rest, current) == Lex(rest, Some(current.GetOr([]) + [Quoted(c)]))
  {
    assert ("\\" + [c] + rest)[2..] == rest;
  }

  /** Characters that stand for themselves inside a word that has begun. */
  predicate Ordinary(c: char) {
    !Blank(c) && !Special(c) && c != '\'' && c != '\\' && c != '&' && c != '#'
  }

  lemma LexOrdinary(c: char, rest: string, current: Option<seq<Mark>>)
    requires Ordinary(c)
    ensures Lex([c] + rest, current) == Lex(rest, Some(current.GetOr([]) + [Plain(c)]))
  {
    assert ([c] + rest)[1..] == rest;
  }

  lemma {:induction false} LexBare(s: string, rest: string, current: seq<Mark>)
    requires forall c :: c in s ==> Ordinary(c)
    ensures Lex(s + rest, Some(current)) == Lex(rest, Some(current + Bare(s)))
  {
    if s == "" {
      assert s + rest == rest && current + [] == current;
    } else {
      assert s + rest == [s[0]] + (s[1..] + rest);
      LexOrdinary(s[0], s[1..] + rest, Some(current));
      LexBare(s[1..], rest, current + [Plain(s[0])]);
      assert current + Bare(s) == current + [Plain(s[0])] + Bare(s[1..]);
    }
  }

  lemma LexBlank(rest: string, current: Option<seq<Mark>>)
    ensures Lex(" " + rest, current) == Before(Flush(current), Lex(rest, None))
  {
    assert (" " + rest)[1..] == rest;
  }

  lemma LexAndIf(rest: string, current: Option<seq<Mark>>)
    ensures Lex("&&" + rest, current) == Before(Flush(current) + [AndIf], Lex(rest, None))
  {
    assert ("&&" + rest)[2..] == rest;
  }

  lemma {:induction false} LiteralConcat(a: string, b: string)
    ensures Literal(a + b) == Literal(a) + Literal(b)
  {
    if a == "" {
      assert a + b == b;
    } else {
      assert (a + b)[1..] == a[1..] + b;
      LiteralConcat(a[1..], b);
    }
  }

  // ---- Quoting and reading back ----

  lemma ReplacedQuote(pre: string, s: string, rest: string)
    requires s != "" && s[0] == '\''
    ensures "'" + pre + Replaced(s) + "'" + rest
         == "'" + pre + "'" + ("\\" + ['\''] + ("'" + "" + Replaced(s[1..]) + "'" + rest))
  {
  }

  lemma RegroupOther(pre: string, c: char, replaced: string, rest: string)
    ensures "'" + pre + ([c] + replaced) + "'" + rest == "'" + (pre + [c]) + replaced + "'" + rest
  {
    assert "'" + pre + ([c] + replaced) == "'" + (pre + [c]) + replaced;
  }

  lemma ReplacedOther(pre: string, s: string, rest: string)
    requires s != "" && s[0] != '\''
    ensures "'" + pre + Replaced(s) + "'" + rest == "'" + (pre + [s[0]]) + Replaced(s[1..]) + "'" + rest
  {
    RegroupOther(pre, s[0], Replaced(s[1..]), rest);
  }

  lemma Carry(pre: string, s: string)
    requires s != ""
    ensures (pre + [s[0]]) + s[1..] == pre + s
  {
  }

  lemma LiteralParts(word: seq<Mark>, pre: string, s: string)
    requires s != ""
    ensures word + Literal(pre) + [Quoted(s[0])] + Literal("" + s[1..]) == word + Literal(pre + s)
  {
    assert "" + s[1..] == s[1..];
    LiteralConcat(pre, s);
  }

  /** Inside the quotes, having read `pre` since they were opened. */
  lemma {:induction false} LexReplaced(pre: string, s: string, rest: string, current: Option<seq<Mark>>)
    requires '\'' !in pre
    ensures Lex("'" + pre + Replaced(s) + "'" + rest, current) == Lex(rest, Some(current.GetOr([]) + Literal(pre + s)))
    decreases s
  {
    var word := current.GetOr([]);
    if s == "" {
      assert pre + s == pre && "'" + pre + Replaced(s) + "'" + rest == "'" + pre + "'" + rest;
      LexQuotes(pre, rest, current);
    } else if s[0] == '\'' {
      var more := "'" + "" + Replaced(s[1..]) + "'" + rest;
      ReplacedQuote(pre, s, rest);
      LexQuotes(pre, "\\" + ['\''] + more, current);
      LexEscaped('\'', more, Some(word + Literal(pre)));
      LexReplaced("", s[1..], rest, Some(word + Literal(pre) + [Quoted('\'')]));
      LiteralParts(word, pre, s);
    } else {
      ReplacedOther(pre, s, rest);
      LexReplaced(pre + [s[0]], s[1..], rest, current);
      Carry(pre, s);
    }
  }

  /** Whatever the string, its escaped form is read as that string, every character literal. */
  lemma LexShellEscape(s: string, rest: string, current: Option<seq<Mark>>)
    ensures Lex(ShellEscape(s) + rest, current) == Lex(rest, Some(current.GetOr([]) + Literal(s)))
  {
    assert ShellEscape(s) + rest == "'" + "" + Replaced(s) + "'" + rest;
    LexReplaced("", s, rest, current);
    assert "" + s == s;
  }

  function Words(args: seq<string>): (r: seq<Token>)
    ensures |r| == |args|
  {
    if args == [] then [] else [Word(Literal(args[0]))] + Words(args[1..])
  }

  lemma {:induction false} TextOfLiteral(s: string)
    ensures Text(Literal(s)) == s
  {
    if s != "" {
      TextOfLiteral(s[1..]);
    }
  }

  /** The text of each word. */
  function Arguments(tokens: seq<Token>): Option<seq<string>> {
    if tokens == [] then Some([])
    else
      match tokens[0]
      case AndIf => None
      case Word(marks) =>
        var rest := Arguments(tokens[1..]);
        if rest.Some? then Some([Text(marks)] + rest.value) else None
  }

  lemma BeforeTwice(a: seq<Token>, b: seq<Token>, rest: Option<seq<Token>>)
    ensures Before(a, Before(b, rest)) == Before(a + b, rest)
  {
    if rest.Some? {
      assert a + (b + rest.value) == (a + b) + rest.value;
    }
  }

  /** A printed part that is read as one word, whatever follows it. */
  ghost predicate ReadsAs(part: string, word: seq<Mark>) {
    forall rest: string :: Lex(part + rest, None) == Lex(rest, Some(word))
  }

  lemma ReadPart(part: string, word: seq<Mark>, rest: string)
    requires ReadsAs(part, word)
    ensures Lex(part + rest, None) == Lex(rest, Some(word))
  {
  }

  function AsWords(words: seq<seq<Mark>>): (r: seq<Token>)
    ensures |r| == |words|
  {
    if words == [] then [] else [Word(words[0])] + AsWords(words[1..])
  }

  /** Parts joined by spaces are read as their words. */
  lemma {:induction false} LexSeparated(parts: seq<string>, words: seq<seq<Mark>>)
    requires parts != [] && |parts| == |words|
    requires forall i :: 0 <= i < |parts| ==> ReadsAs(parts[i], words[i])
    ensures Lex(JoinWith(parts, " "), None) == Some(AsWords(words))
  {
    if |parts| == 1 {
      ReadPart(parts[0], words[0], "");
      assert parts[0] + "" == parts[0] == JoinWith(parts, " ");
      assert Lex("", Some(words[0])) == Some([Word(words[0])]);
      assert words[1..] == [] && AsWords(words) == [Word(words[0])] + AsWords(words[1..]) == [Word(words[0])];
    } else {
      var joined := JoinWith(parts[1..], " ");
      assert JoinWith(parts, " ") == parts[0] + (" " + joined);
      ReadPart(parts[0], words[0], " " + joined);
      LexBlank(joined, Some(words[0]));
      LexSeparated(parts[1..], words[1..]);
    }
  }

  lemma {:induction false} ArgumentsOfWords(args: seq<string>)
    ensures Arguments(Words(args)) == Some(args)
  {
    if args != [] {
      ArgumentsOfWords(args[1..]);
      TextOfLiteral(args[0]);
      assert Words(args)[1..] == Words(args[1..]) && [args[0]] + args[1..] == args;
    }
  }

  function Literals(args: seq<string>): (r: seq<seq<Mark>>)
    ensures |r| == |args|
    ensures forall i :: 0 <= i < |args| ==> r[i] == Literal(args[i])
  {
    if args == [] then [] else [Literal(args[0])] + Literals(args[1..])
  }

  lemma {:induction false} WordsAreLiterals(args: seq<string>)
    ensures AsWords(Literals(args)) == Words(args)
  {
    if args != [] {
      WordsAreLiterals(args[1..]);
      assert Literals(args)[1..] == Literals(args[1..]);
    }
  }

  lemma {:induction false} EscapedAt(args: seq<string>, i: nat)
    requires i < |args|
    ensures EscapeAll(args)[i] == ShellEscape(args[i])
  {
    if i > 0 {
      EscapedAt(args[1..], i - 1);
    }
  }

  lemma EscapedReads(s: string)
    ensures ReadsAs(ShellEscape(s), Literal(s))
  {
    forall rest: string ensures Lex(ShellEscape(s) + rest, None) == Lex(rest, Some(Literal(s))) {
      LexShellEscape(s, rest, None);
      assert [] + Literal(s) == Literal(s);
    }
  }

  /** Escaped, joined with spaces and read by the shell, any list of arguments comes back as it was. */
  lemma QuotingRoundTrips(args: seq<string>)
    ensures var read := Lex(JoinWith(EscapeAll(args), " "), None);
            read.Some? && Arguments(read.value) == Some(args)
  {
    if args != [] {
      forall i | 0 <= i < |args| ensures ReadsAs(EscapeAll(args)[i], Literals(args)[i]) {
        EscapedAt(args, i);
        EscapedReads(args[i]);
      }
      LexSeparated(EscapeAll(args), Literals(args));
      WordsAreLiterals(args);
      ArgumentsOfWords(args);
    }
  }

  // ---- Paths ----

  /** The word a printed path is read as: only a leading tilde and its slash are left bare. */
  function PathWord(s: string): seq<Mark> {
    if s == "~" then [Plain('~')]
    else if "~/" <= s then [Plain('~'), Plain('/')] + Literal(s[2..])
    else Literal(s)
  }

  lemma LexTildePath(s: string, rest: string)
    ensures Lex(['~'] + (['/'] + (ShellEscape(s) + rest)), None) == Lex(rest, Some([Plain('~'), Plain('/')] + Literal(s)))
  {
    hide Lex, ShellEscape, Literal;
    var more := ShellEscape(s) + rest;
    LexOrdinary('~', ['/'] + more, None);
    LexOrdinary('/', more, Some([Plain('~')]));
    assert [] + [Plain('~')] == [Plain('~')] && [Plain('~')] + [Plain('/')] == [Plain('~'), Plain('/')];
    LexShellEscape(s, rest, Some([Plain('~'), Plain('/')]));
  }

  lemma LexPath(s: string, rest: string)
    ensures Lex(ShellEscapePath(s) + rest, None) == Lex(rest, Some(PathWord(s)))
  {
    hide Lex, ShellEscape, Literal;
    if s == "~" {
      LexOrdinary('~', rest, None);
      assert ['~'] + rest == "~" + rest && [] + [Plain('~')] == [Plain('~')];
    } else if "~/" <= s {
      assert ShellEscapePath(s) + rest == ['~'] + (['/'] + (ShellEscape(s[2..]) + rest));
      LexTildePath(s[2..], rest);
    } else {
      LexShellEscape(s, rest, None);
      assert [] + Literal(s) == Literal(s);
    }
  }

  /** Tilde expansion of a word: a bare tilde that is all of it, or is followed by a bare slash. */
  function Expanded(marks: seq<Mark>, home: string): string {
    if marks != [] && marks[0] == Plain('~') && (|marks| == 1 || marks[1] == Plain('/'))
    then home + Text(marks[1..])
    else Text(marks)
  }

  function Unquoted(marks: seq<Mark>): string {
    if marks == [] then ""
    else (if marks[0].Plain? then [marks[0].c] else "") + Unquoted(marks[1..])
  }

  lemma {:induction false} LiteralHasNoBare(s: string)
    ensures Unquoted(Literal(s)) == ""
  {
    if s != "" {
      LiteralHasNoBare(s[1..]);
    }
  }

  lemma PathWordText(s: string)
    ensures Text(PathWord(s)) == s
    ensures Unquoted(PathWord(s)) == if s == "~" then "~" else if "~/" <= s then "~/" else ""
  {
    var w := PathWord(s);
    if s == "~" {
      assert w[1..] == [] && s[1..] == "";
    } else if "~/" <= s {
      TextOfLiteral(s[2..]);
      LiteralHasNoBare(s[2..]);
      assert w[1..] == [Plain('/')] + Literal(s[2..]) && w[1..][1..] == Literal(s[2..]);
      assert Text(w[1..]) == s[1..];
    } else {
      TextOfLiteral(s);
      LiteralHasNoBare(s);
    }
  }

  lemma PathWordExpands(s: string, home: string)
    ensures Expanded(PathWord(s), home) == if s == "~" || "~/" <= s then home + s[1..] else s
  {
    var w := PathWord(s);
    PathWordText(s);
    if s == "~" || "~/" <= s {
      assert Text(w) == [w[0].c] + Text(w[1..]);
      assert Text(w[1..]) == s[1..];
    } else {
      assert w != [] ==> w[0] == Literal(s)[0];
    }
  }

  /**
   A printed path is one word with the path's own text; only a leading `~` or `~/` is unquoted, so
   that the shell expands exactly those to the home directory and leaves every other path alone.
   */
  lemma PathsAreRead(s: string, home: string)
    ensures Lex(ShellEscapePath(s), None) == Some([Word(PathWord(s))])
    ensures Text(PathWord(s)) == s
    ensures Unquoted(PathWord(s)) == if s == "~" then "~" else if "~/" <= s then "~/" else ""
    ensures Expanded(PathWord(s), home) == if s == "~" || "~/" <= s then home + s[1..] else s
  {
    hide ShellEscapePath, PathWord, Text, Unquoted, Expanded;
    LexPath(s, "");
    assert ShellEscapePath(s) + "" == ShellEscapePath(s);
    PathWordText(s);
    PathWordExpands(s, home);
  }
}

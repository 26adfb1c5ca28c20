/**
 What the remote shell does with the command line: which words it takes for variable assignments and
 which for the command and its arguments, as in sections 2.9.1 and 2.10.2 of POSIX.1-2017 XCU.
 */
module RemoteShell {
  import opened RemoteCommand
  import opened ShellQuoting
  import opened Wrappers

  // ---- The shell's grammar ----

  predicate NameChar(c: char) {
    'A' <= c <= 'Z' || 'a' <= c <= 'z' || '0' <= c <= '9' || c == '_'
  }

  /** A name of section 3.235 of the Base Definitions: letters, digits and underscores, no digit first. */
  predicate Name(s: string) {
    s != "" && !('0' <= s[0] <= '9') && forall c :: c in s ==> NameChar(c)
  }

  /** How many bare name characters a word starts with. */
  function NameLength(word: seq<Mark>): (n: nat)
    ensures n <= |word|
  {
    if word != [] && word[0].Plain? && NameChar(word[0].c) then 1 + NameLength(word[1..]) else 0
  }

  /** A word of the form NAME=value, the name and the sign unquoted. */
  predicate IsAssignment(word: seq<Mark>) {
    var n := NameLength(word);
    n < |word| && word[n] == Plain('=') && Name(Text(word[..n]))
  }

  datatype Simple = Simple(settings: seq<Setting>, argv: seq<string>)

  function Texts(words: seq<seq<Mark>>): seq<string> {
    if words == [] then [] else [Text(words[0])] + Texts(words[1..])
  }

  /** A simple command: leading assignments, then the command and its arguments. */
  function ReadSimple(words: seq<seq<Mark>>): Simple {
    if words == [] then Simple([], [])
    else if IsAssignment(words[0]) then
      var n := NameLength(words[0]);
      var rest := ReadSimple(words[1..]);
      Simple([Setting(Text(words[0][..n]), Text(words[0][n + 1..]))] + rest.settings, rest.argv)
    else Simple([], Texts(words))
  }

  // ---- The words of the command line ----

  function AssignmentWord(a: Assignment): seq<Mark> {
    match a
    case Escaped(k, v) => Bare(k + "=") + Literal(v)
    case Cleared(k) => Bare(k + "=")
    case Switched(k) => Bare(k + "=1")
  }

  function AssignmentWords(assignments: seq<Assignment>): (r: seq<seq<Mark>>)
    ensures |r| == |assignments|
    ensures forall i :: 0 <= i < |r| ==> r[i] == AssignmentWord(assignments[i])
  {
    if assignments == [] then [] else [AssignmentWord(assignments[0])] + AssignmentWords(assignments[1..])
  }

  function ClaudeWords(c: Config): seq<seq<Mark>> {
    AssignmentWords(Assignments(c)) + [PathWord(c.claudePath.GetOr("claude"))] + Literals(c.args)
  }

  predicate SafeKey(a: Assignment) {
    forall c :: c in a.key ==> KeyChar(c)
  }

  lemma BareReads(s: string)
    requires s != "" && forall c :: c in s ==> Ordinary(c)
    ensures ReadsAs(s, Bare(s))
  {
    forall rest: string ensures Lex(s + rest, None) == Lex(rest, Some(Bare(s))) {
      assert s + rest == [s[0]] + (s[1..] + rest);
      LexOrdinary(s[0], s[1..] + rest, None);
      LexBare(s[1..], rest, [Plain(s[0])]);
      assert [] + [Plain(s[0])] == [Plain(s[0])] && Bare(s) == [Plain(s[0])] + Bare(s[1..]);
    }
  }

  lemma AssignmentReads(a: Assignment)
    requires SafeKey(a)
    ensures ReadsAs(Printed(a), AssignmentWord(a))
  {
    var k := a.key + "=";
    BareReads(k);
    BareReads(a.key + "=1");
    if a.Escaped? {
      forall rest: string ensures Lex(Printed(a) + rest, None) == Lex(rest, Some(AssignmentWord(a))) {
        assert Printed(a) + rest == k + (ShellEscape(a.value) + rest);
        ReadPart(k, Bare(k), ShellEscape(a.value) + rest);
        LexShellEscape(a.value, rest, Some(Bare(k)));
      }
    }
  }

  lemma PathReads(s: string)
    ensures ReadsAs(ShellEscapePath(s), PathWord(s))
  {
    forall rest: string ensures Lex(ShellEscapePath(s) + rest, None) == Lex(rest, Some(PathWord(s))) {
      LexPath(s, rest);
    }
  }

  lemma {:induction false} PrintedAt(assignments: seq<Assignment>, i: nat)
    requires i < |assignments|
    ensures PrintAll(assignments)[i] == Printed(assignments[i])
  {
    var n := |assignments| - 1;
    if i < n {
      PrintedAt(assignments[..n], i);
    }
  }

  /** The variables with names of their own. */
  predicate Fixed(key: string) {
    key == API_KEY || key == AUTH_TOKEN || Other(key)
  }

  predicate Other(key: string) {
    || key == BASE_URL || key == MODEL || key == OPUS || key == SONNET || key == HAIKU || key == CHECKPOINTING
  }

  /** Safe at every position, and no digit first. */
  predicate Spelled(key: string) {
    key != "" && !('0' <= key[0] <= '9') && forall i :: 0 <= i < |key| ==> KeyChar(key[i])
  }

  lemma SpelledIsName(key: string)
    requires Spelled(key)
    ensures Name(key) && Admitted(key)
  {
  }

  lemma ShortKeys(key: string)
    requires key == API_KEY || key == AUTH_TOKEN || key == BASE_URL || key == MODEL
    ensures Spelled(key)
  {
  }

  lemma LargeTiers(key: string)
    requires key == OPUS || key == SONNET
    ensures Spelled(key)
  {
  }

  lemma SmallTier(key: string)
    requires key == HAIKU
    ensures Spelled(key)
  {
  }

  lemma Switch(key: string)
    requires key == CHECKPOINTING
    ensures Spelled(key)
  {
  }

  lemma FixedIsName(key: string)
    requires Fixed(key)
    ensures Name(key) && Admitted(key)
  {
    if key == CHECKPOINTING {
      Switch(key);
    } else if key == HAIKU {
      SmallTier(key);
    } else if key == OPUS || key == SONNET {
      LargeTiers(key);
    } else {
      ShortKeys(key);
    }
    SpelledIsName(key);
  }

  ghost predicate IsExtra(c: Config, a: Assignment) {
    exists s :: s in Admissible(c.extraEnv.GetOr([])) && a == Escaped(s.key, s.value)
  }

  lemma TierKeys(models: seq<string>, s: Setting)
    requires s in ModelTiers(models)
    ensures Other(s.key)
  {
  }

  /** Where an assignment comes from. */
  lemma ConfigurationCases(c: Config, a: Assignment)
    requires a in Configuration(c)
    ensures Other(a.key) || IsExtra(c, a)
  {
    if a in EscapedAll(ModelTiers(c.models.GetOr([]))) {
      var s :| s in ModelTiers(c.models.GetOr([])) && a == Escaped(s.key, s.value);
      TierKeys(c.models.GetOr([]), s);
    }
  }

  /** The fixed variables and the filtered ones all have safe keys. */
  lemma KeysAreSafe(c: Config, a: Assignment)
    requires a in Assignments(c)
    ensures SafeKey(a) && (Name(a.key) || IsExtra(c, a))
  {
    if a in Configuration(c) {
      ConfigurationCases(c, a);
    }
    if a in Credentials(c) || Other(a.key) {
      FixedIsName(a.key);
    }
  }

  lemma ClaudePartsRead(c: Config, i: nat)
    requires i < |ClaudeParts(c)|
    ensures |ClaudeWords(c)| == |ClaudeParts(c)| && ReadsAs(ClaudeParts(c)[i], ClaudeWords(c)[i])
  {
    var prefix, bin := Assignments(c), c.claudePath.GetOr("claude");
    var n := |prefix|;
    if i < n {
      PrintedAt(prefix, i);
      KeysAreSafe(c, prefix[i]);
      AssignmentReads(prefix[i]);
    } else if i == n {
      PathReads(bin);
    } else {
      EscapedAt(c.args, i - n - 1);
      EscapedReads(c.args[i - n - 1]);
    }
  }

  lemma LexCd(rest: string)
    ensures Lex("cd" + (" " + rest), None) == Before([Word(Bare("cd"))], Lex(rest, None))
  {
    BareReads("cd");
    ReadPart("cd", Bare("cd"), " " + rest);
    LexBlank(rest, Some(Bare("cd")));
  }

  lemma LexAnd(rest: string, word: seq<Mark>)
    ensures Lex(" && " + rest, Some(word)) == Before([Word(word), AndIf], Lex(rest, None))
  {
    assert " && " + rest == " " + ("&&" + (" " + rest));
    LexBlank("&&" + (" " + rest), Some(word));
    LexAndIf(" " + rest, None);
    LexBlank(rest, None);
    var read := Lex(rest, None);
    assert Before(Flush(None), read) == read by {
      assert read.Some? ==> [] + read.value == read.value;
    }
    BeforeTwice([Word(word)], [] + [AndIf], read);
    assert [Word(word)] + ([] + [AndIf]) == [Word(word), AndIf];
  }

  lemma LexLine(path: string, word: seq<Mark>, claude: string)
    requires ReadsAs(path, word)
    ensures Lex(JoinWith(["cd " + path, claude], " && "), None)
         == Before([Word(Bare("cd")), Word(word), AndIf], Lex(claude, None))
  {
    var parts := ["cd " + path, claude];
    assert parts[1..] == [claude];
    assert JoinWith(parts, " && ") == "cd" + (" " + (path + (" && " + claude)));
    LexCd(path + (" && " + claude));
    ReadPart(path, word, " && " + claude);
    LexAnd(claude, word);
    BeforeTwice([Word(Bare("cd"))], [Word(word), AndIf], Lex(claude, None));
    assert [Word(Bare("cd"))] + [Word(word), AndIf] == [Word(Bare("cd")), Word(word), AndIf];
  }

  /** The whole line, token by token: change directory, and then the words of one simple command. */
  lemma CommandIsRead(c: Config)
    ensures Lex(Command(c), None)
         == Some([Word(Bare("cd")), Word(PathWord(c.cwd)), AndIf] + AsWords(ClaudeWords(c)))
  {
    forall i | 0 <= i < |ClaudeParts(c)| ensures ReadsAs(ClaudeParts(c)[i], ClaudeWords(c)[i]) {
      ClaudePartsRead(c, i);
    }
    LexSeparated(ClaudeParts(c), ClaudeWords(c));
    PathReads(c.cwd);
    LexLine(ShellEscapePath(c.cwd), PathWord(c.cwd), JoinWith(ClaudeParts(c), " "));
  }

  // ---- Assignments and arguments ----

  function SettingsOf(assignments: seq<Assignment>): (r: seq<Setting>)
    ensures |r| == |assignments|
  {
    if assignments == [] then []
    else [Setting(assignments[0].key, Value(assignments[0]))] + SettingsOf(assignments[1..])
  }

  lemma {:induction false} NameLengthOf(k: string, rest: seq<Mark>)
    requires forall c :: c in k ==> NameChar(c)
    ensures var w := Bare(k) + [Plain('=')] + rest;
            NameLength(w) == |k| && w[..|k|] == Bare(k) && Text(Bare(k)) == k
  {
    var w := Bare(k) + [Plain('=')] + rest;
    if k == "" {
      assert w[0] == Plain('=');
    } else {
      NameLengthOf(k[1..], rest);
      assert w[0] == Plain(k[0]) && w[1..] == Bare(k[1..]) + [Plain('=')] + rest;
    }
  }

  lemma {:induction false} BareConcat(a: string, b: string)
    ensures Bare(a + b) == Bare(a) + Bare(b)
  {
    if a == "" {
      assert a + b == b;
    } else {
      assert (a + b)[1..] == a[1..] + b;
      BareConcat(a[1..], b);
    }
  }

  /** The shell takes a printed assignment for one exactly when its key is a name. */
  lemma AssignmentIsRead(a: Assignment)
    requires SafeKey(a)
    ensures var w := AssignmentWord(a);
            && (IsAssignment(w) <==> Name(a.key))
            && (Name(a.key) ==> Text(w[..NameLength(w)]) == a.key && Text(w[NameLength(w) + 1..]) == Value(a))
  {
    var w := AssignmentWord(a);
    var rest := match a case Escaped(_, v) => Literal(v) case Cleared(_) => [] case Switched(_) => [Plain('1')];
    assert Bare("=") == [Plain('=')] && Bare("=1") == [Plain('='), Plain('1')] by {
      assert "="[1..] == "" && "=1"[1..] == "1" && "1"[1..] == "";
    }
    BareConcat(a.key, "=");
    BareConcat(a.key, "=1");
    assert w == Bare(a.key) + [Plain('=')] + rest;
    NameLengthOf(a.key, rest);
    assert w[|a.key| + 1..] == rest;
    match a {
      case Escaped(_, v) => TextOfLiteral(v);
      case Cleared(_) =>
      case Switched(_) => assert [Plain('1')][1..] == [];
    }
  }

  /** Neither a path nor an argument is ever taken for an assignment. */
  lemma QuotedIsNoAssignment(s: string)
    ensures !IsAssignment(PathWord(s)) && !IsAssignment(Literal(s))
  {
  }

  lemma {:induction false} TextsOfLiterals(args: seq<string>)
    ensures Texts(Literals(args)) == args
  {
    if args != [] {
      TextsOfLiterals(args[1..]);
      TextOfLiteral(args[0]);
      assert Literals(args)[1..] == Literals(args[1..]);
    }
  }

  predicate AllNames(assignments: seq<Assignment>) {
    forall a :: a in assignments ==> Name(a.key)
  }

  /** What a printed assignment comes to when it is read as an ordinary word. */
  function Spelt(a: Assignment): string {
    a.key + "=" + Value(a)
  }

  function SpeltAll(assignments: seq<Assignment>): (r: seq<string>)
    ensures |r| == |assignments|
  {
    if assignments == [] then [] else [Spelt(assignments[0])] + SpeltAll(assignments[1..])
  }

  lemma {:induction false} TextConcat(a: seq<Mark>, b: seq<Mark>)
    ensures Text(a + b) == Text(a) + Text(b)
  {
    if a == [] {
      assert a + b == b;
    } else {
      assert (a + b)[1..] == a[1..] + b;
      TextConcat(a[1..], b);
    }
  }

  lemma {:induction false} TextOfBare(s: string)
    ensures Text(Bare(s)) == s
  {
    if s != "" {
      TextOfBare(s[1..]);
    }
  }

  lemma TextOfAssignment(a: Assignment)
    ensures Text(AssignmentWord(a)) == Spelt(a)
  {
    TextOfBare(a.key + "=");
    TextOfBare(a.key + "=1");
    match a {
      case Escaped(k, v) =>
        TextConcat(Bare(k + "="), Literal(v));
        TextOfLiteral(v);
      case Cleared(k) => assert k + "=" + "" == k + "=";
      case Switched(k) => assert k + "=" + "1" == k + "=1";
    }
  }

  /** The words from an assignment on, if it is not taken for one. */
  lemma {:induction false} TextsOfWords(assignments: seq<Assignment>, bin: string, args: seq<string>)
    ensures Texts(SimpleWords(assignments, bin, args)) == SpeltAll(assignments) + [bin] + args
  {
    hide SimpleWords, AssignmentWord, Spelt, PathWord, Literals, Text;
    WordsUnfold(assignments, bin, args);
    if assignments == [] {
      PathsAreRead(bin, "");
      TextsOfLiterals(args);
      assert SpeltAll(assignments) + [bin] + args == [bin] + args;
    } else {
      TextOfAssignment(assignments[0]);
      TextsOfWords(assignments[1..], bin, args);
      assert SpeltAll(assignments) + [bin] + args
          == [Spelt(assignments[0])] + (SpeltAll(assignments[1..]) + [bin] + args);
    }
  }

  function SimpleWords(assignments: seq<Assignment>, bin: string, args: seq<string>): seq<seq<Mark>> {
    AssignmentWords(assignments) + [PathWord(bin)] + Literals(args)
  }

  lemma WordsUnfold(assignments: seq<Assignment>, bin: string, args: seq<string>)
    ensures SimpleWords(assignments, bin, args) != []
    ensures var words := SimpleWords(assignments, bin, args);
            if assignments == [] then words[0] == PathWord(bin) && words[1..] == Literals(args)
            else words[0] == AssignmentWord(assignments[0]) && words[1..] == SimpleWords(assignments[1..], bin, args)
  {
  }

  /** How many of the assignments come before the first whose key is no name. */
  function Named(assignments: seq<Assignment>): (n: nat)
    ensures n <= |assignments|
    ensures n < |assignments| ==> !Name(assignments[n].key)
  {
    if assignments == [] || !Name(assignments[0].key) then 0 else 1 + Named(assignments[1..])
  }

  lemma {:induction false} AllNamed(assignments: seq<Assignment>)
    ensures Named(assignments) == |assignments| <==> AllNames(assignments)
  {
    if assignments != [] {
      AllNamed(assignments[1..]);
      assert assignments == [assignments[0]] + assignments[1..];
    }
  }

  function AsRead(assignments: seq<Assignment>, bin: string, args: seq<string>): Simple {
    var n := Named(assignments);
    Simple(SettingsOf(assignments[..n]), SpeltAll(assignments[n..]) + [bin] + args)
  }

  /**
   The simple command as the shell reads it: the assignments before the first key that is no name are
   made, and from there on everything is the command and its arguments.
   */
  lemma {:induction false} SimpleIsRead(assignments: seq<Assignment>, bin: string, args: seq<string>)
    requires forall a :: a in assignments ==> SafeKey(a)
    ensures ReadSimple(SimpleWords(assignments, bin, args)) == AsRead(assignments, bin, args)
  {
    hide SimpleWords, AssignmentWord, Text, Literals, PathWord;
    WordsUnfold(assignments, bin, args);
    if assignments == [] {
      QuotedIsNoAssignment(bin);
      TextsOfWords(assignments, bin, args);
    } else {
      var a, rest := assignments[0], assignments[1..];
      AssignmentIsRead(a);
      if Name(a.key) {
        SimpleIsRead(rest, bin, args);
        SettingsNext(assignments, Named(rest));
      } else {
        TextsOfWords(assignments, bin, args);
        assert assignments[..0] == [] && assignments[0..] == assignments;
      }
    }
  }

  lemma SettingsNext(assignments: seq<Assignment>, n: nat)
    requires n < |assignments|
    ensures SettingsOf(assignments[..n + 1])
         == [Setting(assignments[0].key, Value(assignments[0]))] + SettingsOf(assignments[1..][..n])
    ensures assignments[n + 1..] == assignments[1..][n..]
  {
    assert assignments[..n + 1][1..] == assignments[1..][..n];
  }

  /** What the remote shell sets and runs, for any configuration. */
  lemma ClaudeIsRead(c: Config)
    ensures ReadSimple(ClaudeWords(c)) == AsRead(Assignments(c), c.claudePath.GetOr("claude"), c.args)
  {
    forall a | a in Assignments(c) ensures SafeKey(a) {
      KeysAreSafe(c, a);
    }
    SimpleIsRead(Assignments(c), c.claudePath.GetOr("claude"), c.args);
  }

  /** Reading makes every assignment and runs the program exactly when every key is a name. */
  lemma MeantWhenNamed(assignments: seq<Assignment>, bin: string, args: seq<string>)
    ensures AsRead(assignments, bin, args) == Simple(SettingsOf(assignments), [bin] + args) <==> AllNames(assignments)
  {
    var n := Named(assignments);
    AllNamed(assignments);
    if n == |assignments| {
      assert assignments[..n] == assignments && assignments[n..] == [] && SpeltAll([]) + [bin] + args == [bin] + args;
    } else {
      assert |SettingsOf(assignments[..n])| < |SettingsOf(assignments)|;
    }
  }

  /** The keys are all names exactly when those of the extra variables are. */
  lemma NamedWhenExtrasAre(c: Config)
    ensures AllNames(Assignments(c)) <==> forall s :: s in Admissible(c.extraEnv.GetOr([])) ==> Name(s.key)
  {
    var extra := Admissible(c.extraEnv.GetOr([]));
    if forall s :: s in extra ==> Name(s.key) {
      forall a | a in Assignments(c) ensures Name(a.key) {
        KeysAreSafe(c, a);
      }
    } else {
      var s :| s in extra && !Name(s.key);
      EscapedHas(extra, s);
      assert Escaped(s.key, s.value) in Assignments(c);
    }
  }

  /**
   The remote shell sets every variable it is meant to and runs the program with its arguments,
   exactly when every extra variable the filter admits has a key that is a POSIX name; the filter
   also admits the empty key and keys that start with a digit.
   */
  lemma RemoteCommandRunsAsMeant(c: Config)
    ensures ReadSimple(ClaudeWords(c)) == Simple(SettingsOf(Assignments(c)), [c.claudePath.GetOr("claude")] + c.args)
            <==> forall s :: s in Admissible(c.extraEnv.GetOr([])) ==> Name(s.key)
  {
    ClaudeIsRead(c);
    MeantWhenNamed(Assignments(c), c.claudePath.GetOr("claude"), c.args);
    NamedWhenExtrasAre(c);
  }

  lemma {:induction false} EscapedHas(settings: seq<Setting>, s: Setting)
    requires s in settings
    ensures Escaped(s.key, s.value) in EscapedAll(settings)
  {
    var n := |settings| - 1;
    if s != settings[n] {
      assert s in settings[..n];
      EscapedHas(settings[..n], s);
    }
  }

  function WithKey(key: string): Config {
    Config("~", None, [], None, None, None, None, Some([Setting(key, "x")]))
  }

  lemma OneExtra(s: Setting)
    requires Admitted(s.key)
    ensures Admissible([s]) == [s] && EscapedAll([s]) == [Escaped(s.key, s.value)]
  {
    assert [s][..0] == [];
  }

  lemma NoTiers()
    ensures EscapedAll(ModelTiers([])) == []
  {
  }

  lemma FirstIsExtra(key: string)
    requires Admitted(key)
    ensures Assignments(WithKey(key)) == [Escaped(key, "x"), Switched(CHECKPOINTING)]
  {
    hide Admissible, EscapedAll, ModelTiers, Admitted;
    OneExtra(Setting(key, "x"));
    NoTiers();
  }

  lemma OddKeyRead(a: Assignment, b: Assignment, bin: string)
    requires !Name(a.key)
    ensures AsRead([a, b], bin, []) == Simple([], [Spelt(a), Spelt(b), bin])
  {
    var all := [a, b];
    assert Named(all) == 0 && all[..0] == [] && all[0..] == all && all[1..] == [b] && [b][1..] == [];
    assert SpeltAll([b]) == [Spelt(b)];
  }

  /** An admitted key that is no name is run as the command, and what should have been run is its argument. */
  lemma OddKeyIsRun(key: string)
    requires Admitted(key) && !Name(key)
    ensures ReadSimple(ClaudeWords(WithKey(key)))
         == Simple([], [Spelt(Escaped(key, "x")), Spelt(Switched(CHECKPOINTING)), "claude"])
  {
    FirstIsExtra(key);
    ClaudeIsRead(WithKey(key));
    OddKeyRead(Escaped(key, "x"), Switched(CHECKPOINTING), "claude");
  }

  lemma SpeltKeys()
    ensures Spelt(Escaped("9", "x")) == "9=x" && Spelt(Escaped("", "x")) == "=x"
  {
  }

  /** Two keys that the filter lets through and that are run: a digit, and the empty one. */
  lemma DigitKeyIsRun()
    ensures Admitted("9") && Admitted("")
    ensures ReadSimple(ClaudeWords(WithKey("9"))).settings == [] && ReadSimple(ClaudeWords(WithKey(""))).settings == []
    ensures ReadSimple(ClaudeWords(WithKey("9"))).argv == ["9=x", Spelt(Switched(CHECKPOINTING)), "claude"]
    ensures ReadSimple(ClaudeWords(WithKey(""))).argv == ["=x", Spelt(Switched(CHECKPOINTING)), "claude"]
  {
    OddKeyIsRun("9");
    OddKeyIsRun("");
    SpeltKeys();
  }

  // ---- What ends up in each variable ----

  /** The value a variable ends up with: that of its last assignment. */
  function Final(settings: seq<Setting>, key: string): Option<string> {
    if settings == [] then None
    else
      var later := Final(settings[1..], key);
      if later.Some? then later else if settings[0].key == key then Some(settings[0].value) else None
  }

  lemma {:induction false} FinalConcat(a: seq<Setting>, b: seq<Setting>, key: string)
    ensures Final(a + b, key) == Later(Final(a, key), Final(b, key))
  {
    if a == [] {
      assert a + b == b;
    } else {
      assert (a + b)[1..] == a[1..] + b;
      FinalConcat(a[1..], b, key);
    }
  }

  lemma {:induction false} SettingsConcat(a: seq<Assignment>, b: seq<Assignment>)
    ensures SettingsOf(a + b) == SettingsOf(a) + SettingsOf(b)
  {
    if a == [] {
      assert a + b == b;
    } else {
      assert (a + b)[1..] == a[1..] + b;
      SettingsConcat(a[1..], b);
    }
  }

  lemma {:induction false} FinalOfOthers(assignments: seq<Assignment>, key: string)
    requires forall a :: a in assignments ==> a.key != key
    ensures Final(SettingsOf(assignments), key) == None
  {
    if assignments != [] {
      assert assignments[0] in assignments;
      FinalOfOthers(assignments[1..], key);
    }
  }

  lemma CredentialSettings(c: Config)
    ensures Final(SettingsOf(Credentials(c)), API_KEY)
         == if c.authToken.Some? then Some("") else c.apiKey
    ensures Final(SettingsOf(Credentials(c)), AUTH_TOKEN)
         == if c.authToken.Some? then c.authToken else if c.apiKey.Some? then Some("") else None
  {
    var first: seq<Assignment> := if c.apiKey.Some? then [Escaped(API_KEY, c.apiKey.value), Cleared(AUTH_TOKEN)] else [];
    var second: seq<Assignment> := if c.authToken.Some? then [Escaped(AUTH_TOKEN, c.authToken.value), Cleared(API_KEY)] else [];
    SettingsConcat(first, second);
    FinalConcat(SettingsOf(first), SettingsOf(second), API_KEY);
    FinalConcat(SettingsOf(first), SettingsOf(second), AUTH_TOKEN);
    if c.apiKey.Some? {
      TwoSettings(Escaped(API_KEY, c.apiKey.value), Cleared(AUTH_TOKEN), API_KEY);
      TwoSettings(Escaped(API_KEY, c.apiKey.value), Cleared(AUTH_TOKEN), AUTH_TOKEN);
    }
    if c.authToken.Some? {
      TwoSettings(Escaped(AUTH_TOKEN, c.authToken.value), Cleared(API_KEY), API_KEY);
      TwoSettings(Escaped(AUTH_TOKEN, c.authToken.value), Cleared(API_KEY), AUTH_TOKEN);
    }
  }

  lemma TwoSettings(a: Assignment, b: Assignment, key: string)
    ensures Final(SettingsOf([a, b]), key)
         == if b.key == key then Some(Value(b)) else if a.key == key then Some(Value(a)) else None
  {
    OneSetting(a, key);
    OneSetting(b, key);
    assert [a] + [b] == [a, b];
    SettingsConcat([a], [b]);
    FinalConcat(SettingsOf([a]), SettingsOf([b]), key);
  }

  lemma OneSetting(a: Assignment, key: string)
    ensures Final(SettingsOf([a]), key) == if a.key == key then Some(Value(a)) else None
  {
    var s := Setting(a.key, Value(a));
    assert [a][1..] == [] && SettingsOf([a]) == [s] + SettingsOf([]) == [s];
    assert [s][1..] == [] && Final([], key) == None;
  }

  // ---- Model tiers ----

  /** The model for each size. */
  datatype Tiers = Tiers(opus: string, sonnet: string, haiku: string)

  /** The tiers a list of models stands for. */
  predicate TiersOf(models: seq<string>, t: Tiers) {
    && models != []
    && (|models| == 1 ==> t == Tiers(models[0], models[0], models[0]))
    && (|models| == 2 ==> t == Tiers(models[0], models[0], models[1]))
    && (|models| >= 3 ==>
          && models[1] != "" && t.sonnet == models[1]
          && t.opus == (if models[0] == "" then models[1] else models[0])
          && t.haiku == (if models[2] == "" then models[1] else models[2]))
  }

  /** None stand for an empty list, or for three models or more with an empty one in the middle. */
  predicate TiersIn(models: seq<string>, t: Option<Tiers>) {
    if t.Some? then TiersOf(models, t.value) else models == [] || (|models| >= 3 && models[1] == "")
  }

  predicate TierKey(key: string) {
    key == MODEL || key == OPUS || key == SONNET || key == HAIKU
  }

  /** The model a variable should carry. */
  function TierModel(t: Tiers, key: string): string {
    if key == OPUS then t.opus else if key == HAIKU then t.haiku else t.sonnet
  }

  lemma KeysDiffer()
    ensures MODEL != OPUS && MODEL != SONNET && MODEL != HAIKU && OPUS != SONNET && OPUS != HAIKU && SONNET != HAIKU
    ensures !TierKey(BASE_URL) && !TierKey(API_KEY) && !TierKey(AUTH_TOKEN)
    ensures BASE_URL != API_KEY && BASE_URL != AUTH_TOKEN && API_KEY != AUTH_TOKEN
    ensures CHECKPOINTING != API_KEY && CHECKPOINTING != AUTH_TOKEN
  {
    assert |MODEL| == 15 && |OPUS| == 28 && |SONNET| == 30 && |HAIKU| == 29;
    assert |BASE_URL| == 18 && |API_KEY| == 17 && |AUTH_TOKEN| == 20 && |CHECKPOINTING| == 41;
  }

  lemma TiersExist(models: seq<string>) returns (t: Option<Tiers>)
    ensures TiersIn(models, t)
  {
    if models == [] || (|models| >= 3 && models[1] == "") {
      t := None;
    } else if |models| <= 2 {
      t := Some(Tiers(models[0], models[0], models[|models| - 1]));
    } else {
      t := Some(Tiers(if models[0] == "" then models[1] else models[0], models[1],
                      if models[2] == "" then models[1] else models[2]));
    }
  }

  lemma TiersAre(models: seq<string>, t: Option<Tiers>)
    requires TiersIn(models, t)
    ensures ModelTiers(models) == if t.Some? then TierSettings(t.value.opus, t.value.sonnet, t.value.haiku) else []
  {
  }

  lemma FinalCons(first: Setting, rest: seq<Setting>, key: string)
    ensures Final([first] + rest, key)
         == Later(if first.key == key then Some(first.value) else None, Final(rest, key))
  {
    assert ([first] + rest)[1..] == rest;
  }

  lemma FinalOfNone(key: string)
    ensures Final([], key) == None
  {
  }

  lemma TierFinal(t: Tiers, key: string)
    ensures Final(TierSettings(t.opus, t.sonnet, t.haiku), key) == if TierKey(key) then Some(TierModel(t, key)) else None
  {
    hide Final;
    KeysDiffer();
    var a, b, c, d := Setting(MODEL, t.sonnet), Setting(OPUS, t.opus), Setting(SONNET, t.sonnet), Setting(HAIKU, t.haiku);
    FinalOfNone(key);
    FinalCons(d, [], key);
    FinalCons(c, [d], key);
    FinalCons(b, [c, d], key);
    FinalCons(a, [b, c, d], key);
    assert [d] + [] == [d] && [c] + [d] == [c, d] && [b] + [c, d] == [b, c, d];
    assert TierSettings(t.opus, t.sonnet, t.haiku) == [a] + [b, c, d];
  }

  // ---- Every variable ----

  lemma {:induction false} EscapedSettings(settings: seq<Setting>)
    ensures SettingsOf(EscapedAll(settings)) == settings
  {
    if settings != [] {
      var n := |settings| - 1;
      EscapedSettings(settings[..n]);
      SettingsConcat(EscapedAll(settings[..n]), [Escaped(settings[n].key, settings[n].value)]);
      assert [Escaped(settings[n].key, settings[n].value)][1..] == [];
    }
  }

  /** Whether a key is written with capitals, digits and underscores alone. */
  predicate Spellable(key: string) {
    forall c :: c in key ==> 'A' <= c <= 'Z' || '0' <= c <= '9' || c == '_'
  }

  /** The filter changes nothing for a key it admits, and leaves nothing of any other. */
  lemma {:induction false} FinalAdmissible(extra: seq<Setting>, key: string)
    ensures Final(Admissible(extra), key) == if Spellable(key) then Final(extra, key) else None
  {
    FinalOfNone(key);
    if extra != [] {
      hide Final;
      var n := |extra| - 1;
      FinalAdmissible(extra[..n], key);
      FinalCons(extra[n], [], key);
      assert [extra[n]] + [] == [extra[n]] && extra[..n] + [extra[n]] == extra;
      FinalConcat(extra[..n], [extra[n]], key);
      FinalConcat(Admissible(extra[..n]), if Admitted(extra[n].key) then [extra[n]] else [], key);
    }
  }

  /** What the settings put into a variable: the token before the key, each clearing the other. */
  function Ours(c: Config, t: Option<Tiers>, key: string): Option<string> {
    if key == API_KEY then if c.authToken.Some? then Some("") else c.apiKey
    else if key == AUTH_TOKEN then if c.authToken.None? && c.apiKey.Some? then Some("") else c.authToken
    else if key == BASE_URL then c.baseUrl
    else if TierKey(key) && t.Some? then Some(TierModel(t.value, key))
    else None
  }

  lemma CredentialFinal(c: Config, key: string)
    ensures Final(SettingsOf(Credentials(c)), key)
         == if key == API_KEY || key == AUTH_TOKEN then Ours(c, None, key) else None
  {
    CredentialSettings(c);
    if key != API_KEY && key != AUTH_TOKEN {
      FinalOfOthers(Credentials(c), key);
    }
  }

  lemma UrlFinal(c: Config, key: string)
    ensures Final(SettingsOf(UrlAssignment(c)), key) == if key == BASE_URL then c.baseUrl else None
  {
    if c.baseUrl.Some? {
      OneSetting(Escaped(BASE_URL, c.baseUrl.value), key);
    }
  }

  lemma TiersFinal(c: Config, t: Option<Tiers>, key: string)
    requires TiersIn(c.models.GetOr([]), t)
    ensures Final(SettingsOf(EscapedAll(ModelTiers(c.models.GetOr([])))), key)
         == if TierKey(key) && t.Some? then Some(TierModel(t.value, key)) else None
  {
    hide ModelTiers, TiersIn, TierKey, TierModel, TierSettings;
    EscapedSettings(ModelTiers(c.models.GetOr([])));
    TiersAre(c.models.GetOr([]), t);
    if t.Some? {
      TierFinal(t.value, key);
    }
  }

  lemma ExtraFinal(c: Config, key: string)
    ensures var extra := c.extraEnv.GetOr([]);
            Final(SettingsOf(EscapedAll(Admissible(extra))), key) == if Spellable(key) then Final(extra, key) else None
  {
    EscapedSettings(Admissible(c.extraEnv.GetOr([])));
    FinalAdmissible(c.extraEnv.GetOr([]), key);
  }

  lemma FinalOfParts(a: seq<Assignment>, b: seq<Assignment>, key: string)
    ensures Final(SettingsOf(a + b), key) == Later(Final(SettingsOf(a), key), Final(SettingsOf(b), key))
  {
    SettingsConcat(a, b);
    FinalConcat(SettingsOf(a), SettingsOf(b), key);
  }

  /**
   What every variable ends up with: file checkpointing is on whatever the extra variables say; of the
   others, an extra one of a spellable name has the last word, and before it the credentials, the
   endpoint, and the four models, where one model alone serves all sizes, of two the second is for the
   small size, and of three an empty outer one gives way to the middle.
   */
  lemma VariablesAreSet(c: Config, t: Option<Tiers>, key: string)
    requires TiersIn(c.models.GetOr([]), t)
    ensures Final(SettingsOf(Assignments(c)), key)
         == if key == CHECKPOINTING then Some("1")
            else Later(Ours(c, t, key), if Spellable(key) then Final(c.extraEnv.GetOr([]), key) else None)
  {
    hide Final, SettingsOf, EscapedAll, Admissible, Credentials, UrlAssignment, ModelTiers, TiersIn, TierModel, Spellable;
    var url, tiers := UrlAssignment(c), EscapedAll(ModelTiers(c.models.GetOr([])));
    var extra, last := EscapedAll(Admissible(c.extraEnv.GetOr([]))), [Switched(CHECKPOINTING)];
    CredentialFinal(c, key);
    UrlFinal(c, key);
    TiersFinal(c, t, key);
    ExtraFinal(c, key);
    OneSetting(Switched(CHECKPOINTING), key);
    KeysDiffer();
    FinalOfParts(Credentials(c), url + tiers + extra + last, key);
    FinalOfParts(url + tiers + extra, last, key);
    FinalOfParts(url + tiers, extra, key);
    FinalOfParts(url, tiers, key);
  }

  lemma {:induction false} NotFinal(settings: seq<Setting>, key: string)
    requires forall s :: s in settings ==> s.key != key
    ensures Final(settings, key) == None
  {
    if settings != [] {
      assert settings[0] in settings;
      NotFinal(settings[1..], key);
    }
  }

  /**
   At most one credential reaches the remote program: the token if there is one, else the key, and
   the other variable is emptied; extra variables could only change that by naming them.
   */
  lemma OneCredential(c: Config)
    requires forall s :: s in c.extraEnv.GetOr([]) ==> s.key != API_KEY && s.key != AUTH_TOKEN
    ensures Final(SettingsOf(Assignments(c)), API_KEY) == if c.authToken.Some? then Some("") else c.apiKey
    ensures Final(SettingsOf(Assignments(c)), AUTH_TOKEN)
         == if c.authToken.Some? then c.authToken else if c.apiKey.Some? then Some("") else None
  {
    hide Final, SettingsOf, Assignments;
    var t := TiersExist(c.models.GetOr([]));
    KeysDiffer();
    VariablesAreSet(c, t, API_KEY);
    VariablesAreSet(c, t, AUTH_TOKEN);
    NotFinal(c.extraEnv.GetOr([]), API_KEY);
    NotFinal(c.extraEnv.GetOr([]), AUTH_TOKEN);
  }
}

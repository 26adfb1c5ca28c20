/**
 The command line that starts Claude on a remote host, and what the remote shell makes of it: a
 change of directory, then one simple command with its variable assignments and arguments.
 */
module RemoteCommand {
  import opened ShellQuoting
  import opened Wrappers

  datatype Setting = Setting(key: string, value: string)

  datatype Config = Config(
    cwd: string,
    claudePath: Option<string>,
    args: seq<string>,
    apiKey: Option<string>,
    authToken: Option<string>,
    baseUrl: Option<string>,
    models: Option<seq<string>>,
    extraEnv: Option<seq<Setting>>)   // in the order the map is iterated

  // ---- The variables ----

  const API_KEY := "ANTHROPIC_API_KEY"
  const AUTH_TOKEN := "ANTHROPIC_AUTH_TOKEN"
  const BASE_URL := "ANTHROPIC_BASE_URL"
  const MODEL := "ANTHROPIC_MODEL"
  const OPUS := "ANTHROPIC_DEFAULT_OPUS_MODEL"
  const SONNET := "ANTHROPIC_DEFAULT_SONNET_MODEL"
  const HAIKU := "ANTHROPIC_DEFAULT_HAIKU_MODEL"
  const CHECKPOINTING := "CLAUDE_CODE_ENABLE_SDK_FILE_CHECKPOINTING"

  function ModelTiers(models: seq<string>): seq<Setting> {
    if models == [] then []
    else if |models| <= 2 then TierSettings(models[0], models[0], models[|models| - 1])
    else if models[1] == "" then []
    else
      TierSettings(if models[0] == "" then models[1] else models[0], models[1],
                   if models[2] == "" then models[1] else models[2])
  }

  function TierSettings(opus: string, sonnet: string, haiku: string): seq<Setting> {
    [Setting(MODEL, sonnet), Setting(OPUS, opus), Setting(SONNET, sonnet), Setting(HAIKU, haiku)]
  }

  predicate KeyChar(c: char) {
    'A' <= c <= 'Z' || '0' <= c <= '9' || c == '_'
  }

  /** The filter on extra variables: every character is safe; the name may be empty or start with a digit. */
  predicate Admitted(key: string) {
    forall c :: c in key ==> KeyChar(c)
  }

  /** A printed assignment, quoted or with an empty or fixed value. */
  datatype Assignment = Escaped(key: string, value: string) | Cleared(key: string) | Switched(key: string)

  function Printed(a: Assignment): string {
    match a
    case Escaped(k, v) => k + "=" + ShellEscape(v)
    case Cleared(k) => k + "="
    case Switched(k) => k + "=1"
  }

  function Value(a: Assignment): string {
    match a
    case Escaped(_, v) => v
    case Cleared(_) => ""
    case Switched(_) => "1"
  }

  function EscapedAll(settings: seq<Setting>): (r: seq<Assignment>)
    ensures |r| == |settings|
    ensures forall a :: a in r ==> exists s :: s in settings && a == Escaped(s.key, s.value)
  {
    if settings == [] then []
    else
      var n := |settings| - 1;
      EscapedAll(settings[..n]) + [Escaped(settings[n].key, settings[n].value)]
  }

  /** The extra variables that pass the filter. */
  function Admissible(extra: seq<Setting>): (r: seq<Setting>)
    ensures forall s :: s in r <==> s in extra && Admitted(s.key)
  {
    if extra == [] then []
    else
      var n := |extra| - 1;
      assert extra == extra[..n] + [extra[n]];
      Admissible(extra[..n]) + (if Admitted(extra[n].key) then [extra[n]] else [])
  }

  function Credentials(c: Config): seq<Assignment> {
    (if c.apiKey.Some? then [Escaped(API_KEY, c.apiKey.value), Cleared(AUTH_TOKEN)] else [])
    + (if c.authToken.Some? then [Escaped(AUTH_TOKEN, c.authToken.value), Cleared(API_KEY)] else [])
  }

  /** Everything but the credentials. */
  function Configuration(c: Config): seq<Assignment> {
    UrlAssignment(c)
    + EscapedAll(ModelTiers(c.models.GetOr([])))
    + EscapedAll(Admissible(c.extraEnv.GetOr([])))
    + [Switched(CHECKPOINTING)]
  }

  function Assignments(c: Config): seq<Assignment> {
    Credentials(c) + Configuration(c)
  }

  function PrintAll(assignments: seq<Assignment>): (r: seq<string>)
    ensures |r| == |assignments|
  {
    if assignments == [] then []
    else
      var n := |assignments| - 1;
      PrintAll(assignments[..n]) + [Printed(assignments[n])]
  }

  function ClaudeParts(c: Config): seq<string> {
    PrintAll(Assignments(c)) + [ShellEscapePath(c.claudePath.GetOr("claude"))] + EscapeAll(c.args)
  }

  function Command(c: Config): string {
    JoinWith(["cd " + ShellEscapePath(c.cwd), JoinWith(ClaudeParts(c), " ")], " && ")
  }

  // ---- The builder ----

  lemma PrintSnoc(done: seq<Assignment>, a: Assignment)
    ensures PrintAll(done + [a]) == PrintAll(done) + [Printed(a)]
  {
    assert (done + [a])[..|done|] == done;
  }

  lemma {:induction false} EscapeAllSnoc(args: seq<string>, k: nat)
    requires k < |args|
    ensures EscapeAll(args[..k + 1]) == EscapeAll(args[..k]) + [ShellEscape(args[k])]
  {
    if k > 0 {
      assert args[..k + 1][1..] == args[1..][..k] && args[..k][1..] == args[1..][..k - 1];
      EscapeAllSnoc(args[1..], k - 1);
    } else {
      assert args[..1][1..] == [] && args[..0] == [];
    }
  }

  lemma TierNext(tiers: seq<Setting>, k: nat)
    requires k < |tiers|
    ensures PrintAll(EscapedAll(tiers[..k + 1]))
         == PrintAll(EscapedAll(tiers[..k])) + [tiers[k].key + "=" + ShellEscape(tiers[k].value)]
  {
    assert tiers[..k + 1][..k] == tiers[..k];
    PrintSnoc(EscapedAll(tiers[..k]), Escaped(tiers[k].key, tiers[k].value));
  }

  lemma AdmissibleNext(extra: seq<Setting>, k: nat)
    requires k < |extra|
    ensures Admissible(extra[..k + 1])
         == Admissible(extra[..k]) + (if Admitted(extra[k].key) then [extra[k]] else [])
  {
    assert extra[..k + 1][..k] == extra[..k];
  }

  lemma EscapedSnoc(settings: seq<Setting>, s: Setting)
    ensures EscapedAll(settings + [s]) == EscapedAll(settings) + [Escaped(s.key, s.value)]
  {
    assert (settings + [s])[..|settings|] == settings;
  }

  lemma ExtraNext(extra: seq<Setting>, k: nat)
    requires k < |extra|
    ensures PrintAll(EscapedAll(Admissible(extra[..k + 1])))
         == PrintAll(EscapedAll(Admissible(extra[..k])))
            + (if Admitted(extra[k].key) then [extra[k].key + "=" + ShellEscape(extra[k].value)] else [])
  {
    hide Admissible, EscapedAll, PrintAll, Admitted;
    AdmissibleNext(extra, k);
    var before := Admissible(extra[..k]);
    if Admitted(extra[k].key) {
      EscapedSnoc(before, extra[k]);
      PrintSnoc(EscapedAll(before), Escaped(extra[k].key, extra[k].value));
    } else {
      assert before + [] == before;
    }
  }

  lemma Regroup<T>(a: seq<T>, b: seq<T>, c: seq<T>)
    ensures (a + b) + c == a + (b + c)
  {
  }

  /** One assignment for each model tier. */
  method PushTiers(tiers: seq<Setting>, parts0: seq<string>) returns (parts: seq<string>)
    ensures parts == parts0 + PrintAll(EscapedAll(tiers))
  {
    parts := parts0;
    var k := 0;
    while k < |tiers|
      invariant 0 <= k <= |tiers| && parts == parts0 + PrintAll(EscapedAll(tiers[..k]))
    {
      TierNext(tiers, k);
      Regroup(parts0, PrintAll(EscapedAll(tiers[..k])), [tiers[k].key + "=" + ShellEscape(tiers[k].value)]);
      parts := parts + [tiers[k].key + "=" + ShellEscape(tiers[k].value)];
      k := k + 1;
    }
    assert tiers[..k] == tiers;
  }

  /** One assignment for each extra variable whose key passes the filter. */
  method PushExtra(extra: seq<Setting>, parts0: seq<string>) returns (parts: seq<string>)
    ensures parts == parts0 + PrintAll(EscapedAll(Admissible(extra)))
  {
    parts := parts0;
    var k := 0;
    while k < |extra|
      invariant 0 <= k <= |extra| && parts == parts0 + PrintAll(EscapedAll(Admissible(extra[..k])))
    {
      ExtraNext(extra, k);
      if Admitted(extra[k].key) {
        Regroup(parts0, PrintAll(EscapedAll(Admissible(extra[..k]))), [extra[k].key + "=" + ShellEscape(extra[k].value)]);
        parts := parts + [extra[k].key + "=" + ShellEscape(extra[k].value)];
      }
      k := k + 1;
    }
    assert extra[..k] == extra;
  }

  method PushCredentials(c: Config) returns (parts: seq<string>)
    ensures parts == PrintAll(Credentials(c))
  {
    parts := [];
    ghost var done: seq<Assignment> := [];
    if c.apiKey.Some? {
      parts := parts + [API_KEY + "=" + ShellEscape(c.apiKey.value)];
      parts := parts + [AUTH_TOKEN + "="];
      PrintSnoc([], Escaped(API_KEY, c.apiKey.value));
      PrintSnoc([Escaped(API_KEY, c.apiKey.value)], Cleared(AUTH_TOKEN));
      done := [Escaped(API_KEY, c.apiKey.value)] + [Cleared(AUTH_TOKEN)];
    }
    if c.authToken.Some? {
      parts := parts + [AUTH_TOKEN + "=" + ShellEscape(c.authToken.value)];
      parts := parts + [API_KEY + "="];
      PrintSnoc(done, Escaped(AUTH_TOKEN, c.authToken.value));
      PrintSnoc(done + [Escaped(AUTH_TOKEN, c.authToken.value)], Cleared(API_KEY));
      done := done + [Escaped(AUTH_TOKEN, c.authToken.value)] + [Cleared(API_KEY)];
    }
    assert done == Credentials(c);
  }

  method PushArgs(args: seq<string>, parts0: seq<string>) returns (parts: seq<string>)
    ensures parts == parts0 + EscapeAll(args)
  {
    parts := parts0;
    var k := 0;
    while k < |args|
      invariant 0 <= k <= |args| && parts == parts0 + EscapeAll(args[..k])
    {
      EscapeAllSnoc(args, k);
      parts := parts + [ShellEscape(args[k])];
      k := k + 1;
    }
    assert args[..k] == args;
  }

  function UrlAssignment(c: Config): seq<Assignment> {
    if c.baseUrl.Some? then [Escaped(BASE_URL, c.baseUrl.value)] else []
  }

  method PushUrl(c: Config, parts0: seq<string>) returns (parts: seq<string>)
    ensures parts == parts0 + PrintAll(UrlAssignment(c))
  {
    parts := parts0;
    if c.baseUrl.Some? {
      parts := parts + [BASE_URL + "=" + ShellEscape(c.baseUrl.value)];
      PrintSnoc([], Escaped(BASE_URL, c.baseUrl.value));
    }
  }

  lemma {:induction false} PrintAllConcat(a: seq<Assignment>, b: seq<Assignment>)
    ensures PrintAll(a + b) == PrintAll(a) + PrintAll(b)
  {
    if b == [] {
      assert a + b == a;
    } else {
      var n := |b| - 1;
      assert a + b == (a + b[..n]) + [b[n]];
      PrintAllConcat(a, b[..n]);
      PrintSnoc(a + b[..n], b[n]);
    }
  }

  lemma PrintFive(a: seq<Assignment>, b: seq<Assignment>, c: seq<Assignment>, d: seq<Assignment>, e: Assignment)
    ensures PrintAll(a + (b + c + d + [e])) == PrintAll(a) + PrintAll(b) + PrintAll(c) + PrintAll(d) + [Printed(e)]
  {
    assert a + (b + c + d + [e]) == (((a + b) + c) + d) + [e];
    PrintAllConcat(a, b);
    PrintAllConcat(a + b, c);
    PrintAllConcat((a + b) + c, d);
    PrintSnoc(((a + b) + c) + d, e);
  }

  /** The environment prefix, part by part. */
  method PushEnvironment(c: Config) returns (parts: seq<string>)
    ensures parts == PrintAll(Assignments(c))
  {
    parts := PushCredentials(c);
    parts := PushUrl(c, parts);
    parts := PushTiers(ModelTiers(c.models.GetOr([])), parts);
    parts := PushExtra(c.extraEnv.GetOr([]), parts);
    parts := parts + [CHECKPOINTING + "=1"];
    PrintFive(Credentials(c), UrlAssignment(c), EscapedAll(ModelTiers(c.models.GetOr([]))),
              EscapedAll(Admissible(c.extraEnv.GetOr([]))), Switched(CHECKPOINTING));
  }

  /** Assemble the remote command. */
  method BuildRemoteClaudeCommand(c: Config) returns (command: string)
    ensures command == Command(c)
  {
    var claudeBin := c.claudePath.GetOr("claude");
    var parts := ["cd " + ShellEscapePath(c.cwd)];
    var claudeParts := PushEnvironment(c);
    claudeParts := claudeParts + [ShellEscapePath(claudeBin)];
    claudeParts := PushArgs(c.args, claudeParts);
    parts := parts + [JoinWith(claudeParts, " ")];
    command := JoinWith(parts, " && ");
  }
}

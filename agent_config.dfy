/**
 * The agent's command line built from its environment (`env_config`): each recognised variable that
 * is set contributes its flag, in a fixed order. `Parse`, a decoder defined here, inverts the list.
 */
module AgentConfig {
  import opened Wrappers

  type Env = map<string, string>

  /** The variables `env_config` looks at. */
  datatype Var =
    | Port | AgentName | Strategy | LlmEndpointUrl | LlmEngine | Model | RecursionLimit
    | RequireHumanFeedback | Debug | RoleDescription | Tools

  /** How a variable becomes arguments: `--flag value`, a bare `--flag` when "true", or `--flag 'value'`. */
  datatype Form = Valued | Switch | Quoted

  /** The environment variable read for each option. */
  function Key(v: Var): string
  {
    match v
    case Port => "port"
    case AgentName => "AGENT_NAME"
    case Strategy => "strategy"
    case LlmEndpointUrl => "llm_endpoint_url"
    case LlmEngine => "llm_engine"
    case Model => "model"
    case RecursionLimit => "recursion_limit"
    case RequireHumanFeedback => "require_human_feedback"
    case Debug => "debug"
    case RoleDescription => "role_description"
    case Tools => "tools"
  }

  /** The command-line flag each option is passed as. */
  function Flag(v: Var): string
  {
    match v
    case Port => "--port"
    case AgentName => "--agent_name"
    case Strategy => "--strategy"
    case LlmEndpointUrl => "--llm_endpoint_url"
    case LlmEngine => "--llm_engine"
    case Model => "--model"
    case RecursionLimit => "--recursion_limit"
    case RequireHumanFeedback => "--require_human_feedback"
    case Debug => "--debug"
    case RoleDescription => "--role_description"
    case Tools => "--tools"
  }

  function FormOf(v: Var): Form
  {
    match v
    case RequireHumanFeedback | Debug => Switch
    case RoleDescription => Quoted
    case _ => Valued
  }

  /** The order `env_config` looks at the variables in. */
  const Options: seq<Var> := [Port, AgentName, Strategy, LlmEndpointUrl, LlmEngine, Model, RecursionLimit,
                              RequireHumanFeedback, Debug, RoleDescription, Tools]

  /** `str.lower` on ASCII letters. */
  function Lower(s: string): (r: string)
    ensures |r| == |s|
    ensures forall i :: 0 <= i < |s| ==> r[i] == if 'A' <= s[i] <= 'Z' then (s[i] - 'A' + 'a') as char else s[i]
  {
    seq(|s|, i requires 0 <= i < |s| => if 'A' <= s[i] <= 'Z' then (s[i] - 'A' + 'a') as char else s[i])
  }

  predicate IsTrue(value: string)
  {
    Lower(value) == "true"
  }

  /** The case of the letters does not matter; anything but the word "true" is off. */
  lemma TrueIgnoresCase()
    ensures IsTrue("true") && IsTrue("True") && IsTrue("TRUE")
    ensures !IsTrue("1") && !IsTrue("yes") && !IsTrue("") && !IsTrue("true ")
  {
    assert Lower("True") == "true";
    assert Lower("TRUE") == "true";
    assert Lower("true") == "true";
    assert Lower("1")[0] == '1';
    assert Lower("yes")[0] == 'y';
  }

  function Quote(value: string): string
  {
    "'" + value + "'"
  }

  /** Whether an option adds anything: its variable is set and, for a switch, is "true". */
  predicate Contributes(env: Env, v: Var)
  {
    Key(v) in env && (FormOf(v) == Switch ==> IsTrue(env[Key(v)]))
  }

  /** The arguments one option contributes. */
  function Contribution(env: Env, v: Var): (args: seq<string>)
    ensures |args| == (if !Contributes(env, v) then 0 else if FormOf(v) == Switch then 1 else 2)
    ensures args != [] ==> args[0] == Flag(v)
  {
    if !Contributes(env, v) then []
    else
      match FormOf(v)
      case Valued => [Flag(v), env[Key(v)]]
      case Switch => [Flag(v)]
      case Quoted => [Flag(v), Quote(env[Key(v)])]
  }

  /** The arguments of a sequence of options, in order. */
  function ArgvFrom(env: Env, vs: seq<Var>): seq<string>
  {
    if vs == [] then [] else Contribution(env, vs[0]) + ArgvFrom(env, vs[1..])
  }

  function EnvArgv(env: Env): seq<string>
  {
    ArgvFrom(env, Options)
  }

  /** `if not os.environ.get(key) is None: env_config += [flag, os.environ[key]]` */
  method AddValued(envConfig: seq<string>, env: Env, v: Var) returns (out: seq<string>)
    requires FormOf(v) == Valued
    ensures out == envConfig + Contribution(env, v)
  {
    out := envConfig;
    if Key(v) in env {
      out := out + [Flag(v), env[Key(v)]];
    }
  }

  /** A switch: the bare flag, only when the value lower-cases to "true". */
  method AddSwitch(envConfig: seq<string>, env: Env, v: Var) returns (out: seq<string>)
    requires FormOf(v) == Switch
    ensures out == envConfig + Contribution(env, v)
  {
    out := envConfig;
    if Key(v) in env {
      if Lower(env[Key(v)]) == "true" {
        out := out + [Flag(v)];
      }
    }
  }

  /** The value wrapped in single quotes. */
  method AddQuoted(envConfig: seq<string>, env: Env, v: Var) returns (out: seq<string>)
    requires FormOf(v) == Quoted
    ensures out == envConfig + Contribution(env, v)
  {
    out := envConfig;
    if Key(v) in env {
      out := out + [Flag(v), "'" + env[Key(v)] + "'"];
    }
  }

  /** `env_config`: the variables in source order, each extending the list. */
  method BuildEnvConfig(env: Env) returns (envConfig: seq<string>)
    ensures envConfig == EnvArgv(env)
  {
    envConfig := [];
    envConfig := AddValued(envConfig, env, Port);
    envConfig := AddValued(envConfig, env, AgentName);
    envConfig := AddValued(envConfig, env, Strategy);
    envConfig := AddValued(envConfig, env, LlmEndpointUrl);
    envConfig := AddValued(envConfig, env, LlmEngine);
    envConfig := AddValued(envConfig, env, Model);
    envConfig := AddValued(envConfig, env, RecursionLimit);
    envConfig := AddSwitch(envConfig, env, RequireHumanFeedback);
    envConfig := AddSwitch(envConfig, env, Debug);
    envConfig := AddQuoted(envConfig, env, RoleDescription);
    envConfig := AddValued(envConfig, env, Tools);
    EnvArgvInOrder(env);
  }

  lemma {:induction false} ArgvFromAppend(env: Env, a: seq<Var>, b: seq<Var>)
    ensures ArgvFrom(env, a + b) == ArgvFrom(env, a) + ArgvFrom(env, b)
    decreases |a|
  {
    if a == [] {
      assert a + b == b;
    } else {
      assert (a + b)[0] == a[0] && (a + b)[1..] == a[1..] + b;
      ArgvFromAppend(env, a[1..], b);
    }
  }

  /** One more option extends the list by that option's contribution. */
  lemma ArgvFromSnoc(env: Env, vs: seq<Var>, v: Var)
    ensures ArgvFrom(env, vs + [v]) == ArgvFrom(env, vs) + Contribution(env, v)
  {
    ArgvFromAppend(env, vs, [v]);
    assert ArgvFrom(env, [v]) == Contribution(env, v) + ArgvFrom(env, []);
  }

  /** The first five options' contributions, in order. */
  lemma LeadingOptionsInOrder(env: Env)
    ensures ArgvFrom(env, Options[..5]) ==
      [] + Contribution(env, Port) + Contribution(env, AgentName) + Contribution(env, Strategy)
      + Contribution(env, LlmEndpointUrl) + Contribution(env, LlmEngine)
  {
    var prefix: seq<Var> := [];
    ArgvFromSnoc(env, prefix, Port);
    prefix := prefix + [Port];
    ArgvFromSnoc(env, prefix, AgentName);
    prefix := prefix + [AgentName];
    ArgvFromSnoc(env, prefix, Strategy);
    prefix := prefix + [Strategy];
    ArgvFromSnoc(env, prefix, LlmEndpointUrl);
    prefix := prefix + [LlmEndpointUrl];
    ArgvFromSnoc(env, prefix, LlmEngine);
    prefix := prefix + [LlmEngine];
    assert prefix == Options[..5];
  }

  /** The command line is the options' contributions one after another, in source order. */
  lemma EnvArgvInOrder(env: Env)
    ensures EnvArgv(env) ==
      [] + Contribution(env, Port) + Contribution(env, AgentName) + Contribution(env, Strategy)
      + Contribution(env, LlmEndpointUrl) + Contribution(env, LlmEngine) + Contribution(env, Model)
      + Contribution(env, RecursionLimit) + Contribution(env, RequireHumanFeedback) + Contribution(env, Debug)
      + Contribution(env, RoleDescription) + Contribution(env, Tools)
  {
    LeadingOptionsInOrder(env);
    var prefix: seq<Var> := Options[..5];
    ArgvFromSnoc(env, prefix, Model);
    prefix := prefix + [Model];
    ArgvFromSnoc(env, prefix, RecursionLimit);
    prefix := prefix + [RecursionLimit];
    ArgvFromSnoc(env, prefix, RequireHumanFeedback);
    prefix := prefix + [RequireHumanFeedback];
    ArgvFromSnoc(env, prefix, Debug);
    prefix := prefix + [Debug];
    ArgvFromSnoc(env, prefix, RoleDescription);
    prefix := prefix + [RoleDescription];
    ArgvFromSnoc(env, prefix, Tools);
    prefix := prefix + [Tools];
    assert prefix == Options;
  }

  /** Different options have different flags. */
  lemma FlagsDiffer(a: Var, b: Var)
    requires a != b
    ensures Flag(a) != Flag(b)
  {
  }

  /** The first argument of a non-empty list is the flag of some option that contributes. */
  lemma {:induction false} ArgvStartsWithFlag(env: Env, vs: seq<Var>)
    requires ArgvFrom(env, vs) != []
    ensures exists i :: 0 <= i < |vs| && Contributes(env, vs[i]) && ArgvFrom(env, vs)[0] == Flag(vs[i])
  {
    if Contributes(env, vs[0]) {
      assert ArgvFrom(env, vs)[0] == Flag(vs[0]);
    } else {
      ArgvStartsWithFlag(env, vs[1..]);
      var i :| 0 <= i < |vs[1..]| && Contributes(env, vs[1..][i]) && ArgvFrom(env, vs[1..])[0] == Flag(vs[1..][i]);
      assert vs[i + 1] == vs[1..][i];
    }
  }

  /**
   * The inverse of `ArgvFrom` this model defines, reading the arguments back in option order: each
   * variable set, a switch as "true", a quoted value without its quotes. None when the list does not fit.
   */
  function Parse(argv: seq<string>, vs: seq<Var>): Option<map<Var, string>>
    decreases |vs|
  {
    if argv == [] then Some(map[])
    else if vs == [] then None
    else if argv[0] != Flag(vs[0]) then Parse(argv, vs[1..])
    else
      match FormOf(vs[0])
      case Switch =>
        var rest := Parse(argv[1..], vs[1..]);
        if rest.None? then None else Some(rest.value[vs[0] := "true"])
      case Valued =>
        if |argv| < 2 then None
        else
          var rest := Parse(argv[2..], vs[1..]);
          if rest.None? then None else Some(rest.value[vs[0] := argv[1]])
      case Quoted =>
        if |argv| < 2 || |argv[1]| < 2 || argv[1][0] != '\'' || argv[1][|argv[1]| - 1] != '\'' then None
        else
          var rest := Parse(argv[2..], vs[1..]);
          if rest.None? then None else Some(rest.value[vs[0] := argv[1][1..|argv[1]| - 1]])
  }

  /** The settings the list encodes: each contributing option's value, or "true" for a switch that is on. */
  function Received(env: Env, vs: seq<Var>): (m: map<Var, string>)
    ensures forall v :: v in m <==> v in vs && Contributes(env, v)
    ensures forall v :: v in m ==> Key(v) in env && m[v] == if FormOf(v) == Switch then "true" else env[Key(v)]
  {
    if vs == [] then map[]
    else
      var rest := Received(env, vs[1..]);
      if !Contributes(env, vs[0]) then rest
      else rest[vs[0] := if FormOf(vs[0]) == Switch then "true" else env[Key(vs[0])]]
  }

  /** When the first option adds nothing, the list starts with the flag of a later, different option. */
  lemma NextFlagIsLater(env: Env, vs: seq<Var>)
    requires |vs| > 0 && !Contributes(env, vs[0]) && ArgvFrom(env, vs[1..]) != []
    requires forall i, j :: 0 <= i < j < |vs| ==> vs[i] != vs[j]
    ensures ArgvFrom(env, vs) == ArgvFrom(env, vs[1..])
    ensures ArgvFrom(env, vs)[0] != Flag(vs[0])
  {
    var tail := ArgvFrom(env, vs[1..]);
    ArgvStartsWithFlag(env, vs[1..]);
    var i :| 0 <= i < |vs[1..]| && Contributes(env, vs[1..][i]) && tail[0] == Flag(vs[1..][i]);
    assert vs[1..][i] == vs[i + 1];
    FlagsDiffer(vs[0], vs[i + 1]);
  }

  /** Reading the built list back yields exactly the settings the environment supplies. */
  lemma {:induction false} ParseBuilt(env: Env, vs: seq<Var>)
    requires forall i, j :: 0 <= i < j < |vs| ==> vs[i] != vs[j]
    ensures Parse(ArgvFrom(env, vs), vs) == Some(Received(env, vs))
    decreases |vs|
  {
    if vs != [] {
      var v := vs[0];
      var argv := ArgvFrom(env, vs);
      var tail := ArgvFrom(env, vs[1..]);
      assert forall i, j :: 0 <= i < j < |vs[1..]| ==> vs[1..][i] != vs[1..][j] by {
        forall i, j | 0 <= i < j < |vs[1..]| ensures vs[1..][i] != vs[1..][j] {
          assert vs[1..][i] == vs[i + 1] && vs[1..][j] == vs[j + 1];
        }
      }
      ParseBuilt(env, vs[1..]);
      if Contributes(env, v) {
        if FormOf(v) == Switch {
          assert argv[1..] == tail;
        } else if FormOf(v) == Valued {
          assert argv[2..] == tail;
        } else {
          assert argv[2..] == tail;
          assert argv[1] == Quote(env[Key(v)]);
          assert argv[1][1..|argv[1]| - 1] == env[Key(v)];
        }
      } else if tail != [] {
        NextFlagIsLater(env, vs);
      }
    }
  }

  /**
   * Decoding `env_config` recovers exactly `Received`: each option that contributes, with its value, or
   * "true" for a switch that is on, and nothing else.
   */
  lemma EnvConfigRoundTrip(env: Env)
    ensures Parse(EnvArgv(env), Options) == Some(Received(env, Options))
  {
    ParseBuilt(env, Options);
  }

  /** Options passed with a value that are set, and switches that are on. */
  function CountValued(env: Env, vs: seq<Var>): nat
  {
    if vs == [] then 0
    else CountValued(env, vs[1..]) + (if FormOf(vs[0]) != Switch && Key(vs[0]) in env then 1 else 0)
  }

  function CountSwitches(env: Env, vs: seq<Var>): nat
  {
    if vs == [] then 0
    else CountSwitches(env, vs[1..]) + (if FormOf(vs[0]) == Switch && Contributes(env, vs[0]) then 1 else 0)
  }

  /** Two arguments per valued variable that is set, one per switch that is on. */
  lemma {:induction false} ArgvLength(env: Env, vs: seq<Var>)
    ensures |ArgvFrom(env, vs)| == 2 * CountValued(env, vs) + CountSwitches(env, vs)
    decreases |vs|
  {
    if vs != [] {
      ArgvLength(env, vs[1..]);
    }
  }

  /** An empty environment gives an empty command line. */
  lemma EmptyEnvironment()
    ensures EnvArgv(map[]) == []
  {
    EnvArgvInOrder(map[]);
  }

  /** `--tools` comes last whenever `tools` is set; `role_description` is quoted just before it. */
  lemma ToolsLastAndRoleQuoted(env: Env)
    ensures "tools" in env ==> |EnvArgv(env)| >= 2 && EnvArgv(env)[|EnvArgv(env)| - 2..] == ["--tools", env["tools"]]
    ensures "role_description" in env && "tools" !in env ==>
              |EnvArgv(env)| >= 2
              && EnvArgv(env)[|EnvArgv(env)| - 2..] == ["--role_description", "'" + env["role_description"] + "'"]
    ensures "role_description" in env && "tools" in env ==>
              |EnvArgv(env)| >= 4
              && EnvArgv(env)[|EnvArgv(env)| - 4..|EnvArgv(env)| - 2]
                 == ["--role_description", "'" + env["role_description"] + "'"]
  {
    var o := Options;
    assert o == o[..10] + [Tools] && o[..10] == o[..9] + [RoleDescription];
    ArgvFromSnoc(env, o[..10], Tools);
    ArgvFromSnoc(env, o[..9], RoleDescription);
  }
}

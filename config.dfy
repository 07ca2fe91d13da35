/**
 * discordify/config.py: option specifications, how one option is read from the
 * getopt dictionary, and the merge of command line, configuration file and
 * defaults done by `Arguments.parse`.
 */
module Config {

  import opened Wrappers
  import opened Errors
  import Numerals

  /** A configuration value: what getopt, a default or a JSON config file can supply. */
  datatype Value = Str(s: string) | Int(i: int) | Bool(b: bool)

  /** `Config.config`: option name to value. */
  type Settings = map<string, Value>

  /** The property `Arguments.extend_config` installs for an option: None for an absent key. */
  function Lookup(cfg: Settings, name: string): (r: Option<Value>)
    ensures r.None? <==> name !in cfg
    ensures r.Some? ==> r.value == cfg[name]
  {
    if name in cfg then Some(cfg[name]) else None
  }

  /** Python truthiness of an attribute value. */
  predicate Truthy(v: Option<Value>) {
    match v
    case None => false
    case Some(Str(s)) => s != ""
    case Some(Int(i)) => i != 0
    case Some(Bool(b)) => b
  }

  /** `str(v)`. */
  function PyStr(v: Value): string {
    match v
    case Str(s) => s
    case Int(i) => Numerals.IntToString(i)
    case Bool(b) => if b then "True" else "False"
  }

  /** The `parse` keyword of an option: none, or `lambda s: int(s, 0)`. */
  datatype Parser = Verbatim | IntBase0

  /** A default: none, a literal, or `prefix + getuser() + '@' + gethostname()`. */
  datatype Default = NoDefault | Literal(text: string) | UserAtHost(prefix: string)

  /** `Option(long_opt, required, takes_arg, short_opt=, default=, parse=)`; the
      `description` and `example` keywords only feed the help text. */
  datatype OptSpec = OptSpec(longOpt: string, shortOpt: Option<string>, takesArg: bool,
                             required: bool, default: Default, parser: Parser)

  function DefaultText(o: OptSpec, user: string, host: string): Option<string> {
    match o.default
    case NoDefault => None
    case Literal(t) => Some(t)
    case UserAtHost(prefix) => Some(prefix + user + "@" + host)
  }

  /** `if option.default:`. */
  predicate HasDefault(o: OptSpec, user: string, host: string) {
    DefaultText(o, user, host).Some? && DefaultText(o, user, host).value != ""
  }

  /** `self.short_opt` is truthy. */
  predicate HasShort(o: OptSpec) {
    o.shortOpt.Some? && o.shortOpt.value != ""
  }

  function ShortKey(o: OptSpec): string
    requires HasShort(o)
  {
    "-" + o.shortOpt.value
  }

  function LongKey(o: OptSpec): string {
    "--" + o.longOpt
  }

  /** `Option.contained`. */
  function Contained(o: OptSpec, dopts: map<string, string>): (r: bool)
    ensures r <==> (HasShort(o) && ShortKey(o) in dopts) || LongKey(o) in dopts
  {
    (HasShort(o) && ShortKey(o) in dopts) || LongKey(o) in dopts
  }

  /** `Option.parse`: the option's parser, or the value itself. */
  function ParseValue(o: OptSpec, v: Value): (r: Result<Value, Error>)
    ensures o.parser == Verbatim ==> r == Success(v)
    ensures o.parser == IntBase0 ==>
      (r.Success? <==> v.Str? && Numerals.ParseInt(v.s).Some?) &&
      (r.Success? ==> r.value == Int(Numerals.ParseInt(v.s).value))
    ensures r.Failure? ==> r.error.ValueError? || r.error == TypeError
  {
    match o.parser
    case Verbatim => Success(v)
    case IntBase0 =>
      match v
      case Str(s) =>
        (match Numerals.ParseInt(s)
         case Some(n) => Success(Int(n))
         case None => Failure(ValueError(s)))
      case _ => Failure(TypeError)
  }

  /** `Option.process`: the short form wins over the long form; an option without
      an argument reads as True; the result goes through `parse`. */
  function Process(o: OptSpec, dopts: map<string, string>): (r: Result<Value, Error>)
    requires Contained(o, dopts)
    ensures !o.takesArg ==> r == ParseValue(o, Bool(true))
    ensures o.takesArg && HasShort(o) && ShortKey(o) in dopts ==> r == ParseValue(o, Str(dopts[ShortKey(o)]))
    ensures o.takesArg && !(HasShort(o) && ShortKey(o) in dopts) ==> r == ParseValue(o, Str(dopts[LongKey(o)]))
  {
    var raw :=
      if HasShort(o) && ShortKey(o) in dopts then
        if o.takesArg then Str(dopts[ShortKey(o)]) else Bool(true)
      else
        if o.takesArg then Str(dopts[LongKey(o)]) else Bool(true);
    ParseValue(o, raw)
  }

  /** The project page, the default `user_url`. */
  const ProjectUrl: string := "https://github.com/OwnHeroNet/discordify"

  /** Where the default icons live. */
  const LogoUrl: string := "https://raw.githubusercontent.com/OwnHeroNet/discordify/master/logo/"

  /** The options of `Arguments.__init__`, in declaration order. */
  const Options: seq<OptSpec> := [
    OptSpec("help", Some("h"), false, false, NoDefault, Verbatim),
    OptSpec("webhook", Some("w"), true, true, NoDefault, Verbatim),
    OptSpec("title", None, true, false, Literal("Discordify Notification"), Verbatim),
    OptSpec("description", None, true, false, NoDefault, Verbatim),
    OptSpec("image", None, true, false, NoDefault, Verbatim),
    OptSpec("title_url", None, true, false, NoDefault, Verbatim),
    OptSpec("color", Some("c"), true, true, Literal("0x2176C7"), IntBase0),
    OptSpec("user_name", None, true, true, Literal("Discordify User"), Verbatim),
    OptSpec("user_email", None, true, true, UserAtHost(""), Verbatim),
    OptSpec("user_icon", None, true, false, NoDefault, Verbatim),
    OptSpec("user_url", None, true, false, Literal(ProjectUrl), Verbatim),
    OptSpec("footer_icon", None, true, false,
            Literal(LogoUrl + "Icon.png"), Verbatim),
    OptSpec("thumbnail", None, true, false, NoDefault, Verbatim),
    OptSpec("periodic", Some("p"), true, false, NoDefault, IntBase0),
    OptSpec("icon_failure", None, true, false,
            Literal(LogoUrl + "Failure.png"), Verbatim),
    OptSpec("icon_success", None, true, false,
            Literal(LogoUrl + "Success.png"), Verbatim),
    OptSpec("icon_warning", None, true, false,
            Literal(LogoUrl + "Warning.png"), Verbatim),
    OptSpec("icon_period", None, true, false,
            Literal(LogoUrl + "Period.png"), Verbatim),
    OptSpec("icon_timeout", None, true, false,
            Literal(LogoUrl + "Timeout.png"), Verbatim),
    OptSpec("timeout", Some("t"), true, false, NoDefault, IntBase0),
    OptSpec("footer", None, true, false, UserAtHost("via "), Verbatim),
    OptSpec("system_stats", None, false, false, Literal("False"), Verbatim),
    OptSpec("simple", Some("s"), false, false, NoDefault, Verbatim),
    OptSpec("buffer_size", None, true, false, Literal("5"), IntBase0)
  ]

  const Help: OptSpec := Options[0]

  /** A name `Config` has a property for: the long name of an option. */
  predicate IsOptionName(name: string) {
    exists i :: 0 <= i < |Options| && Options[i].longOpt == name
  }

  /** Reading `config.<name>` for a name the code reads: the property of an option name,
      AttributeError for a name that is neither an option nor a `Config` member. */
  function Attribute(cfg: Settings, name: string): (r: Result<Option<Value>, Error>)
    ensures r.Failure? <==> !IsOptionName(name)
    ensures r.Success? ==> r.value == Lookup(cfg, name)
  {
    if IsOptionName(name) then Success(Lookup(cfg, name)) else Failure(AttributeError(name))
  }

  // ---- the getopt specification strings ----

  /** `short_with_arg`: `x:` for each option with an argument and a short form. */
  function ShortWithArg(opts: seq<OptSpec>): string {
    if opts == [] then ""
    else (if opts[0].takesArg && HasShort(opts[0]) then opts[0].shortOpt.value + ":" else "") + ShortWithArg(opts[1..])
  }

  /** `short_no_arg`: `x` for each option without an argument that has a short form. */
  function ShortNoArg(opts: seq<OptSpec>): string {
    if opts == [] then ""
    else (if !opts[0].takesArg && HasShort(opts[0]) then opts[0].shortOpt.value else "") + ShortNoArg(opts[1..])
  }

  function ShortSpec(opts: seq<OptSpec>): string {
    ShortWithArg(opts) + ShortNoArg(opts)
  }

  /** `long_opts`: the long name, with `=` when the option takes an argument. */
  function LongSpec(opts: seq<OptSpec>): (r: seq<string>)
    ensures |r| == |opts|
    ensures forall i :: 0 <= i < |opts| ==> r[i] == opts[i].longOpt + (if opts[i].takesArg then "=" else "")
  {
    if opts == [] then [] else [opts[0].longOpt + (if opts[0].takesArg then "=" else "")] + LongSpec(opts[1..])
  }

  /** How getopt reads a short-option string: a letter, then `:` if it takes an argument. */
  function ReadShortSpec(spec: string): seq<(char, bool)>
    decreases |spec|
  {
    if spec == [] then []
    else if |spec| >= 2 && spec[1] == ':' then [(spec[0], true)] + ReadShortSpec(spec[2..])
    else [(spec[0], false)] + ReadShortSpec(spec[1..])
  }

  /** How getopt reads a long-option name: a trailing `=` means it takes an argument. */
  function ReadLongSpec(name: string): (string, bool) {
    if name != [] && name[|name| - 1] == '=' then (name[..|name| - 1], true) else (name, false)
  }

  /** The short letters, each with whether its option takes an argument. */
  function ShortTable(opts: seq<OptSpec>, withArg: bool): seq<(char, bool)>
    requires forall i :: 0 <= i < |opts| && HasShort(opts[i]) ==> |opts[i].shortOpt.value| == 1
  {
    if opts == [] then []
    else (if opts[0].takesArg == withArg && HasShort(opts[0]) then [(opts[0].shortOpt.value[0], withArg)] else [])
         + ShortTable(opts[1..], withArg)
  }

  /** Short options are single letters other than `:` (what getopt needs). */
  predicate SingleLetterShorts(opts: seq<OptSpec>) {
    forall i :: 0 <= i < |opts| && HasShort(opts[i]) ==> |opts[i].shortOpt.value| == 1 && opts[i].shortOpt.value[0] != ':'
  }

  /** The options after the first still have single-letter short forms. */
  lemma SingleLetterTail(opts: seq<OptSpec>)
    requires SingleLetterShorts(opts) && |opts| > 0
    ensures SingleLetterShorts(opts[1..])
    ensures HasShort(opts[0]) ==> |opts[0].shortOpt.value| == 1 && opts[0].shortOpt.value[0] != ':'
  {
    assert forall i :: 0 <= i < |opts| - 1 ==> opts[1..][i] == opts[i + 1];
  }

  lemma {:induction false} ReadWithArg(opts: seq<OptSpec>, rest: string)
    requires SingleLetterShorts(opts)
    ensures ReadShortSpec(ShortWithArg(opts) + rest) == ShortTable(opts, true) + ReadShortSpec(rest)
    decreases |opts|
  {
    if opts == [] {
      assert ShortWithArg(opts) + rest == rest;
    } else {
      var o := opts[0];
      SingleLetterTail(opts);
      ReadWithArg(opts[1..], rest);
      var tail := ShortWithArg(opts[1..]) + rest;
      var table := ShortTable(opts[1..], true);
      if o.takesArg && HasShort(o) {
        var c := o.shortOpt.value[0];
        assert o.shortOpt.value == [c];
        var s := [c, ':'] + tail;
        assert ShortWithArg(opts) + rest == s;
        assert s[0] == c && s[1] == ':' && s[2..] == tail;
        assert ReadShortSpec(s) == [(c, true)] + ReadShortSpec(tail);
        assert ShortTable(opts, true) == [(c, true)] + table;
        assert [(c, true)] + (table + ReadShortSpec(rest)) == [(c, true)] + table + ReadShortSpec(rest);
      } else {
        assert ShortWithArg(opts) + rest == tail;
        assert ShortTable(opts, true) == table;
      }
    }
  }

  lemma {:induction false} ReadNoArg(opts: seq<OptSpec>)
    requires SingleLetterShorts(opts)
    ensures ReadShortSpec(ShortNoArg(opts)) == ShortTable(opts, false)
    ensures ShortNoArg(opts) != [] ==> ShortNoArg(opts)[0] != ':'
    decreases |opts|
  {
    if opts != [] {
      var o := opts[0];
      ReadNoArg(opts[1..]);
      if !o.takesArg && HasShort(o) {
        var s := ShortNoArg(opts);
        assert s == [o.shortOpt.value[0]] + ShortNoArg(opts[1..]);
        assert s[1..] == ShortNoArg(opts[1..]);
        assert |s| >= 2 ==> s[1] == ShortNoArg(opts[1..])[0];
      } else {
        assert ShortNoArg(opts) == ShortNoArg(opts[1..]);
      }
    }
  }

  /** getopt reads back from the short-option string exactly the short letters,
      those taking an argument first, each marked with whether it takes one. */
  lemma ShortSpecRoundTrip(opts: seq<OptSpec>)
    requires SingleLetterShorts(opts)
    ensures ReadShortSpec(ShortSpec(opts)) == ShortTable(opts, true) + ShortTable(opts, false)
  {
    ReadWithArg(opts, ShortNoArg(opts));
    ReadNoArg(opts);
  }

  /** getopt reads back from each long-option entry the option's name and whether it takes an argument. */
  lemma LongSpecRoundTrip(opts: seq<OptSpec>, i: nat)
    requires i < |opts| && (opts[i].longOpt == [] || opts[i].longOpt[|opts[i].longOpt| - 1] != '=')
    ensures ReadLongSpec(LongSpec(opts)[i]) == (opts[i].longOpt, opts[i].takesArg)
  {
    var name := LongSpec(opts)[i];
    if opts[i].takesArg {
      assert name == opts[i].longOpt + "=";
      assert name[|name| - 1] == '=';
      assert name[..|name| - 1] == opts[i].longOpt;
    } else {
      assert name == opts[i].longOpt;
    }
  }

  // ---- the merge loop of Arguments.parse ----

  /** What the loop of `Arguments.parse` updates: `config.config`, `dopts` and `missing_options`. */
  datatype State = State(cfg: Settings, dopts: map<string, string>, missing: seq<string>)

  /** One iteration of the loop, for one option. */
  function Step(o: OptSpec, s: State, user: string, host: string): Result<State, Error> {
    if Contained(o, s.dopts) then
      var v :- Process(o, s.dopts);
      Success(s.(cfg := s.cfg[o.longOpt := v]))
    else if o.longOpt in s.cfg then
      var v :- ParseValue(o, Str(PyStr(s.cfg[o.longOpt])));
      Success(s.(cfg := s.cfg[o.longOpt := v]))
    else if HasDefault(o, user, host) then
      var dopts := s.dopts[LongKey(o) := DefaultText(o, user, host).value];
      var v :- Process(o, dopts);
      Success(State(s.cfg[o.longOpt := v], dopts, s.missing))
    else if o.required then
      Success(s.(missing := s.missing + [o.longOpt]))
    else
      Success(s)
  }

  /** The loop over the options, stopping at the first exception. */
  function MergeAll(opts: seq<OptSpec>, s: State, user: string, host: string): Result<State, Error>
    decreases |opts|
  {
    if opts == [] then Success(s)
    else
      var next :- Step(opts[0], s, user, host);
      MergeAll(opts[1..], next, user, host)
  }

  /** The gravatar fallback: an e-mail address without an icon gets the gravatar of the address. */
  function WithGravatar(cfg: Settings, gravatar: string -> string): (r: Settings)
    ensures Truthy(Lookup(cfg, "user_email")) && !Truthy(Lookup(cfg, "user_icon")) ==>
      r == cfg["user_icon" := Str(gravatar(PyStr(cfg["user_email"])))]
    ensures !(Truthy(Lookup(cfg, "user_email")) && !Truthy(Lookup(cfg, "user_icon"))) ==> r == cfg
  {
    if Truthy(Lookup(cfg, "user_email")) && !Truthy(Lookup(cfg, "user_icon")) then
      cfg["user_icon" := Str(gravatar(PyStr(cfg["user_email"])))]
    else cfg
  }

  /** `Arguments.parse` after getopt: help first, then the merge, then the missing
      check, then the gravatar fallback. `file` is what the config files loaded. */
  function ParseSpec(dopts: map<string, string>, file: Settings, user: string, host: string,
                     gravatar: string -> string): Result<Settings, Error>
  {
    if Contained(Help, dopts) then Failure(HelpRequest)
    else
      var s :- MergeAll(Options, State(file, dopts, []), user, host);
      if |s.missing| > 0 then Failure(MissingOptions(s.missing))
      else Success(WithGravatar(s.cfg, gravatar))
  }

  /** The merge loop of `Arguments.parse` over `opts`, stopping at the first exception. */
  method Merge(opts: seq<OptSpec>, start: State, user: string, host: string) returns (r: Result<State, Error>)
    ensures r == MergeAll(opts, start, user, host)
  {
    var cfg := start.cfg;
    var dopts := start.dopts;
    var missing := start.missing;
    var i := 0;
    while i < |opts|
      invariant 0 <= i <= |opts|
      invariant MergeAll(opts, start, user, host) == MergeAll(opts[i..], State(cfg, dopts, missing), user, host)
    {
      var o := opts[i];
      assert opts[i..][0] == o && opts[i..][1..] == opts[i + 1..];
      if Contained(o, dopts) {
        var v := Process(o, dopts);
        if v.Failure? {
          return Failure(v.error);
        }
        cfg := cfg[o.longOpt := v.value];
      } else if o.longOpt in cfg {
        var v := ParseValue(o, Str(PyStr(cfg[o.longOpt])));
        if v.Failure? {
          return Failure(v.error);
        }
        cfg := cfg[o.longOpt := v.value];
      } else if HasDefault(o, user, host) {
        dopts := dopts[LongKey(o) := DefaultText(o, user, host).value];
        var v := Process(o, dopts);
        if v.Failure? {
          return Failure(v.error);
        }
        cfg := cfg[o.longOpt := v.value];
      } else if o.required {
        missing := missing + [o.longOpt];
      }
      i := i + 1;
    }
    assert opts[i..] == [];
    return Success(State(cfg, dopts, missing));
  }

  /** `Arguments.parse` after getopt, as the steps the source runs. */
  method Parse(dopts: map<string, string>, file: Settings, user: string, host: string,
               gravatar: string -> string) returns (r: Result<Settings, Error>)
    ensures r == ParseSpec(dopts, file, user, host, gravatar)
  {
    if Contained(Help, dopts) {
      return Failure(HelpRequest);
    }
    var merged := Merge(Options, State(file, dopts, []), user, host);
    if merged.Failure? {
      return Failure(merged.error);
    }
    var cfg := merged.value.cfg;
    if |merged.value.missing| > 0 {
      return Failure(MissingOptions(merged.value.missing));
    }
    if Truthy(Lookup(cfg, "user_email")) && !Truthy(Lookup(cfg, "user_icon")) {
      cfg := cfg["user_icon" := Str(gravatar(PyStr(cfg["user_email"])))];
    }
    return Success(cfg);
  }

  // ---- precedence: what the merge loop computes, option by option ----

  /** Where the value of an option comes from. */
  datatype Source = CommandLine | ConfigFile | DefaultValue

  /** The outcome for one option: a value (or the exception its parser raised) from a
      source, recorded as missing, or left absent. */
  datatype Resolution = Resolved(source: Source, value: Result<Value, Error>) | Missing | Absent

  /** The precedence of `Arguments.parse`, stated against the dictionaries as they were
      before the loop: the command line, else the configuration file re-parsed from
      `str`, else the parsed default (True for an option without an argument), else
      missing when required, else absent. */
  function Resolve(o: OptSpec, dopts: map<string, string>, file: Settings, user: string, host: string): Resolution {
    if Contained(o, dopts) then Resolved(CommandLine, Process(o, dopts))
    else if o.longOpt in file then Resolved(ConfigFile, ParseValue(o, Str(PyStr(file[o.longOpt]))))
    else if HasDefault(o, user, host) then
      Resolved(DefaultValue, ParseValue(o, if o.takesArg then Str(DefaultText(o, user, host).value) else Bool(true)))
    else if o.required then Missing
    else Absent
  }

  predicate Fails(res: Resolution) {
    res.Resolved? && res.value.Failure?
  }

  /** The resolution of every option of `opts`, in order. */
  function Resolutions(opts: seq<OptSpec>, dopts: map<string, string>, file: Settings, user: string, host: string)
    : (r: seq<Resolution>)
    ensures |r| == |opts|
    ensures forall i :: 0 <= i < |opts| ==> r[i] == Resolve(opts[i], dopts, file, user, host)
  {
    seq(|opts|, i requires 0 <= i < |opts| => Resolve(opts[i], dopts, file, user, host))
  }

  /** The long names of the options resolved as missing, in order. */
  function MissingNames(opts: seq<OptSpec>, res: seq<Resolution>): seq<string>
    requires |opts| == |res|
  {
    if opts == [] then []
    else (if res[0].Missing? then [opts[0].longOpt] else []) + MissingNames(opts[1..], res[1..])
  }

  /** What `cfg` holds for option `o` after the merge, given its resolution. */
  predicate Agrees(o: OptSpec, cfg: Settings, res: Resolution) {
    match res
    case Resolved(_, Success(v)) => o.longOpt in cfg && cfg[o.longOpt] == v
    case Resolved(_, Failure(_)) => false
    case _ => o.longOpt !in cfg
  }

  /** No two options share a long name, and no short key equals a long key. */
  predicate Separated(opts: seq<OptSpec>) {
    (forall i, j :: 0 <= i < j < |opts| ==> opts[i].longOpt != opts[j].longOpt) &&
    (forall i, j :: 0 <= i < |opts| && 0 <= j < |opts| && HasShort(opts[i]) ==> ShortKey(opts[i]) != LongKey(opts[j]))
  }

  lemma SeparatedTail(opts: seq<OptSpec>)
    requires Separated(opts) && opts != []
    ensures Separated(opts[1..])
  {
    var t := opts[1..];
    forall i, j | 0 <= i < |t| && 0 <= j < |t| && HasShort(t[i])
      ensures ShortKey(t[i]) != LongKey(t[j])
    {
      assert t[i] == opts[i + 1] && t[j] == opts[j + 1];
    }
  }

  lemma LongKeyInjective(a: string, b: string)
    requires a != b
    ensures "--" + a != "--" + b
  {
    assert ("--" + a)[2..] == a;
    assert ("--" + b)[2..] == b;
  }

  /** The map agrees with another one on key `k`. */
  predicate SameAt<V(==)>(m: map<string, V>, n: map<string, V>, k: string) {
    (k in m <==> k in n) && (k in m ==> m[k] == n[k])
  }

  /** The resolution of an option only depends on its own keys. */
  lemma ResolveLocal(o: OptSpec, d1: map<string, string>, f1: Settings, d2: map<string, string>, f2: Settings,
                     user: string, host: string)
    requires SameAt(d1, d2, LongKey(o)) && (HasShort(o) ==> SameAt(d1, d2, ShortKey(o)))
    requires SameAt(f1, f2, o.longOpt)
    ensures Resolve(o, d1, f1, user, host) == Resolve(o, d2, f2, user, host)
  {
  }

  /** One iteration of the loop does what the precedence says for its option, and
      changes nothing but that option's entry, its `--` key and the missing list. */
  lemma StepResolves(o: OptSpec, s: State, user: string, host: string)
    requires HasShort(o) ==> ShortKey(o) != LongKey(o)
    ensures var res := Resolve(o, s.dopts, s.cfg, user, host);
      match Step(o, s, user, host)
      case Failure(e) => res.Resolved? && res.value == Failure(e)
      case Success(next) =>
        !Fails(res) &&
        next.missing == s.missing + (if res.Missing? then [o.longOpt] else []) &&
        next.cfg == (if res.Resolved? then s.cfg[o.longOpt := res.value.value] else s.cfg) &&
        forall k :: k != LongKey(o) ==> SameAt(next.dopts, s.dopts, k)
  {
    if !Contained(o, s.dopts) && o.longOpt !in s.cfg && HasDefault(o, user, host) {
      var d := s.dopts[LongKey(o) := DefaultText(o, user, host).value];
      assert !(HasShort(o) && ShortKey(o) in d);
      assert Process(o, d) == ParseValue(o, if o.takesArg then Str(DefaultText(o, user, host).value) else Bool(true));
    }
  }

  /** After a successful step, the remaining options resolve against the new
      dictionaries as they did against the old ones. */
  lemma TailResolves(opts: seq<OptSpec>, s: State, next: State, user: string, host: string)
    requires Separated(opts) && opts != []
    requires Step(opts[0], s, user, host) == Success(next)
    ensures Resolutions(opts[1..], next.dopts, next.cfg, user, host) == Resolutions(opts, s.dopts, s.cfg, user, host)[1..]
  {
    var o := opts[0];
    var tail := opts[1..];
    StepResolves(o, s, user, host);
    var res := Resolutions(opts, s.dopts, s.cfg, user, host);
    var res' := Resolutions(tail, next.dopts, next.cfg, user, host);
    forall j | 0 <= j < |tail|
      ensures res'[j] == res[j + 1]
    {
      assert tail[j] == opts[j + 1];
      LongKeyInjective(o.longOpt, tail[j].longOpt);
      ResolveLocal(tail[j], next.dopts, next.cfg, s.dopts, s.cfg, user, host);
    }
  }

  /** The first failing resolution of the tail is the first failing one of the whole
      list when the head does not fail. */
  lemma FirstFailureLifts(res: seq<Resolution>, i: nat, e: Error)
    requires |res| > 0 && !Fails(res[0]) && i + 1 < |res|
    requires res[i + 1].Resolved? && res[i + 1].value == Failure(e)
    requires forall j :: 0 <= j < i ==> !Fails(res[1..][j])
    ensures exists k :: 0 <= k < |res| && res[k].Resolved? && res[k].value == Failure(e) &&
                        forall j :: 0 <= j < k ==> !Fails(res[j])
  {
    forall j | 0 <= j < i + 1
      ensures !Fails(res[j])
    {
      if j > 0 {
        assert res[j] == res[1..][j - 1];
      }
    }
  }

  /** Entries the tail of the merge agrees on, after a successful head step, are the
      entries the whole merge agrees on. */
  lemma AgreementLifts(opts: seq<OptSpec>, s: State, next: State, cfg: Settings, user: string, host: string)
    requires Separated(opts) && opts != []
    requires Step(opts[0], s, user, host) == Success(next)
    requires var res := Resolutions(opts, s.dopts, s.cfg, user, host);
      forall i :: 0 <= i < |opts| - 1 ==> Agrees(opts[1..][i], cfg, res[1..][i])
    requires forall k :: (forall i :: 0 <= i < |opts| - 1 ==> opts[1..][i].longOpt != k) ==> SameAt(cfg, next.cfg, k)
    ensures var res := Resolutions(opts, s.dopts, s.cfg, user, host);
      forall i :: 0 <= i < |opts| ==> Agrees(opts[i], cfg, res[i])
    ensures forall k :: (forall i :: 0 <= i < |opts| ==> opts[i].longOpt != k) ==> SameAt(cfg, s.cfg, k)
  {
    var o := opts[0];
    var tail := opts[1..];
    var res := Resolutions(opts, s.dopts, s.cfg, user, host);
    StepResolves(o, s, user, host);
    forall i | 0 <= i < |opts|
      ensures Agrees(opts[i], cfg, res[i])
    {
      if i > 0 {
        assert opts[i] == tail[i - 1];
        assert res[i] == res[1..][i - 1];
      } else {
        assert forall j :: 0 <= j < |tail| ==> tail[j].longOpt != o.longOpt;
        assert SameAt(cfg, next.cfg, o.longOpt);
      }
    }
    forall k | forall i :: 0 <= i < |opts| ==> opts[i].longOpt != k
      ensures SameAt(cfg, s.cfg, k)
    {
      assert opts[0].longOpt != k;
      assert forall j :: 0 <= j < |tail| ==> tail[j].longOpt != k;
      assert SameAt(cfg, next.cfg, k);
      assert SameAt(next.cfg, s.cfg, k);
    }
  }

  /** How the merge of `opts` from `s` fails: exactly when some option's parser
      raises, with the first such exception. */
  ghost predicate MergeFailures(opts: seq<OptSpec>, s: State, user: string, host: string) {
    var r := MergeAll(opts, s, user, host);
    var res := Resolutions(opts, s.dopts, s.cfg, user, host);
    (r.Success? <==> forall i :: 0 <= i < |opts| ==> !Fails(res[i])) &&
    (r.Failure? ==> exists i :: 0 <= i < |opts| && res[i].Resolved? && res[i].value == Failure(r.error) &&
                                forall j :: 0 <= j < i ==> !Fails(res[j]))
  }

  /** A successful merge lists the options resolved as missing, in order. */
  ghost predicate MergeMissing(opts: seq<OptSpec>, s: State, user: string, host: string) {
    var r := MergeAll(opts, s, user, host);
    r.Success? ==> r.value.missing == s.missing + MissingNames(opts, Resolutions(opts, s.dopts, s.cfg, user, host))
  }

  /** A successful merge sets every option's entry to its resolved value and keeps
      every other entry. */
  ghost predicate MergeEntries(opts: seq<OptSpec>, s: State, user: string, host: string) {
    var r := MergeAll(opts, s, user, host);
    var res := Resolutions(opts, s.dopts, s.cfg, user, host);
    (r.Success? ==> forall i :: 0 <= i < |opts| ==> Agrees(opts[i], r.value.cfg, res[i])) &&
    (r.Success? ==> forall k :: (forall i :: 0 <= i < |opts| ==> opts[i].longOpt != k) ==> SameAt(r.value.cfg, s.cfg, k))
  }

  /** What the merge of `opts` from `s` computes, against the precedence. */
  ghost predicate MergeMeaning(opts: seq<OptSpec>, s: State, user: string, host: string) {
    MergeFailures(opts, s, user, host) && MergeMissing(opts, s, user, host) && MergeEntries(opts, s, user, host)
  }

  /** The failure behaviour carries over from the tail to the whole list across a
      successful head step. */
  lemma FailuresCons(opts: seq<OptSpec>, s: State, next: State, user: string, host: string)
    requires Separated(opts) && opts != []
    requires Step(opts[0], s, user, host) == Success(next)
    requires MergeFailures(opts[1..], next, user, host)
    ensures MergeFailures(opts, s, user, host)
  {
    StepResolves(opts[0], s, user, host);
    TailResolves(opts, s, next, user, host);
    assert MergeAll(opts, s, user, host) == MergeAll(opts[1..], next, user, host);
    if MergeAll(opts[1..], next, user, host).Failure? {
      FirstFailureCons(opts, s, next, user, host);
    } else {
      var res := Resolutions(opts, s.dopts, s.cfg, user, host);
      forall i | 0 <= i < |opts| ensures !Fails(res[i]) {
        if i > 0 { assert res[i] == res[1..][i - 1]; }
      }
    }
  }

  /** The first failure of the tail is the first failure of the whole list. */
  lemma FirstFailureCons(opts: seq<OptSpec>, s: State, next: State, user: string, host: string)
    requires opts != [] && Step(opts[0], s, user, host) == Success(next)
    requires !Fails(Resolutions(opts, s.dopts, s.cfg, user, host)[0])
    requires Resolutions(opts[1..], next.dopts, next.cfg, user, host) == Resolutions(opts, s.dopts, s.cfg, user, host)[1..]
    requires MergeFailures(opts[1..], next, user, host) && MergeAll(opts[1..], next, user, host).Failure?
    ensures var res := Resolutions(opts, s.dopts, s.cfg, user, host);
      var e := MergeAll(opts[1..], next, user, host).error;
      exists i :: 0 <= i < |opts| && res[i].Resolved? && res[i].value == Failure(e) &&
                  forall j :: 0 <= j < i ==> !Fails(res[j])
  {
    var res := Resolutions(opts, s.dopts, s.cfg, user, host);
    var e := MergeAll(opts[1..], next, user, host).error;
    var i :| 0 <= i < |opts| - 1 && res[1..][i].Resolved? && res[1..][i].value == Failure(e) &&
             forall j :: 0 <= j < i ==> !Fails(res[1..][j]);
    assert res[i + 1] == res[1..][i];
    FirstFailureLifts(res, i, e);
  }

  /** The missing list carries over likewise. */
  lemma MissingCons(opts: seq<OptSpec>, s: State, next: State, user: string, host: string)
    requires Separated(opts) && opts != []
    requires Step(opts[0], s, user, host) == Success(next)
    requires MergeMissing(opts[1..], next, user, host)
    ensures MergeMissing(opts, s, user, host)
  {
    var res := Resolutions(opts, s.dopts, s.cfg, user, host);
    StepResolves(opts[0], s, user, host);
    TailResolves(opts, s, next, user, host);
    var r := MergeAll(opts[1..], next, user, host);
    assert MergeAll(opts, s, user, host) == r;
    if r.Success? {
      var head := if res[0].Missing? then [opts[0].longOpt] else [];
      assert next.missing == s.missing + head;
      assert MissingNames(opts, res) == head + MissingNames(opts[1..], res[1..]);
      assert r.value.missing == s.missing + head + MissingNames(opts[1..], res[1..]);
    }
  }

  /** The entries carry over likewise. */
  lemma EntriesCons(opts: seq<OptSpec>, s: State, next: State, user: string, host: string)
    requires Separated(opts) && opts != []
    requires Step(opts[0], s, user, host) == Success(next)
    requires MergeEntries(opts[1..], next, user, host)
    ensures MergeEntries(opts, s, user, host)
  {
    TailResolves(opts, s, next, user, host);
    var r := MergeAll(opts[1..], next, user, host);
    assert MergeAll(opts, s, user, host) == r;
    if r.Success? {
      AgreementLifts(opts, s, next, r.value.cfg, user, host);
    }
  }

  /** The merge loop computes the precedence of every option. */
  lemma {:induction false} MergeResolves(opts: seq<OptSpec>, s: State, user: string, host: string)
    requires Separated(opts)
    ensures MergeMeaning(opts, s, user, host)
    decreases |opts|
  {
    if opts != [] {
      var o := opts[0];
      StepResolves(o, s, user, host);
      match Step(o, s, user, host)
      case Failure(e) =>
        var res := Resolutions(opts, s.dopts, s.cfg, user, host);
        assert MergeAll(opts, s, user, host) == Failure(e);
        assert res[0].Resolved? && res[0].value == Failure(e);
      case Success(next) =>
        SeparatedTail(opts);
        MergeResolves(opts[1..], next, user, host);
        FailuresCons(opts, s, next, user, host);
        MissingCons(opts, s, next, user, host);
        EntriesCons(opts, s, next, user, host);
    }
  }

  // ---- facts about the options of `Arguments.__init__` ----

  /** Every short option is one letter other than `:`, as getopt needs. */
  lemma OptionsSingleLetterShorts()
    ensures SingleLetterShorts(Options)
  {
  }

  /** Every long name has at least two letters and none ends in `=`. */
  lemma OptionsLongNames()
    ensures forall i :: 0 <= i < |Options| ==> |Options[i].longOpt| >= 2 && Options[i].longOpt[|Options[i].longOpt| - 1] != '='
  {
  }

  lemma OptionsDistinctNames()
    ensures forall i, j :: 0 <= i < j < |Options| ==> Options[i].longOpt != Options[j].longOpt
  {
    FirstNamesDistinct();
    MiddleNamesDistinct();
    LastNamesDistinct();
  }

  lemma FirstNamesDistinct()
    ensures forall i, j :: 0 <= i < j < |Options| && i < 6 ==> Options[i].longOpt != Options[j].longOpt
  {
    forall i, j | 0 <= i < j < |Options| && i < 6
      ensures Options[i].longOpt != Options[j].longOpt
    {
      assert |Options[i].longOpt| != |Options[j].longOpt| || Options[i].longOpt[0] != Options[j].longOpt[0]
          || Options[i].longOpt[1] != Options[j].longOpt[1];
    }
  }

  lemma MiddleNamesDistinct()
    ensures forall i, j :: 6 <= i < j < |Options| && i < 12 ==> Options[i].longOpt != Options[j].longOpt
  {
  }

  lemma LastNamesDistinct()
    ensures forall i, j :: 12 <= i < j < |Options| ==> Options[i].longOpt != Options[j].longOpt
  {
  }

  lemma OptionsSeparated()
    ensures Separated(Options)
  {
    OptionsDistinctNames();
    ShortKeysAreNotLongKeys();
  }

  lemma ShortKeysAreNotLongKeys()
    ensures forall i, j :: 0 <= i < |Options| && 0 <= j < |Options| && HasShort(Options[i]) ==>
      ShortKey(Options[i]) != LongKey(Options[j])
  {
    OptionsSingleLetterShorts();
    OptionsLongNames();
    forall i, j | 0 <= i < |Options| && 0 <= j < |Options| && HasShort(Options[i])
      ensures ShortKey(Options[i]) != LongKey(Options[j])
    {
      assert |ShortKey(Options[i])| == 2 < |LongKey(Options[j])|;
    }
  }

  /** `color`, `user_name` and `user_email` are required but have defaults; only `webhook` has none. */
  lemma RequiredHaveDefaults(user: string, host: string)
    ensures forall i :: 0 <= i < |Options| && Options[i].required && i != 1 ==> HasDefault(Options[i], user, host)
  {
    forall i | 0 <= i < |Options| && Options[i].required && i != 1
      ensures HasDefault(Options[i], user, host)
    {
      assert i == 6 || i == 7 || i == 8;
      if i == 8 {
        assert |DefaultText(Options[i], user, host).value| >= 1;
      }
    }
  }

  lemma {:induction false} NoneMissing(opts: seq<OptSpec>, res: seq<Resolution>)
    requires |opts| == |res|
    requires forall i :: 0 <= i < |res| ==> !res[i].Missing?
    ensures MissingNames(opts, res) == []
    decreases |opts|
  {
    if opts != [] {
      NoneMissing(opts[1..], res[1..]);
    }
  }

  lemma {:induction false} AtMostOneMissing(opts: seq<OptSpec>, res: seq<Resolution>, k: nat)
    requires |opts| == |res| && k < |res|
    requires forall i :: 0 <= i < |res| && i != k ==> !res[i].Missing?
    ensures MissingNames(opts, res) == if res[k].Missing? then [opts[k].longOpt] else []
    decreases |opts|
  {
    if k == 0 {
      NoneMissing(opts[1..], res[1..]);
    } else {
      AtMostOneMissing(opts[1..], res[1..], k - 1);
    }
  }

  /** The only option that can ever be reported missing is `webhook`. */
  lemma OnlyWebhookCanBeMissing(dopts: map<string, string>, file: Settings, user: string, host: string)
    ensures var res := Resolutions(Options, dopts, file, user, host);
      MissingNames(Options, res) == if res[1].Missing? then ["webhook"] else []
  {
    RequiredHaveDefaults(user, host);
    AtMostOneMissing(Options, Resolutions(Options, dopts, file, user, host), 1);
  }

  /** A parser raises only ValueError or TypeError. */
  lemma ResolveErrors(o: OptSpec, dopts: map<string, string>, file: Settings, user: string, host: string)
    ensures var res := Resolve(o, dopts, file, user, host);
      Fails(res) ==> res.value.error.ValueError? || res.value.error == TypeError
  {
  }

  /** The merge over the options of `Arguments.__init__` fails only with a parser's exception. */
  lemma MergeErrors(dopts: map<string, string>, file: Settings, user: string, host: string)
    ensures var m := MergeAll(Options, State(file, dopts, []), user, host);
      m.Failure? ==> m.error.ValueError? || m.error == TypeError
  {
    var res := Resolutions(Options, dopts, file, user, host);
    OptionsSeparated();
    MergeResolves(Options, State(file, dopts, []), user, host);
    var m := MergeAll(Options, State(file, dopts, []), user, host);
    if m.Failure? {
      var i :| 0 <= i < |Options| && res[i].Resolved? && res[i].value == Failure(m.error);
      ResolveErrors(Options[i], dopts, file, user, host);
    }
  }

  /** Help is checked first: `HelpRequest` is raised exactly when `-h` or `--help` is given. */
  lemma HelpFirst(dopts: map<string, string>, file: Settings, user: string, host: string,
                  gravatar: string -> string)
    ensures ParseSpec(dopts, file, user, host, gravatar) == Failure(HelpRequest) <==> Contained(Help, dopts)
  {
    MergeErrors(dopts, file, user, host);
  }

  /** The merge from an empty missing list, when only option `w` can be missing. */
  lemma MergeOutcome(opts: seq<OptSpec>, w: nat, dopts: map<string, string>, file: Settings,
                     user: string, host: string)
    requires Separated(opts) && w < |opts|
    requires forall i :: 0 <= i < |opts| && opts[i].required && i != w ==> HasDefault(opts[i], user, host)
    ensures var m := MergeAll(opts, State(file, dopts, []), user, host);
      var res := Resolutions(opts, dopts, file, user, host);
      var clean := forall i :: 0 <= i < |opts| ==> !Fails(res[i]);
      (m.Success? <==> clean) &&
      (m.Success? ==> m.value.missing == if res[w].Missing? then [opts[w].longOpt] else []) &&
      (m.Failure? ==> exists i :: 0 <= i < |opts| && res[i].Resolved? && res[i].value == Failure(m.error) &&
                                  forall j :: 0 <= j < i ==> !Fails(res[j])) &&
      (m.Success? ==> forall i :: 0 <= i < |opts| ==> Agrees(opts[i], m.value.cfg, res[i])) &&
      (m.Success? ==> forall k :: (forall i :: 0 <= i < |opts| ==> opts[i].longOpt != k) ==> SameAt(m.value.cfg, file, k))
  {
    MergeResolves(opts, State(file, dopts, []), user, host);
    AtMostOneMissing(opts, Resolutions(opts, dopts, file, user, host), w);
  }

  /** Without help, `Arguments.parse` succeeds exactly when no parser raises and
      `webhook` is given somewhere; the first raising option decides the exception,
      and otherwise a missing `webhook` is the only missing option reported. */
  lemma ParseFailures(dopts: map<string, string>, file: Settings, user: string, host: string,
                      gravatar: string -> string)
    requires !Contained(Help, dopts)
    ensures var r := ParseSpec(dopts, file, user, host, gravatar);
      var res := Resolutions(Options, dopts, file, user, host);
      var clean := forall i :: 0 <= i < |Options| ==> !Fails(res[i]);
      (r.Success? <==> clean && !res[1].Missing?) &&
      (clean && res[1].Missing? ==> r == Failure(MissingOptions(["webhook"]))) &&
      (!clean ==> r.Failure? && exists i :: 0 <= i < |Options| && res[i].Resolved? && res[i].value == Failure(r.error) &&
                                           forall j :: 0 <= j < i ==> !Fails(res[j]))
  {
    OptionsSeparated();
    RequiredHaveDefaults(user, host);
    MergeOutcome(Options, 1, dopts, file, user, host);
  }

  /** The gravatar fallback touches only `user_icon`. */
  lemma GravatarFrame(cfg: Settings, gravatar: string -> string)
    ensures forall k :: k != "user_icon" ==> SameAt(WithGravatar(cfg, gravatar), cfg, k)
  {
  }

  lemma ParseUnfold(dopts: map<string, string>, file: Settings, user: string, host: string,
                    gravatar: string -> string)
    requires !Contained(Help, dopts)
    ensures var m := MergeAll(Options, State(file, dopts, []), user, host);
      ParseSpec(dopts, file, user, host, gravatar).Success? <==> m.Success? && |m.value.missing| == 0
    ensures var m := MergeAll(Options, State(file, dopts, []), user, host);
      m.Success? && |m.value.missing| == 0 ==>
        ParseSpec(dopts, file, user, host, gravatar) == Success(WithGravatar(m.value.cfg, gravatar))
  {
  }

  /** After a successful parse every option other than `user_icon` holds what the
      precedence resolves it to. */
  lemma ParseSettings(dopts: map<string, string>, file: Settings, user: string, host: string,
                      gravatar: string -> string)
    ensures var r := ParseSpec(dopts, file, user, host, gravatar);
      var res := Resolutions(Options, dopts, file, user, host);
      r.Success? ==>
        forall i :: 0 <= i < |Options| && Options[i].longOpt != "user_icon" ==> Agrees(Options[i], r.value, res[i])
  {
    if !Contained(Help, dopts) {
      var m := MergeAll(Options, State(file, dopts, []), user, host);
      ParseUnfold(dopts, file, user, host, gravatar);
      if m.Success? && |m.value.missing| == 0 {
        var res := Resolutions(Options, dopts, file, user, host);
        OptionsSeparated();
        MergeResolves(Options, State(file, dopts, []), user, host);
        var cfg := WithGravatar(m.value.cfg, gravatar);
        forall i | 0 <= i < |Options| && Options[i].longOpt != "user_icon"
          ensures Agrees(Options[i], cfg, res[i])
        {
          GravatarFrame(m.value.cfg, gravatar);
          AgreesFrame(Options[i], cfg, m.value.cfg, res[i]);
        }
      }
    }
  }

  /** Agreement on an option only depends on that option's entry. */
  lemma AgreesFrame(o: OptSpec, c1: Settings, c2: Settings, res: Resolution)
    requires SameAt(c1, c2, o.longOpt)
    ensures Agrees(o, c1, res) == Agrees(o, c2, res)
  {
  }

  lemma UserIconIsOption()
    ensures IsOptionName("user_icon")
  {
    assert Options[9].longOpt == "user_icon";
  }

  /** After a successful parse every entry of the file that is not an option is kept. */
  lemma ParseKeepsOtherEntries(dopts: map<string, string>, file: Settings, user: string, host: string,
                               gravatar: string -> string)
    ensures var r := ParseSpec(dopts, file, user, host, gravatar);
      r.Success? ==> forall k :: !IsOptionName(k) ==> SameAt(r.value, file, k)
  {
    if !Contained(Help, dopts) {
      var m := MergeAll(Options, State(file, dopts, []), user, host);
      ParseUnfold(dopts, file, user, host, gravatar);
      if m.Success? && |m.value.missing| == 0 {
        OptionsSeparated();
        RequiredHaveDefaults(user, host);
        MergeOutcome(Options, 1, dopts, file, user, host);
        GravatarFrame(m.value.cfg, gravatar);
        var cfg := WithGravatar(m.value.cfg, gravatar);
        forall k | !IsOptionName(k)
          ensures SameAt(cfg, file, k)
        {
          UserIconIsOption();
          assert SameAt(m.value.cfg, file, k);
        }
      }
    }
  }

  /** An option with a default is never missing or absent. */
  lemma DefaultedResolves(o: OptSpec, dopts: map<string, string>, file: Settings, user: string, host: string)
    requires HasDefault(o, user, host)
    ensures Resolve(o, dopts, file, user, host).Resolved?
  {
  }

  /** An option parsed by `int(s, 0)` resolves to an integer whenever it does not raise. */
  lemma IntOptionResolvesToInt(o: OptSpec, dopts: map<string, string>, file: Settings, user: string, host: string)
    requires o.parser == IntBase0
    ensures var res := Resolve(o, dopts, file, user, host);
      res.Resolved? && res.value.Success? ==> res.value.value.Int?
  {
  }

  lemma IntegerOptions(user: string, host: string)
    ensures Options[6].longOpt == "color" && Options[6].parser == IntBase0 && HasDefault(Options[6], user, host)
    ensures Options[13].longOpt == "periodic" && Options[13].parser == IntBase0
    ensures Options[19].longOpt == "timeout" && Options[19].parser == IntBase0
    ensures Options[23].longOpt == "buffer_size" && Options[23].parser == IntBase0 && HasDefault(Options[23], user, host)
  {
  }

  /** After a successful parse `color` and `buffer_size` are integers, and so are
      `periodic` and `timeout` when set. */
  lemma ParsedIntegers(dopts: map<string, string>, file: Settings, user: string, host: string,
                       gravatar: string -> string)
    ensures var r := ParseSpec(dopts, file, user, host, gravatar);
      r.Success? ==>
        "color" in r.value && r.value["color"].Int? &&
        "buffer_size" in r.value && r.value["buffer_size"].Int? &&
        ("periodic" in r.value ==> r.value["periodic"].Int?) &&
        ("timeout" in r.value ==> r.value["timeout"].Int?)
  {
    ParseSettings(dopts, file, user, host, gravatar);
    IntegerOptions(user, host);
    var res := Resolutions(Options, dopts, file, user, host);
    DefaultedResolves(Options[6], dopts, file, user, host);
    DefaultedResolves(Options[23], dopts, file, user, host);
    IntOptionResolvesToInt(Options[6], dopts, file, user, host);
    IntOptionResolvesToInt(Options[13], dopts, file, user, host);
    IntOptionResolvesToInt(Options[19], dopts, file, user, host);
    IntOptionResolvesToInt(Options[23], dopts, file, user, host);
  }

  lemma SystemStatsOption(user: string, host: string)
    ensures Options[21].longOpt == "system_stats" && !Options[21].takesArg && !HasShort(Options[21])
    ensures Options[21].parser == Verbatim && HasDefault(Options[21], user, host)
    ensures LongKey(Options[21]) == "--system_stats"
  {
  }

  /** A default of an option without an argument reads as True, whatever its text. */
  lemma NoArgDefaultIsTrue(o: OptSpec, dopts: map<string, string>, file: Settings, user: string, host: string)
    requires !o.takesArg && !HasShort(o) && o.parser == Verbatim && HasDefault(o, user, host)
    requires LongKey(o) !in dopts && o.longOpt !in file
    ensures Resolve(o, dopts, file, user, host) == Resolved(DefaultValue, Success(Bool(true)))
  {
  }

  /** `system_stats` has the default 'False' but takes no argument, so when neither the
      command line nor the file sets it, the default reads as True. */
  lemma SystemStatsDefaultsToTrue(dopts: map<string, string>, file: Settings, user: string, host: string,
                                  gravatar: string -> string)
    requires "--system_stats" !in dopts && "system_stats" !in file
    ensures var r := ParseSpec(dopts, file, user, host, gravatar);
      r.Success? ==> "system_stats" in r.value && r.value["system_stats"] == Bool(true)
  {
    ParseSettings(dopts, file, user, host, gravatar);
    SystemStatsOption(user, host);
    NoArgDefaultIsTrue(Options[21], dopts, file, user, host);
  }

  /** `command.py` reads `config.period`, which is not an option name: the read raises. */
  lemma PeriodIsNotAnOption(cfg: Settings)
    ensures Attribute(cfg, "period") == Failure(AttributeError("period"))
    ensures Attribute(cfg, "periodic") == Success(Lookup(cfg, "periodic"))
  {
    assert Options[13].longOpt == "periodic";
  }
}

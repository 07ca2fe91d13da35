/**
 * discordify/payload.py: the webhook body for each of the five reports, either as
 * a plain `content` message or as a Discord embed, and the classification of the
 * webhook's answer. Serialisation and the HTTP request are not part of the model.
 */
module Payload {

  import opened Wrappers
  import opened Errors
  import opened Modes
  import opened Data
  import Config
  import Numerals

  /** The JSON tree `json.dumps` would serialise. */
  datatype Json = JNull | JBool(b: bool) | JInt(i: int) | JStr(s: string) | JArr(items: seq<Json>) | JObj(obj: Dict)

  /** A Python dict: its keys in insertion order, and the value of each key. */
  datatype Dict = Dict(keys: seq<string>, values: map<string, Json>)

  const Empty: Dict := Dict([], map[])

  /** `d[key]` on a JSON value; None for a missing key or a value that is not a dict. */
  function Get(j: Json, key: string): (r: Option<Json>)
    ensures r.Some? <==> j.JObj? && key in j.obj.values
  {
    if j.JObj? && key in j.obj.values then Some(j.obj.values[key]) else None
  }

  /** `d[key] = v`: an existing key keeps its place, a new key goes last. */
  function Put(d: Dict, key: string, v: Json): Dict {
    Dict(if key in d.values then d.keys else d.keys + [key], d.values[key := v])
  }

  /** `d[outer][key] = v` on a `defaultdict(dict)`: the inner dict is created empty on first use. */
  function PutIn(d: Dict, outer: string, key: string, v: Json): Dict
    requires outer in d.values ==> d.values[outer].JObj?
  {
    var inner := if outer in d.values then d.values[outer].obj else Empty;
    Put(d, outer, JObj(Put(inner, key, v)))
  }

  /** After `d[key] = v` the key reads `v`, every other key reads as before, and the
      key order changes only by a new key going last. */
  lemma PutReadsBack(d: Dict, key: string, v: Json, other: string)
    requires other != key
    ensures var r := Put(d, key, v);
      Holds(r, key, v) &&
      (other in r.values <==> other in d.values) &&
      (other in d.values ==> r.values[other] == d.values[other]) &&
      r.keys == (if key in d.values then d.keys else d.keys + [key])
  {
  }

  /** After `d[outer][key] = v` the inner dict holds `v` at `key` and keeps its other
      entries; a missing inner dict starts empty. */
  lemma PutInReadsBack(d: Dict, outer: string, key: string, v: Json)
    requires outer in d.values ==> d.values[outer].JObj?
    ensures var r := PutIn(d, outer, key, v);
      outer in r.values && r.values[outer].JObj? && Holds(r.values[outer].obj, key, v) &&
      (outer !in d.values ==> r.values[outer].obj.keys == [key]) &&
      (outer in d.values ==> forall k :: k in d.values[outer].obj.values && k != key ==>
        Holds(r.values[outer].obj, k, d.values[outer].obj.values[k]))
  {
  }

  /** A configuration attribute as it lands in the tree: an absent option is null. */
  function Setting(cfg: Config.Settings, name: string): (j: Json)
    ensures name !in cfg <==> j == JNull
  {
    if name !in cfg then JNull
    else
      var v := cfg[name];
      if v.Str? then JStr(v.s) else if v.Int? then JInt(v.i) else JBool(v.b)
  }

  /** `if self.config.<name>:`. */
  predicate Set(cfg: Config.Settings, name: string) {
    Config.Truthy(Config.Lookup(cfg, name))
  }

  // ---- the five reports and how a payload is chosen ----

  datatype Kind = Final | Period | Signal | Timeout | Interrupt

  /** The reports sent when the run ends (they carry a return code and an end time). */
  predicate IsEndReport(k: Kind) {
    k.Final? || k.Timeout? || k.Interrupt?
  }

  datatype Renderer = Message | Embed

  /** `Payload.create`: a plain message when `simple` is set, an embed otherwise. */
  function Create(cfg: Config.Settings): (r: Renderer)
    ensures r == Message <==> Set(cfg, "simple")
    ensures r == Embed <==> !Set(cfg, "simple")
  {
    if Set(cfg, "simple") then Message else Embed
  }

  /** What the formatting calls of `Data` produce: `str(timedelta(...))` of a duration,
      `strftime` of a timestamp, and the current UTC time for `timestamp`. */
  datatype Clock = Clock(duration: int -> string, localTime: int -> string, now: string)

  // ---- Message ----

  function Emoticon(k: Kind, success: bool): string {
    match k
    case Timeout => ":clock4:"
    case Signal => ":pushpin:"
    case Period => ":arrows_counterclockwise:"
    case Interrupt => ":octagonal_sign:"
    case Final => if success then ":white_check_mark:" else ":x:"
  }

  /** The sentence after the emoticon, for a command, host, user and run time. */
  function Sentence(k: Kind, command: string, host: string, user: string, runtime: string): string {
    var what := "`" + command + "` command on `" + host + "` started by `" + user + "`";
    match k
    case Timeout => "Your " + what + " just timed out after " + runtime + "."
    case Signal => "Forced update on your " + what + " is running for " + runtime + "."
    case Period => "Periodic update on your " + what + " is running for " + runtime + "."
    case Interrupt => "Your " + what + " just was interrupted after " + runtime + "."
    case Final => "Your " + what + " just finished after " + runtime + "."
  }

  /** The `content` text of `Message.emit_*`. */
  function MessageText(k: Kind, d: Record, command: string, clock: Clock): string {
    Emoticon(k, Succeeded(d)) + " " + Sentence(k, command, d.hostname, d.username, clock.duration(Runtime(d)))
  }

  predicate StartsWith(s: string, p: string) {
    |p| <= |s| && s[..|p|] == p
  }

  /** Reading the report kind back from a message: the leading emoticon names it, and
      for a final report whether the command succeeded. */
  function ContentKind(text: string): Option<(Kind, bool)> {
    if StartsWith(text, ":clock4: ") then Some((Timeout, false))
    else if StartsWith(text, ":pushpin: ") then Some((Signal, false))
    else if StartsWith(text, ":arrows_counterclockwise: ") then Some((Period, false))
    else if StartsWith(text, ":octagonal_sign: ") then Some((Interrupt, false))
    else if StartsWith(text, ":white_check_mark: ") then Some((Final, true))
    else if StartsWith(text, ":x: ") then Some((Final, false))
    else None
  }

  lemma PrefixOfConcat(p: string, rest: string)
    ensures StartsWith(p + rest, p)
  {
    assert (p + rest)[..|p|] == p;
  }

  lemma SecondLetterDiffers(s: string, p: string)
    requires |p| >= 2 && |s| >= 2 && s[1] != p[1]
    ensures !StartsWith(s, p)
  {
    if |p| <= |s| {
      assert s[..|p|][1] == s[1];
    }
  }

  lemma EmoticonDecodes(k: Kind, success: bool, rest: string)
    ensures ContentKind(Emoticon(k, success) + " " + rest) == Some((k, k == Final && success))
  {
    var e := Emoticon(k, success) + " ";
    var t := e + rest;
    PrefixOfConcat(e, rest);
    assert t[1] == e[1];
    if !k.Timeout? {
      SecondLetterDiffers(t, ":clock4: ");
      if !k.Signal? {
        SecondLetterDiffers(t, ":pushpin: ");
        if !k.Period? {
          SecondLetterDiffers(t, ":arrows_counterclockwise: ");
          if !k.Interrupt? {
            SecondLetterDiffers(t, ":octagonal_sign: ");
            if !success {
              SecondLetterDiffers(t, ":white_check_mark: ");
            }
          }
        }
      }
    }
  }

  /** The leading emoticon tells the five reports apart, and a successful final report
      from a failed one. */
  lemma MessageShowsKind(k: Kind, d: Record, command: string, clock: Clock)
    ensures ContentKind(MessageText(k, d, command, clock)) == Some((k, k == Final && Succeeded(d)))
  {
    EmoticonDecodes(k, Succeeded(d), Sentence(k, command, d.hostname, d.username, clock.duration(Runtime(d))));
  }

  /** `Message.emit_*`: a dict whose only key is `content`. */
  function MessagePayload(k: Kind, d: Record, command: string, clock: Clock): (j: Json)
    ensures j.JObj? && j.obj.keys == ["content"]
    ensures Get(j, "content") == Some(JStr(MessageText(k, d, command, clock)))
  {
    JObj(Put(Empty, "content", JStr(MessageText(k, d, command, clock))))
  }

  // ---- Embed: defaults ----

  /** `key` holds `v` in `d`. */
  predicate Holds(d: Dict, key: string, v: Json) {
    key in d.values && d.values[key] == v
  }

  /** The author block as it ends up: name, icon and url, in the order they are written. */
  function Author(name: Json, icon: Json, url: Json): (a: Dict)
    ensures a.keys == ["name", "icon_url", "url"]
    ensures Holds(a, "name", name) && Holds(a, "icon_url", icon) && Holds(a, "url", url)
  {
    Put(Put(Put(Empty, "name", name), "icon_url", icon), "url", url)
  }

  /** The three writes to `embed["author"]` build the author block under a new key. */
  function WithAuthor(e: Dict, name: Json, icon: Json, url: Json): (r: Dict)
    requires "author" !in e.values
    ensures r.keys == e.keys + ["author"]
    ensures r.values == e.values["author" := JObj(Author(name, icon, url))]
  {
    var r := PutIn(e, "author", "name", name);
    var r := PutIn(r, "author", "icon_url", icon);
    PutIn(r, "author", "url", url)
  }

  /** The value of an optional setting: written only when it is truthy. */
  function Configured(cfg: Config.Settings, name: string): (o: Option<Json>)
    ensures o.Some? <==> Set(cfg, name)
    ensures o.Some? ==> o.value == Setting(cfg, name)
  {
    if Set(cfg, name) then Some(Setting(cfg, name)) else None
  }

  /** The key `k` when an optional value is present, nothing otherwise. */
  function KeyIf<T>(o: Option<T>, k: string): seq<string> {
    if o.Some? then [k] else []
  }

  /** The optional title link and image: each written only when present. */
  function WithLinks(e: Dict, url: Option<Json>, image: Option<Json>): (r: Dict)
    requires "url" !in e.values && "image" !in e.values
    ensures r.keys == e.keys + KeyIf(url, "url") + KeyIf(image, "image")
    ensures "url" in r.values <==> url.Some?
    ensures "image" in r.values <==> image.Some?
    ensures url.Some? ==> r.values["url"] == url.value
    ensures image.Some? ==> r.values["image"] == JObj(Put(Empty, "url", image.value))
    ensures forall k :: k != "url" && k != "image" ==> Get(JObj(r), k) == Get(JObj(e), k)
    ensures r.values.Keys == e.values.Keys + (if url.Some? then {"url"} else {}) + (if image.Some? then {"image"} else {})
  {
    var r := if url.Some? then Put(e, "url", url.value) else e;
    if image.Some? then PutIn(r, "image", "url", image.value) else r
  }

  /** The footer block: the text and the icon, each present when given. */
  function Footer(text: Option<Json>, icon: Option<Json>): (f: Dict)
    ensures f.keys == KeyIf(text, "text") + KeyIf(icon, "icon_url")
    ensures "text" in f.values <==> text.Some?
    ensures "icon_url" in f.values <==> icon.Some?
    ensures text.Some? ==> f.values["text"] == text.value
    ensures icon.Some? ==> f.values["icon_url"] == icon.value
  {
    var f := if text.Some? then Put(Empty, "text", text.value) else Empty;
    if icon.Some? then Put(f, "icon_url", icon.value) else f
  }

  /** The footer writes: `embed["footer"]` exists exactly when one of them happens. */
  function WithFooter(e: Dict, text: Option<Json>, icon: Option<Json>): (r: Dict)
    requires "footer" !in e.values
    ensures r.keys == e.keys + (if text.Some? || icon.Some? then ["footer"] else [])
    ensures r.values == if text.Some? || icon.Some? then e.values["footer" := JObj(Footer(text, icon))] else e.values
  {
    var r := if text.Some? then PutIn(e, "footer", "text", text.value) else e;
    if icon.Some? then PutIn(r, "footer", "icon_url", icon.value) else r
  }

  /** The writes of `Embed.__prepare_defaults`, in source order, on the values read. */
  function Prepare(color: Json, name: Json, icon: Json, url: Json, titleUrl: Option<Json>, image: Option<Json>,
                   footer: Option<Json>, footerIcon: Option<Json>, timestamp: string): (e: Dict)
    ensures e.values.Keys <= {"color", "author", "url", "image", "footer", "timestamp"}
  {
    var e := Put(Empty, "color", color);
    var e := WithAuthor(e, name, icon, url);
    var e := WithLinks(e, titleUrl, image);
    var e := WithFooter(e, footer, footerIcon);
    Put(e, "timestamp", JStr(timestamp))
  }

  /** Colour, author and timestamp always hold the values read. */
  lemma PrepareHolds(color: Json, name: Json, icon: Json, url: Json, titleUrl: Option<Json>, image: Option<Json>,
                     footer: Option<Json>, footerIcon: Option<Json>, timestamp: string)
    ensures var e := Prepare(color, name, icon, url, titleUrl, image, footer, footerIcon, timestamp);
      Holds(e, "color", color) && Holds(e, "author", JObj(Author(name, icon, url))) && Holds(e, "timestamp", JStr(timestamp))
  {
    var e2 := WithAuthor(Put(Empty, "color", color), name, icon, url);
    AuthorStage(color, name, icon, url);
    LinksStage(e2, titleUrl, image);
  }

  /** After the colour and the author block the defaults hold exactly those two keys. */
  lemma AuthorStage(color: Json, name: Json, icon: Json, url: Json)
    ensures var e := WithAuthor(Put(Empty, "color", color), name, icon, url);
      e.keys == ["color", "author"] && e.values.Keys == {"color", "author"}
  {
  }

  /** The link and the image add neither a footer nor a timestamp. */
  lemma LinksStage(e: Dict, titleUrl: Option<Json>, image: Option<Json>)
    requires e.values.Keys == {"color", "author"}
    ensures "url" !in e.values && "image" !in e.values
    ensures var r := WithLinks(e, titleUrl, image); "footer" !in r.values && "timestamp" !in r.values
  {
  }

  /** The keys of the defaults, in the order they are written. */
  lemma PrepareKeys(color: Json, name: Json, icon: Json, url: Json, titleUrl: Option<Json>, image: Option<Json>,
                    footer: Option<Json>, footerIcon: Option<Json>, timestamp: string)
    ensures Prepare(color, name, icon, url, titleUrl, image, footer, footerIcon, timestamp).keys ==
      ["color", "author"] + KeyIf(titleUrl, "url") + KeyIf(image, "image")
      + (if footer.Some? || footerIcon.Some? then ["footer"] else []) + ["timestamp"]
  {
    var e2 := WithAuthor(Put(Empty, "color", color), name, icon, url);
    AuthorStage(color, name, icon, url);
    LinksStage(e2, titleUrl, image);
    var e3 := WithLinks(e2, titleUrl, image);
    var e4 := WithFooter(e3, footer, footerIcon);
    assert "timestamp" !in e4.values;
  }

  /** `Embed.__prepare_defaults` on a configuration. */
  function Defaults(cfg: Config.Settings, timestamp: string): (e: Dict)
    ensures e.values.Keys <= {"color", "author", "url", "image", "footer", "timestamp"}
  {
    Prepare(Setting(cfg, "color"), Setting(cfg, "user_name"), Setting(cfg, "user_icon"), Setting(cfg, "user_url"),
            Configured(cfg, "title_url"), Configured(cfg, "image"), Configured(cfg, "footer"), Configured(cfg, "footer_icon"),
            timestamp)
  }

  /** The colour, the author block and the timestamp of the defaults come from the
      configuration and the clock. */
  lemma DefaultsHold(cfg: Config.Settings, timestamp: string)
    ensures var e := Defaults(cfg, timestamp);
      Holds(e, "color", Setting(cfg, "color")) &&
      Holds(e, "author", JObj(Author(Setting(cfg, "user_name"), Setting(cfg, "user_icon"), Setting(cfg, "user_url")))) &&
      Holds(e, "timestamp", JStr(timestamp))
  {
    PrepareHolds(Setting(cfg, "color"), Setting(cfg, "user_name"), Setting(cfg, "user_icon"), Setting(cfg, "user_url"),
                 Configured(cfg, "title_url"), Configured(cfg, "image"), Configured(cfg, "footer"), Configured(cfg, "footer_icon"),
                 timestamp);
  }

  /** Colour, author and timestamp are always written; the link, the image and the footer
      only when their options are truthy. */
  lemma DefaultsKeys(cfg: Config.Settings, timestamp: string)
    ensures Defaults(cfg, timestamp).keys ==
      ["color", "author"] + (if Set(cfg, "title_url") then ["url"] else [])
      + (if Set(cfg, "image") then ["image"] else [])
      + (if Set(cfg, "footer") || Set(cfg, "footer_icon") then ["footer"] else [])
      + ["timestamp"]
  {
    PrepareKeys(Setting(cfg, "color"), Setting(cfg, "user_name"), Setting(cfg, "user_icon"), Setting(cfg, "user_url"),
                Configured(cfg, "title_url"), Configured(cfg, "image"), Configured(cfg, "footer"), Configured(cfg, "footer_icon"),
                timestamp);
  }

  /** Where the optional values land in the defaults. */
  lemma PrepareOptional(color: Json, name: Json, icon: Json, url: Json, titleUrl: Option<Json>, image: Option<Json>,
                        footer: Option<Json>, footerIcon: Option<Json>, timestamp: string)
    ensures var e := Prepare(color, name, icon, url, titleUrl, image, footer, footerIcon, timestamp);
      ("url" in e.values <==> titleUrl.Some?) && (titleUrl.Some? ==> e.values["url"] == titleUrl.value) &&
      ("image" in e.values <==> image.Some?) && (image.Some? ==> e.values["image"] == JObj(Put(Empty, "url", image.value))) &&
      ("footer" in e.values <==> footer.Some? || footerIcon.Some?) &&
      (footer.Some? || footerIcon.Some? ==> e.values["footer"] == JObj(Footer(footer, footerIcon)))
  {
    var e2 := WithAuthor(Put(Empty, "color", color), name, icon, url);
    AuthorStage(color, name, icon, url);
    LinksStage(e2, titleUrl, image);
  }

  /** A truthy `title_url` or `image` is written as `url` and `image.url`; the footer holds
      `text` exactly when `footer` is truthy and `icon_url` exactly when `footer_icon` is. */
  lemma DefaultsOptional(cfg: Config.Settings, timestamp: string)
    ensures var e := Defaults(cfg, timestamp);
      ("url" in e.values <==> Set(cfg, "title_url")) &&
      (Set(cfg, "title_url") ==> e.values["url"] == Setting(cfg, "title_url")) &&
      ("image" in e.values <==> Set(cfg, "image")) &&
      (Set(cfg, "image") ==> e.values["image"].JObj? && Holds(e.values["image"].obj, "url", Setting(cfg, "image"))) &&
      ("footer" in e.values <==> Set(cfg, "footer") || Set(cfg, "footer_icon")) &&
      ("footer" in e.values ==>
         e.values["footer"].JObj? &&
         ("text" in e.values["footer"].obj.values <==> Set(cfg, "footer")) &&
         ("icon_url" in e.values["footer"].obj.values <==> Set(cfg, "footer_icon")))
  {
    PrepareOptional(Setting(cfg, "color"), Setting(cfg, "user_name"), Setting(cfg, "user_icon"), Setting(cfg, "user_url"),
                    Configured(cfg, "title_url"), Configured(cfg, "image"), Configured(cfg, "footer"), Configured(cfg, "footer_icon"),
                    timestamp);
  }

  // ---- Embed: description ----

  /** One line of the argument listing: `[arg]` and a newline. */
  function Bracket(arg: string): string {
    "[" + arg + "]\n"
  }

  /** The lines the argument loop appends, one per argument, in order. */
  function ArgumentLines(args: seq<string>): string
    decreases |args|
  {
    if args == [] then "" else Bracket(args[0]) + ArgumentLines(args[1..])
  }

  /** Appending one more argument appends one more line. */
  lemma {:induction false} ArgumentLinesSnoc(args: seq<string>, arg: string)
    ensures ArgumentLines(args + [arg]) == ArgumentLines(args) + Bracket(arg)
    decreases |args|
  {
    if args == [] {
      assert [arg][1..] == [];
    } else {
      assert (args + [arg])[1..] == args[1..] + [arg];
      ArgumentLinesSnoc(args[1..], arg);
    }
  }

  const ArgumentsHead: string := "**Arguments:**\n```\n"
  const ArgumentsTail: string := "```\n"

  /** The arguments section of an end report. */
  function ArgumentsBlock(args: seq<string>): string {
    ArgumentsHead + ArgumentLines(args) + ArgumentsTail
  }

  /** The position of the first `c` in `s`, or `|s|` when there is none. */
  function IndexOf(s: string, c: char): (i: nat)
    ensures i <= |s|
    ensures forall j :: 0 <= j < i ==> s[j] != c
    ensures i < |s| ==> s[i] == c
    decreases |s|
  {
    if s == [] then 0 else if s[0] == c then 0 else 1 + IndexOf(s[1..], c)
  }

  /** Reading an argument listing back: every line must be `[a]`, and gives `a`. */
  function ReadArguments(s: string): Option<seq<string>>
    decreases |s|
  {
    if s == [] then Some([])
    else
      var i := IndexOf(s, '\n');
      if i == |s| || i < 2 || s[0] != '[' || s[i - 1] != ']' then None
      else match ReadArguments(s[i + 1..])
        case None => None
        case Some(rest) => Some([s[1..i - 1]] + rest)
  }

  predicate SingleLine(a: string) {
    forall i :: 0 <= i < |a| ==> a[i] != '\n'
  }

  lemma BracketShape(a: string)
    ensures |Bracket(a)| == |a| + 3
    ensures Bracket(a)[0] == '[' && Bracket(a)[|a| + 1] == ']' && Bracket(a)[|a| + 2] == '\n'
    ensures Bracket(a)[1..|a| + 1] == a
    ensures forall j :: 1 <= j <= |a| ==> Bracket(a)[j] == a[j - 1]
  {
  }

  /** The first line of `Bracket(a) + rest` ends right after `a`'s closing bracket. */
  lemma FirstLine(a: string, rest: string)
    requires SingleLine(a)
    ensures IndexOf(Bracket(a) + rest, '\n') == |a| + 2
  {
    var b := Bracket(a);
    var t := b + rest;
    BracketShape(a);
    assert t[|a| + 2] == b[|a| + 2];
    forall j | 0 <= j < |a| + 2
      ensures t[j] != '\n'
    {
      assert t[j] == b[j];
    }
  }

  /** Reading one bracketed line, then the rest. */
  lemma ReadFirstLine(a: string, rest: string)
    requires SingleLine(a)
    ensures ReadArguments(Bracket(a) + rest) ==
      if ReadArguments(rest).Some? then Some([a] + ReadArguments(rest).value) else None
  {
    var b := Bracket(a);
    var t := b + rest;
    BracketShape(a);
    FirstLine(a, rest);
    assert t[0] == b[0] && t[|a| + 1] == b[|a| + 1];
    assert t[|a| + 3..] == rest;
    assert t[1..|a| + 1] == b[1..|a| + 1];
  }

  /** An argument listing identifies its arguments, as long as none spans lines. */
  lemma {:induction false} ArgumentLinesRoundTrip(args: seq<string>)
    requires forall k :: 0 <= k < |args| ==> SingleLine(args[k])
    ensures ReadArguments(ArgumentLines(args)) == Some(args)
    decreases |args|
  {
    if args != [] {
      ReadFirstLine(args[0], ArgumentLines(args[1..]));
      ArgumentLinesRoundTrip(args[1..]);
      assert [args[0]] + args[1..] == args;
    }
  }

  datatype Stream = Stdin | Stdout | Stderr

  function StreamLabel(s: Stream): string {
    match s
    case Stdin => "STDIN"
    case Stdout => "STDOUT"
    case Stderr => "STDERR"
  }

  /** The rendered capture buffer of a stream. */
  function Buffer(d: Record, s: Stream): string {
    match s
    case Stdin => d.stdinBuffer
    case Stdout => d.stdoutBuffer
    case Stderr => d.stderrBuffer
  }

  /** The section of one stream: its buffer in a code block; a newline precedes the
      STDOUT and STDERR sections but not the STDIN one. */
  function Section(d: Record, s: Stream): string {
    (if s == Stdin then "" else "\n") + "**" + StreamLabel(s) + " buffer:**\n```\n" + Buffer(d, s) + "\n```"
  }

  /** What one buffer test adds: the section when the buffer is non-empty. */
  function Part(d: Record, s: Stream): string {
    if |Buffer(d, s)| > 0 then Section(d, s) else ""
  }

  /** The three buffer tests of every `emit_*`, in source order. */
  function Sections(d: Record): string {
    Part(d, Stdin) + Part(d, Stdout) + Part(d, Stderr)
  }

  /** The streams of `ss`, in order, that captured something. */
  function NonEmpty(d: Record, ss: seq<Stream>): (r: seq<Stream>)
    ensures forall s :: s in r <==> s in ss && Buffer(d, s) != ""
    decreases |ss|
  {
    if ss == [] then []
    else (if Buffer(d, ss[0]) != "" then [ss[0]] else []) + NonEmpty(d, ss[1..])
  }

  /** The sections of `ss`, one after the other. */
  function Shown(d: Record, ss: seq<Stream>): string
    decreases |ss|
  {
    if ss == [] then "" else Section(d, ss[0]) + Shown(d, ss[1..])
  }

  /** The buffer tests for `ss`, one after the other. */
  function Parts(d: Record, ss: seq<Stream>): string
    decreases |ss|
  {
    if ss == [] then "" else Part(d, ss[0]) + Parts(d, ss[1..])
  }

  lemma Assoc(a: string, b: string, c: string)
    ensures a + (b + c) == a + b + c
  {
  }

  lemma ShownOne(d: Record, ss: seq<Stream>)
    requires |ss| <= 1
    ensures Shown(d, ss) == if ss == [] then "" else Section(d, ss[0])
  {
    if ss != [] {
      assert ss[1..] == [];
      assert Shown(d, ss) == Section(d, ss[0]) + "";
    }
  }

  lemma {:induction false} ShownConcat(d: Record, a: seq<Stream>, b: seq<Stream>)
    requires |a| <= 1
    ensures Shown(d, a + b) == Shown(d, a) + Shown(d, b)
  {
    if a != [] {
      assert (a + b)[0] == a[0] && (a + b)[1..] == b;
      ShownOne(d, a);
    } else {
      assert a + b == b;
    }
  }

  /** Showing the non-empty streams is doing every buffer test. */
  lemma {:induction false} ShownNonEmpty(d: Record, ss: seq<Stream>)
    ensures Shown(d, NonEmpty(d, ss)) == Parts(d, ss)
    decreases |ss|
  {
    if ss != [] {
      var h := if Buffer(d, ss[0]) != "" then [ss[0]] else [];
      ShownNonEmpty(d, ss[1..]);
      ShownConcat(d, h, NonEmpty(d, ss[1..]));
      ShownOne(d, h);
    }
  }

  /** The description shows a section for each stream with a non-empty buffer, and for
      no other, always in the order STDIN, STDOUT, STDERR. */
  lemma SectionsInOrder(d: Record)
    ensures Sections(d) == Shown(d, NonEmpty(d, [Stdin, Stdout, Stderr]))
  {
    var all := [Stdin, Stdout, Stderr];
    ShownNonEmpty(d, all);
    assert all[1..] == [Stdout, Stderr] && all[1..][1..] == [Stderr] && all[1..][1..][1..] == [];
    assert Parts(d, [Stderr]) == Part(d, Stderr) + "";
    Assoc(Part(d, Stdin), Part(d, Stdout), Part(d, Stderr));
  }

  /** The description of a report: the argument block for end reports of a non-sink
      run, then the buffer sections. A run without stored arguments lists none. */
  function Description(k: Kind, d: Record): string {
    (if IsEndReport(k) && d.mode != Sink then ArgumentsBlock(d.arguments.GetOr([])) else "") + Sections(d)
  }

  /** The `desc += ...` steps of `emit_*`. */
  method BuildDescription(k: Kind, d: Record) returns (desc: string)
    ensures desc == Description(k, d)
  {
    desc := "";
    if IsEndReport(k) && d.mode != Sink {
      desc := desc + ArgumentsHead;
      var args := d.arguments.GetOr([]);
      var i := 0;
      while i < |args|
        invariant 0 <= i <= |args|
        invariant desc == ArgumentsHead + ArgumentLines(args[..i])
      {
        ArgumentLinesSnoc(args[..i], args[i]);
        assert args[..i + 1] == args[..i] + [args[i]];
        desc := desc + Bracket(args[i]);
        i := i + 1;
      }
      assert args[..|args|] == args;
      desc := desc + ArgumentsTail;
    }
    ghost var head := desc;
    if |d.stdinBuffer| > 0 {
      desc := desc + Section(d, Stdin);
    }
    assert desc == head + Part(d, Stdin);
    if |d.stdoutBuffer| > 0 {
      desc := desc + Section(d, Stdout);
    }
    assert desc == head + Part(d, Stdin) + Part(d, Stdout);
    if |d.stderrBuffer| > 0 {
      desc := desc + Section(d, Stderr);
    }
    assert desc == head + Part(d, Stdin) + Part(d, Stdout) + Part(d, Stderr);
    Assoc(head, Part(d, Stdin), Part(d, Stdout));
    Assoc(head, Part(d, Stdin) + Part(d, Stdout), Part(d, Stderr));
  }

  // ---- Embed: fields ----

  /** `{"name": name, "value": value, "inline": True}`. */
  function Field(name: string, value: Json): (f: Json)
    ensures f.JObj? && f.obj.keys == ["name", "value", "inline"]
    ensures Holds(f.obj, "name", JStr(name)) && Holds(f.obj, "value", value) && Holds(f.obj, "inline", JBool(true))
  {
    JObj(Put(Put(Put(Empty, "name", JStr(name)), "value", value), "inline", JBool(true)))
  }

  /** `'{} lines'.format(n)`. */
  function LineCount(n: int): string {
    Numerals.IntToString(n) + " lines"
  }

  /** Reading a line count back from its field text. */
  function ReadLineCount(t: string): Option<int> {
    if |t| >= 6 && t[|t| - 6..] == " lines" then Numerals.ParseInt(t[..|t| - 6]) else None
  }

  lemma LineCountRoundTrip(n: int)
    ensures ReadLineCount(LineCount(n)) == Some(n)
  {
    var t := LineCount(n);
    var digits := Numerals.IntToString(n);
    assert t[..|t| - 6] == digits;
    assert t[|t| - 6..] == " lines";
    Numerals.IntToStringRoundTrip(n);
  }

  /** The `returncode` property as a JSON value: an int, or the sentinel string. */
  function ReturnCodeValue(d: Record): (j: Json)
    ensures j == JStr(Unavailable) <==> d.returncode.None?
    ensures d.returncode.Some? ==> j == JInt(d.returncode.value)
  {
    match ReturnCode(d)
    case Number(n) => JInt(n)
    case Text(s) => JStr(s)
  }

  /** The (name, value) pairs `append` receives, in call order. */
  function Entries(k: Kind, d: Record, clock: Clock): seq<(string, Json)> {
    (if IsEndReport(k) then [("Return Code", ReturnCodeValue(d))] else [])
    + [("Run time", JStr(clock.duration(Runtime(d))))]
    + [("Start time", JStr(clock.localTime(d.startTime)))]
    + (if IsEndReport(k) then [("End time", JStr(clock.localTime(d.endTime)))] else [])
    + [("STDIN", JStr(LineCount(d.stdinLines)))]
    + [("STDOUT", JStr(LineCount(d.stdoutLines)))]
    + [("STDERR", JStr(LineCount(d.stderrLines)))]
  }

  /** One field per entry, in order. */
  function FieldsOf(es: seq<(string, Json)>): (fs: seq<Json>)
    ensures |fs| == |es|
    ensures forall i :: 0 <= i < |es| ==> fs[i] == Field(es[i].0, es[i].1)
    decreases |es|
  {
    if es == [] then [] else [Field(es[0].0, es[0].1)] + FieldsOf(es[1..])
  }

  lemma {:induction false} FieldsOfConcat(a: seq<(string, Json)>, b: seq<(string, Json)>)
    ensures FieldsOf(a + b) == FieldsOf(a) + FieldsOf(b)
    decreases |a|
  {
    if a != [] {
      assert (a + b)[0] == a[0] && (a + b)[1..] == a[1..] + b;
      FieldsOfConcat(a[1..], b);
    } else {
      assert a + b == b;
    }
  }

  lemma FieldsOfOne(e: (string, Json))
    ensures FieldsOf([e]) == [Field(e.0, e.1)]
  {
    assert [e][1..] == [];
  }

  /** `embed["fields"]`: one field per entry, in call order. */
  function Fields(k: Kind, d: Record, clock: Clock): seq<Json> {
    FieldsOf(Entries(k, d, clock))
  }

  /** One more `append` adds one field at the end. */
  lemma FieldsOfSnoc(es: seq<(string, Json)>, e: (string, Json))
    ensures FieldsOf(es + [e]) == FieldsOf(es) + [Field(e.0, e.1)]
  {
    FieldsOfConcat(es, [e]);
    FieldsOfOne(e);
  }

  /** The names of a field list. */
  function Names(es: seq<(string, Json)>): (ns: seq<string>)
    ensures |ns| == |es| && forall i :: 0 <= i < |es| ==> ns[i] == es[i].0
  {
    seq(|es|, i requires 0 <= i < |es| => es[i].0)
  }

  /** The field lists: end reports show Return Code, Run time, Start time, End time and
      the three line counts; progress reports leave out the return code and end time. */
  lemma FieldOrder(k: Kind, d: Record, clock: Clock)
    ensures Names(Entries(k, d, clock)) ==
      if IsEndReport(k) then ["Return Code", "Run time", "Start time", "End time", "STDIN", "STDOUT", "STDERR"]
      else ["Run time", "Start time", "STDIN", "STDOUT", "STDERR"]
  {
  }

  /** Each field shows what its name says: the return code first
      and the end time after the start time in end reports, the run time and the start
      time, and the three line counts last. */
  lemma FieldValues(k: Kind, d: Record, clock: Clock)
    ensures var es := Entries(k, d, clock); var n := |es|; var t := if IsEndReport(k) then 1 else 0;
      n >= 5 &&
      es[t].1 == JStr(clock.duration(Runtime(d))) && es[t + 1].1 == JStr(clock.localTime(d.startTime)) &&
      es[n - 3].1 == JStr(LineCount(d.stdinLines)) &&
      es[n - 2].1 == JStr(LineCount(d.stdoutLines)) &&
      es[n - 1].1 == JStr(LineCount(d.stderrLines))
    ensures var es := Entries(k, d, clock);
      IsEndReport(k) ==> es[0].1 == ReturnCodeValue(d) && es[3].1 == JStr(clock.localTime(d.endTime))
  {
  }

  /** Every field is an inline object holding the name and the value of its entry. */
  lemma FieldsInline(k: Kind, d: Record, clock: Clock)
    ensures var fs := Fields(k, d, clock);
      |fs| == |Entries(k, d, clock)| &&
      forall i :: 0 <= i < |fs| ==> fs[i].JObj? && Holds(fs[i].obj, "inline", JBool(true)) &&
                                    Holds(fs[i].obj, "name", JStr(Entries(k, d, clock)[i].0)) &&
                                    Holds(fs[i].obj, "value", Entries(k, d, clock)[i].1)
  {
    FieldsOfShape(Entries(k, d, clock));
  }

  lemma FieldsOfShape(es: seq<(string, Json)>)
    ensures var fs := FieldsOf(es);
      forall i :: 0 <= i < |fs| ==> fs[i].JObj? && Holds(fs[i].obj, "inline", JBool(true)) &&
                                    Holds(fs[i].obj, "name", JStr(es[i].0)) && Holds(fs[i].obj, "value", es[i].1)
  {
  }

  /** The line counts shown read back as the record's counters. */
  lemma CountsReadBack(k: Kind, d: Record, clock: Clock)
    ensures var es := Entries(k, d, clock); var n := |es|;
      n >= 5 && es[n - 3].1.JStr? && es[n - 2].1.JStr? && es[n - 1].1.JStr? &&
      ReadLineCount(es[n - 3].1.s) == Some(d.stdinLines as int) &&
      ReadLineCount(es[n - 2].1.s) == Some(d.stdoutLines as int) &&
      ReadLineCount(es[n - 1].1.s) == Some(d.stderrLines as int)
  {
    FieldValues(k, d, clock);
    LineCountRoundTrip(d.stdinLines);
    LineCountRoundTrip(d.stdoutLines);
    LineCountRoundTrip(d.stderrLines);
  }

  // ---- Embed: title and thumbnail ----

  /** The text before the command (progress reports: before the pid). */
  function TitleHead(k: Kind): string {
    match k
    case Final => "**CMD:** `"
    case Interrupt => "**Interrupted CMD:** `"
    case Timeout => "**Timed out CMD:** `"
    case Period => "Periodic update on `["
    case Signal => "Forced update on `["
  }

  /** `embed["title"]`: the command in backticks; the progress reports put the pid in
      brackets before it, written in decimal. */
  function Title(k: Kind, pid: int, command: string): string {
    if IsEndReport(k) then TitleHead(k) + command + "`"
    else TitleHead(k) + Numerals.IntToString(pid) + "] " + command + "`"
  }

  /** Reading a title back: the pid of a progress report, and the command. */
  function ReadTitle(k: Kind, t: string): Option<(Option<int>, string)> {
    var head := TitleHead(k);
    if !StartsWith(t, head) || |t| < |head| + 1 || t[|t| - 1] != '`' then None
    else
      var body := t[|head|..|t| - 1];
      if IsEndReport(k) then Some((None, body))
      else
        var j := IndexOf(body, ']');
        if j + 2 > |body| then None
        else match Numerals.ParseInt(body[..j])
          case None => None
          case Some(pid) => Some((Some(pid), body[j + 2..]))
  }

  lemma NoBracketInNumber(n: int)
    ensures forall i :: 0 <= i < |Numerals.IntToString(n)| ==> Numerals.IntToString(n)[i] != ']'
  {
    var s := Numerals.IntToString(n);
    if n < 0 {
      forall i | 1 <= i < |s|
        ensures s[i] != ']'
      {
        assert s[1..][i - 1] == s[i];
      }
    }
  }

  /** A title gives back the command it names, and a progress title the pid. */
  lemma TitleReadsBack(k: Kind, pid: int, command: string)
    ensures ReadTitle(k, Title(k, pid, command)) == Some((if IsEndReport(k) then None else Some(pid), command))
  {
    var head := TitleHead(k);
    var t := Title(k, pid, command);
    if IsEndReport(k) {
      PrefixOfConcat(head, command + "`");
      assert t == head + (command + "`");
      assert t[|head|..|t| - 1] == command;
    } else {
      var digits := Numerals.IntToString(pid);
      var body := digits + "] " + command;
      assert t == head + (body + "`");
      PrefixOfConcat(head, body + "`");
      assert t[|head|..|t| - 1] == body;
      NoBracketInNumber(pid);
      assert body[|digits|] == ']';
      forall j | 0 <= j < |digits|
        ensures body[j] != ']'
      {
        assert body[j] == digits[j];
      }
      assert IndexOf(body, ']') == |digits|;
      assert body[..|digits|] == digits;
      assert body[|digits| + 2..] == command;
      Numerals.IntToStringRoundTrip(pid);
    }
  }

  /** The configuration option whose url becomes the thumbnail. */
  function IconName(k: Kind, success: bool): string {
    match k
    case Period => "icon_period"
    case Signal => "icon_warning"
    case Final => if success then "icon_success" else "icon_failure"
    case Interrupt => "icon_timeout"
    case Timeout => "icon_timeout"
  }

  /** Every thumbnail the embeds read is a configuration option, so the read never raises. */
  lemma IconIsOption(k: Kind, success: bool)
    ensures Config.IsOptionName(IconName(k, success))
  {
    match k
    case Period => assert Config.Options[17].longOpt == "icon_period";
    case Signal => assert Config.Options[16].longOpt == "icon_warning";
    case Final =>
      if success {
        assert Config.Options[15].longOpt == "icon_success";
      } else {
        assert Config.Options[14].longOpt == "icon_failure";
      }
    case Interrupt => assert Config.Options[18].longOpt == "icon_timeout";
    case Timeout => assert Config.Options[18].longOpt == "icon_timeout";
  }

  /** A final report's icon tells success from failure; interrupt and timeout share one. */
  lemma IconsTellOutcome(success: bool)
    ensures IconName(Final, success) == "icon_success" <==> success
    ensures IconName(Interrupt, success) == IconName(Timeout, success)
    ensures forall k: Kind :: k != Final ==> IconName(k, true) == IconName(k, false)
  {
    assert "icon_failure"[5] != "icon_success"[5];
  }

  // ---- Embed: the payload ----

  /** The keys `emit_*` writes are not among the keys of the defaults. */
  lemma FreshKeys(e: Dict)
    requires e.values.Keys <= {"color", "author", "url", "image", "footer", "timestamp"}
    ensures "thumbnail" !in e.values && "title" !in e.values && "description" !in e.values && "fields" !in e.values
  {
  }

  /** The writes every `emit_*` adds to the defaults: the thumbnail, the title, the
      description and the fields, each under a key of its own. */
  function Complete(e: Dict, icon: Json, title: string, desc: string, fields: seq<Json>): (r: Dict)
    requires e.values.Keys <= {"color", "author", "url", "image", "footer", "timestamp"}
    ensures r.keys == e.keys + ["thumbnail", "title", "description", "fields"]
    ensures Holds(r, "thumbnail", JObj(Put(Empty, "url", icon)))
    ensures Holds(r, "title", JStr(title)) && Holds(r, "description", JStr(desc)) && Holds(r, "fields", JArr(fields))
    ensures forall key :: key in e.values ==> Holds(r, key, e.values[key])
  {
    FreshKeys(e);
    var r := PutIn(e, "thumbnail", "url", icon);
    var r := Put(r, "title", JStr(title));
    var r := Put(r, "description", JStr(desc));
    Put(r, "fields", JArr(fields))
  }

  /** The embed of a report, once the command name is known. */
  function EmbedDict(k: Kind, cfg: Config.Settings, d: Record, command: string, clock: Clock): (e: Dict)
    ensures e.keys == Defaults(cfg, clock.now).keys + ["thumbnail", "title", "description", "fields"]
    ensures Holds(e, "thumbnail", JObj(Put(Empty, "url", Setting(cfg, IconName(k, Succeeded(d))))))
    ensures Holds(e, "title", JStr(Title(k, Pid(d), command)))
    ensures Holds(e, "description", JStr(Description(k, d)))
    ensures Holds(e, "fields", JArr(Fields(k, d, clock)))
    ensures forall key :: key in Defaults(cfg, clock.now).values ==> Holds(e, key, Defaults(cfg, clock.now).values[key])
  {
    Complete(Defaults(cfg, clock.now), Setting(cfg, IconName(k, Succeeded(d))), Title(k, Pid(d), command),
             Description(k, d), Fields(k, d, clock))
  }

  /** `{"embeds": [embed]}`. */
  function Embeds(e: Dict): (j: Json)
    ensures j.JObj? && j.obj.keys == ["embeds"] && Holds(j.obj, "embeds", JArr([JObj(e)]))
  {
    JObj(Put(Empty, "embeds", JArr([JObj(e)])))
  }

  /** `Embed.emit_*`: fails only where reading `data.command` fails. */
  function EmbedPayload(k: Kind, cfg: Config.Settings, d: Record, clock: Clock): (r: Result<Json, Error>)
    ensures r.Failure? <==> CommandName(d).Failure?
    ensures r.Failure? ==> r.error == AssertionError
    ensures r.Success? ==> r.value == Embeds(EmbedDict(k, cfg, d, CommandName(d).value, clock))
  {
    var command :- CommandName(d);
    Success(Embeds(EmbedDict(k, cfg, d, command, clock)))
  }

  /** The `append(name, value)` calls of `Embed.emit_*`, in source order. */
  method AppendFields(k: Kind, d: Record, clock: Clock) returns (fields: seq<Json>)
    ensures fields == Fields(k, d, clock)
  {
    ghost var es: seq<(string, Json)> := [];
    fields := [];
    if IsEndReport(k) {
      fields, es := AppendField(fields, es, "Return Code", ReturnCodeValue(d));
    }
    ghost var head := es;
    assert head == if IsEndReport(k) then [("Return Code", ReturnCodeValue(d))] else [];
    fields, es := AppendField(fields, es, "Run time", JStr(clock.duration(Runtime(d))));
    fields, es := AppendField(fields, es, "Start time", JStr(clock.localTime(d.startTime)));
    ghost var middle := es;
    if IsEndReport(k) {
      fields, es := AppendField(fields, es, "End time", JStr(clock.localTime(d.endTime)));
    }
    assert es == middle + if IsEndReport(k) then [("End time", JStr(clock.localTime(d.endTime)))] else [];
    fields, es := AppendField(fields, es, "STDIN", JStr(LineCount(d.stdinLines)));
    fields, es := AppendField(fields, es, "STDOUT", JStr(LineCount(d.stdoutLines)));
    fields, es := AppendField(fields, es, "STDERR", JStr(LineCount(d.stderrLines)));
  }

  /** `append(name, value)`: one more field at the end, for one more entry. */
  method AppendField(fields: seq<Json>, ghost es: seq<(string, Json)>, name: string, value: Json)
    returns (fields': seq<Json>, ghost es': seq<(string, Json)>)
    requires fields == FieldsOf(es)
    ensures fields' == FieldsOf(es') && es' == es + [(name, value)]
  {
    FieldsOfSnoc(es, (name, value));
    fields' := fields + [Field(name, value)];
    es' := es + [(name, value)];
  }

  /** The steps of `Embed.emit_*`, writing the embed key by key and appending the fields
      one by one. */
  method EmitEmbed(k: Kind, cfg: Config.Settings, d: Record, clock: Clock) returns (r: Result<Json, Error>)
    ensures r == EmbedPayload(k, cfg, d, clock)
  {
    var embed := Defaults(cfg, clock.now);
    ghost var defaults := embed;
    FreshKeys(defaults);
    embed := PutIn(embed, "thumbnail", "url", Setting(cfg, IconName(k, Succeeded(d))));
    var command := CommandName(d);
    if command.Failure? {
      return Failure(command.error);
    }
    embed := Put(embed, "title", JStr(Title(k, Pid(d), command.value)));
    var desc := BuildDescription(k, d);
    embed := Put(embed, "description", JStr(desc));
    var fields := AppendFields(k, d, clock);
    embed := Put(embed, "fields", JArr(fields));
    assert embed == Complete(defaults, Setting(cfg, IconName(k, Succeeded(d))), Title(k, Pid(d), command.value), desc, fields);
    r := Success(Embeds(embed));
  }

  /** `Embed.emit_*` exactly as written. The progress reports concatenate the integer pid
      to a string, which raises TypeError; the end reports of a run that is not in sink
      mode read `data.arguments`, which `Data` does not have. */
  function EmbedPayloadAsWritten(k: Kind, cfg: Config.Settings, d: Record, clock: Clock): Result<Json, Error> {
    if !IsEndReport(k) then Failure(TypeError)
    else
      var command :- CommandName(d);
      if d.mode != Sink then Failure(AttributeError("arguments"))
      else Success(Embeds(EmbedDict(k, cfg, d, command, clock)))
  }

  /** As written, a periodic or forced embed update can never be sent. */
  lemma ProgressEmbedsRaise(k: Kind, cfg: Config.Settings, d: Record, clock: Clock)
    requires k == Period || k == Signal
    ensures EmbedPayloadAsWritten(k, cfg, d, clock) == Failure(TypeError)
    ensures d.mode == Sink ==> EmbedPayload(k, cfg, d, clock).Success?
  {
  }

  /** As written, an end report of a run outside sink mode raises AttributeError; in sink
      mode the written code and the corrected one agree. */
  lemma EndEmbedsOutsideSink(k: Kind, cfg: Config.Settings, d: Record, clock: Clock)
    requires IsEndReport(k)
    ensures d.mode != Sink && CommandName(d).Success? ==>
      EmbedPayloadAsWritten(k, cfg, d, clock) == Failure(AttributeError("arguments"))
    ensures d.mode == Sink ==> EmbedPayloadAsWritten(k, cfg, d, clock) == EmbedPayload(k, cfg, d, clock)
  {
  }

  /** A wrapped `ls -l` run: the written final embed raises, the corrected one lists the
      argument `-l`. */
  lemma WrappedRunCounterexample(cfg: Config.Settings, clock: Clock)
    ensures var d := Make(["ls", "-l"], 42, 0, 5, Wrapper, 0, 0, 0, "", "", "", Some(0), Host("u", "h", 7));
      EmbedPayloadAsWritten(Final, cfg, d, clock) == Failure(AttributeError("arguments")) &&
      EmbedPayload(Final, cfg, d, clock).Success? &&
      Description(Final, d) == ArgumentsBlock(["-l"])
  {
    var d := Make(["ls", "-l"], 42, 0, 5, Wrapper, 0, 0, 0, "", "", "", Some(0), Host("u", "h", 7));
    assert d.command == Some("ls") && d.arguments == Some(["-l"]);
    assert Sections(d) == "";
  }

  // ---- emitting and posting ----

  /** `Message.emit_*`: reads `data.command` and writes `content`. */
  function MessageEmit(k: Kind, d: Record, clock: Clock): (r: Result<Json, Error>)
    ensures r.Failure? <==> CommandName(d).Failure?
    ensures r.Success? ==> r.value == MessagePayload(k, d, CommandName(d).value, clock)
  {
    var command :- CommandName(d);
    Success(MessagePayload(k, d, command, clock))
  }

  /** `Payload.create(config, data).emit_*()`, before posting. */
  function Emit(k: Kind, cfg: Config.Settings, d: Record, clock: Clock): (r: Result<Json, Error>)
    ensures Create(cfg) == Message ==> r == MessageEmit(k, d, clock)
    ensures Create(cfg) == Embed ==> r == EmbedPayload(k, cfg, d, clock)
  {
    match Create(cfg)
    case Message => MessageEmit(k, d, clock)
    case Embed => EmbedPayload(k, cfg, d, clock)
  }

  /** Building a payload fails only on the command assertion, so never in sink mode; a
      plain message holds only `content`, an embed payload only `embeds`. */
  lemma EmitOutcome(k: Kind, cfg: Config.Settings, d: Record, clock: Clock)
    ensures Emit(k, cfg, d, clock).Failure? <==> CommandName(d).Failure?
    ensures Emit(k, cfg, d, clock).Failure? ==> Emit(k, cfg, d, clock).error == AssertionError
    ensures d.mode == Sink ==> Emit(k, cfg, d, clock).Success?
    ensures Emit(k, cfg, d, clock).Success? ==>
      Emit(k, cfg, d, clock).value.JObj? &&
      Emit(k, cfg, d, clock).value.obj.keys == if Set(cfg, "simple") then ["content"] else ["embeds"]
  {
  }

  /** What `post` does with a payload: print it in test mode, otherwise send it and
      report a status of 400 or more. */
  datatype Delivery = Printed | Accepted | Rejected(status: int)

  function Post(testing: bool, status: int): (r: Delivery)
    ensures r == Printed <==> testing
    ensures r.Rejected? <==> !testing && status >= 400
    ensures r.Rejected? ==> r.status == status
  {
    if testing then Printed
    else if status >= 400 then Rejected(status)
    else Accepted
  }
}

# discordify in Dafny

discordify runs a command, or reads piped standard input, and reports on it to
a Discord webhook. It sends a "period" report on a timer, a "signal" report on
SIGUSR1, and a "timeout", "interrupt" or "final" report when the run ends. This
project models the sequential logic around the process and HTTP plumbing, and
proves properties of that model:

- **`Capture`** (`capture.dfy`): the bounded capture deques of `command.py` and
  `__prep_buffer`, which keeps the first 50 characters of every line.
- **`Supervisor`** (`supervisor.dfy`): the `Command` class of `command.py` as a
  Dafny `class` with the same fields:
  - the three buffers and their line counters;
  - `terminate` and the start and end times;
  - the timers that exist and the pump threads that were started;
  - the child process, modelled as an optional pid and return code.

  Each method is one handler or pump invocation, called sequentially.
  Starting the child and the threads, `poll()` and `wait()` update the `child`
  and `threads` fields. The other effects outside the object are appended, in
  order, to an `events` log: writes, closing the child's stdin,
  `terminate`/`kill`, `close(0)`, timer arming and cancelling, joins, and
  reports. A ghost `seen` record keeps every line captured, so the invariant
  `Valid` can say that each deque holds the last `buffer_size` lines of its
  stream and each counter the number of lines.
- **`Data`** (`data.dfy`): the immutable `Data` record and its derived
  accessors.
- **`Modes`** (`mode.dfy`): the `Mode` enum.
- **`Payload`** (`payload.dfy`): `Payload.create` and the `Message` and
  `Embed` emitters. They build a JSON tree, `Json` with an insertion-ordered
  `Dict`, for each of the five report kinds. The file also models the status
  classification of `post`.
- **`Config`** (`config.py` → `config.dfy`):
  - `Option.contained`, `process` and `parse`;
  - the 24 option specifications and the getopt spec strings built from them;
  - the precedence loop of `Arguments.parse` (command line, then config file,
    then default, then missing if required);
  - the missing-option error, the help short-circuit and the gravatar
    fallback;
  - the rule that configuration attributes read `None` for absent keys.
- **`Numerals`** (`numerals.dfy`): decimal rendering of integers, and the
  decimal/`0x` subset of Python's `int(s, 0)`.
- **`Errors`** and **`Wrappers`**: Python exceptions as `Result` failures.

Stateful code of the source is modelled as methods with loops. Examples are the
pumps, `__stop_threads`, the merge loop of `Arguments.parse`, the description
built with `+=` and the fields appended by `append`. Each such method is proved
equal to a specification function, and the properties are proved about that
function.

The model follows the code where it differs from the documentation. Quirks are
reproduced as written:

- `__mode` is SINK and never reassigned.
- `poll()` used as a condition treats exit code 0 as "still running", so such a
  child is killed after being terminated.
- The `system_stats` option takes no argument but has the default string
  `'False'`. The default branch of the merge loop stores the default text as a
  command-line entry and calls `process`. For an option without an argument,
  `process` yields `True`. So `system_stats` is `True` unless the command line
  or the config file sets it (`Config.SystemStatsDefaultsToTrue`).

Three defects that make the source raise are listed under "## Findings". Each
one is modelled as written and corrected.

## Model

| member | source | states |
|---|---|---|
| Modes.Value | discordify/mode.py:4-9 | every mode has one of the enum values 1 to 5 |
| Modes.FromValue | discordify/mode.py:4-9 | a value names a mode exactly when it is between 1 and 5 |
| Modes.ValueRoundTrip | discordify/mode.py:4-9 | reading a mode's value back gives the same mode |
| Numerals.DigitChar | discordify/payload.py:176 | a digit character encodes its value |
| Numerals.Digits | discordify/payload.py:176 | decimal rendering is non-empty, all digits, and has a leading 0 only for zero |
| Numerals.IntToString | discordify/payload.py:176 | `str(n)` is digits, with a leading minus sign exactly for negative numbers |
| Numerals.DigitsValue | discordify/payload.py:176 | the decimal value of the digits of n is n |
| Numerals.DigitsParse | discordify/config.py:130-136 | parsing the digits of n gives back n |
| Numerals.IntToStringRoundTrip | discordify/config.py:130-136 | `int(str(n), 0) == n` for every integer |
| Numerals.DefaultColorValue | discordify/config.py:130-136 | the default color string `0x2176C7` parses to 0x2176C7 |
| Numerals.LeadingZeros | discordify/config.py:130-136 | `int('010', 0)` is rejected while `int('00', 0)` is 0 |
| Numerals.UnreadLiterals | discordify/config.py:130-136 | `0o17`, `0b101`, `1_000` and ` 5`, which Python reads as 15, 5, 1000 and 5, are not read by the parser |
| Numerals.ParseUnsigned | discordify/config.py:130-136 | no contract of its own: the unsigned part of `int(s, 0)`; Numerals.DigitsParse reads every decimal rendering back, and Numerals.LeadingZeros and Numerals.DefaultColorValue fix the leading-zero and `0x` cases |
| Numerals.ParseInt | discordify/config.py:77-81 | no contract of its own: `int(s, 0)` on decimal and `0x` literals with an optional sign; None for a malformed literal, and also for the `0o`/`0b` literals, `_` separators and surrounding whitespace Python accepts; read back by Numerals.IntToStringRoundTrip and Numerals.LeadingZeros, and used by Config.ParseValue |
| Data.Make | discordify/data.py:12-27 | the constructor stores `arguments[0]` as the command exactly when there are arguments, and `arguments[1:]` exactly when there are at least two; the command followed by the arguments gives back the list; every other field is stored unchanged |
| Data.ReturnCode | discordify/data.py:61-63 | `'<unavailable>'` exactly when the stored code is None, the stored code otherwise; tied to `success` by Data.SuccessIsZeroCode |
| Data.Succeeded | discordify/data.py:77-79 | success exactly when the stored code is 0; a None code is never success; the report icons it selects are stated by Payload.IconsTellOutcome |
| Data.Pid | discordify/data.py:81-83 | the stored pid when non-zero, otherwise the process-group id; the title reads it back by Payload.TitleReadsBack |
| Data.Runtime | discordify/data.py:65-67 | start time plus runtime is the end time; shown in the Run time field by Payload.FieldValues |
| Data.CommandName | discordify/data.py:89-95 | the first argument when it is truthy; otherwise the SINK placeholder, and an AssertionError exactly when the mode is not SINK |
| Data.SuccessIsZeroCode | discordify/data.py:61-63 | success holds exactly when the shown return code is the number 0 |
| Data.CommandOfArguments | discordify/data.py:12-14 | the command of a record built from an argument list, for every list and mode |
| Capture.AppendShape | discordify/command.py:29-31 | appending to a full deque evicts the oldest line: the deque has min(n+1, maxlen) lines, the new one last |
| Capture.Append | discordify/command.py:73 | no contract of its own: `deque.append` for one line (also command.py:87 and :94); Capture.AppendShape states the eviction and Capture.AppendTracksLast ties it to LastN |
| Capture.LastN | discordify/command.py:29-31 | the last min(n, maxlen) lines of a history |
| Capture.LastNIsSuffix | discordify/command.py:29-31 | what a deque keeps is a suffix of the history |
| Capture.AppendTracksLast | discordify/command.py:73 | one append to the last lines of a history gives the last lines of the extended history |
| Capture.Tracks | discordify/command.py:29-34 | a deque that tracks a history never exceeds maxlen |
| Capture.TracksAppend | discordify/command.py:73-74 | appending a line and incrementing the counter keeps the deque and the counter tracking the history |
| Capture.AppendAllKeepsLast | discordify/command.py:70-78 | after any sequence of appends the deque holds exactly the last lines, in arrival order |
| Capture.FreshBufferKeepsLast | discordify/command.py:29-31 | a fresh deque that receives n lines holds the last min(n, maxlen) of them |
| Capture.AppendAll | discordify/command.py:70-78 | no contract of its own: the appends of one pump in arrival order; Capture.AppendAllKeepsLast and Capture.FreshBufferKeepsLast prove it keeps exactly the last `maxlen` lines |
| Capture.Truncate | discordify/command.py:114-115 | `x[:50]` is the prefix of length min(len(x), 50) |
| Capture.Render | discordify/command.py:114-115 | the rendered buffer is at most 50 characters times the number of lines, and an empty buffer renders as ""; what each line contributes is stated by Capture.RenderConcat and Capture.RenderOne |
| Capture.RenderConcat | discordify/command.py:114-115 | rendering is the concatenation, in buffer order, of each line rendered alone |
| Capture.RenderOne | discordify/command.py:114-115 | one line renders as its first 50 characters |
| Capture.RenderShortLines | discordify/command.py:114-115 | when no line exceeds 50 characters, rendering is plain joining |
| Supervisor.FirstTruthy | discordify/command.py:70-72 | the index where the stdin loop breaks is within the input |
| Supervisor.FirstTruthyBreaks | discordify/command.py:70-72 | the loop breaks at the first truthy `poll()` and at no earlier line |
| Supervisor.FirstTruthyAt | discordify/command.py:70-72 | before the break, a line's poll is truthy exactly at the break index |
| Supervisor.WritesInOrder | discordify/command.py:75-78 | forwarding lines writes each of them, in order |
| Supervisor.WritesSnoc | discordify/command.py:75-78 | forwarding one more line adds exactly one write at the end |
| Supervisor.TakeOneMore | discordify/command.py:70-78 | taking one more line of the input extends the captured lines and their writes by exactly that line |
| Supervisor.CancelsExisting | discordify/command.py:99-103 | a timer is cancelled exactly when it exists, and only cancels are produced |
| Supervisor.JoinsExisting | discordify/command.py:104-108 | a thread is joined exactly when it exists, and only joins are produced |
| Supervisor.Command.New | discordify/command.py:29-31 | `Command(config, args)` raises ValueError exactly when `buffer_size` is negative; otherwise a fresh supervisor with empty deques of that `maxlen`, no child and zero counters |
| Supervisor.Command.constructor | discordify/command.py:19-38 | empty deques with maxlen `buffer_size`, zero counters, no child, no timers, no threads, `terminate` false, mode SINK |
| Supervisor.Command.Run | discordify/command.py:40-65 | sets the start time; with arguments starts the child and all three pumps, otherwise only the stdin pump when stdin is not a tty; arms the period and timeout timers exactly when configured (the period read from `periodic`) |
| Supervisor.Command.Take | discordify/command.py:73-74 | capturing a line on a stream appends it to that stream's history and adds exactly one to its counter, keeping `Valid` |
| Supervisor.Command.Forward | discordify/command.py:73-78 | a stdin line is captured, counted and written to the child's stdin in wrapper mode or to stdout otherwise |
| Supervisor.Command.Poll | discordify/command.py:71 | `poll()` updates only the child's return code |
| Supervisor.Command.StdinLine | discordify/command.py:71-78 | with a child, a truthy `poll()` breaks the loop and records nothing; otherwise the line is captured, counted once and forwarded to the child or to stdout |
| Supervisor.Command.ReadStdin | discordify/command.py:70-78 | the loop takes lines up to the first truthy poll, takes none once `terminate` is set, and captures, counts and forwards exactly those; in wrapper mode the child's return code is the last `poll()` result, at the break or at the last line |
| Supervisor.Command.PumpStdin | discordify/command.py:67-82 | a tty records nothing; otherwise the loop's lines are captured and forwarded, the child keeps the last `poll()` result, and in wrapper mode the child's stdin is closed after the loop |
| Supervisor.Command.PumpStdout | discordify/command.py:84-89 | every child stdout line is written out, appended to its deque and counted; the deque holds the last `buffer_size` lines |
| Supervisor.Command.PumpStderr | discordify/command.py:91-96 | every child stderr line is written out, appended to its deque and counted; the deque holds the last `buffer_size` lines |
| Supervisor.Command.StopThreads | discordify/command.py:98-108 | cancels the existing timers, then joins the existing threads |
| Supervisor.Command.Terminate | discordify/command.py:180-183 | an AssertionError without a child; otherwise terminates it, then stops timers and threads |
| Supervisor.Command.Kill | discordify/command.py:175-178 | an AssertionError without a child; otherwise kills it, then stops timers and threads |
| Supervisor.Command.Shutdown | discordify/command.py:185-193 | sets `terminate` and the end time, terminates the child and also kills it when `poll()` is falsy, then closes stdin |
| Supervisor.Command.Snapshot | discordify/command.py:133-146 | mode SINK; pid and return code from the child with arguments, otherwise the process-group id and 0; counters and rendered last lines of each stream |
| Supervisor.Command.Wait | discordify/command.py:117-131 | waits for the child or joins the stdin pump (an AttributeError when there is none), sets `terminate` and the end time, stops timers and threads, and only then reports the final snapshot |
| Supervisor.Command.HandlePeriod | discordify/command.py:148-157 | cancels an existing period timer, reports, and re-arms the timer exactly when `terminate` is false |
| Supervisor.Command.HandleSignal | discordify/command.py:159-161 | reports a signal snapshot and changes nothing else |
| Supervisor.Command.HandleTimeout | discordify/command.py:163-168 | an AssertionError without a timeout timer; otherwise shuts down before reporting the timeout snapshot |
| Supervisor.Command.HandleInterrupt | discordify/command.py:170-173 | shuts down, then reports the interrupt snapshot; an interrupt that arrives before the child exists (inside `run`, discordify/__main__.py:14-17) shuts down and then fails with the AttributeError of `data` on `None.pid` (command.py:135), sending nothing |
| Supervisor.StopsWhatRuns | discordify/command.py:98-108 | the stop calls cancel exactly the existing timers and join exactly the started threads, all cancels before all joins |
| Supervisor.ReportsRender | discordify/command.py:129-146 | with the corrected embeds, every report of a supervisor snapshot renders without error, because the snapshot's mode is SINK |
| Supervisor.ReportShowsLatestLines | discordify/command.py:114-115 | with lines of at most 50 characters, the reported stdout buffer is the last `buffer_size` lines joined |
| Config.Lookup | discordify/config.py:298-300 | a configuration attribute is None exactly when the key is absent, and the stored value otherwise; what a parse stores is stated by Config.ParseSettings |
| Config.Attribute | discordify/config.py:298-300 | for the names the code reads, only option names are attributes; a name that is neither an option nor a `Config` member (`config`, `load`, `InvalidConfiguration`) is an AttributeError; applied to `period` by Config.PeriodIsNotAnOption |
| Config.Contained | discordify/config.py:83-84 | contained exactly when `-short` (if set) or `--long` is a key; its use for help is stated by Config.HelpFirst |
| Config.ParseValue | discordify/config.py:77-81 | the identity without a parse function; `int(s, 0)` yields an integer exactly for a parsable string; failures are ValueError or TypeError |
| Config.Process | discordify/config.py:61-75 | True for an option without argument; otherwise the short form's value when present, else the long form's, then parsed; its place in the precedence is stated by Config.MergeResolves |
| Config.LongSpec | discordify/config.py:266 | one entry per option, the long name with `=` exactly when it takes an argument |
| Config.SingleLetterTail | discordify/config.py:264-265 | single-letter short names hold for every suffix of the option list |
| Config.ReadWithArg | discordify/config.py:264 | reading the argument-taking short spec gives each such option's letter marked as taking an argument |
| Config.ReadNoArg | discordify/config.py:265 | reading the no-argument short spec gives each such option's letter marked as taking none |
| Config.ShortSpecRoundTrip | discordify/config.py:264-267 | the getopt short string reads back as exactly the options' letters with their `:` markers |
| Config.LongSpecRoundTrip | discordify/config.py:266 | every long spec entry reads back as the option name and whether it takes an argument |
| Config.WithGravatar | discordify/config.py:293-294 | `user_icon` becomes the gravatar of `user_email` exactly when the email is set and the icon is not; otherwise nothing changes; Config.GravatarFrame states that no other key changes |
| Config.Merge | discordify/config.py:276-287 | the merge loop equals the precedence specification over all options |
| Config.Step | discordify/config.py:277-287 | no contract of its own: one iteration of the precedence loop; Config.StepResolves states that it stores the option's resolution, records a missing option or fails, and touches no other key |
| Config.MergeAll | discordify/config.py:276-287 | no contract of its own: the loop stopping at the first exception; Config.MergeResolves ties it to each option's Resolve, and Config.Merge is proved equal to it |
| Config.ParseSpec | discordify/config.py:263-294 | no contract of its own: help, merge, missing check and gravatar; Config.HelpFirst, Config.ParseFailures, Config.ParseUnfold and Config.ParseSettings state its outcomes, and Config.Parse is proved equal to it |
| Config.Parse | discordify/config.py:263-296 | `Arguments.parse` after getopt equals its specification: help first, merge, missing check, gravatar |
| Config.Resolutions | discordify/config.py:276-287 | each option's resolution against the initial command line and config file |
| Config.SeparatedTail | discordify/config.py:276-287 | distinct option names hold for the rest of the list |
| Config.ResolveLocal | discordify/config.py:276-287 | an option's resolution depends only on its own keys |
| Config.StepResolves | discordify/config.py:276-287 | one loop iteration stores the resolved value, records a missing required option, or raises its failure, and changes no other command-line key |
| Config.TailResolves | discordify/config.py:276-287 | after one iteration the remaining options resolve as they did against the initial state |
| Config.FirstFailureLifts | discordify/config.py:276-287 | the first failing resolution of the tail is the first of the whole list |
| Config.AgreementLifts | discordify/config.py:276-287 | agreement of the merged settings with every resolution extends from the tail to the whole list |
| Config.FailuresCons | discordify/config.py:276-287 | the merge fails exactly with the first failing resolution, extended by one iteration |
| Config.FirstFailureCons | discordify/config.py:276-287 | a failure of the remaining loop is the first failing resolution of the whole list |
| Config.MissingCons | discordify/config.py:276-287 | the missing list is the required options that resolved to nothing, in order, extended by one iteration |
| Config.EntriesCons | discordify/config.py:276-287 | the merged settings agree with every resolution and keep other keys, extended by one iteration |
| Config.MergeResolves | discordify/config.py:276-287 | the merge fails with the first failing resolution; otherwise the missing list is the unresolved required options and each setting is the command-line, config-file or default value by precedence |
| Config.OptionsSingleLetterShorts | discordify/config.py:95-256 | every short option name is one letter other than `:` |
| Config.OptionsLongNames | discordify/config.py:95-256 | every long option name is at least two characters and does not end in `=` |
| Config.OptionsDistinctNames | discordify/config.py:95-256 | the 24 long option names are distinct |
| Config.FirstNamesDistinct | discordify/config.py:95-256 | the first six long names differ from every later one |
| Config.MiddleNamesDistinct | discordify/config.py:95-256 | the middle long names differ from every later one |
| Config.LastNamesDistinct | discordify/config.py:171-256 | the last long names differ from each other |
| Config.OptionsSeparated | discordify/config.py:95-256 | the option keys of different options never collide |
| Config.LongKeyInjective | discordify/config.py:270-287 | helper: different long names give different `--name` keys in `dopts` |
| Config.ShortKeysAreNotLongKeys | discordify/config.py:95-256 | no `-x` key equals any `--name` key |
| Config.RequiredHaveDefaults | discordify/config.py:102-150 | every required option except `webhook` has a default |
| Config.NoneMissing | discordify/config.py:289-291 | without an unresolved required option nothing is missing |
| Config.AtMostOneMissing | discordify/config.py:289-291 | when only one option can be missing, the missing list names at most that one |
| Config.OnlyWebhookCanBeMissing | discordify/config.py:102-150 | the missing list is `['webhook']` or empty |
| Config.ResolveErrors | discordify/config.py:61-81 | a resolution fails only with a ValueError or TypeError |
| Config.MergeErrors | discordify/config.py:276-287 | the merge loop fails only with a ValueError or TypeError |
| Config.HelpFirst | discordify/config.py:269-272 | parsing raises HelpRequest exactly when the help option is given |
| Config.MergeOutcome | discordify/config.py:276-291 | when at most one required option lacks a default, the merge succeeds exactly when no resolution fails, and its missing list and settings follow the resolutions |
| Config.ParseFailures | discordify/config.py:263-296 | without help, parsing succeeds exactly when no option fails and `webhook` resolves; a missing `webhook` raises naming it; otherwise the first failing option's error |
| Config.GravatarFrame | discordify/config.py:293-294 | the gravatar fallback changes only `user_icon` |
| Config.ParseUnfold | discordify/config.py:263-296 | a successful parse is the merged settings with the gravatar fallback |
| Config.ParseSettings | discordify/config.py:263-296 | in a successful parse every option except `user_icon` has its precedence value |
| Config.AgreesFrame | discordify/config.py:276-287 | agreement with a resolution depends only on the option's own key |
| Config.UserIconIsOption | discordify/config.py:151-156 | `user_icon` is an option name |
| Config.ParseKeepsOtherEntries | discordify/config.py:263-296 | config-file keys that are not options pass through unchanged |
| Config.DefaultedResolves | discordify/config.py:276-287 | an option with a default always resolves to a value |
| Config.IntOptionResolvesToInt | discordify/config.py:77-81 | an option parsed with `int(s, 0)` resolves to an integer when it succeeds |
| Config.IntegerOptions | discordify/config.py:129-255 | `color`, `periodic`, `timeout` and `buffer_size` are parsed as integers, and `color` and `buffer_size` have defaults |
| Config.ParsedIntegers | discordify/config.py:263-296 | after parsing, `color` and `buffer_size` are integers and `periodic` and `timeout` are integers when present |
| Config.SystemStatsOption | discordify/config.py:235-240 | `system_stats` is a long-only option without argument, parse function or short form, with a default |
| Config.NoArgDefaultIsTrue | discordify/config.py:283-285 | an absent long-only option without argument that has a default resolves to True, whatever the default's text |
| Config.SystemStatsDefaultsToTrue | discordify/config.py:235-240 | without `--system_stats` and without a config entry, a successful parse sets `system_stats` to True although its default is `'False'` |
| Config.PeriodIsNotAnOption | discordify/command.py:59 | reading `period` is an AttributeError, while `periodic` reads the stored setting |
| Payload.Get | discordify/payload.py:146-168 | a key reads back exactly when it was written to an object |
| Payload.Put | discordify/payload.py:146-168 | no contract of its own: `d[key] = v` with an existing key keeping its place; Payload.PutReadsBack states it |
| Payload.PutIn | discordify/payload.py:146-168 | no contract of its own: `d[outer][key] = v` on a `defaultdict(dict)`; Payload.PutInReadsBack states it |
| Payload.PutReadsBack | discordify/payload.py:146-168 | after `d[key] = v` the key reads `v`, every other key reads as before, and only a new key is added, last |
| Payload.PutInReadsBack | discordify/payload.py:146-168 | after `d[outer][key] = v` the inner dict holds `v` and keeps its other entries; a missing inner dict starts empty with only that key |
| Payload.Setting | discordify/payload.py:146-168 | a configuration value read into the payload is null exactly when absent |
| Payload.Create | discordify/payload.py:21-26 | a Message exactly when `simple` is truthy, otherwise an Embed; the payload keys it leads to are stated by Payload.EmitOutcome |
| Payload.EmoticonDecodes | discordify/payload.py:90-138 | the leading emoticon determines the kind, and for final whether the run succeeded |
| Payload.Sentence | discordify/payload.py:90-138 | no contract of its own: the text after the emoticon of each `Message.emit_*`; Payload.EmoticonDecodes shows it cannot be mistaken for another kind's emoticon |
| Payload.MessageText | discordify/payload.py:90-138 | no contract of its own: the emoticon, a space and the sentence; Payload.MessageShowsKind reads the kind back from it |
| Payload.MessageShowsKind | discordify/payload.py:90-138 | every message's content reads back its kind and, for final, its success |
| Payload.MessagePayload | discordify/payload.py:90-138 | a message payload has exactly the key `content`, holding the kind's text |
| Payload.Author | discordify/payload.py:151-153 | the author has the keys `name`, `icon_url` and `url`, in that order, with the given values |
| Payload.WithAuthor | discordify/payload.py:151-153 | the author key is added last and nothing else changes |
| Payload.Configured | discordify/payload.py:155-164 | an optional value is present exactly when its setting is truthy |
| Payload.WithLinks | discordify/payload.py:155-159 | `url` and `image.url` appear exactly when configured, and no other key changes |
| Payload.Footer | discordify/payload.py:161-164 | `footer.text` and `footer.icon_url` appear exactly when configured |
| Payload.WithFooter | discordify/payload.py:161-164 | the footer key appears exactly when text or icon is configured |
| Payload.Prepare | discordify/payload.py:146-168 | the defaults use only the keys color, author, url, image, footer and timestamp |
| Payload.PrepareHolds | discordify/payload.py:146-168 | the defaults always hold the color, the author and the timestamp |
| Payload.AuthorStage | discordify/payload.py:149-153 | after color and author the keys are exactly those two, in order |
| Payload.LinksStage | discordify/payload.py:155-159 | before the links neither link key is present, and after them neither footer nor timestamp |
| Payload.PrepareKeys | discordify/payload.py:146-168 | the defaults' key order is color, author, the configured url, image and footer, then timestamp |
| Payload.Defaults | discordify/payload.py:146-168 | `__prepare_defaults` uses only the six default keys |
| Payload.DefaultsHold | discordify/payload.py:146-168 | the defaults always set color, author name, icon and url, and the timestamp |
| Payload.DefaultsKeys | discordify/payload.py:146-168 | `url`, `image` and `footer` appear in order exactly when configured |
| Payload.PrepareOptional | discordify/payload.py:155-164 | each optional default key appears exactly when its value is given, holding that value |
| Payload.DefaultsOptional | discordify/payload.py:155-164 | `url`, `image.url`, `footer.text` and `footer.icon_url` appear exactly when the setting is truthy |
| Payload.ArgumentLinesSnoc | discordify/payload.py:253-257 | the loop's `+=` of one more argument appends exactly its `[arg]` line |
| Payload.IndexOf | discordify/payload.py:253-257 | the first position of a character, or the length |
| Payload.BracketShape | discordify/payload.py:256 | an argument line is `[`, the argument, `]` and a newline |
| Payload.FirstLine | discordify/payload.py:253-257 | the first newline of the block ends the first argument line |
| Payload.ReadFirstLine | discordify/payload.py:253-257 | the block reads back one argument at a time |
| Payload.ArgumentLinesRoundTrip | discordify/payload.py:253-257 | the Arguments lines read back as exactly the arguments, in order |
| Payload.NonEmpty | discordify/payload.py:179-186 | the streams kept are exactly those with a non-empty buffer |
| Payload.ShownOne | discordify/payload.py:179-186 | helper: one stream shows as its section |
| Payload.ShownConcat | discordify/payload.py:179-186 | sections of consecutive streams concatenate |
| Payload.ShownNonEmpty | discordify/payload.py:179-186 | the sections shown are those of the non-empty buffers |
| Payload.SectionsInOrder | discordify/payload.py:259-265 | STDIN, STDOUT and STDERR sections appear only for non-empty buffers, always in that order |
| Payload.BuildDescription | discordify/payload.py:179-186 | the `+=` accumulation of the description equals the Arguments block (outside SINK, for end reports) followed by the non-empty sections |
| Payload.Description | discordify/payload.py:251-265 | no contract of its own: the corrected argument block, for end reports outside SINK, then the sections (also payload.py:179-186); Payload.BuildDescription, Payload.SectionsInOrder and Payload.ArgumentLinesRoundTrip state what it holds |
| Payload.Field | discordify/payload.py:191-199 | a field has the keys `name`, `value` and `inline`, and `inline` is true |
| Payload.LineCountRoundTrip | discordify/payload.py:196-198 | `'<n> lines'` reads back as n |
| Payload.ReturnCodeValue | discordify/payload.py:270-272 | the Return Code field shows `'<unavailable>'` exactly when the code is None |
| Payload.FieldsOf | discordify/payload.py:191-199 | one field per entry, in order |
| Payload.Entries | discordify/payload.py:268-281 | no contract of its own: the names and values `append` receives (also payload.py:189-199); Payload.FieldOrder and Payload.FieldValues state them |
| Payload.Fields | discordify/payload.py:268-281 | no contract of its own: `embed["fields"]`, one field per entry of Payload.Entries; Payload.FieldsInline and Payload.CountsReadBack state its contents, and Payload.AppendFields is proved equal to it |
| Payload.FieldsOfConcat | discordify/payload.py:191-199 | fields of concatenated entries concatenate |
| Payload.FieldsOfOne | discordify/payload.py:191-199 | helper: one entry makes one field |
| Payload.FieldsOfSnoc | discordify/payload.py:191-192 | helper: one more entry adds exactly its field at the end |
| Payload.Names | discordify/payload.py:191-199 | the entry names, in order |
| Payload.FieldOrder | discordify/payload.py:191-199 | end reports have Return Code, Run time, Start time, End time, STDIN, STDOUT and STDERR; period and signal have Run time, Start time, STDIN, STDOUT and STDERR |
| Payload.FieldValues | discordify/payload.py:268-281 | each field holds its run time, times, return code and line counts |
| Payload.FieldsInline | discordify/payload.py:268-281 | every field is inline and has its entry's name and value |
| Payload.FieldsOfShape | discordify/payload.py:191-199 | every built field is inline with its entry's name and value |
| Payload.CountsReadBack | discordify/payload.py:268-281 | the three line-count fields read back as the record's counters |
| Payload.TitleReadsBack | discordify/payload.py:176 | the title reads back as the pid (for period and signal) and the command |
| Payload.Title | discordify/payload.py:176-340 | no contract of its own: the corrected title of each embed, with the pid in decimal for period and signal; Payload.TitleReadsBack reads the pid and the command back |
| Payload.IconIsOption | discordify/payload.py:174 | every thumbnail icon is an option name |
| Payload.IconsTellOutcome | discordify/payload.py:246 | final uses `icon_success` exactly on success; interrupt and timeout share `icon_timeout`; other kinds ignore success |
| Payload.FreshKeys | discordify/payload.py:174-202 | the defaults contain none of thumbnail, title, description and fields |
| Payload.Complete | discordify/payload.py:174-202 | thumbnail, title, description and fields follow the defaults in order, and every default is kept |
| Payload.EmbedDict | discordify/payload.py:170-204 | an embed is the defaults plus the kind's icon, title, description and fields |
| Payload.Embeds | discordify/payload.py:201-202 | `payload["embeds"]` is a one-element list holding the embed |
| Payload.EmbedPayload | discordify/payload.py:242-286 | an embed report fails exactly when reading the command fails, with an AssertionError; otherwise it is the embed list |
| Payload.AppendFields | discordify/payload.py:189-199 | appending through `append` builds exactly the kind's field list |
| Payload.AppendField | discordify/payload.py:191-192 | one `append(name, value)` adds the field of that entry at the end: the list stays the fields of the entries appended so far |
| Payload.EmitEmbed | discordify/payload.py:170-378 | the imperative `emit_*` equals the embed report |
| Payload.ProgressEmbedsRaise | discordify/payload.py:176 | as written, period and signal embeds always raise TypeError; corrected, they succeed in SINK mode |
| Payload.EmbedPayloadAsWritten | discordify/payload.py:170-378 | no contract of its own: `Embed.emit_*` as written; Payload.ProgressEmbedsRaise, Payload.EndEmbedsOutsideSink and Payload.WrappedRunCounterexample state how it fails, and that it agrees with the corrected embed for end reports in SINK mode |
| Payload.EndEmbedsOutsideSink | discordify/payload.py:253-257 | as written, end embeds raise AttributeError outside SINK and equal the corrected ones in SINK mode |
| Payload.WrappedRunCounterexample | discordify/payload.py:255 | `ls -l` in wrapper mode: as written an AttributeError, corrected an Arguments block `[-l]` |
| Payload.MessageEmit | discordify/payload.py:90-138 | a message report fails exactly when reading the command fails |
| Payload.Emit | discordify/payload.py:21-26 | the report is the message or the embed report, as `create` chooses |
| Payload.EmitOutcome | discordify/payload.py:21-138 | a report fails only by AssertionError on the command, never in SINK mode, and otherwise has the key `content` or `embeds` |
| Payload.Post | discordify/payload.py:67-82 | under TEST_MODE the payload is printed; otherwise delivery fails exactly when the status is at least 400 |

## Left out

- Threads, timers and signal handlers: each handler and pump is a sequential method call, so interleavings are not modelled and `terminate` is fixed during one call of the stdin pump.
- Subprocess management: `Popen`, `poll` and `wait` update the `child` field, thread starts update the `threads` field, and `terminate`, `kill`, closing the child's stdin and `close(0)` are events in a log. The child is an optional pid and return code, and poll results and exit codes are arguments.
- The `wait(timeout)` argument and `BrokenPipeError` handling are not modelled.
- The SIGPIPE handler registration is not modelled.
- CPU and memory sampling (`__monitor`, `cpu_usage`, the psutil helpers) is not modelled.
- HTTP delivery and `json.dumps`: only the status ≥ 400 classification of `post` is modelled, and TEST_MODE is a parameter.
- Wall-clock and formatting calls: `time.time()`, `strftime`, `timedelta` and `utcfromtimestamp` are the fields of a `Clock` parameter and opaque numbers. The runtime is end time minus start time.
- `getuser`, `gethostname` and `getpgid` are the `Host` parameter.
- `compute_gravatar_url` is a function parameter. `bytes_conversion` in discordify/utils.py is not part of this model.
- The getopt library call is not modelled: the command line arrives as its parsed dictionary.
- Reading the configuration file is not modelled: `Config.load` is reduced to its dictionary, whose values are strings, integers and booleans. JSON null, floats, lists and objects are not represented. The source passes them through `str` before `parse`, so a float such as `1.5` for an integer option would fail `int('1.5', 0)` with ValueError.
- Numerals.ParseInt: `int(s, 0)` is modelled for decimal and `0x` literals only. The `0o` and `0b` literals, `_` digit separators and surrounding whitespace, which Python accepts, come out as None (Numerals.UnreadLiterals), so Config.ParseValue and Config.ParseFailures report a ValueError for such an option value (for example `--timeout=0o60`) where the program accepts it.
- `Option.__str__`, `Arguments.__str__`, `usage` and the help text are not modelled.
- The `description` and `example` keywords of the options are not modelled.
- Supervisor.Command.ReadStdin: `terminate` cannot change during the call, because no other handler runs concurrently in this model.
- Supervisor.Command.constructor: takes `buffer_size` as a natural number. The ValueError that `deque(maxlen=...)` raises for a negative `buffer_size`, which `int(s, 0)` accepts, is modelled by Supervisor.Command.New instead.
- Supervisor.Command.PumpStdout and Supervisor.Command.PumpStderr: the child's lines arrive already decoded. A line that is not valid UTF-8 makes `str(line, 'utf-8')` raise UnicodeDecodeError before it is captured or counted, which ends the pump thread; this is not modelled. The same holds for the text decoding of stdin in Supervisor.Command.PumpStdin.
- Payload.Description (corrected): a None argument list is treated as an empty one.
- Payload.Prepare and Payload.Defaults: the contracts on the functions only bound the key set; their full contents are stated by PrepareHolds, PrepareKeys, PrepareOptional, DefaultsHold, DefaultsKeys and DefaultsOptional.
- discordify/discordifyp.py, discordify/__main__.py and setup.py are not part of this model.

## Findings

| source | as written | input that shows it | evidently intended | confidence | as-written member | corrected member |
|---|---|---|---|---|---|---|
| discordify/command.py:59 | `run` and `__handle_period` read `config.period`, but only option names become configuration attributes and the option is `periodic` | any run, since the attribute is read unconditionally | read `config.periodic` | not executed | Config.PeriodIsNotAnOption | Supervisor.Command.Run |
| discordify/payload.py:176 | the period and signal embed titles add the integer pid to a string; line 212 does the same | any period or signal report with `simple` unset | render the pid with `str` | not executed | Payload.EmbedPayloadAsWritten, Payload.ProgressEmbedsRaise | Payload.TitleReadsBack |
| discordify/payload.py:255 | the end embeds iterate `data.arguments`, but `Data` exposes `argument`; lines 301 and 347 do the same | latent: `Command` always records SINK (discordify/command.py:38), so only a `Data` built with another mode reaches it, for example the final report of a record for `ls -l` in WRAPPER mode | iterate `data.argument`, treating None as no arguments | not executed | Payload.EmbedPayloadAsWritten, Payload.WrappedRunCounterexample | Payload.ArgumentLinesRoundTrip |


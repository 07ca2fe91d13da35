/**
 * discordify/command.py: the supervisor of one run. It owns the three capture
 * buffers and their line counters, the `terminate` flag, the end time, the
 * timers and the pump threads, and hands snapshots of this state to the
 * payload. Threads, timers and signals are sequential method calls here; the
 * child process is an optional pid and return code, and what the operating
 * system reports (poll results, exit codes, clock readings, the lines read)
 * arrives as arguments. Everything the supervisor does to the outside world is
 * appended to `events`.
 */
module Supervisor {

  import opened Wrappers
  import opened Errors
  import opened Modes
  import opened Data
  import Config
  import Capture
  import Payload

  /** The message of the ValueError `deque(maxlen=n)` raises for a negative n. */
  const NegativeMaxlen := "maxlen must be non-negative"

  /** The child started by `subprocess.Popen`: its pid and its `returncode`. */
  datatype Child = Child(pid: int, returncode: Option<int>)

  datatype Timer = PeriodTimer | TimeoutTimer

  /** One value per stream, for the buffers, the counters and the pump threads. */
  datatype Streams<T> = Streams(stdin: T, stdout: T, stderr: T) {
    function At(s: Payload.Stream): T {
      match s
      case Stdin => stdin
      case Stdout => stdout
      case Stderr => stderr
    }

    function With(s: Payload.Stream, v: T): Streams<T> {
      match s
      case Stdin => this.(stdin := v)
      case Stdout => this.(stdout := v)
      case Stderr => this.(stderr := v)
    }
  }

  /** Where a line is written: the child's stdin, or the supervisor's own stdout or stderr. */
  datatype Output = ChildStdin | OwnStdout | OwnStderr

  /** What the supervisor does outside its own fields, in order. */
  datatype Event =
    | Write(to: Output, line: string)             // `.write(line)`
    | CloseChildStdin                             // `process.stdin.close()`
    | Arm(timer: Timer, interval: Option<Config.Value>) // `threading.Timer(interval, ...).start()`
    | Cancel(timer: Timer)                        // `timer.cancel()`
    | Join(thread: Payload.Stream)                // `thread.join(10)` or `thread.join()`
    | TerminateChild                              // `process.terminate()`
    | KillChild                                   // `process.kill()`
    | CloseStdin                                  // `close(0)`
    | Report(kind: Payload.Kind, data: Record)    // `Payload.create(config, data).emit_<kind>()`

  /** `poll()` used as a condition: true only for a child that exited with a non-zero
      code, so an exit code of 0 reads like a running child. */
  predicate PollTruthy(code: Option<int>) {
    code.Some? && code.value != 0
  }

  /** The index of the first truthy `poll()` result, or the length when there is none. */
  function FirstTruthy(polls: seq<Option<int>>): (n: nat)
    ensures n <= |polls|
    decreases |polls|
  {
    if polls == [] then 0
    else if PollTruthy(polls[0]) then 0
    else 1 + FirstTruthy(polls[1..])
  }

  /** Every poll before the first truthy one is falsy, and the one there is truthy. */
  lemma {:induction false} FirstTruthyBreaks(polls: seq<Option<int>>)
    ensures FirstTruthy(polls) <= |polls|
    ensures forall i :: 0 <= i < FirstTruthy(polls) ==> !PollTruthy(polls[i])
    ensures FirstTruthy(polls) < |polls| ==> PollTruthy(polls[FirstTruthy(polls)])
    decreases |polls|
  {
    if polls != [] && !PollTruthy(polls[0]) {
      FirstTruthyBreaks(polls[1..]);
      forall i | 0 <= i < FirstTruthy(polls)
        ensures !PollTruthy(polls[i])
      {
        if i > 0 {
          assert polls[i] == polls[1..][i - 1];
        }
      }
    }
  }

  /** Before the first truthy poll, a poll is truthy exactly where it is the first. */
  lemma {:induction false} FirstTruthyAt(polls: seq<Option<int>>, i: nat)
    requires i < |polls| && i <= FirstTruthy(polls)
    ensures PollTruthy(polls[i]) <==> i == FirstTruthy(polls)
    decreases i
  {
    if i > 0 {
      assert !PollTruthy(polls[0]);
      FirstTruthyAt(polls[1..], i - 1);
    }
  }

  /** How many lines the stdin loop takes before it breaks: none once `terminate` is
      set, all of them without a child, and otherwise the lines before the first
      truthy `poll()`. */
  function StdinTaken(terminate: bool, wrapped: bool, polls: seq<Option<int>>): nat {
    if terminate then 0 else if wrapped then FirstTruthy(polls) else |polls|
  }

  /** The writes of `lines`, one after the other, to `to`. */
  function Writes(to: Output, lines: seq<string>): seq<Event>
    decreases |lines|
  {
    if lines == [] then []
    else Writes(to, lines[..|lines| - 1]) + [Write(to, lines[|lines| - 1])]
  }

  /** Each line is written once, in order, and nothing else is written. */
  lemma {:induction false} WritesInOrder(to: Output, lines: seq<string>)
    ensures |Writes(to, lines)| == |lines|
    ensures forall i :: 0 <= i < |lines| ==> Writes(to, lines)[i] == Write(to, lines[i])
    decreases |lines|
  {
    if lines != [] {
      WritesInOrder(to, lines[..|lines| - 1]);
    }
  }


  /** Writing one more line extends the writes by that line's write. */
  lemma WritesSnoc(to: Output, lines: seq<string>, line: string)
    ensures Writes(to, lines + [line]) == Writes(to, lines) + [Write(to, line)]
  {
    assert (lines + [line])[..|lines|] == lines;
  }

  /** Taking line `i` of `input` extends both the captured lines and their writes by it. */
  lemma TakeOneMore(before: seq<string>, input: seq<string>, i: nat, to: Output)
    requires i < |input|
    ensures before + input[..i + 1] == before + input[..i] + [input[i]]
    ensures Writes(to, input[..i + 1]) == Writes(to, input[..i]) + [Write(to, input[i])]
  {
    assert input[..i + 1] == input[..i] + [input[i]];
    WritesSnoc(to, input[..i], input[i]);
  }

  /** The cancel calls of the first loop of `__stop_threads`, for the timers that exist. */
  function Cancels(timers: seq<(Timer, bool)>): seq<Event>
    decreases |timers|
  {
    if timers == [] then []
    else
      var last := timers[|timers| - 1];
      Cancels(timers[..|timers| - 1]) + (if last.1 then [Cancel(last.0)] else [])
  }

  /** The join calls of the second loop of `__stop_threads`, for the threads that exist. */
  function Joins(threads: seq<(Payload.Stream, bool)>): seq<Event>
    decreases |threads|
  {
    if threads == [] then []
    else
      var last := threads[|threads| - 1];
      Joins(threads[..|threads| - 1]) + (if last.1 then [Join(last.0)] else [])
  }

  /** Exactly the timers that exist are cancelled, and nothing else happens. */
  lemma {:induction false} CancelsExisting(timers: seq<(Timer, bool)>)
    ensures forall t :: Cancel(t) in Cancels(timers) <==> (t, true) in timers
    ensures forall i :: 0 <= i < |Cancels(timers)| ==> Cancels(timers)[i].Cancel?
    decreases |timers|
  {
    if timers != [] {
      var front := timers[..|timers| - 1];
      CancelsExisting(front);
      assert timers == front + [timers[|timers| - 1]];
    }
  }

  /** Exactly the threads that exist are joined, and nothing else happens. */
  lemma {:induction false} JoinsExisting(threads: seq<(Payload.Stream, bool)>)
    ensures forall s :: Join(s) in Joins(threads) <==> (s, true) in threads
    ensures forall i :: 0 <= i < |Joins(threads)| ==> Joins(threads)[i].Join?
    decreases |threads|
  {
    if threads != [] {
      var front := threads[..|threads| - 1];
      JoinsExisting(front);
      assert threads == front + [threads[|threads| - 1]];
    }
  }

  class Command {
    const config: Config.Settings
    const args: seq<string>
    /** `maxlen` of the three deques: the configured `buffer_size`. */
    const capacity: nat
    /** `__mode`: set to SINK and never reassigned. */
    const mode: Mode

    var child: Option<Child>
    var startTime: int
    var endTime: int
    var terminate: bool
    /** The three deques. */
    var buffers: Streams<seq<string>>
    /** `__stdin_lines`, `__stdout_lines`, `__stderr_lines`. */
    var lines: Streams<nat>
    /** Every line each pump has captured, oldest first. */
    ghost var seen: Streams<seq<string>>
    var periodTimer: bool
    var timeoutTimer: bool
    /** Which pump threads were started. */
    var threads: Streams<bool>
    var events: seq<Event>

    /** Each buffer holds the last `capacity` lines of its stream and each counter the
        number of lines captured. */
    ghost predicate Valid()
      reads this`buffers, this`lines, this`seen
    {
      mode == Sink &&
      Capture.Tracks(buffers.stdin, lines.stdin, seen.stdin, capacity) &&
      Capture.Tracks(buffers.stdout, lines.stdout, seen.stdout, capacity) &&
      Capture.Tracks(buffers.stderr, lines.stderr, seen.stderr, capacity)
    }

    /** `run` has started the child whenever there are arguments. */
    predicate Started()
      reads this`child
    {
      |args| > 0 ==> child.Some?
    }

    /** `Command(config, args)`: empty buffers, zero counters, no child, no timer. */
    constructor (config: Config.Settings, args: seq<string>, capacity: nat)
      requires Config.Lookup(config, "buffer_size") == Some(Config.Int(capacity))
      ensures Valid()
      ensures this.config == config && this.args == args && this.capacity == capacity
      ensures child.None? && startTime == 0 && endTime == 0 && !terminate
      ensures seen == Streams([], [], []) && lines == Streams(0, 0, 0)
      ensures !periodTimer && !timeoutTimer && threads == Streams(false, false, false)
      ensures events == []
    {
      this.config := config;
      this.args := args;
      this.capacity := capacity;
      mode := Sink;
      child := None;
      startTime, endTime := 0, 0;
      terminate := false;
      buffers := Streams([], [], []);
      lines := Streams(0, 0, 0);
      seen := Streams([], [], []);
      periodTimer, timeoutTimer := false, false;
      threads := Streams(false, false, false);
      events := [];
    }

    /** `Command(config, args)` as the caller sees it: `deque(maxlen=buffer_size)` raises
        ValueError for a negative `buffer_size`, and nothing is built. */
    static method New(config: Config.Settings, args: seq<string>, size: int) returns (r: Result<Command, Error>)
      requires Config.Lookup(config, "buffer_size") == Some(Config.Int(size))
      ensures r.Failure? <==> size < 0
      ensures r.Failure? ==> r.error == ValueError(NegativeMaxlen)
      ensures r.Success? ==> fresh(r.value) && r.value.Valid() && r.value.capacity == size
      ensures r.Success? ==> r.value.config == config && r.value.args == args && r.value.events == []
      ensures r.Success? ==> r.value.child.None? && !r.value.terminate && r.value.lines == Streams(0, 0, 0)
    {
      if size < 0 {
        return Failure(ValueError(NegativeMaxlen));
      }
      var c := new Command(config, args, size);
      r := Success(c);
    }

    /** `run`: start the child and its three pumps, or only the stdin pump when input
        is piped in, then arm the timers that are configured. The period is read from
        `periodic`, the option's actual name. */
    method Run(now: int, stdinIsTty: bool, pid: int)
      requires child.None? && !periodTimer && !timeoutTimer && threads == Streams(false, false, false)
      modifies this`startTime, this`child, this`threads, this`periodTimer, this`timeoutTimer, this`events
      ensures Started()
      ensures startTime == now
      ensures child == if |args| > 0 then Some(Child(pid, None)) else None
      ensures threads == Streams(|args| > 0 || !stdinIsTty, |args| > 0, |args| > 0)
      ensures periodTimer == Payload.Set(config, "periodic") && timeoutTimer == Payload.Set(config, "timeout")
      ensures events == old(events)
        + (if Payload.Set(config, "periodic") then [Arm(PeriodTimer, Config.Lookup(config, "periodic"))] else [])
        + (if Payload.Set(config, "timeout") then [Arm(TimeoutTimer, Config.Lookup(config, "timeout"))] else [])
    {
      startTime := now;
      if |args| > 0 {
        child := Some(Child(pid, None));
        threads := Streams(true, true, true);
      } else if !stdinIsTty {
        threads := threads.(stdin := true);
      }
      if Payload.Set(config, "periodic") {
        periodTimer := true;
        events := events + [Arm(PeriodTimer, Config.Lookup(config, "periodic"))];
      }
      if Payload.Set(config, "timeout") {
        timeoutTimer := true;
        events := events + [Arm(TimeoutTimer, Config.Lookup(config, "timeout"))];
      }
    }

    /** `buffer.append(line)` and the counter increment of one pump. */
    method Take(s: Payload.Stream, line: string)
      requires Valid()
      modifies this`buffers, this`lines, this`seen
      ensures Valid()
      ensures seen == old(seen).With(s, old(seen).At(s) + [line])
      ensures lines == old(lines).With(s, old(lines).At(s) + 1)
    {
      Capture.TracksAppend(buffers.At(s), lines.At(s), seen.At(s), line, capacity);
      buffers := buffers.With(s, Capture.Append(buffers.At(s), line, capacity));
      lines := lines.With(s, lines.At(s) + 1);
      seen := seen.With(s, seen.At(s) + [line]);
    }

    /** Where `__process_stdin` forwards a line: the child's stdin, or stdout without a child. */
    function StdinTarget(): Output {
      if |args| > 0 then ChildStdin else OwnStdout
    }

    /** The body of the stdin loop once it does not break: capture, count and forward the line. */
    method Forward(line: string)
      requires Valid()
      modifies this`buffers, this`lines, this`seen, this`events
      ensures Valid()
      ensures seen == old(seen).(stdin := old(seen).stdin + [line])
      ensures lines == old(lines).(stdin := old(lines).stdin + 1)
      ensures events == old(events) + [Write(StdinTarget(), line)]
    {
      Take(Payload.Stdin, line);
      events := events + [Write(StdinTarget(), line)];
    }

    /** `poll()` on the child: it records what it returns as the return code. */
    method Poll(polled: Option<int>)
      requires child.Some?
      modifies this`child
      ensures child == Some(old(child).value.(returncode := polled))
    {
      child := Some(child.value.(returncode := polled));
    }

    /** One pass of the stdin loop body while `terminate` is unset: with a child, `poll()`
        is asked first and a truthy answer breaks the loop; otherwise the line is
        captured, counted and forwarded. */
    method StdinLine(line: string, polled: Option<int>) returns (stop: bool)
      requires Valid() && Started()
      modifies this`child, this`buffers, this`lines, this`seen, this`events
      ensures Valid() && Started()
      ensures stop <==> |args| > 0 && PollTruthy(polled)
      ensures child == if |args| > 0 then Some(old(child).value.(returncode := polled)) else old(child)
      ensures stop ==> seen == old(seen) && lines == old(lines) && events == old(events)
      ensures !stop ==> seen == old(seen).(stdin := old(seen).stdin + [line])
      ensures !stop ==> lines == old(lines).(stdin := old(lines).stdin + 1)
      ensures !stop ==> events == old(events) + [Write(StdinTarget(), line)]
    {
      if |args| > 0 {
        Poll(polled);
        if PollTruthy(polled) {
          return true;
        }
      }
      Forward(line);
      stop := false;
    }

    /** The state after the stdin loop has taken the first `taken` lines of `input`,
        from a state with these captured lines, counters, events and child. */
    ghost predicate StdinRead(input: seq<string>, polls: seq<Option<int>>, taken: nat,
                              seen0: Streams<seq<string>>, lines0: Streams<nat>, events0: seq<Event>,
                              child0: Option<Child>)
      requires taken <= |input| == |polls|
      requires |args| > 0 && !terminate && taken > 0 ==> child0.Some?
      reads this`seen, this`lines, this`events, this`child, this`terminate
    {
      seen == seen0.(stdin := seen0.stdin + input[..taken]) &&
      lines == lines0.(stdin := lines0.stdin + taken) &&
      events == events0 + Writes(StdinTarget(), input[..taken]) &&
      child == if |args| > 0 && !terminate && taken > 0
        then Some(child0.value.(returncode := polls[taken - 1])) else child0
    }

    /** The `for line in sys.stdin` loop of `__process_stdin`. Once `terminate` is set,
        or the wrapped child's `poll()` is truthy, the loop ends; otherwise the line is
        captured and forwarded to the child, or in sink mode to stdout. `polls[i]` is
        what `poll()` returns while line `i` is handled; `poll()` also records it as
        the child's return code. */
    method ReadStdin(input: seq<string>, polls: seq<Option<int>>) returns (taken: nat)
      requires Valid() && Started() && |polls| == |input|
      modifies this`child, this`buffers, this`lines, this`seen, this`events
      ensures Valid() && Started()
      ensures taken == StdinTaken(terminate, |args| > 0, polls) && taken <= |input|
      ensures seen == old(seen).(stdin := old(seen).stdin + input[..taken])
      ensures lines == old(lines).(stdin := old(lines).stdin + taken)
      ensures events == old(events) + Writes(StdinTarget(), input[..taken])
      ensures terminate || |args| == 0 || |input| == 0 ==> child == old(child)
      ensures child.Some? ==> child.value.pid == old(child).value.pid
      ensures |args| > 0 && !terminate && |input| > 0 ==>
        child == Some(old(child).value.(returncode := polls[if taken < |input| then taken else |input| - 1]))
    {
      taken := 0;
      assert old(seen).stdin + input[..0] == old(seen).stdin;
      while taken < |input|
        invariant Valid() && Started()
        invariant taken <= |input| && taken <= StdinTaken(terminate, |args| > 0, polls)
        invariant StdinRead(input, polls, taken, old(seen), old(lines), old(events), old(child))
        decreases |input| - taken
      {
        if terminate {
          break;
        }
        if |args| > 0 {
          FirstTruthyAt(polls, taken);
        }
        var stop := StdinLine(input[taken], polls[taken]);
        if stop {
          break;
        }
        TakeOneMore(old(seen).stdin, input, taken, StdinTarget());
        taken := taken + 1;
      }
    }

    /** `__process_stdin`: nothing when stdin is a terminal; otherwise the lines until the
        loop breaks, after which the child's stdin is closed when there is a child. */
    method PumpStdin(stdinIsTty: bool, input: seq<string>, polls: seq<Option<int>>) returns (taken: nat)
      requires Valid() && Started() && |polls| == |input|
      modifies this`child, this`buffers, this`lines, this`seen, this`events
      ensures Valid() && Started()
      ensures stdinIsTty ==> taken == 0 && seen == old(seen) && lines == old(lines) && events == old(events)
                             && child == old(child)
      ensures !stdinIsTty ==> taken <= |input|
      ensures !stdinIsTty ==>
        events == old(events) + Writes(StdinTarget(), input[..taken])
                  + (if |args| > 0 then [CloseChildStdin] else [])
      ensures !stdinIsTty ==> seen == old(seen).(stdin := old(seen).stdin + input[..taken])
      ensures !stdinIsTty ==> taken == StdinTaken(terminate, |args| > 0, polls)
      ensures !stdinIsTty && |args| > 0 && !terminate && |input| > 0 ==>
        child == Some(old(child).value.(returncode := polls[if taken < |input| then taken else |input| - 1]))
      ensures |args| == 0 || terminate ==> child == old(child)
    {
      if stdinIsTty {
        return 0;
      }
      taken := ReadStdin(input, polls);
      if |args| > 0 {
        events := events + [CloseChildStdin];
      }
    }

    /** `__process_stdout`: every line the child prints is captured, counted and echoed
        to stdout, until end of file. */
    method PumpStdout(output: seq<string>)
      requires Valid()
      modifies this`buffers, this`lines, this`seen, this`events
      ensures Valid()
      ensures seen == old(seen).(stdout := old(seen).stdout + output)
      ensures lines == old(lines).(stdout := old(lines).stdout + |output|)
      ensures buffers.stdout == Capture.LastN(old(seen).stdout + output, capacity)
      ensures events == old(events) + Writes(OwnStdout, output)
    {
      assert old(seen).stdout + output[..0] == old(seen).stdout;
      for i := 0 to |output|
        invariant Valid()
        invariant seen == old(seen).(stdout := old(seen).stdout + output[..i])
        invariant lines == old(lines).(stdout := old(lines).stdout + i)
        invariant events == old(events) + Writes(OwnStdout, output[..i])
      {
        Take(Payload.Stdout, output[i]);
        events := events + [Write(OwnStdout, output[i])];
        assert output[..i + 1][..i] == output[..i];
        assert old(seen).stdout + output[..i + 1] == old(seen).stdout + output[..i] + [output[i]];
      }
      assert output[..|output|] == output;
    }

    /** `__process_stderr`: every line the child prints on stderr is captured, counted
        and echoed to stderr, until end of file. */
    method PumpStderr(output: seq<string>)
      requires Valid()
      modifies this`buffers, this`lines, this`seen, this`events
      ensures Valid()
      ensures seen == old(seen).(stderr := old(seen).stderr + output)
      ensures lines == old(lines).(stderr := old(lines).stderr + |output|)
      ensures buffers.stderr == Capture.LastN(old(seen).stderr + output, capacity)
      ensures events == old(events) + Writes(OwnStderr, output)
    {
      assert old(seen).stderr + output[..0] == old(seen).stderr;
      for i := 0 to |output|
        invariant Valid()
        invariant seen == old(seen).(stderr := old(seen).stderr + output[..i])
        invariant lines == old(lines).(stderr := old(lines).stderr + i)
        invariant events == old(events) + Writes(OwnStderr, output[..i])
      {
        Take(Payload.Stderr, output[i]);
        events := events + [Write(OwnStderr, output[i])];
        assert output[..i + 1][..i] == output[..i];
        assert old(seen).stderr + output[..i + 1] == old(seen).stderr + output[..i] + [output[i]];
      }
      assert output[..|output|] == output;
    }

    /** The stop calls `__stop_threads` makes in the current state. */
    function StopEvents(): seq<Event>
      reads this`periodTimer, this`timeoutTimer, this`threads
    {
      Cancels([(PeriodTimer, periodTimer), (TimeoutTimer, timeoutTimer)])
      + Joins([(Payload.Stdin, threads.stdin), (Payload.Stdout, threads.stdout), (Payload.Stderr, threads.stderr)])
    }

    /** `__stop_threads`: cancel the timers that exist, then join the threads that exist. */
    method StopThreads()
      modifies this`events
      ensures events == old(events) + StopEvents()
    {
      var timers := [(PeriodTimer, periodTimer), (TimeoutTimer, timeoutTimer)];
      for i := 0 to |timers|
        invariant events == old(events) + Cancels(timers[..i])
      {
        assert timers[..i + 1][..i] == timers[..i];
        if timers[i].1 {
          events := events + [Cancel(timers[i].0)];
        }
      }
      assert timers[..|timers|] == timers;
      ghost var cancelled := events;
      var pumps := [(Payload.Stdin, threads.stdin), (Payload.Stdout, threads.stdout), (Payload.Stderr, threads.stderr)];
      for i := 0 to |pumps|
        invariant events == cancelled + Joins(pumps[..i])
      {
        assert pumps[..i + 1][..i] == pumps[..i];
        if pumps[i].1 {
          events := events + [Join(pumps[i].0)];
        }
      }
      assert pumps[..|pumps|] == pumps;
    }

    /** `terminate()`: signal the child, then stop timers and threads. Without a child the
        assertion fails. */
    method Terminate() returns (r: Result<(), Error>)
      modifies this`events
      ensures r.Failure? <==> child.None?
      ensures r.Failure? ==> r.error == AssertionError && events == old(events)
      ensures r.Success? ==> events == old(events) + [TerminateChild] + StopEvents()
    {
      if child.None? {
        return Failure(AssertionError);
      }
      events := events + [TerminateChild];
      StopThreads();
      r := Success(());
    }

    /** `kill()`: kill the child, then stop timers and threads. Without a child the
        assertion fails. */
    method Kill() returns (r: Result<(), Error>)
      modifies this`events
      ensures r.Failure? <==> child.None?
      ensures r.Failure? ==> r.error == AssertionError && events == old(events)
      ensures r.Success? ==> events == old(events) + [KillChild] + StopEvents()
    {
      if child.None? {
        return Failure(AssertionError);
      }
      events := events + [KillChild];
      StopThreads();
      r := Success(());
    }

    /** What `__shutdown` does outside the supervisor when the child's `poll()` returns
        `polled`. */
    function ShutdownEvents(polled: Option<int>): seq<Event>
      reads this`child, this`periodTimer, this`timeoutTimer, this`threads
    {
      (if child.Some? then [TerminateChild] + StopEvents() + (if PollTruthy(polled) then [] else [KillChild] + StopEvents()) else [])
      + [CloseStdin]
    }

    /** `__shutdown`: mark the run as terminating and record the end time before touching
        the child; terminate the child, and kill it as well when `poll()` is falsy (still
        running, or exited with 0); finally close stdin. */
    method Shutdown(now: int, polled: Option<int>)
      modifies this`terminate, this`endTime, this`child, this`events
      ensures terminate && endTime == now
      ensures child == if old(child).Some? then Some(old(child).value.(returncode := polled)) else None
      ensures events == old(events) + old(ShutdownEvents(polled))
    {
      terminate := true;
      endTime := now;
      if child.Some? {
        var _ := Terminate();
        child := Some(child.value.(returncode := polled));
        if !PollTruthy(polled) {
          var _ := Kill();
        }
      }
      events := events + [CloseStdin];
    }

    /** The `data` property: the record handed to the payload. */
    function Snapshot(host: Host): (d: Record)
      reads this`buffers, this`lines, this`seen, this`child, this`startTime, this`endTime
      requires Valid() && Started()
      ensures d.mode == Sink
      ensures d.command.None? <==> |args| == 0
      ensures Pid(d) == if |args| > 0 && child.value.pid != 0 then child.value.pid else host.pgid
      ensures d.returncode == if |args| > 0 then child.value.returncode else Some(0)
      ensures d.stdinLines == |seen.stdin| && d.stdoutLines == |seen.stdout| && d.stderrLines == |seen.stderr|
      ensures d.stdinBuffer == Capture.Render(Capture.LastN(seen.stdin, capacity))
      ensures d.stdoutBuffer == Capture.Render(Capture.LastN(seen.stdout, capacity))
      ensures d.stderrBuffer == Capture.Render(Capture.LastN(seen.stderr, capacity))
      ensures d.startTime == startTime && d.endTime == endTime
    {
      Make(args, if |args| > 0 then child.value.pid else host.pgid, startTime, endTime, mode,
           lines.stdin, lines.stdout, lines.stderr,
           Capture.Render(buffers.stdin), Capture.Render(buffers.stdout), Capture.Render(buffers.stderr),
           if |args| > 0 then child.value.returncode else Some(0), host)
    }

    /** `wait`: wait for the child (or for the stdin pump when there is none), then set
        `terminate`, record the end time and stop timers and threads, and only then send
        the final report. `code` is the child's exit code. Without a child and without a
        stdin pump, `self.__stdin_thread.join()` raises AttributeError. */
    method Wait(now: int, code: int, host: Host) returns (r: Result<(), Error>)
      requires Valid() && Started()
      modifies this`child, this`terminate, this`endTime, this`events
      ensures Started()
      ensures r.Failure? <==> |args| == 0 && !threads.stdin
      ensures r.Failure? ==> r.error == AttributeError("join")
      ensures r.Failure? ==> events == old(events) && terminate == old(terminate) && endTime == old(endTime)
      ensures child == if |args| > 0 then Some(old(child).value.(returncode := Some(code))) else old(child)
      ensures r.Success? ==> terminate && endTime == now
      ensures r.Success? ==> events == old(events) + (if |args| > 0 then [] else [Join(Payload.Stdin)]) + StopEvents()
                                         + [Report(Payload.Final, Snapshot(host))]
    {
      if |args| > 0 {
        child := Some(child.value.(returncode := Some(code)));
      } else if threads.stdin {
        events := events + [Join(Payload.Stdin)];
      } else {
        return Failure(AttributeError("join"));
      }
      terminate := true;
      endTime := now;
      StopThreads();
      events := events + [Report(Payload.Final, Snapshot(host))];
      r := Success(());
    }

    /** `__handle_period`: cancel the running timer, send a periodic report, and arm a new
        timer unless the run is terminating. */
    method HandlePeriod(host: Host)
      requires Valid() && Started()
      modifies this`periodTimer, this`events
      ensures events == old(events) + (if old(periodTimer) then [Cancel(PeriodTimer)] else [])
                        + [Report(Payload.Period, Snapshot(host))]
                        + (if terminate then [] else [Arm(PeriodTimer, Config.Lookup(config, "periodic"))])
      ensures periodTimer == (old(periodTimer) || !terminate)
    {
      ghost var cancelled := old(events) + (if periodTimer then [Cancel(PeriodTimer)] else []);
      if periodTimer {
        events := events + [Cancel(PeriodTimer)];
      }
      assert events == cancelled;
      var d := Snapshot(host);
      events := events + [Report(Payload.Period, d)];
      if !terminate {
        periodTimer := true;
        events := events + [Arm(PeriodTimer, Config.Lookup(config, "periodic"))];
      }
      assert d == Snapshot(host);
    }

    /** `__handle_signal`: a forced report, nothing else. */
    method HandleSignal(host: Host)
      requires Valid() && Started()
      modifies this`events
      ensures events == old(events) + [Report(Payload.Signal, Snapshot(host))]
    {
      events := events + [Report(Payload.Signal, Snapshot(host))];
    }

    /** `__handle_timeout`: shut down, then report the timeout on the state after it.
        Without a timeout timer the assertion fails first. */
    method HandleTimeout(now: int, polled: Option<int>, host: Host) returns (r: Result<(), Error>)
      requires Valid() && Started()
      modifies this`terminate, this`endTime, this`child, this`events
      ensures Started()
      ensures r.Failure? <==> !timeoutTimer
      ensures r.Failure? ==> r.error == AssertionError && events == old(events) && child == old(child)
                             && terminate == old(terminate) && endTime == old(endTime)
      ensures r.Success? ==> terminate && endTime == now
      ensures r.Success? ==> child == if old(child).Some? then Some(old(child).value.(returncode := polled)) else None
      ensures r.Success? ==> events == old(events) + old(ShutdownEvents(polled)) + [Report(Payload.Timeout, Snapshot(host))]
    {
      if !timeoutTimer {
        return Failure(AssertionError);
      }
      Shutdown(now, polled);
      events := events + [Report(Payload.Timeout, Snapshot(host))];
      r := Success(());
    }

    /** `handle_interrupt`: shut down, then report the interruption on the state after it.
        An interrupt that arrives inside `run` before the child exists finds no child to
        stop, and `data` then raises AttributeError on `None.pid`, so nothing is reported. */
    method HandleInterrupt(now: int, polled: Option<int>, host: Host) returns (r: Result<(), Error>)
      requires Valid()
      modifies this`terminate, this`endTime, this`child, this`events
      ensures terminate && endTime == now
      ensures child == if old(child).Some? then Some(old(child).value.(returncode := polled)) else None
      ensures r.Failure? <==> !old(Started())
      ensures r.Failure? ==> r.error == AttributeError("pid") && events == old(events) + old(ShutdownEvents(polled))
      ensures r.Success? ==> Started()
      ensures r.Success? ==> events == old(events) + old(ShutdownEvents(polled)) + [Report(Payload.Interrupt, Snapshot(host))]
    {
      Shutdown(now, polled);
      if !Started() {
        return Failure(AttributeError("pid"));
      }
      events := events + [Report(Payload.Interrupt, Snapshot(host))];
      r := Success(());
    }
  }

  /** `__stop_threads` cancels exactly the timers that are armed and joins exactly the pumps
      that were started, cancelling before joining. */
  lemma StopsWhatRuns(c: Command)
    ensures Cancel(PeriodTimer) in c.StopEvents() <==> c.periodTimer
    ensures Cancel(TimeoutTimer) in c.StopEvents() <==> c.timeoutTimer
    ensures forall s :: Join(s) in c.StopEvents() <==> c.threads.At(s)
    ensures forall i, j :: 0 <= i < j < |c.StopEvents()| && c.StopEvents()[j].Cancel? ==> c.StopEvents()[i].Cancel?
    ensures forall i :: 0 <= i < |c.StopEvents()| ==> c.StopEvents()[i].Cancel? || c.StopEvents()[i].Join?
  {
    var timers := [(PeriodTimer, c.periodTimer), (TimeoutTimer, c.timeoutTimer)];
    var pumps := [(Payload.Stdin, c.threads.stdin), (Payload.Stdout, c.threads.stdout), (Payload.Stderr, c.threads.stderr)];
    CancelsExisting(timers);
    JoinsExisting(pumps);
    var cs, js := Cancels(timers), Joins(pumps);
    assert c.StopEvents() == cs + js;
    assert forall t :: Cancel(t) !in js;
    assert forall s :: Join(s) !in cs;
    forall s
      ensures (s, true) in pumps <==> c.threads.At(s)
    {
      match s
      case Stdin => assert pumps[0] == (s, c.threads.stdin);
      case Stdout => assert pumps[1] == (s, c.threads.stdout);
      case Stderr => assert pumps[2] == (s, c.threads.stderr);
    }
  }

  /** Every report the supervisor sends renders: its records are in sink mode, so the
      payload never fails on a missing command. */
  lemma ReportsRender(c: Command, k: Payload.Kind, host: Host, clock: Payload.Clock)
    requires c.Valid() && c.Started()
    ensures Payload.Emit(k, c.config, c.Snapshot(host), clock).Success?
  {
    Payload.EmitOutcome(k, c.config, c.Snapshot(host), clock);
  }

  /** A buffer shown in a report is the stream's latest `buffer_size` lines, verbatim
      when no line is longer than 50 characters. */
  lemma ReportShowsLatestLines(c: Command, host: Host)
    requires c.Valid() && c.Started()
    requires forall i :: 0 <= i < |c.seen.stdout| ==> |c.seen.stdout[i]| <= Capture.DisplayWidth
    ensures c.Snapshot(host).stdoutBuffer == Capture.Join(Capture.LastN(c.seen.stdout, c.capacity))
  {
    var last := Capture.LastN(c.seen.stdout, c.capacity);
    assert forall i :: 0 <= i < |last| ==> last[i] == c.seen.stdout[|c.seen.stdout| - |last| + i];
    Capture.RenderShortLines(last);
  }
}

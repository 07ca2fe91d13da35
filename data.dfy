/**
 * discordify/data.py: the immutable execution record handed to a payload, and
 * its derived accessors. Time formatting is not part of the record model: the
 * run time is the plain difference of the two timestamps.
 */
module Data {

  import opened Wrappers
  import opened Errors
  import opened Modes

  /** What the record reads from the operating system: `getuser()`,
      `gethostname()` and `getpgid(0)`. */
  datatype Host = Host(user: string, hostname: string, pgid: int)

  /** The private fields of `Data`, as the constructor stores them. */
  datatype Record = Record(
    command: Option<string>,
    arguments: Option<seq<string>>,
    pid: int,
    startTime: int,
    endTime: int,
    mode: Mode,
    stdinLines: nat,
    stdoutLines: nat,
    stderrLines: nat,
    stdinBuffer: string,
    stdoutBuffer: string,
    stderrBuffer: string,
    returncode: Option<int>,
    username: string,
    hostname: string,
    pgid: int)

  /** The command name reported when no child command exists. */
  const SinkCommand: string := "<discordify SINK>"

  /** What `returncode` shows while there is no exit code. */
  const Unavailable: string := "<unavailable>"

  /** An int or a str: the two kinds of value the `returncode` property yields. */
  datatype Scalar = Number(n: int) | Text(s: string)

  /** `Data(arguments, pid, ...)`. A missing argument list behaves like an empty one. */
  function Make(arguments: seq<string>, pid: int, startTime: int, endTime: int, mode: Mode,
                stdinLines: nat, stdoutLines: nat, stderrLines: nat,
                stdinBuffer: string, stdoutBuffer: string, stderrBuffer: string,
                returncode: Option<int>, host: Host): (d: Record)
    // the command is the first argument; the stored arguments are the rest, if any
    ensures d.command.None? <==> arguments == []
    ensures d.arguments.Some? <==> |arguments| >= 2
    ensures d.command.Some? ==> [d.command.value] + d.arguments.GetOr([]) == arguments
    // every other accessor returns its constructor argument unchanged
    ensures d.pid == pid && d.startTime == startTime && d.endTime == endTime && d.mode == mode
    ensures d.stdinLines == stdinLines && d.stdoutLines == stdoutLines && d.stderrLines == stderrLines
    ensures d.stdinBuffer == stdinBuffer && d.stdoutBuffer == stdoutBuffer && d.stderrBuffer == stderrBuffer
    ensures d.returncode == returncode
    ensures d.username == host.user && d.hostname == host.hostname && d.pgid == host.pgid
  {
    Record(
      if |arguments| > 0 then Some(arguments[0]) else None,
      if |arguments| > 1 then Some(arguments[1..]) else None,
      pid, startTime, endTime, mode,
      stdinLines, stdoutLines, stderrLines,
      stdinBuffer, stdoutBuffer, stderrBuffer,
      returncode, host.user, host.hostname, host.pgid)
  }

  /** The `returncode` property: the stored code, or the sentinel when there is none. */
  function ReturnCode(d: Record): (r: Scalar)
    ensures r == Text(Unavailable) <==> d.returncode.None?
    ensures d.returncode.Some? ==> r == Number(d.returncode.value)
  {
    match d.returncode
    case Some(code) => Number(code)
    case None => Text(Unavailable)
  }

  /** The `success` property. */
  function Succeeded(d: Record): (ok: bool)
    ensures ok <==> d.returncode == Some(0)
    ensures d.returncode.None? ==> !ok
  {
    d.returncode == Some(0)
  }

  /** The `pid` property: the stored pid when it is truthy (non-zero), else the process group. */
  function Pid(d: Record): (p: int)
    ensures d.pid != 0 ==> p == d.pid
    ensures d.pid == 0 ==> p == d.pgid
  {
    if d.pid != 0 then d.pid else d.pgid
  }

  /** The elapsed time `end_time - start_time` that `runtime` formats. */
  function Runtime(d: Record): (t: int)
    ensures t + d.startTime == d.endTime
  {
    d.endTime - d.startTime
  }

  /** The `command` property: the command when it is a non-empty string; otherwise
      the sink placeholder, after asserting that the record is in sink mode. */
  function CommandName(d: Record): (r: Result<string, Error>)
    ensures r.Failure? <==> (d.command.None? || d.command.value == "") && d.mode != Sink
    ensures r.Failure? ==> r.error == AssertionError
    ensures r.Success? && d.command.Some? && d.command.value != "" ==> r.value == d.command.value
    ensures r.Success? && (d.command.None? || d.command.value == "") ==> r.value == SinkCommand
  {
    if d.command.Some? && d.command.value != "" then Success(d.command.value)
    else if d.mode == Sink then Success(SinkCommand)
    else Failure(AssertionError)
  }

  /** `success` and the rendered return code agree: success is exactly a shown 0. */
  lemma SuccessIsZeroCode(d: Record)
    ensures Succeeded(d) <==> ReturnCode(d) == Number(0)
  {
  }

  /** The command a record reports, in terms of the arguments it was built from. */
  lemma CommandOfArguments(arguments: seq<string>, pid: int, startTime: int, endTime: int, mode: Mode,
                           stdinLines: nat, stdoutLines: nat, stderrLines: nat,
                           stdinBuffer: string, stdoutBuffer: string, stderrBuffer: string,
                           returncode: Option<int>, host: Host)
    ensures var d := Make(arguments, pid, startTime, endTime, mode, stdinLines, stdoutLines, stderrLines,
                          stdinBuffer, stdoutBuffer, stderrBuffer, returncode, host);
            CommandName(d) ==
              if arguments != [] && arguments[0] != "" then Success(arguments[0])
              else if mode == Sink then Success(SinkCommand)
              else Failure(AssertionError)
  {
  }
}

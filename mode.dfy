/** discordify/mode.py: the operating modes of the supervisor. */
module Modes {

  import opened Wrappers

  datatype Mode = Sink | Wrapper | PipeIn | PipeOut | PipeBoth {
    /** The enum member's integer value. */
    function Value(): (n: int)
      ensures 1 <= n <= 5
    {
      match this
      case Sink => 1
      case Wrapper => 2
      case PipeIn => 3
      case PipeOut => 4
      case PipeBoth => 5
    }
  }

  /** `Mode(n)`: looking a member up by its value; None where Python raises ValueError. */
  function FromValue(n: int): (m: Option<Mode>)
    ensures m.Some? <==> 1 <= n <= 5
  {
    if n == 1 then Some(Sink)
    else if n == 2 then Some(Wrapper)
    else if n == 3 then Some(PipeIn)
    else if n == 4 then Some(PipeOut)
    else if n == 5 then Some(PipeBoth)
    else None
  }

  lemma ValueRoundTrip(m: Mode)
    ensures FromValue(m.Value()) == Some(m)
  {
  }
}

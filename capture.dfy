/**
 * The capture buffers of discordify/command.py: each stream keeps a
 * `deque(maxlen=buffer_size)` of its last lines, and `__prep_buffer` renders a
 * buffer by joining the first 50 characters of every line.
 */
module Capture {

  /** How many characters of a line `__prep_buffer` keeps. */
  const DisplayWidth: nat := 50

  function Min(a: int, b: int): int {
    if a <= b then a else b
  }

  /** `buffer.append(line)` on a `deque` with `maxlen == capacity` holding `buffer`:
      at capacity the oldest line is evicted first. */
  function Append(buffer: seq<string>, line: string, capacity: nat): seq<string>
    requires |buffer| <= capacity
  {
    if |buffer| < capacity then buffer + [line]
    else if capacity == 0 then []
    else buffer[1..] + [line]
  }

  /** The deque never grows past `capacity`; the new line is last and the lines
      before it are the newest ones already held. */
  lemma AppendShape(buffer: seq<string>, line: string, capacity: nat)
    requires |buffer| <= capacity
    ensures var r := Append(buffer, line, capacity);
      |r| == Min(|buffer| + 1, capacity) &&
      (capacity > 0 ==> r[|r| - 1] == line && r[..|r| - 1] == buffer[|buffer| + 1 - |r|..])
  {
  }

  /** The last `capacity` entries of `history`, in arrival order. */
  function LastN(history: seq<string>, capacity: nat): (r: seq<string>)
    ensures |r| == Min(|history|, capacity)
  {
    if |history| <= capacity then history else history[|history| - capacity..]
  }

  /** What is kept is a suffix of the history. */
  lemma LastNIsSuffix(history: seq<string>, capacity: nat)
    ensures LastN(history, capacity) == history[|history| - |LastN(history, capacity)|..]
  {
  }

  /** One append keeps a buffer equal to the last `capacity` lines seen. */
  lemma AppendTracksLast(history: seq<string>, line: string, capacity: nat)
    ensures Append(LastN(history, capacity), line, capacity) == LastN(history + [line], capacity)
  {
    var extended := history + [line];
    if |history| < capacity {
      assert LastN(history, capacity) == history;
      assert LastN(extended, capacity) == extended;
    } else if capacity == 0 {
      assert LastN(extended, capacity) == [];
    } else {
      var before := LastN(history, capacity);
      assert before == history[|history| - capacity..];
      assert before[1..] == history[|history| - capacity + 1..];
      assert LastN(extended, capacity) == extended[|extended| - capacity..];
      assert extended[|extended| - capacity..] == history[|history| - capacity + 1..] + [line];
    }
  }

  /** Appending `lines` one after the other, as a pump does. */
  function AppendAll(buffer: seq<string>, lines: seq<string>, capacity: nat): seq<string>
    requires |buffer| <= capacity
    decreases |lines|
  {
    if lines == [] then buffer
    else AppendAll(Append(buffer, lines[0], capacity), lines[1..], capacity)
  }

  /** A deque that has received `history`: it holds the last `capacity` lines,
      and `lines` counts every line received. */
  ghost predicate Tracks(buffer: seq<string>, lines: nat, history: seq<string>, capacity: nat)
    ensures Tracks(buffer, lines, history, capacity) ==> |buffer| <= capacity
  {
    buffer == LastN(history, capacity) && lines == |history|
  }

  /** Appending a line and counting it keeps a tracking deque tracking. */
  lemma TracksAppend(buffer: seq<string>, lines: nat, history: seq<string>, line: string, capacity: nat)
    requires Tracks(buffer, lines, history, capacity)
    ensures Tracks(Append(buffer, line, capacity), lines + 1, history + [line], capacity)
  {
    AppendTracksLast(history, line, capacity);
  }

  /** After any sequence of appends the buffer holds exactly the last
      min(n, capacity) lines, in arrival order. */
  lemma {:induction false} AppendAllKeepsLast(history: seq<string>, lines: seq<string>, capacity: nat)
    ensures AppendAll(LastN(history, capacity), lines, capacity) == LastN(history + lines, capacity)
    decreases |lines|
  {
    if lines != [] {
      var next := history + [lines[0]];
      AppendTracksLast(history, lines[0], capacity);
      assert Append(LastN(history, capacity), lines[0], capacity) == LastN(next, capacity);
      AppendAllKeepsLast(next, lines[1..], capacity);
      assert next + lines[1..] == history + lines;
    } else {
      assert history + lines == history;
    }
  }

  /** A fresh deque that receives `lines` holds at most `capacity` of them, the latest ones. */
  lemma FreshBufferKeepsLast(lines: seq<string>, capacity: nat)
    ensures AppendAll([], lines, capacity) == LastN(lines, capacity)
    ensures |AppendAll([], lines, capacity)| == Min(|lines|, capacity)
  {
    AppendAllKeepsLast([], lines, capacity);
    assert [] + lines == lines;
  }

  /** `x[:50]`. */
  function Truncate(line: string): (r: string)
    ensures |r| == Min(|line|, DisplayWidth) && r == line[..|r|]
  {
    if |line| <= DisplayWidth then line else line[..DisplayWidth]
  }

  /** `__prep_buffer`: `''.join(x[:50] for x in buffer)`. */
  function Render(buffer: seq<string>): (s: string)
    ensures |s| <= DisplayWidth * |buffer|
    ensures buffer == [] ==> s == ""
  {
    if buffer == [] then "" else Truncate(buffer[0]) + Render(buffer[1..])
  }

  /** Plain concatenation of the lines, for comparison. */
  function Join(buffer: seq<string>): string {
    if buffer == [] then "" else buffer[0] + Join(buffer[1..])
  }

  /** Rendering distributes over concatenation: each line is rendered on its own, in order. */
  lemma {:induction false} RenderConcat(a: seq<string>, b: seq<string>)
    ensures Render(a + b) == Render(a) + Render(b)
    decreases |a|
  {
    if a != [] {
      assert (a + b)[1..] == a[1..] + b;
      RenderConcat(a[1..], b);
    } else {
      assert a + b == b;
    }
  }

  /** A single line is rendered as its first 50 characters. */
  lemma RenderOne(line: string)
    ensures Render([line]) == line[..Min(|line|, DisplayWidth)]
  {
    assert [line][1..] == [];
  }

  /** When no line is longer than 50 characters rendering is plain joining. */
  lemma {:induction false} RenderShortLines(buffer: seq<string>)
    requires forall i :: 0 <= i < |buffer| ==> |buffer[i]| <= DisplayWidth
    ensures Render(buffer) == Join(buffer)
    decreases |buffer|
  {
    if buffer != [] {
      RenderShortLines(buffer[1..]);
    }
  }
}

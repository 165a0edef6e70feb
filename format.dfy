/**
 * The rendered form of a log line, "[<code>/<tag>][<time>]<message>", the
 * severity codes and the console stream each severity is printed on, and a
 * parser that recovers the parts of a rendered line.
 */
module Format {
  import opened Options

  /** The six severities of the logger's emitting methods. */
  datatype Level = Debug | Info | Warn | Error | Fatal | Trace

  /** The two console streams: `console.log` and `console.error`. */
  datatype Stream = Stdout | Stderr

  /** The letter a rendered line carries for its severity. */
  function Code(level: Level): char
  {
    match level
    case Debug => 'D'
    case Info => 'I'
    case Warn => 'W'
    case Error => 'E'
    case Fatal => 'F'
    case Trace => 'T'
  }

  /** The severity a code letter stands for, if any. */
  function LevelOfCode(c: char): (r: Option<Level>)
    ensures forall level :: Code(level) == c <==> r == Some(level)
  {
    match c
    case 'D' => Some(Debug)
    case 'I' => Some(Info)
    case 'W' => Some(Warn)
    case 'E' => Some(Error)
    case 'F' => Some(Fatal)
    case 'T' => Some(Trace)
    case _ => None
  }

  /** debug, info and warn print with console.log; error, fatal and trace with console.error. */
  function StreamOf(level: Level): Stream
  {
    if level == Debug || level == Info || level == Warn then Stdout else Stderr
  }

  /** What a trace line carries between its message and the error's stack. */
  const TraceHeader: string := "\n\tTrace:\n\t"

  function Render(code: char, tag: string, time: string, message: string): string
  {
    "[" + [code] + "/" + tag + "][" + time + "]" + message
  }

  /** The parts of a rendered line. */
  datatype Parts = Parts(code: char, tag: string, time: string, message: string)

  /** The first position at or after `from` where `s` holds `c`. */
  function IndexFrom(s: string, c: char, from: nat): (r: Option<nat>)
    requires from <= |s|
    ensures r.Some? ==> from <= r.value < |s| && s[r.value] == c && c !in s[from..r.value]
    ensures r.None? ==> c !in s[from..]
    decreases |s| - from
  {
    if from == |s| then None
    else if s[from] == c then Some(from)
    else
      var r := IndexFrom(s, c, from + 1);
      assert r.Some? ==> s[from..r.value] == [s[from]] + s[from + 1..r.value];
      assert s[from..] == [s[from]] + s[from + 1..];
      r
  }

  /** A line with "[" and "/" in front and "][" at `p` and "]" at `q` is the rendering of its pieces. */
  lemma RenderSplit(line: string, p: nat, q: nat)
    requires 3 <= p && p + 2 <= q < |line|
    requires line[0] == '[' && line[2] == '/' && line[p] == ']' && line[p + 1] == '[' && line[q] == ']'
    ensures Render(line[1], line[3..p], line[p + 2..q], line[q + 1..]) == line
  {
    assert line[..3] == "[" + [line[1]] + "/";
    assert line[p..q + 1] == "][" + line[p + 2..q] + "]";
    assert line == line[..3] + line[3..p] + line[p..q + 1] + line[q + 1..];
  }

  /**
   * Splits a rendered line at its first "][" after the code and the "]" after
   * it. A line it accepts is exactly the rendering of the parts it returns.
   */
  function Parse(line: string): (r: Option<Parts>)
    ensures r.Some? ==> Render(r.value.code, r.value.tag, r.value.time, r.value.message) == line
    ensures r.Some? ==> ']' !in r.value.tag && ']' !in r.value.time
  {
    if |line| < 3 || line[0] != '[' || line[2] != '/' then None
    else
      match IndexFrom(line, ']', 3)
      case None => None
      case Some(p) =>
        if p + 1 >= |line| || line[p + 1] != '[' then None
        else
          match IndexFrom(line, ']', p + 2)
          case None => None
          case Some(q) =>
            RenderSplit(line, p, q);
            Some(Parts(line[1], line[3..p], line[p + 2..q], line[q + 1..]))
  }

  lemma {:induction false} IndexFromFirst(s: string, c: char, from: nat, k: nat)
    requires from <= k < |s| && s[k] == c && c !in s[from..k]
    ensures IndexFrom(s, c, from) == Some(k)
    decreases k - from
  {
    if from < k {
      assert s[from] == s[from..k][0];
      assert s[from + 1..k] == s[from..k][1..];
      IndexFromFirst(s, c, from + 1, k);
    }
  }

  /**
   * Round trip: a line rendered from a tag and a time tag that hold no "]"
   * parses back into exactly its code, tag, time tag and message.
   */
  lemma ParseRender(code: char, tag: string, time: string, message: string)
    requires ']' !in tag && ']' !in time
    ensures Parse(Render(code, tag, time, message)) == Some(Parts(code, tag, time, message))
  {
    var line := Render(code, tag, time, message);
    var p := 3 + |tag|;
    var q := p + 2 + |time|;
    assert line[0] == '[' && line[1] == code && line[2] == '/';
    assert line[3..p] == tag && line[p] == ']' && line[p + 1] == '[';
    assert line[p + 2..q] == time && line[q] == ']';
    assert line[q + 1..] == message;
    IndexFromFirst(line, ']', 3, p);
    IndexFromFirst(line, ']', p + 2, q);
  }
}

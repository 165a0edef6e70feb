/**
 * The state of the Log instances of one process and the steps that change it,
 * as functions on values: emitting (with the relay that bind installs), the
 * synchronous part of startWrite, and the handler that runs when a write
 * stream opens.
 *
 * Loggers are numbered by the order they were made in; a listener is the
 * number of the logger whose method it calls. The console is shared by every
 * logger; each logger's file is the content its path has gained since the
 * logger truncated it.
 */
module Logs {
  import opened Options
  import opened Format

  /** startWrite prints a warning when the queue holds more lines than this. */
  const QueueLimit: nat := 50
  const QueueTooBig: string := "ATTENTION: THE LOG WRITING QUEUE IS TOO BIG!"

  /** The payload of one emitting call; `stack` is only read for trace. */
  datatype Event = Event(level: Level, tag: string, message: string, stack: string)

  /** One console write: the stream and the text. */
  type Output = (Stream, string)

  /** The fields of one Log instance, its pending write-stream opens and its listener table. */
  datatype Log = Log(
    writeToFile: bool,
    writeToConsole: bool,
    verbose: bool,
    filePath: Option<string>,
    writingQueue: seq<string>,
    file: seq<string>,
    pendingOpens: nat,
    listeners: map<Level, seq<nat>>)

  datatype World = World(logs: seq<Log>, console: seq<Output>)

  /** The line a call renders, given the time tag of the moment it was made. */
  function LineOf(ev: Event, time: string): string
  {
    Render(Code(ev.level), ev.tag, time,
           if ev.level == Trace then ev.message + TraceHeader + ev.stack else ev.message)
  }

  /** The error the open handler reports about itself when a write fails. */
  function WriteFailure(reason: string): Event
  {
    Event(Error, "Log", "Error writing to file: " + reason + ". Now disabling file logging output.", "")
  }

  /** Each line as written to the file, with its trailing newline. */
  function Terminated(lines: seq<string>): (r: seq<string>)
  {
    seq(|lines|, i requires 0 <= i < |lines| => lines[i] + "\n")
  }

  /** A logger as `new Log(filePath)` leaves it once the path (if any) is truncated. */
  function Fresh(filePath: Option<string>): Log
  {
    Log(filePath.Some?, true, false, filePath, [], [], 0, map[])
  }

  /** The loggers whose methods `lg` calls, in bind order, when it emits at `level`. */
  function Targets(lg: Log, level: Level): seq<nat>
  {
    if level in lg.listeners then lg.listeners[level] else []
  }

  /** The listener table after `host.bind(lg)`: the five relayed levels gain `host`, trace does not. */
  function Bound(lg: Log, host: nat): (r: Log)
    ensures forall level :: Targets(r, level) == Targets(lg, level) + (if level == Trace then [] else [host])
    ensures r == lg.(listeners := r.listeners)
    ensures Trace in r.listeners <==> Trace in lg.listeners
  {
    var ls := lg.listeners;
    lg.(listeners := map level | level in ls.Keys + {Debug, Info, Warn, Error, Fatal} ::
                       if level == Trace then ls[level] else Targets(lg, level) + [host])
  }

  predicate TargetsBelow(ts: seq<nat>, layer: seq<nat>, bound: nat)
  {
    forall k :: 0 <= k < |ts| ==> ts[k] < |layer| && layer[ts[k]] < bound
  }

  /**
   * The bind graph is acyclic, witnessed by a layer per logger: every
   * listener calls a logger of a strictly lower layer.
   */
  predicate Ranked(w: World, layer: seq<nat>)
  {
    |layer| == |w.logs| &&
    forall i, level :: 0 <= i < |w.logs| ==> TargetsBelow(Targets(w.logs[i], level), layer, layer[i])
  }

  /**
   * What every operation keeps: a file sink is only on with a path to write
   * to, no listener is registered for trace, and a queued line always has a
   * stream open pending that will write it.
   */
  predicate Coherent(w: World)
  {
    forall i :: 0 <= i < |w.logs| ==> WellFormed(w.logs[i])
  }

  predicate WellFormed(lg: Log)
  {
    (lg.writeToFile ==> lg.filePath.Some?) &&
    Trace !in lg.listeners &&
    (lg.writingQueue != [] ==> lg.pendingOpens > 0)
  }

  /** The queue and the pending opens zeroed: what an emission leaves as it was. */
  function Setup(lg: Log): Log
  {
    lg.(writingQueue := [], pendingOpens := 0)
  }

  /**
   * `b` follows `a` by emissions only: the same loggers with the same flags,
   * paths, listeners and files, and no pending open lost.
   */
  predicate Advances(a: seq<Log>, b: seq<Log>)
  {
    |a| == |b| &&
    forall j :: 0 <= j < |a| ==> Setup(b[j]) == Setup(a[j]) && b[j].pendingOpens >= a[j].pendingOpens
  }

  predicate IsPrefix<T(==)>(a: seq<T>, b: seq<T>)
  {
    |a| <= |b| && b[..|a|] == a
  }

  lemma AdvancesKeepsRanked(w: World, r: World, layer: seq<nat>)
    requires Ranked(w, layer) && Advances(w.logs, r.logs)
    ensures Ranked(r, layer)
  {
    forall i, level | 0 <= i < |r.logs|
      ensures TargetsBelow(Targets(r.logs[i], level), layer, layer[i])
    {
      assert Setup(r.logs[i]).listeners == Setup(w.logs[i]).listeners;
      assert Targets(r.logs[i], level) == Targets(w.logs[i], level);
    }
  }

  /** The ranking only depends on the listener tables. */
  lemma ListenersKeepRanked(w: World, r: World, layer: seq<nat>)
    requires Ranked(w, layer) && |r.logs| == |w.logs|
    requires forall i :: 0 <= i < |w.logs| ==> r.logs[i].listeners == w.logs[i].listeners
    ensures Ranked(r, layer)
  {
    forall i, level | 0 <= i < |r.logs|
      ensures TargetsBelow(Targets(r.logs[i], level), layer, layer[i])
    {
      assert Targets(r.logs[i], level) == Targets(w.logs[i], level);
    }
  }

  lemma TargetsBelowSnoc(ts: seq<nat>, layer: seq<nat>, bound: nat, host: nat)
    requires TargetsBelow(ts, layer, bound) && host < |layer| && layer[host] < bound
    ensures TargetsBelow(ts + [host], layer, bound)
  {
    forall k | 0 <= k < |ts| + 1
      ensures (ts + [host])[k] < |layer| && layer[(ts + [host])[k]] < bound
    {
      if k < |ts| {
        assert (ts + [host])[k] == ts[k];
      }
    }
  }

  /** `host.bind(src)` with the host in a lower layer keeps the ranking. */
  lemma BoundKeepsRanked(w: World, layer: seq<nat>, host: nat, src: nat)
    requires Ranked(w, layer) && host < |w.logs| && src < |w.logs| && layer[host] < layer[src]
    ensures Ranked(w.(logs := w.logs[src := Bound(w.logs[src], host)]), layer)
  {
    var lg := w.logs[src];
    var r := w.(logs := w.logs[src := Bound(lg, host)]);
    forall i, level | 0 <= i < |r.logs|
      ensures TargetsBelow(Targets(r.logs[i], level), layer, layer[i])
    {
      if i == src {
        assert TargetsBelow(Targets(lg, level), layer, layer[src]);
        if level != Trace {
          TargetsBelowSnoc(Targets(lg, level), layer, layer[src], host);
        }
      } else {
        assert r.logs[i] == w.logs[i];
      }
    }
  }

  /** `host.bind(src)` registers no trace listener, so it keeps the invariants. */
  lemma BoundKeepsCoherent(w: World, host: nat, src: nat)
    requires Coherent(w) && src < |w.logs|
    ensures Coherent(w.(logs := w.logs[src := Bound(w.logs[src], host)]))
  {
    var r := w.(logs := w.logs[src := Bound(w.logs[src], host)]);
    assert WellFormed(w.logs[src]);
    forall i | 0 <= i < |r.logs|
      ensures WellFormed(r.logs[i])
    {
      if i != src {
        assert r.logs[i] == w.logs[i];
      }
    }
  }

  lemma AdvancesTrans(a: seq<Log>, b: seq<Log>, c: seq<Log>)
    requires Advances(a, b) && Advances(b, c)
    ensures Advances(a, c)
  {
  }

  /**
   * startWrite, up to the point where it returns: the size warning, then
   * either a stream open left pending (file sink on) or the queue emptied.
   */
  function StartWrite(w: World, id: nat): (r: World)
    requires id < |w.logs|
  {
    var lg := w.logs[id];
    var console := if |lg.writingQueue| > QueueLimit then w.console + [(Stderr, QueueTooBig)] else w.console;
    if lg.writeToFile then
      World(w.logs[id := lg.(pendingOpens := lg.pendingOpens + 1)], console)
    else
      World(w.logs[id := lg.(writingQueue := [])], console)
  }

  /**
   * What one emitting method does after it has raised its event: debug
   * prints when console and verbose are both on; the others render, queue,
   * echo and run startWrite.
   */
  function EmitOwn(w: World, id: nat, ev: Event, time: string): (r: World)
    requires id < |w.logs|
    ensures Advances(w.logs, r.logs) && IsPrefix(w.console, r.console)
    ensures forall j :: 0 <= j < |w.logs| && j != id ==> r.logs[j] == w.logs[j]
    ensures Coherent(w) ==> Coherent(r)
  {
    var lg := w.logs[id];
    var m := LineOf(ev, time);
    if ev.level == Debug then
      if lg.writeToConsole && lg.verbose then w.(console := w.console + [(Stdout, m)]) else w
    else
      var queued := lg.(writingQueue := lg.writingQueue + [m]);
      var console := if lg.writeToConsole then w.console + [(StreamOf(ev.level), m)] else w.console;
      StartWrite(World(w.logs[id := queued], console), id)
  }

  /**
   * One emitting call of logger `id`: the event first reaches every listener
   * registered for its level, in bind order, each calling the same-named
   * method of its logger with the same tag and message; then the logger
   * does its own part. Nothing but queues, pending opens and the console
   * changes, and no logger at or above the caller's layer other than the
   * caller is touched.
   */
  function Emit(w: World, layer: seq<nat>, id: nat, ev: Event, time: string): (r: World)
    requires Ranked(w, layer) && id < |w.logs|
    ensures Ranked(r, layer) && Advances(w.logs, r.logs) && IsPrefix(w.console, r.console)
    ensures forall j :: 0 <= j < |w.logs| && j != id && layer[j] >= layer[id] ==> r.logs[j] == w.logs[j]
    ensures Coherent(w) ==> Coherent(r)
    decreases layer[id], 1, 0
  {
    var relayed := Relay(w, layer, layer[id], ev, Targets(w.logs[id], ev.level), time);
    var r := EmitOwn(relayed, id, ev, time);
    AdvancesTrans(w.logs, relayed.logs, r.logs);
    AdvancesKeepsRanked(w, r, layer);
    r
  }

  /** The listeners `ts` each receiving the event in turn. */
  function Relay(w: World, layer: seq<nat>, bound: nat, ev: Event, ts: seq<nat>, time: string): (r: World)
    requires Ranked(w, layer) && TargetsBelow(ts, layer, bound)
    ensures Ranked(r, layer) && Advances(w.logs, r.logs) && IsPrefix(w.console, r.console)
    ensures forall j :: 0 <= j < |w.logs| && layer[j] >= bound ==> r.logs[j] == w.logs[j]
    ensures Coherent(w) ==> Coherent(r)
    decreases bound, 0, |ts|
  {
    if ts == [] then w
    else
      var w1 := Emit(w, layer, ts[0], ev, time);
      var r := Relay(w1, layer, bound, ev, ts[1..], time);
      AdvancesTrans(w.logs, w1.logs, r.logs);
      r
  }

  /** Relaying to a non-empty list is the first listener's emission, then the rest. */
  lemma RelayFirst(w: World, layer: seq<nat>, bound: nat, ev: Event, ts: seq<nat>, time: string)
    requires Ranked(w, layer) && TargetsBelow(ts, layer, bound) && ts != []
    ensures ts[0] < |w.logs| && layer[ts[0]] < bound && TargetsBelow(ts[1..], layer, bound)
    ensures Relay(w, layer, bound, ev, ts, time) == Relay(Emit(w, layer, ts[0], ev, time), layer, bound, ev, ts[1..], time)
  {
  }

  /** Logger `id` with the first `n` lines of its queue written to its file. */
  function Written(w: World, id: nat, n: nat): (r: World)
    requires id < |w.logs| && n <= |w.logs[id].writingQueue|
    ensures |r.logs| == |w.logs| && r.console == w.console
    ensures forall j :: 0 <= j < |w.logs| ==> r.logs[j].listeners == w.logs[j].listeners
    ensures Coherent(w) ==> Coherent(r)
  {
    var lg := w.logs[id];
    w.(logs := w.logs[id := lg.(file := lg.file + Terminated(lg.writingQueue[..n]))])
  }

  /** The end of the open handler: the queue emptied and the open retired. */
  function Retired(w: World, id: nat): (r: World)
    requires id < |w.logs| && w.logs[id].pendingOpens > 0
    ensures |r.logs| == |w.logs| && r.console == w.console
    ensures forall j :: 0 <= j < |w.logs| ==> r.logs[j].listeners == w.logs[j].listeners
    ensures Coherent(w) ==> Coherent(r)
  {
    var lg := w.logs[id];
    w.(logs := w.logs[id := lg.(writingQueue := [], pendingOpens := lg.pendingOpens - 1)])
  }

  /** Logger `id` with its file sink off. */
  function FileOff(w: World, id: nat): (r: World)
    requires id < |w.logs|
    ensures |r.logs| == |w.logs| && r.console == w.console
    ensures forall j :: 0 <= j < |w.logs| ==> r.logs[j].listeners == w.logs[j].listeners
    ensures Coherent(w) ==> Coherent(r)
  {
    w.(logs := w.logs[id := w.logs[id].(writeToFile := false)])
  }

  /**
   * The handler a pending stream open runs: the queue is written in order,
   * each line with a newline, until the write at `failAt` (if any) fails; a
   * failure is reported through the logger's own error method while the file
   * sink is still on, and then turns the file sink off. The queue is emptied
   * at the end either way, and the open is no longer pending.
   */
  function Open(w: World, layer: seq<nat>, id: nat, failAt: Option<nat>, reason: string, time: string): (r: World)
    requires Ranked(w, layer) && id < |w.logs| && w.logs[id].pendingOpens > 0
    requires failAt.Some? ==> failAt.value < |w.logs[id].writingQueue|
    ensures Ranked(r, layer) && |r.logs| == |w.logs|
    ensures Coherent(w) ==> Coherent(r)
  {
    match failAt
    case None =>
      var r := Retired(Written(w, id, |w.logs[id].writingQueue|), id);
      ListenersKeepRanked(w, r, layer);
      r
    case Some(k) =>
      var written := Written(w, id, k);
      ListenersKeepRanked(w, written, layer);
      var reported := Emit(written, layer, id, WriteFailure(reason), time);
      var r := Retired(FileOff(reported, id), id);
      ListenersKeepRanked(reported, r, layer);
      r
  }
}

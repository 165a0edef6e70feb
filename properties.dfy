/**
 * What the logger promises, stated over the functions of module Logs: what
 * one emitting call does to its own logger and to the console, how a bound
 * logger's events reach its host, what a run of calls leaves in the queue,
 * and what an open writes to the file.
 */
module Properties {
  import opened Options
  import opened Format
  import opened Logs

  /**
   * info, warn, error, fatal and trace append their one rendered line to the
   * end of the queue, earlier entries unchanged, and leave an open pending;
   * with the file sink off the queue is empty afterwards. The file is not
   * written during the call.
   */
  lemma EmitQueues(w: World, layer: seq<nat>, id: nat, ev: Event, time: string)
    requires Ranked(w, layer) && id < |w.logs| && ev.level != Debug
    ensures var lg, after := w.logs[id], Emit(w, layer, id, ev, time).logs[id];
      after.writingQueue == (if lg.writeToFile then lg.writingQueue + [LineOf(ev, time)] else []) &&
      after.pendingOpens == lg.pendingOpens + (if lg.writeToFile then 1 else 0) &&
      after.file == lg.file && after.writeToFile == lg.writeToFile
  {
    var relayed := Relay(w, layer, layer[id], ev, Targets(w.logs[id], ev.level), time);
    assert relayed.logs[id] == w.logs[id];
  }

  /** debug leaves its logger exactly as it was: no queue entry, no open, no file write. */
  lemma DebugLeavesLogger(w: World, layer: seq<nat>, id: nat, ev: Event, time: string)
    requires Ranked(w, layer) && id < |w.logs| && ev.level == Debug
    ensures Emit(w, layer, id, ev, time).logs[id] == w.logs[id]
  {
    var relayed := Relay(w, layer, layer[id], ev, Targets(w.logs[id], ev.level), time);
    assert relayed.logs[id] == w.logs[id];
  }

  /** A trace line is the plain line of its tag, time and message followed by the trace header and the stack. */
  lemma TraceLineCarriesStack(tag: string, message: string, stack: string, time: string)
    ensures LineOf(Event(Trace, tag, message, stack), time) == Render('T', tag, time, message) + "\n\tTrace:\n\t" + stack
  {
    assert TraceHeader == "\n\tTrace:\n\t";
  }

  /**
   * The console during one call: first whatever the listeners print, then
   * the logger's own output. debug prints to stdout only when both the
   * console sink and verbose are on; info and warn print to stdout, error,
   * fatal and trace to stderr, and only with the console sink on; a queue
   * that has grown past 50 lines adds one warning on stderr.
   */
  lemma EmitConsole(w: World, layer: seq<nat>, id: nat, ev: Event, time: string)
    requires Ranked(w, layer) && id < |w.logs|
    ensures var lg := w.logs[id];
      var relayed := Relay(w, layer, layer[id], ev, Targets(lg, ev.level), time).console;
      var console := Emit(w, layer, id, ev, time).console;
      var m := LineOf(ev, time);
      IsPrefix(relayed, console) &&
      (ev.level == Debug ==>
         console[|relayed|..] == (if lg.writeToConsole && lg.verbose then [(Stdout, m)] else [])) &&
      (ev.level != Debug ==>
         console[|relayed|..] ==
           (if lg.writeToConsole then [(if ev.level == Info || ev.level == Warn then Stdout else Stderr, m)] else []) +
           (if |lg.writingQueue| >= QueueLimit then [(Stderr, QueueTooBig)] else []))
  {
    var relayed := Relay(w, layer, layer[id], ev, Targets(w.logs[id], ev.level), time);
    assert relayed.logs[id] == w.logs[id];
    var console := Emit(w, layer, id, ev, time).console;
    assert console == EmitOwn(relayed, id, ev, time).console;
  }

  /**
   * Trace events are never relayed: with no trace listener registered (bind
   * registers none), trace is the logger's own part alone.
   */
  lemma TraceNotRelayed(w: World, layer: seq<nat>, id: nat, ev: Event, time: string)
    requires Ranked(w, layer) && Coherent(w) && id < |w.logs| && ev.level == Trace
    ensures Emit(w, layer, id, ev, time) == EmitOwn(w, id, ev, time)
  {
    assert WellFormed(w.logs[id]);
    assert Targets(w.logs[id], Trace) == [];
  }

  /**
   * A logger whose sinks getInstanceForBinding turned off and whose only
   * listener for the level is `host` produces, through one call, exactly what
   * the same call made on `host` would: the same lines in the host's queue
   * and on the console, and nothing of its own.
   */
  lemma BoundSourceSpeaksThroughHost(w: World, layer: seq<nat>, src: nat, host: nat, ev: Event, time: string)
    requires Ranked(w, layer) && src < |w.logs| && host < |w.logs|
    requires Targets(w.logs[src], ev.level) == [host]
    requires !w.logs[src].writeToConsole && !w.logs[src].writeToFile && w.logs[src].writingQueue == []
    ensures Emit(w, layer, src, ev, time) == Emit(w, layer, host, ev, time)
  {
    var direct := Emit(w, layer, host, ev, time);
    var relayed := Relay(w, layer, layer[src], ev, [host], time);
    assert [host][1..] == [];
    assert relayed == Relay(direct, layer, layer[src], ev, [], time);
    assert direct.logs[src] == w.logs[src];
    var r := EmitOwn(relayed, src, ev, time);
    assert r.logs[src] == direct.logs[src];
    assert r.logs == direct.logs;
  }

  /**
   * Relaying to a list that ends with `host` is relaying to the rest of the
   * list, then `host`'s own emission: a host bound last is called last.
   */
  lemma {:induction false} RelaySnoc(w: World, layer: seq<nat>, bound: nat, ev: Event, ts: seq<nat>, host: nat, time: string)
    requires Ranked(w, layer) && TargetsBelow(ts, layer, bound) && host < |w.logs| && layer[host] < bound
    ensures TargetsBelow(ts + [host], layer, bound)
    ensures Relay(w, layer, bound, ev, ts + [host], time) == Emit(Relay(w, layer, bound, ev, ts, time), layer, host, ev, time)
    decreases |ts|
  {
    TargetsBelowSnoc(ts, layer, bound, host);
    if ts == [] {
      assert [host][1..] == [];
      assert ([] + [host]) == [host];
    } else {
      var w1 := Emit(w, layer, ts[0], ev, time);
      assert (ts + [host])[0] == ts[0];
      assert (ts + [host])[1..] == ts[1..] + [host];
      RelaySnoc(w1, layer, bound, ev, ts[1..], host, time);
    }
  }

  /**
   * A call on a logger whose listener list for the level ends with `host`
   * (as `host.bind(src)` leaves it, whatever the source's sinks): the
   * earlier listeners run, then exactly the same call on `host`, then the
   * logger's own part.
   */
  lemma RelayLast(w: World, layer: seq<nat>, src: nat, host: nat, ts: seq<nat>, ev: Event, time: string)
    requires Ranked(w, layer) && src < |w.logs| && Targets(w.logs[src], ev.level) == ts + [host]
    ensures TargetsBelow(ts, layer, layer[src]) && host < |w.logs| && layer[host] < layer[src]
    ensures Emit(w, layer, src, ev, time) ==
      EmitOwn(Emit(Relay(w, layer, layer[src], ev, ts, time), layer, host, ev, time), src, ev, time)
  {
    assert TargetsBelow(ts + [host], layer, layer[src]);
    assert (ts + [host])[|ts|] == host;
    forall k | 0 <= k < |ts|
      ensures ts[k] < |layer| && layer[ts[k]] < layer[src]
    {
      assert (ts + [host])[k] == ts[k];
    }
    RelaySnoc(w, layer, layer[src], ev, ts, host, time);
  }

  /**
   * What the host receives from a logger whose only listener for the level
   * is the host, whatever that logger's sinks: the host ends up exactly as
   * the same call made on the host leaves it.
   */
  lemma RelayReachesHost(w: World, layer: seq<nat>, src: nat, host: nat, ev: Event, time: string)
    requires Ranked(w, layer) && src < |w.logs| && host < |w.logs|
    requires Targets(w.logs[src], ev.level) == [host]
    ensures Emit(w, layer, src, ev, time).logs[host] == Emit(w, layer, host, ev, time).logs[host]
  {
    assert [host][1..] == [];
    var direct := Emit(w, layer, host, ev, time);
    assert Relay(w, layer, layer[src], ev, [host], time) == Relay(direct, layer, layer[src], ev, [], time);
  }

  /** One emitting call with the time tag it is rendered with. */
  datatype Call = Call(ev: Event, time: string)

  /** The calls made one after another on logger `id`. */
  function EmitAll(w: World, layer: seq<nat>, id: nat, calls: seq<Call>): (r: World)
    requires Ranked(w, layer) && id < |w.logs|
    ensures Ranked(r, layer) && Advances(w.logs, r.logs) && IsPrefix(w.console, r.console)
    ensures Coherent(w) ==> Coherent(r)
    decreases |calls|
  {
    if calls == [] then w
    else
      var w1 := Emit(w, layer, id, calls[0].ev, calls[0].time);
      var r := EmitAll(w1, layer, id, calls[1..]);
      AdvancesTrans(w.logs, w1.logs, r.logs);
      r
  }

  /** The lines the queued calls render, in call order: every call but debug. */
  function Queued(calls: seq<Call>): seq<string>
  {
    if calls == [] then []
    else if calls[0].ev.level == Debug then Queued(calls[1..])
    else [LineOf(calls[0].ev, calls[0].time)] + Queued(calls[1..])
  }

  /**
   * The first of a run of calls on a logger whose file sink is on queues
   * what `Queued` says of it and leaves one open per queued line.
   */
  lemma QueueStep(w: World, layer: seq<nat>, id: nat, calls: seq<Call>)
    requires Ranked(w, layer) && id < |w.logs| && w.logs[id].writeToFile && calls != []
    ensures var lg, after := w.logs[id], Emit(w, layer, id, calls[0].ev, calls[0].time).logs[id];
      after.writingQueue + Queued(calls[1..]) == lg.writingQueue + Queued(calls) &&
      after.pendingOpens + |Queued(calls[1..])| == lg.pendingOpens + |Queued(calls)| &&
      after.file == lg.file && after.writeToFile
  {
    var c, later := calls[0], Queued(calls[1..]);
    if c.ev.level == Debug {
      DebugLeavesLogger(w, layer, id, c.ev, c.time);
    } else {
      EmitQueues(w, layer, id, c.ev, c.time);
      AppendLine(w.logs[id].writingQueue, LineOf(c.ev, c.time), later);
    }
  }

  /** Queuing a line ahead of the later ones is appending both. */
  lemma AppendLine(q: seq<string>, m: string, later: seq<string>)
    ensures (q + [m]) + later == q + ([m] + later)
  {
  }

  /**
   * With the file sink on, a run of calls leaves the queue holding the old
   * entries followed by every non-debug line in call order, with one open
   * pending per queued line.
   */
  lemma {:induction false} QueueIsFifo(w: World, layer: seq<nat>, id: nat, calls: seq<Call>)
    requires Ranked(w, layer) && id < |w.logs| && w.logs[id].writeToFile
    ensures var lg, after := w.logs[id], EmitAll(w, layer, id, calls).logs[id];
      after.writingQueue == lg.writingQueue + Queued(calls) &&
      after.pendingOpens == lg.pendingOpens + |Queued(calls)| &&
      after.file == lg.file
    decreases |calls|
  {
    if calls != [] {
      var w1 := Emit(w, layer, id, calls[0].ev, calls[0].time);
      assert EmitAll(w, layer, id, calls) == EmitAll(w1, layer, id, calls[1..]);
      QueueStep(w, layer, id, calls);
      QueueIsFifo(w1, layer, id, calls[1..]);
    }
  }

  /**
   * With the file sink off, the queue is emptied by every queued call, no
   * open is left pending and the file gains nothing.
   */
  lemma {:induction false} FileOffDiscards(w: World, layer: seq<nat>, id: nat, calls: seq<Call>)
    requires Ranked(w, layer) && id < |w.logs| && !w.logs[id].writeToFile
    ensures var lg, after := w.logs[id], EmitAll(w, layer, id, calls).logs[id];
      after.writingQueue == (if Queued(calls) == [] then lg.writingQueue else []) &&
      after.pendingOpens == lg.pendingOpens &&
      after.file == lg.file
    decreases |calls|
  {
    if calls != [] {
      var w1 := Emit(w, layer, id, calls[0].ev, calls[0].time);
      if calls[0].ev.level == Debug {
        DebugLeavesLogger(w, layer, id, calls[0].ev, calls[0].time);
      } else {
        EmitQueues(w, layer, id, calls[0].ev, calls[0].time);
      }
      FileOffDiscards(w1, layer, id, calls[1..]);
    }
  }

  /**
   * An open whose writes all succeed appends every queued line, in queue
   * order and each with its newline, to the file, and empties the queue;
   * nothing else changes. An open that finds the queue empty writes nothing.
   */
  lemma OpenWritesQueue(w: World, layer: seq<nat>, id: nat, reason: string, time: string)
    requires Ranked(w, layer) && id < |w.logs| && w.logs[id].pendingOpens > 0
    ensures var lg, r := w.logs[id], Open(w, layer, id, None, reason, time);
      |r.logs[id].file| == |lg.file| + |lg.writingQueue| &&
      r.logs[id].file[..|lg.file|] == lg.file &&
      (forall k :: 0 <= k < |lg.writingQueue| ==> r.logs[id].file[|lg.file| + k] == lg.writingQueue[k] + "\n") &&
      r.logs[id] == lg.(file := r.logs[id].file, writingQueue := [], pendingOpens := lg.pendingOpens - 1) &&
      r.console == w.console &&
      forall j :: 0 <= j < |w.logs| && j != id ==> r.logs[j] == w.logs[j]
  {
    var q := w.logs[id].writingQueue;
    assert q[..|q|] == q;
  }

  /**
   * An open whose write at index k fails writes the lines before k, reports
   * the failure through the logger's own error method (the line reaches
   * stderr when the console sink is on), and leaves the file sink off and
   * the queue empty. The report's own startWrite ran while the file sink was
   * still on, so the open count is back where it was if it was on.
   */
  lemma OpenFailure(w: World, layer: seq<nat>, id: nat, k: nat, reason: string, time: string)
    requires Ranked(w, layer) && id < |w.logs| && w.logs[id].pendingOpens > 0
    requires k < |w.logs[id].writingQueue|
    ensures var lg, r := w.logs[id], Open(w, layer, id, Some(k), reason, time);
      r.logs[id].file == lg.file + Terminated(lg.writingQueue[..k]) &&
      !r.logs[id].writeToFile && r.logs[id].writingQueue == [] &&
      r.logs[id].pendingOpens == lg.pendingOpens + (if lg.writeToFile then 0 else -1) &&
      r.logs[id].writeToConsole == lg.writeToConsole && r.logs[id].verbose == lg.verbose &&
      (lg.writeToConsole ==> (Stderr, LineOf(WriteFailure(reason), time)) in r.console[|w.console|..])
  {
    var written := Written(w, id, k);
    ListenersKeepRanked(w, written, layer);
    var ev := WriteFailure(reason);
    EmitQueues(written, layer, id, ev, time);
    EmitConsole(written, layer, id, ev, time);
    var relayed := Relay(written, layer, layer[id], ev, Targets(written.logs[id], ev.level), time);
    var reported := Emit(written, layer, id, ev, time);
    if w.logs[id].writeToConsole {
      assert reported.console[|relayed.console|] == (Stderr, LineOf(ev, time));
      assert IsPrefix(written.console, relayed.console);
      assert reported.console[|relayed.console|] in reported.console[|w.console|..];
    }
  }

  /**
   * The console after a failed write, exactly: whatever the logger's error
   * listeners print, then the error line on stderr if the console sink is
   * on, then the size warning if the queue had reached 50 lines.
   */
  lemma OpenFailureConsole(w: World, layer: seq<nat>, id: nat, k: nat, reason: string, time: string)
    requires Ranked(w, layer) && id < |w.logs| && w.logs[id].pendingOpens > 0
    requires k < |w.logs[id].writingQueue|
    ensures Ranked(Written(w, id, k), layer)
    ensures var lg, r := w.logs[id], Open(w, layer, id, Some(k), reason, time);
      var relayed := Relay(Written(w, id, k), layer, layer[id], WriteFailure(reason), Targets(lg, Error), time).console;
      IsPrefix(w.console, relayed) && IsPrefix(relayed, r.console) &&
      r.console[|relayed|..] ==
        (if lg.writeToConsole then [(Stderr, LineOf(WriteFailure(reason), time))] else []) +
        (if |lg.writingQueue| >= QueueLimit then [(Stderr, QueueTooBig)] else [])
  {
    var written := Written(w, id, k);
    ListenersKeepRanked(w, written, layer);
    EmitConsole(written, layer, id, WriteFailure(reason), time);
  }

  /**
   * From an empty queue with the file sink on, a run of calls followed by an
   * open that succeeds leaves the file with exactly the non-debug lines, in
   * call order, each with its newline.
   */
  lemma FlushWritesCallsInOrder(w: World, layer: seq<nat>, id: nat, calls: seq<Call>, reason: string, time: string)
    requires Ranked(w, layer) && id < |w.logs| && w.logs[id].writeToFile && w.logs[id].writingQueue == []
    requires Queued(calls) != []
    ensures var mid := EmitAll(w, layer, id, calls);
      mid.logs[id].pendingOpens > 0 &&
      Open(mid, layer, id, None, reason, time).logs[id].file == w.logs[id].file + Terminated(Queued(calls))
  {
    var mid := EmitAll(w, layer, id, calls);
    QueueIsFifo(w, layer, id, calls);
    var q := Queued(calls);
    assert mid.logs[id].writingQueue == q && |q| > 0;
    assert q[..|q|] == q;
    var written := Written(mid, id, |q|);
    assert written.logs[id].file == w.logs[id].file + Terminated(q);
    assert Open(mid, layer, id, None, reason, time) == Retired(written, id);
  }
}

/**
 * The Log instances of one process as objects that change in place: each
 * method of `Loggers` is one method of a Log instance (the instance named by
 * its number), or the environment's "open" event for a write stream that
 * startWrite created. Every method is proved against the functions of module
 * Logs.
 */
module Runtime {
  import opened Options
  import opened Format
  import opened Logs

  class Loggers {
    /** The fields of every Log instance made so far, by number. */
    var logs: seq<Log>
    /** Everything printed to the process's console, in order. */
    var console: seq<Output>
    /** The layer of each logger; bind only relays from a higher layer to a lower one. */
    ghost var layer: seq<nat>

    function Value(): World
      reads this
    {
      World(logs, console)
    }

    ghost predicate Valid()
      reads this
    {
      Ranked(Value(), layer) && Coherent(Value())
    }

    constructor ()
      ensures Valid() && logs == [] && console == [] && layer == []
    {
      logs, console, layer := [], [], [];
    }

    /**
     * `new Log(filePath)`: with a path the file is truncated and the file sink
     * is on, without one it is off; the console sink is on, verbose is off and
     * the queue is empty. If truncating the path fails the constructor throws
     * and no logger is made.
     */
    method NewLog(filePath: Option<string>, truncateFails: bool, ghost level: nat) returns (r: Option<nat>)
      requires Valid()
      modifies this
      ensures Valid() && console == old(console)
      ensures r.None? <==> filePath.Some? && truncateFails
      ensures r.None? ==> logs == old(logs) && layer == old(layer)
      ensures r.Some? ==> r.value == |old(logs)| && logs == old(logs) + [Fresh(filePath)] && layer == old(layer) + [level]
      ensures r.Some? ==> var lg := logs[r.value];
        (lg.writeToFile <==> filePath.Some?) && lg.file == [] && lg.filePath == filePath &&
        lg.writeToConsole && !lg.verbose && lg.writingQueue == [] && lg.pendingOpens == 0 &&
        forall level :: Targets(lg, level) == []
    {
      if filePath.Some? && truncateFails {
        return None;
      }
      logs := logs + [Fresh(filePath)];
      layer := layer + [level];
      r := Some(|logs| - 1);
      assert forall i :: 0 <= i < |old(logs)| ==> logs[i] == old(logs)[i];
    }

    method SetWriteToConsole(id: nat, writeToConsole: bool)
      requires Valid() && id < |logs|
      modifies this
      ensures Valid() && layer == old(layer) && console == old(console)
      ensures logs == old(logs)[id := old(logs)[id].(writeToConsole := writeToConsole)]
    {
      logs := logs[id := logs[id].(writeToConsole := writeToConsole)];
      ListenersKeepRanked(old(Value()), Value(), layer);
    }

    /** Only a logger made with a path can have its file sink turned on. */
    method SetWriteToFile(id: nat, writeToFile: bool)
      requires Valid() && id < |logs|
      requires writeToFile ==> logs[id].filePath.Some?
      modifies this
      ensures Valid() && layer == old(layer) && console == old(console)
      ensures logs == old(logs)[id := old(logs)[id].(writeToFile := writeToFile)]
    {
      logs := logs[id := logs[id].(writeToFile := writeToFile)];
      ListenersKeepRanked(old(Value()), Value(), layer);
    }

    method SetVerbose(id: nat, verbose: bool)
      requires Valid() && id < |logs|
      modifies this
      ensures Valid() && layer == old(layer) && console == old(console)
      ensures logs == old(logs)[id := old(logs)[id].(verbose := verbose)]
    {
      logs := logs[id := logs[id].(verbose := verbose)];
      ListenersKeepRanked(old(Value()), Value(), layer);
    }

    /** Both sinks off; the same logger is returned. */
    method GetInstanceForBinding(id: nat) returns (same: nat)
      requires Valid() && id < |logs|
      modifies this
      ensures Valid() && layer == old(layer) && console == old(console)
      ensures same == id
      ensures logs == old(logs)[id := old(logs)[id].(writeToFile := false, writeToConsole := false)]
    {
      logs := logs[id := logs[id].(writeToFile := false)];
      logs := logs[id := logs[id].(writeToConsole := false)];
      ListenersKeepRanked(old(Value()), Value(), layer);
      same := id;
    }

    /**
     * `host.bind(src)`: logger `src` gains, for each of debug, info, warn,
     * error and fatal, a listener that calls the same method of `host`.
     * Binding the same pair twice relays twice.
     */
    method Bind(host: nat, src: nat)
      requires Valid() && host < |logs| && src < |logs| && layer[host] < layer[src]
      modifies this
      ensures Valid() && layer == old(layer) && console == old(console)
      ensures logs == old(logs)[src := Bound(old(logs)[src], host)]
    {
      BoundKeepsRanked(Value(), layer, host, src);
      BoundKeepsCoherent(Value(), host, src);
      // one listener per relayed level, each calling the same method of `host`
      logs := logs[src := Bound(logs[src], host)];
    }

    /** startWrite: the size warning, then a stream open left pending or the queue emptied. */
    method StartWrite(id: nat)
      requires id < |logs|
      modifies this
      ensures layer == old(layer)
      ensures Value() == Logs.StartWrite(old(Value()), id)
    {
      if |logs[id].writingQueue| > QueueLimit {
        console := console + [(Stderr, QueueTooBig)];
      }
      if logs[id].writeToFile {
        // the stream's "open" handler runs later, as OnOpen
        logs := logs[id := logs[id].(pendingOpens := logs[id].pendingOpens + 1)];
      } else {
        logs := logs[id := logs[id].(writingQueue := [])];
      }
    }

    /** The part of an emitting method that follows its event. */
    method EmitOwn(id: nat, ev: Event, time: string)
      requires id < |logs|
      modifies this
      ensures layer == old(layer)
      ensures Value() == Logs.EmitOwn(old(Value()), id, ev, time)
    {
      if ev.level == Format.Debug {
        if logs[id].writeToConsole && logs[id].verbose {
          console := console + [(Stdout, LineOf(ev, time))];
        }
      } else {
        var m := LineOf(ev, time);
        logs := logs[id := logs[id].(writingQueue := logs[id].writingQueue + [m])];
        if logs[id].writeToConsole {
          console := console + [(StreamOf(ev.level), m)];
        }
        StartWrite(id);
      }
    }

    /** An emitting method: the event reaches each listener in bind order, then the logger's own part. */
    method Emit(id: nat, ev: Event, time: string)
      requires Valid() && id < |logs|
      modifies this
      ensures Valid() && layer == old(layer)
      ensures Value() == Logs.Emit(old(Value()), layer, id, ev, time)
      decreases layer[id]
    {
      ghost var w0 := Value();
      var targets := Targets(logs[id], ev.level);
      assert TargetsBelow(targets, layer, layer[id]);
      var i := 0;
      while i < |targets|
        invariant 0 <= i <= |targets|
        invariant Valid() && layer == old(layer) && |logs| == |w0.logs|
        invariant Relay(Value(), layer, layer[id], ev, targets[i..], time) == Relay(w0, layer, layer[id], ev, targets, time)
      {
        RelayFirst(Value(), layer, layer[id], ev, targets[i..], time);
        assert targets[i..][1..] == targets[i + 1..];
        Emit(targets[i], ev, time);
        i := i + 1;
      }
      assert targets[i..] == [];
      EmitOwn(id, ev, time);
      assert Value() == Logs.Emit(w0, layer, id, ev, time);
    }

    method Debug(id: nat, tag: string, message: string, time: string)
      requires Valid() && id < |logs|
      modifies this
      ensures Valid() && layer == old(layer)
      ensures Value() == Logs.Emit(old(Value()), layer, id, Event(Format.Debug, tag, message, ""), time)
    {
      Emit(id, Event(Format.Debug, tag, message, ""), time);
    }

    method Info(id: nat, tag: string, message: string, time: string)
      requires Valid() && id < |logs|
      modifies this
      ensures Valid() && layer == old(layer)
      ensures Value() == Logs.Emit(old(Value()), layer, id, Event(Format.Info, tag, message, ""), time)
    {
      Emit(id, Event(Format.Info, tag, message, ""), time);
    }

    method Warn(id: nat, tag: string, message: string, time: string)
      requires Valid() && id < |logs|
      modifies this
      ensures Valid() && layer == old(layer)
      ensures Value() == Logs.Emit(old(Value()), layer, id, Event(Format.Warn, tag, message, ""), time)
    {
      Emit(id, Event(Format.Warn, tag, message, ""), time);
    }

    method Error(id: nat, tag: string, message: string, time: string)
      requires Valid() && id < |logs|
      modifies this
      ensures Valid() && layer == old(layer)
      ensures Value() == Logs.Emit(old(Value()), layer, id, Event(Format.Error, tag, message, ""), time)
    {
      Emit(id, Event(Format.Error, tag, message, ""), time);
    }

    method Fatal(id: nat, tag: string, message: string, time: string)
      requires Valid() && id < |logs|
      modifies this
      ensures Valid() && layer == old(layer)
      ensures Value() == Logs.Emit(old(Value()), layer, id, Event(Format.Fatal, tag, message, ""), time)
    {
      Emit(id, Event(Format.Fatal, tag, message, ""), time);
    }

    /** `stack` is the error's stack text. */
    method Trace(id: nat, tag: string, message: string, stack: string, time: string)
      requires Valid() && id < |logs|
      modifies this
      ensures Valid() && layer == old(layer)
      ensures Value() == Logs.Emit(old(Value()), layer, id, Event(Format.Trace, tag, message, stack), time)
    {
      Emit(id, Event(Format.Trace, tag, message, stack), time);
    }

    /** The first `n` lines of logger `id`'s queue written to its file, in order, each with a newline. */
    method WriteLines(id: nat, n: nat)
      requires id < |logs| && n <= |logs[id].writingQueue|
      modifies this
      ensures layer == old(layer)
      ensures Value() == Written(old(Value()), id, n)
    {
      ghost var w0 := Value();
      var queue := logs[id].writingQueue;
      ghost var file0 := logs[id].file;
      assert Terminated(queue[..0]) == [] && file0 + [] == file0;
      assert w0.logs[id := w0.logs[id].(file := file0)] == w0.logs;
      var i := 0;
      while i < n
        invariant 0 <= i <= n
        invariant layer == old(layer)
        invariant logs == w0.logs[id := w0.logs[id].(file := file0 + Terminated(queue[..i]))]
        invariant console == w0.console
      {
        assert Terminated(queue[..i + 1]) == Terminated(queue[..i]) + [queue[i] + "\n"];
        assert (file0 + Terminated(queue[..i])) + [queue[i] + "\n"] == file0 + Terminated(queue[..i + 1]);
        logs := logs[id := logs[id].(file := logs[id].file + [queue[i] + "\n"])];
        i := i + 1;
      }
    }

    /**
     * The "open" event of a write stream logger `id`'s startWrite created:
     * each queued line is written with a newline, in order, until the write
     * at `failAt` fails (if it is given); a failure is logged through the
     * logger's own error method and turns its file sink off. The queue is
     * emptied either way.
     */
    method OnOpen(id: nat, failAt: Option<nat>, reason: string, time: string)
      requires Valid() && id < |logs| && logs[id].pendingOpens > 0
      requires failAt.Some? ==> failAt.value < |logs[id].writingQueue|
      modifies this
      ensures Valid() && layer == old(layer)
      ensures Value() == Open(old(Value()), layer, id, failAt, reason, time)
    {
      ghost var w0 := Value();
      var n := if failAt.Some? then failAt.value else |logs[id].writingQueue|;
      WriteLines(id, n);
      ghost var written := Value();
      ListenersKeepRanked(w0, written, layer);
      if failAt.Some? {
        Error(id, "Log", WriteFailure(reason).message, time);
        ghost var reported := Value();
        assert reported == Logs.Emit(written, layer, id, WriteFailure(reason), time);
        logs := logs[id := logs[id].(writeToFile := false)];
        assert Value() == FileOff(reported, id);
      }
      ghost var w1 := Value();
      logs := logs[id := logs[id].(writingQueue := [], pendingOpens := logs[id].pendingOpens - 1)];
      assert Value() == Retired(w1, id);
      ListenersKeepRanked(w0, Value(), layer);
    }
  }
}

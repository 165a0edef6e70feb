/**
 * Clients of `Runtime.Loggers` that use only its contracts and the lemmas
 * about them: each builds loggers, makes calls, lets the environment open
 * the streams, and reports what the file and the console hold.
 */
module Scenarios {
  import opened Options
  import opened Format
  import opened Logs
  import opened Properties
  import opened Runtime

  /** A logger with a path, one info call, its stream opens: the file holds exactly that line. */
  method FileScenario(time: string) returns (file: seq<string>, console: seq<Output>)
    ensures file == ["[I/App][" + time + "]start\n"]
    ensures console == [(Stdout, "[I/App][" + time + "]start")]
  {
    var sys := new Loggers();
    var made := sys.NewLog(Some("/tmp/t.log"), false, 0);
    var id := made.value;
    var ev := Event(Format.Info, "App", "start", "");
    var m := LineOf(ev, time);
    assert m == "[I/App][" + time + "]start";
    ghost var w0 := sys.Value();
    assert Targets(w0.logs[id], Format.Info) == [];
    EmitQueues(w0, sys.layer, id, ev, time);
    EmitConsole(w0, sys.layer, id, ev, time);
    sys.Info(id, "App", "start", time);
    assert sys.console == [(Stdout, m)];
    assert sys.logs[id].writingQueue == [m];
    OpenWritesQueue(sys.Value(), sys.layer, id, "", time);
    sys.OnOpen(id, None, "", time);
    file := sys.logs[id].file;
    console := sys.console;
    assert |file| == 1 && file[0] == m + "\n";
    assert m + "\n" == "[I/App][" + time + "]start\n";
  }

  /** No path: an error call prints on stderr, leaves nothing queued and no stream to open. */
  method ConsoleOnlyScenario(time: string) returns (console: seq<Output>, pending: nat, queue: seq<string>)
    ensures console == [(Stderr, "[E/DB][" + time + "]conn failed")]
    ensures pending == 0 && queue == []
  {
    var sys := new Loggers();
    var made := sys.NewLog(None, false, 0);
    var id := made.value;
    var ev := Event(Format.Error, "DB", "conn failed", "");
    assert LineOf(ev, time) == "[E/DB][" + time + "]conn failed";
    ghost var w0 := sys.Value();
    assert Targets(w0.logs[id], Format.Error) == [];
    EmitQueues(w0, sys.layer, id, ev, time);
    EmitConsole(w0, sys.layer, id, ev, time);
    sys.Error(id, "DB", "conn failed", time);
    console, pending, queue := sys.console, sys.logs[id].pendingOpens, sys.logs[id].writingQueue;
  }

  /**
   * A library logger prepared with getInstanceForBinding and bound into a
   * host without a path: a warning on the library logger shows on the
   * console once, rendered by the host with the library's tag and message.
   */
  method BindingScenario(time: string) returns (console: seq<Output>, libQueue: seq<string>)
    ensures console == [(Stdout, "[W/Lib][" + time + "]oops")]
    ensures libQueue == []
  {
    var ev := Event(Format.Warn, "Lib", "oops", "");
    assert LineOf(ev, time) == "[W/Lib][" + time + "]oops";
    var sys := new Loggers();
    var h := sys.NewLog(None, false, 0);
    var host := h.value;
    var l := sys.NewLog(None, false, 1);
    ghost var hostLog := sys.logs[host];
    assert Targets(hostLog, Format.Warn) == [];
    var lib := sys.GetInstanceForBinding(l.value);
    ghost var libLog := sys.logs[lib];
    assert Targets(libLog, Format.Warn) == [];
    sys.Bind(host, lib);
    assert sys.logs[lib] == Bound(libLog, host) && sys.logs[host] == hostLog;
    assert Targets(Bound(libLog, host), Format.Warn) == [host];
    ghost var w0 := sys.Value();
    BoundSourceSpeaksThroughHost(w0, sys.layer, lib, host, ev, time);
    EmitConsole(w0, sys.layer, host, ev, time);
    EmitQueues(w0, sys.layer, lib, ev, time);
    sys.Warn(lib, "Lib", "oops", time);
    console, libQueue := sys.console, sys.logs[lib].writingQueue;
  }

  /**
   * Two info lines queued, the stream opens and the write of the second
   * fails: only the first reaches the file, the file sink is off, and a later
   * info call leaves no stream to open and nothing queued.
   */
  method WriteFailureScenario(time: string) returns (file: seq<string>, writeToFile: bool, queue: seq<string>, opensBefore: nat, opensAfter: nat)
    ensures file == ["[I/A][" + time + "]one\n"]
    ensures !writeToFile && queue == [] && opensAfter == opensBefore
  {
    var one := Event(Format.Info, "A", "one", "");
    var two := Event(Format.Info, "A", "two", "");
    var line := LineOf(one, time);
    assert line + "\n" == "[I/A][" + time + "]one\n";
    assert Terminated([line]) == [line + "\n"];
    var sys := new Loggers();
    var made := sys.NewLog(Some("/tmp/t.log"), false, 0);
    var id := made.value;
    EmitQueues(sys.Value(), sys.layer, id, one, time);
    sys.Info(id, "A", "one", time);
    EmitQueues(sys.Value(), sys.layer, id, two, time);
    sys.Info(id, "A", "two", time);
    ghost var lg := sys.logs[id];
    assert lg.writingQueue[..1] == [line] && lg.file == [];
    OpenFailure(sys.Value(), sys.layer, id, 1, "EBADF", time);
    sys.OnOpen(id, Some(1), "EBADF", time);
    file, writeToFile := sys.logs[id].file, sys.logs[id].writeToFile;
    opensBefore := sys.logs[id].pendingOpens;
    EmitQueues(sys.Value(), sys.layer, id, Event(Format.Info, "A", "three", ""), time);
    sys.Info(id, "A", "three", time);
    queue, opensAfter := sys.logs[id].writingQueue, sys.logs[id].pendingOpens;
  }

  /**
   * Sixty info calls while the stream has not opened yet: the queue grows
   * past 50 lines and startWrite warns on stderr, but nothing is held back;
   * when the first stream opens every line reaches the file and the queue
   * is empty.
   */
  method OversizedQueueScenario(time: string) returns (warned: bool, file: seq<string>, queue: seq<string>)
    ensures warned
    ensures |file| == 60 && queue == []
    ensures forall k :: 0 <= k < 60 ==> file[k] == "[I/Load][" + time + "]tick\n"
  {
    var tick := Event(Format.Info, "Load", "tick", "");
    var m := LineOf(tick, time);
    assert m + "\n" == "[I/Load][" + time + "]tick\n";
    var sys := new Loggers();
    var made := sys.NewLog(Some("/tmp/t.log"), false, 0);
    var id := made.value;
    var n := 0;
    while n < 60
      invariant 0 <= n <= 60
      invariant sys.Valid() && id < |sys.logs|
      invariant Targets(sys.logs[id], Format.Info) == []
      invariant sys.logs[id].writeToFile && sys.logs[id].file == []
      invariant sys.logs[id].writingQueue == seq(n, k => m) && sys.logs[id].pendingOpens == n
      invariant n > QueueLimit ==> (Stderr, QueueTooBig) in sys.console
    {
      ghost var before := sys.Value();
      EmitQueues(before, sys.layer, id, tick, time);
      EmitConsole(before, sys.layer, id, tick, time);
      sys.Info(id, "Load", "tick", time);
      assert sys.logs[id].writingQueue == seq(n + 1, k => m);
      if n == QueueLimit {
        ghost var relayed := Relay(before, sys.layer, sys.layer[id], tick, [], time);
        assert sys.console[|sys.console| - 1] == (Stderr, QueueTooBig);
      } else if n > QueueLimit {
        assert IsPrefix(before.console, sys.console);
        assert (Stderr, QueueTooBig) in before.console;
      }
      n := n + 1;
    }
    warned := (Stderr, QueueTooBig) in sys.console;
    OpenWritesQueue(sys.Value(), sys.layer, id, "", time);
    sys.OnOpen(id, None, "", time);
    file, queue := sys.logs[id].file, sys.logs[id].writingQueue;
  }
}

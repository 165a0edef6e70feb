# loggos `Log` — a Dafny model

This project models the `Log` class of loggos (`bin/log.js`). `Log` is a
leveled logger. Each call renders a line `[<code>/<tag>][<time>]<message>`.
The logger echoes the line to the console when that sink is on, and stages it
in a pending queue, `writingQueue`. `startWrite` drains the queue: at once if
the file sink is off, otherwise when a freshly created append stream opens.
`bind` lets one logger replay another logger's events through its own methods.

The model is organised as follows:

- `Format` (`format.dfy`) holds the rendered line, the code letters, and the
  console stream of each severity. It also has a parser that inverts rendering.
- `Logs` (`logs.dfy`) holds the state as values. `Log` is one instance's
  fields: `writeToFile`, `writeToConsole`, `verbose`, `filePath` and
  `writingQueue`, plus the content its file has gained, the number of stream
  opens still to come, and its listener table. `World` holds every logger of
  the process and the shared console. Each step is a function:
  - `Emit`: the event, then the logger's own part;
  - `Relay`: the listeners of an event, in bind order;
  - `EmitOwn` and `StartWrite`;
  - `Open`: the stream's "open" handler;
  - `Bound`: the listener table after `bind`.
- `Runtime` (`runtime.dfy`) is the imperative form. The class `Loggers` holds
  the loggers (`logs`), the console, and a ghost layer per logger. It has one
  method per `Log` method, and `OnOpen`, which the environment calls when a
  stream opens. Each emitting method, `StartWrite`, `WriteLines` and `OnOpen` is
  proved to equal the matching `Logs` function. The constructor, `NewLog`, the
  setters, `GetInstanceForBinding` and `Bind` are proved against the exact
  record update they make.
  `WriteLines`, called by `OnOpen`, writes the queue line by line in a loop, as
  the `async.each` in the source does.
- `Properties` (`properties.dfy`) states what those steps promise.
- `Scenarios` (`scenarios.dfy`) holds client methods. They build loggers, make
  calls, open the streams, and prove what the file and the console end up
  holding.

The I/O is modelled as follows:

- The console is a sequence of (stream, text) pairs.
- A logger's file is the sequence of strings written to it, each with its
  `'\n'`. Truncating at construction empties it.
- The time tag is an input string.
- A stream's "open" event is the method `OnOpen`. Each `startWrite` with the
  file sink on leaves one more open pending. A write failure is an oracle
  argument of `OnOpen`: the write at index k fails.

`bind` stores logger numbers in the listener list of each event kind. Each
logger is given a ghost layer when it is made, and `Bind` requires the host's
layer to be below the source's. This keeps the bind graph acyclic, which the
source leaves to its callers.

The model follows what the code does in two places where one might expect
otherwise:

- One might expect `bind` to relay trace events too. It registers no listener
  for them (`bin/log.js:121-147`), so trace is never relayed.
- One might expect the logger's own error line about a failed write to be
  dropped because the file sink is off. The sink is turned off only after the
  error call, and the line is cleared by the handler itself
  (`bin/log.js:174`). If the file sink was still on when the stream opened,
  that error's `startWrite` creates one more write stream. If the sink had
  been turned off in the meantime (by `setWriteToFile(false)` or
  `getInstanceForBinding`), it empties the queue instead.

## Model

| member | source | states |
|---|---|---|
| `Runtime.Loggers.NewLog` | bin/log.js:15-24 | the file sink is on exactly when a path is given, and then the file is empty; the console sink starts on, verbose starts off, the queue starts empty, and there are no listeners; if truncation fails, no logger is made and nothing changes |
| `Runtime.Loggers.SetWriteToConsole` | bin/log.js:26-28 | only `writeToConsole` of that logger changes |
| `Runtime.Loggers.SetWriteToFile` | bin/log.js:30-32 | only `writeToFile` of that logger changes |
| `Runtime.Loggers.SetVerbose` | bin/log.js:34-36 | only `verbose` of that logger changes |
| `Runtime.Loggers.Debug` | bin/log.js:38-48 | the new state is `Logs.Emit` of a debug event |
| `Runtime.Loggers.Info` | bin/log.js:50-62 | the new state is `Logs.Emit` of an info event |
| `Runtime.Loggers.Warn` | bin/log.js:64-76 | the new state is `Logs.Emit` of a warn event |
| `Runtime.Loggers.Error` | bin/log.js:78-90 | the new state is `Logs.Emit` of an error event |
| `Runtime.Loggers.Fatal` | bin/log.js:92-104 | the new state is `Logs.Emit` of a fatal event |
| `Runtime.Loggers.Trace` | bin/log.js:106-119 | the new state is `Logs.Emit` of a trace event carrying the stack |
| `Runtime.Loggers.Emit` | bin/log.js:52-61 | the listeners run in bind order, each calling its own logger's method, then the logger's own part; the invariants (acyclic binds, no stranded queued line) are kept |
| `Runtime.Loggers.EmitOwn` | bin/log.js:56-61 | the new state is `Logs.EmitOwn`: render, queue, echo, then startWrite |
| `Runtime.Loggers.StartWrite` | bin/log.js:149-181 | the size warning, then either one more pending open (file sink on) or an emptied queue (file sink off) |
| `Runtime.Loggers.WriteLines` | bin/log.js:162-167 | the loop writes the first n queued lines to the file in order, each with its newline; nothing else changes |
| `Runtime.Loggers.OnOpen` | bin/log.js:160-177 | the new state is `Logs.Open`: the queue is written up to the failing write, a failure is reported and turns the file sink off, and the queue is emptied |
| `Runtime.Loggers.Bind` | bin/log.js:121-147 | the source's listener table is `Bound` of the old one; nothing else changes |
| `Runtime.Loggers.GetInstanceForBinding` | bin/log.js:188-192 | both sinks are off, nothing else changes, and the same logger is returned |
| `Logs.Emit` | bin/log.js:38-119 | an emission never changes any logger's flags, path, listeners or file, and never loses a pending open; the console only grows; no logger other than the caller at or above the caller's layer is touched; every queued line still has an open pending |
| `Logs.Relay` | bin/log.js:121-147 | relaying to listeners of lower layers leaves every logger at or above the bound untouched, and otherwise has the same properties as `Logs.Emit` |
| `Logs.EmitOwn` | bin/log.js:44-61 | the logger's own part changes no other logger and keeps the invariants |
| `Logs.Bound` | bin/log.js:121-147 | after bind, the debug, info, warn, error and fatal listener lists each end with the host, and the trace list is unchanged |
| `Logs.BoundKeepsRanked` | bin/log.js:121-147 | binding a host of a lower layer keeps every listener pointing to a lower layer, so relaying ends |
| `Logs.BoundKeepsCoherent` | bin/log.js:121-147 | bind registers no trace listener and keeps the invariants of every logger |
| `Logs.Open` | bin/log.js:160-176 | the open handler keeps the bind ranking and keeps every queued line covered by a pending open |
| `Format.LevelOfCode` | bin/log.js:45 | the six code letters are distinct, and each letter names exactly its level |
| `Format.Parse` | bin/log.js:56 | a line the parser accepts is exactly the rendering of the parts it returns |
| `Format.ParseRender` | bin/log.js:56 | round trip: a rendered line parses back to its code, tag, time and message when the tag and time hold no `]` |
| `Properties.EmitQueues` | bin/log.js:56-61 | with the file sink on, info, warn, error, fatal and trace append exactly their line to the end of the queue and leave one more open pending; with it off, the queue is empty afterwards; the file is untouched |
| `Properties.DebugLeavesLogger` | bin/log.js:38-48 | debug leaves its logger (queue, opens, file) exactly as it was |
| `Properties.TraceLineCarriesStack` | bin/log.js:113 | a trace line is the plain line followed by `"\n\tTrace:\n\t"` and the stack |
| `Properties.EmitConsole` | bin/log.js:38-119 | listener output comes before the logger's own output; debug prints on stdout only if console and verbose are both on; info and warn print on stdout, error, fatal and trace on stderr, and only if console is on; a queue that grows past 50 adds one stderr warning |
| `Properties.TraceNotRelayed` | bin/log.js:106-147 | a trace call reaches no other logger |
| `Properties.BoundSourceSpeaksThroughHost` | bin/log.js:121-147 | a logger with both sinks off whose only listener is a host has exactly the effect the same call made on the host has |
| `Properties.RelaySnoc` | bin/log.js:121-147 | relaying to a list that ends with a host is relaying to the rest of the list and then the host's own emission, so hosts are called in bind order and binding twice calls twice |
| `Properties.RelayLast` | bin/log.js:121-147 | whatever the source's sinks, a call on a logger whose listener list ends with a host runs the earlier listeners, then exactly the same call on the host, then the logger's own part |
| `Properties.RelayReachesHost` | bin/log.js:121-147 | whatever the source's sinks, a host that is the only listener ends up exactly as the same call made on the host leaves it |
| `Properties.QueueStep` | bin/log.js:50-119 | one call with the file sink on queues exactly the line `Queued` gives it, with one pending open per queued line, and leaves the file alone |
| `Properties.QueueIsFifo` | bin/log.js:50-119 | with the file sink on, a run of calls leaves the queue as the old entries followed by every non-debug line in call order, with one pending open per line |
| `Properties.FileOffDiscards` | bin/log.js:178-180 | with the file sink off, every queued call leaves the queue empty, no open pending and the file unchanged |
| `Properties.OpenWritesQueue` | bin/log.js:160-175 | a successful open appends every queued line, in order and with its newline, to the file, empties the queue, and changes nothing else |
| `Properties.OpenFailure` | bin/log.js:163-174 | a write failing at index k leaves the lines before k in the file, the error line on stderr when the console sink is on, the file sink off and the queue empty |
| `Properties.OpenFailureConsole` | bin/log.js:168-171 | after a failed write the console gains exactly: the output of the logger's error listeners, then the error line on stderr if the console sink is on, then the size warning if the queue had reached 50 lines |
| `Properties.FlushWritesCallsInOrder` | bin/log.js:149-177 | from an empty queue, calls followed by a successful open leave the file with exactly the non-debug lines, in call order |
| `Scenarios.FileScenario` | bin/log.js:50-62 | one info call on a logger with a path, then an open: the file is exactly `[I/App][t]start\n`, and the console holds that line on stdout |
| `Scenarios.ConsoleOnlyScenario` | bin/log.js:78-90 | without a path, an error call prints on stderr and leaves no open pending and nothing queued |
| `Scenarios.BindingScenario` | bin/log.js:188-192 | a library logger from getInstanceForBinding, bound into a host: its warning shows on the console once, rendered by the host |
| `Scenarios.WriteFailureScenario` | bin/log.js:163-174 | two lines queued and the second write fails: only the first reaches the file, the file sink is off, and a later call queues nothing and opens nothing |
| `Scenarios.OversizedQueueScenario` | bin/log.js:151-153 | sixty calls before any open: the size warning is printed, and the first open still writes all sixty lines |

## Left out

- Console colours from the `colors` package: presentation only. The console holds plain text tagged with its stream.
- The locale time and date of `timeTag` (`bin/log.js:183-186`): the time tag is an input string. Listeners relaying one call use the same time tag as the call.
- The real `fs` calls and the `async` library: the file is a sequence of written strings, and a stream's open is the `OnOpen` step. Which pending open fires next, and when, is left to the caller of `OnOpen`.
- Runtime.Loggers.OnOpen: a write failure is modelled as "the write at index k fails, and the lines before k are written". In the source all writes are issued before any error event can arrive, and the iteration callback has already been called once by then. A real write error calls that callback a second time; with the `async` library's once-only guard on iteration callbacks this throws ("Callback was already called") and does not reach the recovery branch modelled here. A stream whose open itself fails emits `error` before any error listener is registered, which also ends the process. Neither crash is modelled.
- Runtime.Loggers.SetWriteToFile: requires a path when turning the file sink on. Without one, the source hands an undefined path to `fs.createWriteStream`, and what happens then is outside the model.
- Runtime.Loggers.Trace: takes the error's stack as a string. A trace call without an error object makes the source throw after the event is raised; that case is not modelled.
- Runtime.Loggers.Bind: requires the host's layer below the source's. Cyclic binds, including a logger bound to itself, recurse without end in the source.
- Each logger has its own file. Two loggers sharing one path, and the file's content before truncation, are not modelled.
- A `setWriteToFile` argument other than a boolean: `startWrite` tests `writeToFile === true`, and the model's flags are booleans.
- Node's `EventEmitter` and `util.inherits` are replaced by an explicit listener table. The model assumes the `util.inherits` call keeps the methods defined on the prototype before it, as `Object.setPrototypeOf` does.
- Processes and threads: one process's loggers are modelled, and every step runs to completion.

# warun: a Dafny model of the watch-and-rerun coordinator

warun watches a set of glob patterns and re-runs a command whenever a
matching file changes. Bursts of changes are debounced into one request, and
at most one instance of the command runs at a time. A request that arrives
during a run is remembered in a dirty flag and causes exactly one rerun after
the run completes.

The model covers two files:

- `lib/index.js` becomes module `Watching`. It has the `Watcher` class, with
  the fields `_running`, `_dirty` and `_watcher`, the option defaults, and the
  in-place rewrite of directory patterns. Its callbacks are methods: the
  debounced and the undebounced `requestCommand`, `_doneCommand`, `open`,
  `close`, and the session's "all", "error" and "ready" handlers.
  - A ghost trace records everything the watcher does, in order:
    debounced calls, spawns, deferred requests and emitted events.
  - A ghost counter records completions.
  - `Valid()` states the single-flight invariant: one live process exactly
    while running, and dirty only while running. It also states that every
    session except the current one has been closed.
- `bin/index.js` becomes module `Cli`. It has the `unknown` collector and the
  help / version / error / watch decision, starting from the record the
  argument parser produces. Module `Text` holds the two string operations
  it uses: the `-` test and `Array.prototype.join`.

Module `Scenarios` replays behaviours that `test/index.js` checks, as
sequences of callbacks.

Two facts about the code shape the model:

- The rerun that `_doneCommand` issues at lib/index.js:94 goes back through
  the debounce wrapper. It calls `this.requestCommand`, a name that
  lib/index.js:51 rebound to the debounced wrapper. `DoneCommand` therefore
  leaves `running` false and sets `pending`, and the rerun spawns when `Fire`
  runs.
- `close()` (lib/index.js:129-136) releases only the watching session. It
  does not cancel a pending debounced call, so `Close` leaves `pending` as it
  was.

## Model

| member | source | states |
|---|---|---|
| `Watching.InitialFlag` | lib/index.js:49 | `initial` is false if and only if options were given and their `initial` is the boolean false |
| `Watching.DebounceWait` | lib/index.js:50 | the wait is 250 when the option is absent or 0, and the given number otherwise; it is never 0 |
| `Watching.Globstar` | lib/index.js:60 | the rewritten pattern is the directory followed by exactly the recursive suffix `/**` |
| `Watching.NormalizedAt` | lib/index.js:58-62 | normalisation keeps length and order; element i becomes `Globstar(p)` exactly when `isDirectory(p)`, and is otherwise unchanged |
| `Watching.ExpandDirectories` | lib/index.js:58-62 | the in-place loop leaves the array equal to the normalised list of its old contents |
| `Watching.Watcher.constructor` | lib/index.js:43-63 | patterns are coerced to a list (one element for a non-array) and normalised; args default to `[]`; `initial` and the debounce wait take their defaults; the watcher starts idle, clean, with no session and an empty trace |
| `Watching.Watcher.LiveProcesses` | lib/index.js:69-99 | under the invariant, at most one spawned process is live, and one is live exactly while `running` |
| `Watching.Watcher.LiveSessions` | lib/index.js:105-136 | under the invariant, the open sessions are exactly the current handle, or none |
| `Watching.Watcher.RequestCommand` | lib/index.js:51 | the debounced call only arms the timer and logs `Scheduled`; nothing runs and the run state is unchanged |
| `Watching.Watcher.Fire` | lib/index.js:51 | firing runs the body once if a call is pending and clears the pending call; with nothing pending it changes nothing |
| `Watching.Watcher.RequestCommandNow` | lib/index.js:69-82 | while running, it spawns nothing and sets dirty; while idle, it sets running and starts exactly one spawn of the stored command and args; single flight is preserved |
| `Watching.Watcher.DoneCommand` | lib/index.js:90-99 | completion leaves running and dirty false and counts one completion; it issues exactly one debounced rerun iff dirty was set; the error event is logged after the rerun request, and only for an `Error` |
| `Watching.Watcher.OnChange` | lib/index.js:108-111 | a change emits `change` with its kind and path, then makes one debounced request |
| `Watching.Watcher.OnWatchError` | lib/index.js:112-114 | a session error is re-emitted as `error` and nothing else changes |
| `Watching.Watcher.OnReady` | lib/index.js:115-120 | ready emits `ready`; a debounced request follows if and only if `initial` |
| `Watching.Watcher.Open` | lib/index.js:105-123 | any previous session is closed first; afterwards exactly one fresh session on the patterns is live; the run state is unchanged |
| `Watching.Watcher.Close` | lib/index.js:129-136 | the current session, if any, is closed and the handle cleared; with no handle nothing changes, so a second close is a no-op |
| `Watching.Watch` | lib/index.js:151-152 | `watch` returns a fresh, valid, opened watcher built from the normalised arguments, idle and with an empty trace |
| `Text.DashTokensMembers` | bin/index.js:21-25 | a token is collected if and only if it was reported and starts with `-` |
| `Text.DashTokensAppend` | bin/index.js:21-25 | collecting distributes over concatenation, so collected tokens keep their encounter order |
| `Text.JoinSpans` | bin/index.js:45 | every element of a joined list appears verbatim in the joined string, at its offset |
| `Cli.UnknownCollector.Unknown` | bin/index.js:21-25 | the callback appends its argument to `unknowns` exactly when it starts with `-` |
| `Cli.CollectUnknowns` | bin/index.js:13-26 | feeding the reported tokens in order yields exactly the `-` tokens, in order |
| `Cli.Dispatch` | bin/index.js:28-57 | help wins over every other field; then version; then the missing-patterns, missing-command and unknown-options errors, in that order, each with exit code 1; watching happens iff none applies, with patterns unchanged and command plus command args together equal to the list after `--` |
| `Cli.UnknownErrorNamesEach` | bin/index.js:44-48 | the unknown-options error message contains each unknown option verbatim, after the `Unknown option(s): ` prefix |
| `Cli.Run` | bin/index.js:50-57 | a watcher is created and opened iff the decision is Watch; it uses the normalised positional patterns, the first word after `--` as the command, the remaining words as its args, and the parsed `initial` flag |
| `Cli.ChangeLine` | bin/index.js:63-65 | the change line is the kind, then `": "`, then the path |
| `Cli.ChangeLineKind` | bin/index.js:63-65 | the kind can be read back from a change line when it holds no colon |
| `Scenarios.RequestBurst` | test/index.js:140-153 | n ≥ 1 debounced requests followed by one firing execute the body exactly once: one spawn if idle, otherwise one deferral |
| `Scenarios.RerunAfterBusyRun` | test/index.js:250-258 | a change during a run leads to exactly one rerun after the run completes: two spawns in all, with one process live |
| `Scenarios.RunOnReady` | test/index.js:114-128 | after ready and the debounce, the command has been spawned once with `initial`, and not at all without it |
| `Scenarios.ReopenAndCloseTwice` | lib/index.js:105-136 | opening twice gives two distinct fresh sessions and closes the first; right after the second open, exactly the second is live; closing twice closes it and leaves none; `running`, `dirty`, `pending`, the trace and the completion count are unchanged |

## Left out

- File watching and glob matching by `chokidar` (lib/index.js:107) are a foreign library. A session is an opaque object that can only be closed. Its events are calls to `OnChange`, `OnWatchError` and `OnReady`.
- `.once("ready")` removes the ready handler after its first call. This is not modelled: `OnReady` can be called any number of times.
- Process creation by `cross-spawn` and stdio inheritance (lib/index.js:76) are a foreign library. A spawn is a `Spawned` entry in the ghost trace. Its completion is one call to `DoneCommand`, which requires a run in flight.
- Node can deliver both `exit` and `error` for one failed spawn, and both reach `_doneCommand` (lib/index.js:77-78). The model assumes exactly one completion per spawn.
- The timing of `debounce` (milliseconds, timer resets) is hidden in that library. The model has only a pending flag and a `Fire` step, so it says nothing about time. `debounceWait` is stored but not used.
- `isDirectory` (lib/index.js:21-28) reads the file system. It is a predicate parameter of the constructor.
- `path.join(pattern, "**")`: its path normalisation is not modelled. `Globstar` appends `/**`.
- `String(...)` and `Number(...)` coercions (lib/index.js:46-50) are not modelled. Patterns and args arrive as strings. The `debounce` option is an optional integer; a value that is not a number is `None`. The `initial` option is `None` unless it holds a boolean.
- `EventEmitter` delivery to listeners is not modelled. Emitted events are entries in the append-only ghost trace.
- `emit("error", ...)` throws when no "error" listener is attached. A session error (lib/index.js:113) or a failed spawn (lib/index.js:97) would then end the process. `OnWatchError` and `DoneCommand` do not model this: they always log the event and return.
- `minimist` parsing (bin/index.js:14-26) is not modelled. The model starts from the parsed record and from the tokens the parser reports as unknown.
- Console output, usage text on stdout or stderr, the start and stop lines, `ERROR:` lines and `process.exitCode` are not modelled. Only the change line and the outcome's exit code are.
- Interrupt handling (bin/index.js:70-74, bin/events.js) and the usage text (bin/help.js) are not part of this model.

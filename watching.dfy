/**
 * The `Watcher` of lib/index.js: it normalises its patterns once, owns at most
 * one file-watching session, re-emits that session's events, and runs the
 * command single-flight, remembering with a dirty flag a request that arrived
 * while the command was running.
 *
 * The foreign pieces are abstract: a watching session is a `WatchSession`
 * object that can only be closed; a spawned process is an entry in a ghost
 * trace, and its completion is a call of `DoneCommand`; the `debounce` wrapper
 * is a `pending` flag that `RequestCommand` sets and `Fire` consumes.
 */
module Watching {
  import opened Maybe

  /** What the watcher emits to its listeners. */
  datatype Event =
    | Change(kind: string, path: string)
    | Ready
    | Error(message: string)

  /** What a spawned process reports when it finishes: the argument of `_doneCommand`. */
  datatype Completion =
    | Exited(code: Option<int>)   // the "exit" event: a numeric code, or none when a signal ended it
    | Failed(message: string)     // the "error" event: an `Error` object

  /** `x instanceof Error`: only a spawn failure is an error; every exit code, 0 included, is not. */
  predicate IsError(x: Completion)
  {
    x.Failed?
  }

  /** One observable step of a watcher, in the order it happened. */
  datatype Action =
    | Scheduled                                   // a call of the debounced `requestCommand`
    | Spawned(command: string, args: seq<string>) // the undebounced body started a process
    | Deferred                                    // the undebounced body found a run in flight
    | Emitted(event: Event)                       // `this.emit(...)`

  /** The number of processes a trace started. */
  function SpawnCount(t: seq<Action>): nat
  {
    if t == [] then 0
    else SpawnCount(t[..|t| - 1]) + (if t[|t| - 1].Spawned? then 1 else 0)
  }

  lemma {:induction false} SpawnCountAppend(a: seq<Action>, b: seq<Action>)
    ensures SpawnCount(a + b) == SpawnCount(a) + SpawnCount(b)
  {
    if b == [] {
      assert a + b == a;
    } else {
      var init := b[..|b| - 1];
      SpawnCountAppend(a, init);
      assert (a + b)[..|a + b| - 1] == a + init;
      assert (a + b)[|a + b| - 1] == b[|b| - 1];
    }
  }

  // ---------------------------------------------------------------------
  // Constructor arguments and their normalisation (lib/index.js:46-62)
  // ---------------------------------------------------------------------

  /** The `patterns` argument: an array, or any single value. */
  datatype PatternsArg = PatternArray(items: seq<string>) | SinglePattern(pattern: string)

  /** The `args` argument: an array, or anything else. */
  datatype ArgsArg = ArgArray(items: seq<string>) | NotAnArray

  /**
   * The options object. `initial` is `Some(b)` when the option holds a boolean
   * and `None` otherwise; `debounce` is the option's numeric value, if it has one.
   */
  datatype WatchOptions = WatchOptions(initial: Option<bool>, debounce: Option<int>)

  const DefaultDebounce: int := 250

  function PatternList(p: PatternsArg): seq<string>
  {
    match p
    case PatternArray(items) => items
    case SinglePattern(pattern) => [pattern]
  }

  function ArgList(a: ArgsArg): seq<string>
  {
    match a
    case ArgArray(items) => items
    case NotAnArray => []
  }

  /** `(options && options.initial) !== false`. */
  function InitialFlag(options: Option<WatchOptions>): (initial: bool)
    ensures !initial <==> options.Some? && options.value.initial == Some(false)
  {
    match options
    case None => true
    case Some(o) => o.initial != Some(false)
  }

  /** `Number(options && options.debounce) || 250`. */
  function DebounceWait(options: Option<WatchOptions>): (wait: int)
    ensures wait != 0
    ensures options.None? || options.value.debounce.None? ==> wait == DefaultDebounce
    ensures options.Some? && options.value.debounce.Some? ==>
      wait == (if options.value.debounce.value == 0 then DefaultDebounce else options.value.debounce.value)
  {
    if options.Some? && options.value.debounce.Some? && options.value.debounce.value != 0
    then options.value.debounce.value
    else DefaultDebounce
  }

  /** `path.join(dir, "**")`, without path normalisation. */
  function Globstar(dir: string): (pattern: string)
    ensures |pattern| == |dir| + 3 && pattern[..|dir|] == dir && pattern[|dir|..] == "/**"
  {
    dir + "/**"
  }

  /** One pattern after the directory check. */
  function Expand(pattern: string, isDirectory: string -> bool): string
  {
    if isDirectory(pattern) then Globstar(pattern) else pattern
  }

  /** The pattern list after the directory check, element by element. */
  function Normalized(patterns: seq<string>, isDirectory: string -> bool): seq<string>
  {
    if patterns == [] then []
    else [Expand(patterns[0], isDirectory)] + Normalized(patterns[1..], isDirectory)
  }

  /**
   * Normalisation keeps the length and the order; element `i` is rewritten
   * to `Globstar(p)` exactly when `p` names a directory, and is otherwise kept.
   */
  lemma {:induction false} NormalizedAt(patterns: seq<string>, isDirectory: string -> bool)
    ensures |Normalized(patterns, isDirectory)| == |patterns|
    ensures forall i :: 0 <= i < |patterns| ==>
      Normalized(patterns, isDirectory)[i] == (if isDirectory(patterns[i]) then Globstar(patterns[i]) else patterns[i])
    ensures forall i :: 0 <= i < |patterns| ==>
      (Normalized(patterns, isDirectory)[i] == patterns[i] <==> !isDirectory(patterns[i]))
  {
    if patterns != [] {
      NormalizedAt(patterns[1..], isDirectory);
      forall i | 0 < i < |patterns|
        ensures Normalized(patterns, isDirectory)[i] == Normalized(patterns[1..], isDirectory)[i - 1]
      {
      }
    }
  }

  /** The `forEach` of lib/index.js:58-62: rewrites the pattern array in place. */
  method ExpandDirectories(a: array<string>, isDirectory: string -> bool)
    modifies a
    ensures a[..] == Normalized(old(a[..]), isDirectory)
  {
    var i := 0;
    while i < a.Length
      invariant 0 <= i <= a.Length
      invariant forall k :: 0 <= k < i ==> a[k] == Expand(old(a[k]), isDirectory)
      invariant forall k :: i <= k < a.Length ==> a[k] == old(a[k])
    {
      if isDirectory(a[i]) {
        a[i] := Globstar(a[i]);
      }
      i := i + 1;
    }
    NormalizedAt(old(a[..]), isDirectory);
  }

  // ---------------------------------------------------------------------
  // The watching session handed out by the file-watching library
  // ---------------------------------------------------------------------

  class WatchSession {
    const patterns: seq<string>
    var closed: bool

    constructor (patterns: seq<string>)
      ensures this.patterns == patterns && !closed
    {
      this.patterns := patterns;
      closed := false;
    }

    /** Releases the subscription. */
    method Close()
      modifies this
      ensures closed
    {
      closed := true;
    }
  }

  // ---------------------------------------------------------------------
  // The watcher
  // ---------------------------------------------------------------------

  class Watcher {
    const patterns: seq<string>
    const command: string
    const args: seq<string>
    const initial: bool
    const debounceWait: int

    /** `_watcher`: the open session, or null. */
    var watcher: WatchSession?
    /** `_running`: a spawned command has not completed yet. */
    var running: bool
    /** `_dirty`: a request arrived while the command was running. */
    var dirty: bool
    /** The debounce wrapper holds a call that has not fired yet. */
    var pending: bool

    /** Everything this watcher has done, in order. */
    ghost var trace: seq<Action>
    /** The number of completions delivered to `DoneCommand`. */
    ghost var completed: nat
    /** Every session this watcher has opened. */
    ghost var sessions: set<WatchSession>

    /** Single flight: one live process exactly while `running`, and `dirty` only while `running`. */
    ghost predicate SingleFlight()
      reads this
    {
      (dirty ==> running) &&
      SpawnCount(trace) == completed + (if running then 1 else 0)
    }

    /** Every session but the current one has been closed. */
    ghost predicate OneSession()
      reads this, sessions
    {
      (watcher != null ==> watcher in sessions && !watcher.closed) &&
      forall s :: s in sessions && s != watcher ==> s.closed
    }

    ghost predicate Valid()
      reads this, sessions
    {
      SingleFlight() && OneSession()
    }

    /** The number of spawned processes that have not completed. */
    ghost function LiveProcesses(): (n: int)
      reads this
      requires SingleFlight()
      ensures 0 <= n <= 1
      ensures n == 1 <==> running
    {
      SpawnCount(trace) - completed
    }

    /** The sessions that are still open. */
    ghost function LiveSessions(): (live: set<WatchSession>)
      reads this, sessions
      requires OneSession()
      ensures live == if watcher == null then {} else {watcher}
    {
      set s | s in sessions && !s.closed
    }

    /** lib/index.js:43-63. */
    constructor (patternsArg: PatternsArg, command: string, argsArg: ArgsArg,
                 options: Option<WatchOptions>, isDirectory: string -> bool)
      ensures Valid()
      ensures patterns == Normalized(PatternList(patternsArg), isDirectory)
      ensures this.command == command && args == ArgList(argsArg)
      ensures initial == InitialFlag(options) && debounceWait == DebounceWait(options)
      ensures watcher == null && !running && !dirty && !pending
      ensures trace == [] && completed == 0 && sessions == {}
    {
      var list := PatternList(patternsArg);
      var a := new string[|list|](i requires 0 <= i < |list| => list[i]);
      assert a[..] == list;
      ExpandDirectories(a, isDirectory);
      patterns := a[..];
      this.command := command;
      args := ArgList(argsArg);
      initial := InitialFlag(options);
      debounceWait := DebounceWait(options);
      watcher := null;
      running := false;
      dirty := false;
      pending := false;
      trace := [];
      completed := 0;
      sessions := {};
    }

    /**
     * `this.requestCommand` after lib/index.js:51 rebound it: the debounced
     * wrapper. It only arms the timer; nothing runs until `Fire`.
     */
    method RequestCommand()
      requires Valid()
      modifies this
      ensures Valid()
      ensures pending
      ensures trace == old(trace) + [Scheduled]
      ensures running == old(running) && dirty == old(dirty) && completed == old(completed)
      ensures watcher == old(watcher) && sessions == old(sessions)
    {
      trace := trace + [Scheduled];
      SpawnCountAppend(old(trace), [Scheduled]);
      pending := true;
    }

    /**
     * The debounce timer firing: the calls collected since it was armed
     * collapse into one run of the undebounced body.
     */
    method Fire()
      requires Valid()
      modifies this
      ensures Valid()
      ensures !pending
      ensures !old(pending) ==> trace == old(trace) && running == old(running) && dirty == old(dirty)
      ensures old(pending) && !old(running) ==> running && !dirty && trace == old(trace) + [Spawned(command, args)]
      ensures old(pending) && old(running) ==> running && dirty && trace == old(trace) + [Deferred]
      ensures completed == old(completed) && watcher == old(watcher) && sessions == old(sessions)
    {
      if pending {
        pending := false;
        RequestCommandNow();
      }
    }

    /** The undebounced `requestCommand` body of lib/index.js:69-82. */
    method RequestCommandNow()
      requires Valid()
      modifies this
      ensures Valid()
      ensures running
      ensures dirty == old(running)
      ensures trace == old(trace) + (if old(running) then [Deferred] else [Spawned(command, args)])
      ensures SpawnCount(trace) == SpawnCount(old(trace)) + (if old(running) then 0 else 1)
      ensures pending == old(pending) && completed == old(completed)
      ensures watcher == old(watcher) && sessions == old(sessions)
    {
      if running {
        dirty := true;
        trace := trace + [Deferred];
        SpawnCountAppend(old(trace), [Deferred]);
      } else {
        running := true;
        trace := trace + [Spawned(command, args)];
        SpawnCountAppend(old(trace), [Spawned(command, args)]);
      }
    }

    /**
     * `_doneCommand(x)` of lib/index.js:90-99, called once per spawned
     * process when it exits or fails.
     */
    method DoneCommand(x: Completion)
      requires Valid()
      requires running
      modifies this
      ensures Valid()
      ensures !running && !dirty
      ensures completed == old(completed) + 1
      ensures pending == (old(pending) || old(dirty))
      ensures trace == old(trace) + (if old(dirty) then [Scheduled] else [])
                                   + (if IsError(x) then [Emitted(Error(x.message))] else [])
      ensures watcher == old(watcher) && sessions == old(sessions)
    {
      ghost var before := trace;
      running := false;
      completed := completed + 1;
      if dirty {
        dirty := false;
        RequestCommand();
      }
      ghost var rerun := trace;
      assert rerun == before + (if old(dirty) then [Scheduled] else []);
      if x.Failed? {
        Emit(Error(x.message));
      }
      assert trace == rerun + (if IsError(x) then [Emitted(Error(x.message))] else []);
    }

    /** `this.emit(event)`. */
    method Emit(event: Event)
      requires Valid()
      modifies this
      ensures Valid()
      ensures trace == old(trace) + [Emitted(event)]
      ensures running == old(running) && dirty == old(dirty) && pending == old(pending)
      ensures completed == old(completed) && watcher == old(watcher) && sessions == old(sessions)
    {
      trace := trace + [Emitted(event)];
      SpawnCountAppend(old(trace), [Emitted(event)]);
    }

    /** The session's "all" handler (lib/index.js:108-111). */
    method OnChange(kind: string, path: string)
      requires Valid()
      modifies this
      ensures Valid()
      ensures pending
      ensures trace == old(trace) + [Emitted(Change(kind, path)), Scheduled]
      ensures running == old(running) && dirty == old(dirty) && completed == old(completed)
      ensures watcher == old(watcher) && sessions == old(sessions)
    {
      Emit(Change(kind, path));
      RequestCommand();
    }

    /** The session's "error" handler (lib/index.js:112-114). */
    method OnWatchError(message: string)
      requires Valid()
      modifies this
      ensures Valid()
      ensures trace == old(trace) + [Emitted(Error(message))]
      ensures running == old(running) && dirty == old(dirty) && pending == old(pending)
      ensures completed == old(completed) && watcher == old(watcher) && sessions == old(sessions)
    {
      Emit(Error(message));
    }

    /** The session's "ready" handler (lib/index.js:115-120): a run is requested iff `initial`. */
    method OnReady()
      requires Valid()
      modifies this
      ensures Valid()
      ensures pending == (old(pending) || initial)
      ensures trace == old(trace) + [Emitted(Ready)] + (if initial then [Scheduled] else [])
      ensures running == old(running) && dirty == old(dirty) && completed == old(completed)
      ensures watcher == old(watcher) && sessions == old(sessions)
    {
      Emit(Ready);
      if initial {
        RequestCommand();
      }
    }

    /** lib/index.js:105-123: closes any open session, then opens a fresh one on the patterns. */
    method Open()
      requires Valid()
      modifies this, sessions
      ensures Valid()
      ensures watcher != null && fresh(watcher) && watcher.patterns == patterns
      ensures sessions == old(sessions) + {watcher}
      ensures old(watcher) != null ==> old(watcher).closed
      ensures LiveSessions() == {watcher}
      ensures running == old(running) && dirty == old(dirty) && pending == old(pending)
      ensures trace == old(trace) && completed == old(completed)
    {
      Close();
      var session := new WatchSession(patterns);
      watcher := session;
      sessions := sessions + {session};
    }

    /** lib/index.js:129-136: closes the open session, if any; without one it changes nothing. */
    method Close()
      requires Valid()
      modifies this, sessions
      ensures Valid()
      ensures watcher == null && sessions == old(sessions)
      ensures LiveSessions() == {}
      ensures old(watcher) != null ==> old(watcher).closed
      ensures old(watcher) == null ==> unchanged(this) && unchanged(sessions)
      ensures running == old(running) && dirty == old(dirty) && pending == old(pending)
      ensures trace == old(trace) && completed == old(completed)
    {
      if watcher != null {
        watcher.Close();
        watcher := null;
      }
    }
  }

  /** `watch(...)` of lib/index.js:151-152: a new watcher, already open. */
  method Watch(patternsArg: PatternsArg, command: string, argsArg: ArgsArg,
               options: Option<WatchOptions>, isDirectory: string -> bool)
    returns (w: Watcher)
    ensures fresh(w) && w.Valid()
    ensures w.patterns == Normalized(PatternList(patternsArg), isDirectory)
    ensures w.command == command && w.args == ArgList(argsArg)
    ensures w.initial == InitialFlag(options) && w.debounceWait == DebounceWait(options)
    ensures w.watcher != null && fresh(w.watcher) && w.LiveSessions() == {w.watcher}
    ensures !w.running && !w.dirty && !w.pending && w.trace == [] && w.completed == 0
  {
    w := new Watcher(patternsArg, command, argsArg, options, isDirectory);
    w.Open();
  }
}

/**
 * The behaviours test/index.js checks from outside, replayed against the
 * model as sequences of callbacks: a burst of changes runs the command once,
 * a change during a run causes exactly one rerun, `initial` decides the run
 * on "ready", and reopening or closing twice leaves at most one session.
 */
module Scenarios {
  import opened Maybe
  import opened Watching

  function Repeat(a: Action, n: nat): (r: seq<Action>)
    ensures |r| == n && forall i :: 0 <= i < n ==> r[i] == a
  {
    if n == 0 then [] else Repeat(a, n - 1) + [a]
  }

  /**
   * test/index.js:140-153: any number of requests made before the debounce
   * timer fires end in one execution of the request body.
   */
  method RequestBurst(w: Watcher, n: nat)
    requires w.Valid() && n >= 1
    modifies w
    ensures w.Valid() && !w.pending && w.running
    ensures w.trace == old(w.trace) + Repeat(Scheduled, n)
                       + [if old(w.running) then Deferred else Spawned(w.command, w.args)]
  {
    var i := 0;
    while i < n
      invariant 0 <= i <= n
      invariant w.Valid() && (i > 0 ==> w.pending)
      invariant w.trace == old(w.trace) + Repeat(Scheduled, i)
      invariant w.running == old(w.running) && w.dirty == old(w.dirty)
      invariant w.sessions == old(w.sessions)
    {
      w.RequestCommand();
      i := i + 1;
    }
    w.Fire();
  }

  /**
   * test/index.js:250-258: a change arrives while the first run is in
   * flight; after the run completes one rerun is scheduled, and firing it
   * starts the second and last process.
   */
  method RerunAfterBusyRun(w: Watcher)
    requires w.Valid() && !w.running && !w.pending
    modifies w
    ensures w.Valid() && w.running && !w.dirty && !w.pending
    ensures SpawnCount(w.trace) == SpawnCount(old(w.trace)) + 2
    ensures w.LiveProcesses() == 1
  {
    w.OnChange("add", "hello.txt");
    w.Fire();
    assert SpawnCount(w.trace) == SpawnCount(old(w.trace)) + 1;
    w.OnChange("change", "hello.txt");
    w.Fire();
    assert w.dirty && w.running;
    w.DoneCommand(Exited(Some(0)));
    assert w.pending && !w.running;
    assert SpawnCount(w.trace) == SpawnCount(old(w.trace)) + 1;
    w.Fire();
  }

  /**
   * test/index.js:114-128: once the session is ready the command runs
   * by default, and does not with `--no-initial`.
   */
  method RunOnReady(initial: bool) returns (w: Watcher)
    ensures w.Valid() && |w.trace| >= 1 && w.trace[0] == Emitted(Ready)
    ensures w.running == initial
    ensures SpawnCount(w.trace) == if initial then 1 else 0
  {
    w := Watch(SinglePattern("*.txt"), "node", ArgArray(["print-later.js"]),
               Some(WatchOptions(Some(initial), None)), (p: string) => false);
    w.OnReady();
    w.Fire();
  }

  /**
   * lib/index.js:105-136: opening twice closes the first session and leaves
   * exactly one live session; closing twice is harmless and leaves none.
   * No run state changes along the way.
   */
  method ReopenAndCloseTwice(w: Watcher)
    returns (first: WatchSession, second: WatchSession, ghost liveAfterReopen: set<WatchSession>)
    requires w.Valid()
    modifies w, w.sessions
    ensures fresh(first) && fresh(second) && first != second
    ensures first.closed && second.closed
    ensures liveAfterReopen == {second}
    ensures w.sessions == old(w.sessions) + {first, second}
    ensures w.Valid() && w.LiveSessions() == {} && w.watcher == null
    ensures w.trace == old(w.trace) && w.completed == old(w.completed)
    ensures w.running == old(w.running) && w.dirty == old(w.dirty) && w.pending == old(w.pending)
  {
    w.Open();
    first := w.watcher;
    w.Open();
    second := w.watcher;
    liveAfterReopen := w.LiveSessions();
    w.Close();
    w.Close();
  }
}

/** The shared test harness `WayfireTest`: the socket and screenshot naming,
    the bounded client poll, the drag waypoint generator, the client-binary
    precondition, the outcome mapping of a test run, and the process guard of
    cleanup.

    Everything the harness asks of the outside world is reduced to data:
    - a call that may raise an exception is a `Step` value chosen by the
      environment (the compositor start, the scenario body, the ping);
    - requests sent over the IPC socket and sleeps are `Event`s that the
      operations return, in the order they are issued;
    - answers of the IPC socket (`list_views` counts) and of `shutil.which`
      are parameters. */
module WfTest {
  import opened Outcomes

  /** Process id of the spawned compositor. */
  type Pid = nat

  /** The result of a call that either returns normally or raises;
      `trace` is the formatted traceback of the exception. */
  datatype Step<T> = Returned(value: T) | Raised(trace: string)

  /** Phase argument of the IPC `click_button` request. */
  datatype ButtonPhase = Press | Release

  /** An effect issued by the harness: an IPC request or a `wait_ms` sleep. */
  datatype Event =
    | ListViews
    | WaitMs(ms: int)
    | MoveCursor(x: int, y: int)
    | ClickButton(button: string, phase: ButtonPhase)

  /** Number of times `e` occurs in `t`. */
  function Occurrences(t: seq<Event>, e: Event): (n: nat)
    ensures n <= |t|
    decreases |t|
  {
    if t == [] then 0
    else Occurrences(t[..|t| - 1], e) + (if t[|t| - 1] == e then 1 else 0)
  }

  lemma {:induction false} OccurrencesAppend(a: seq<Event>, b: seq<Event>, e: Event)
    ensures Occurrences(a + b, e) == Occurrences(a, e) + Occurrences(b, e)
    decreases |b|
  {
    if b == [] {
      assert a + b == a;
    } else {
      var b' := b[..|b| - 1];
      assert (a + b)[..|a + b| - 1] == a + b';
      OccurrencesAppend(a, b', e);
    }
  }

  // ---------------------------------------------------------------------
  // Socket name

  /** The directory created for the compositor sockets. */
  const RuntimeDir := "/tmp/wst/"
  const SocketPrefix := RuntimeDir + "wayfire-"
  const SocketSuffix := ".socket"

  /** The IPC socket path for the random identifier `id`. */
  function SocketName(id: string): (r: string)
    ensures RuntimeDir <= r && SocketPrefix <= r
    ensures |r| == |SocketPrefix| + |id| + |SocketSuffix|
    ensures r[|r| - |SocketSuffix|..] == SocketSuffix
    ensures r[|SocketPrefix|..|r| - |SocketSuffix|] == id
  {
    SocketPrefix + id + SocketSuffix
  }

  /** Recovers the identifier from a socket path. */
  function SocketId(name: string): string
    requires |SocketPrefix| + |SocketSuffix| <= |name|
  {
    name[|SocketPrefix| .. |name| - |SocketSuffix|]
  }

  /** A socket path determines the identifier it was built from. */
  lemma SocketNameRoundTrip(id: string)
    ensures SocketId(SocketName(id)) == id
  {
  }

  /** Distinct identifiers give distinct socket paths. */
  lemma SocketNamesDistinct(id1: string, id2: string)
    requires id1 != id2
    ensures SocketName(id1) != SocketName(id2)
  {
    SocketNameRoundTrip(id1);
    SocketNameRoundTrip(id2);
  }

  // ---------------------------------------------------------------------
  // Screenshot path

  /** The file a screenshot of stage `stage` is written to. */
  function ScreenshotPath(prefix: string, stage: string): (r: string)
    ensures prefix + "-" <= r
    ensures |r| == |prefix| + |stage| + 5
    ensures r[|r| - 4..] == ".png"
  {
    prefix + "-" + stage + ".png"
  }

  /** Recovers the stage name from a screenshot path with a known prefix. */
  function ScreenshotStage(prefix: string, path: string): string
    requires |prefix| + 5 <= |path|
  {
    path[|prefix| + 1 .. |path| - 4]
  }

  /** A screenshot path determines its stage, given the prefix. */
  lemma ScreenshotPathRoundTrip(prefix: string, stage: string)
    ensures ScreenshotStage(prefix, ScreenshotPath(prefix, stage)) == stage
  {
  }

  /** With one prefix, distinct stages never overwrite each other's file. */
  lemma ScreenshotPathsDistinct(prefix: string, stage1: string, stage2: string)
    requires stage1 != stage2
    ensures ScreenshotPath(prefix, stage1) != ScreenshotPath(prefix, stage2)
  {
    ScreenshotPathRoundTrip(prefix, stage1);
    ScreenshotPathRoundTrip(prefix, stage2);
  }

  // ---------------------------------------------------------------------
  // Client-binary precondition

  /** The diagnostic of a skipped test whose client binary is missing. */
  function MissingClientMessage(client: string): (r: string)
    ensures |r| == 8 + |client| + 32
    ensures r[..8] == "Missing "
    ensures r[8..8 + |client|] == client
    ensures r[8 + |client|..] == " (Did you compile test clients?)"
  {
    "Missing " + client + " (Did you compile test clients?)"
  }

  /** Index of the first client that is not in `found` (the binaries that
      `shutil.which` finds), or `|clients|` when every client is found. */
  function FirstMissing(clients: seq<string>, found: set<string>): (k: nat)
    ensures k <= |clients|
    ensures forall j :: 0 <= j < k ==> clients[j] in found
    ensures k < |clients| ==> clients[k] !in found
    decreases |clients|
  {
    if clients == [] then 0
    else if clients[0] !in found then 0
    else 1 + FirstMissing(clients[1..], found)
  }

  /** No client is missing exactly when every client is found. */
  lemma {:induction false} FirstMissingAllFound(clients: seq<string>, found: set<string>)
    ensures FirstMissing(clients, found) == |clients| <==> forall c :: c in clients ==> c in found
  {
    var k := FirstMissing(clients, found);
    if k < |clients| {
      assert clients[k] in clients;
    } else {
      forall c | c in clients ensures c in found {
        var j :| 0 <= j < |clients| && clients[j] == c;
      }
    }
  }

  // ---------------------------------------------------------------------
  // Polling for clients

  /** Number of iterations of `range(waits)`: none for a negative count. */
  function Iterations(waits: int): (n: nat)
    ensures waits >= 0 ==> n == waits
    ensures waits <= 0 ==> n == 0
  {
    if waits < 0 then 0 else waits
  }

  /** What one loop iteration issues after seeing `seen` views: a poll, then a
      wait exactly when the count is not the expected one. */
  function PollStep(seen: nat, nrClients: int, interval: int): (r: seq<Event>)
    ensures |r| == if seen != nrClients then 2 else 1
    ensures r[0] == ListViews
    ensures WaitMs(interval) in r <==> seen != nrClients
  {
    [ListViews] + if seen != nrClients then [WaitMs(interval)] else []
  }

  /** The effects of the polling loop, iteration by iteration, when the
      successive polls see the counts in `seen`. */
  function PollLoop(seen: seq<nat>, nrClients: int, interval: int): (r: seq<Event>)
    ensures forall e :: e in r ==> e == ListViews || e == WaitMs(interval)
    decreases |seen|
  {
    if seen == [] then []
    else PollLoop(seen[..|seen| - 1], nrClients, interval) + PollStep(seen[|seen| - 1], nrClients, interval)
  }

  /** Number of polls in `seen` that did not see `nrClients` views. */
  function Mismatches(seen: seq<nat>, nrClients: int): (n: nat)
    ensures n <= |seen|
    ensures n == 0 <==> forall k :: 0 <= k < |seen| ==> seen[k] == nrClients
    decreases |seen|
  {
    if seen == [] then 0
    else Mismatches(seen[..|seen| - 1], nrClients) + (if seen[|seen| - 1] != nrClients then 1 else 0)
  }

  /** The loop polls once per iteration and waits once per mismatching poll. */
  lemma {:induction false} PollLoopCounts(seen: seq<nat>, nrClients: int, interval: int)
    ensures Occurrences(PollLoop(seen, nrClients, interval), ListViews) == |seen|
    ensures Occurrences(PollLoop(seen, nrClients, interval), WaitMs(interval)) == Mismatches(seen, nrClients)
    decreases |seen|
  {
    if seen != [] {
      var init, last := seen[..|seen| - 1], seen[|seen| - 1];
      PollLoopCounts(init, nrClients, interval);
      var step := PollStep(last, nrClients, interval);
      OccurrencesAppend(PollLoop(init, nrClients, interval), step, ListViews);
      OccurrencesAppend(PollLoop(init, nrClients, interval), step, WaitMs(interval));
      OccurrencesAppend([ListViews], step[1..], ListViews);
      OccurrencesAppend([ListViews], step[1..], WaitMs(interval));
      assert step == [ListViews] + step[1..];
    }
  }

  // ---------------------------------------------------------------------
  // Drag waypoints

  /** Python's `a // b` for a positive divisor: the floor of the quotient. */
  function FloorDiv(a: int, b: int): (q: int)
    requires b > 0
    ensures q * b <= a < q * b + b
  {
    a / b
  }

  /** Coordinate `start + (end - start) * i // 10` of the `i`-th drag move. */
  function Waypoint(start: int, end: int, i: int): (w: int)
    // the floor of start + (end - start) * i / 10, the largest integer not
    // above that point; when end < start it can pass the exact point by less
    // than one, towards the end
    ensures (w - start) * 10 <= (end - start) * i < (w - start) * 10 + 10
  {
    start + FloorDiv((end - start) * i, 10)
  }

  /** The first waypoint is the start and the eleventh is exactly the end. */
  lemma WaypointEndpoints(start: int, end: int)
    ensures Waypoint(start, end, 0) == start
    ensures Waypoint(start, end, 10) == end
  {
  }

  /** Waypoints move monotonically from the start towards the end. */
  lemma WaypointMonotone(start: int, end: int, i: int, j: int)
    requires 0 <= i <= j <= 10
    ensures start <= end ==> Waypoint(start, end, i) <= Waypoint(start, end, j)
    ensures end <= start ==> Waypoint(start, end, j) <= Waypoint(start, end, i)
  {
    var d := end - start;
    assert d * j - d * i == d * (j - i);
    if d >= 0 {
      assert d * (j - i) >= 0;
      FloorDivTenMonotone(d * i, d * j);
    } else {
      assert d * (j - i) <= 0;
      FloorDivTenMonotone(d * j, d * i);
    }
  }

  /** Floor division by ten preserves order. */
  lemma FloorDivTenMonotone(a: int, b: int)
    requires a <= b
    ensures FloorDiv(a, 10) <= FloorDiv(b, 10)
  {
  }

  /** Every waypoint lies between the start and the end. */
  lemma WaypointBetween(start: int, end: int, i: int)
    requires 0 <= i <= 10
    ensures start <= end ==> start <= Waypoint(start, end, i) <= end
    ensures end <= start ==> end <= Waypoint(start, end, i) <= start
  {
    WaypointEndpoints(start, end);
    WaypointMonotone(start, end, 0, i);
    WaypointMonotone(start, end, i, 10);
  }

  // ---------------------------------------------------------------------
  // Outcome of a test run

  /** The external calls `run` makes, in order. */
  datatype Phase = StartCompositor | RunBody | SendPing

  /** The outcome of `run` together with the calls it made. */
  datatype Execution = Execution(outcome: Outcome, issued: seq<Phase>)

  const CrashPrefix := "Wayfire or client socket crashed, "
  const PingFailureMessage := "Wayfire failed to respond to ping"

  /** The outcome of a fault caught at the harness boundary. */
  function CrashOutcome(trace: string): (o: Outcome)
    ensures o.status == CRASHED && o.message.Some?
    ensures CrashPrefix <= o.message.value
    ensures o.message.value[|CrashPrefix|..] == trace
  {
    Outcome(CRASHED, Some(CrashPrefix + trace))
  }

  /** True when the scenario body ran and returned an outcome equal to OK,
      which is when the ping is sent. */
  predicate BodySucceeded(start: Step<()>, body: Step<Outcome>)
  {
    start.Returned? && body.Returned? && SameStatus(body.value.status, OK)
  }

  /** True when a call that `run` actually made raised. */
  predicate Faulted(start: Step<()>, body: Step<Outcome>, ping: Step<bool>)
  {
    || start.Raised?
    || (start.Returned? && body.Raised?)
    || (BodySucceeded(start, body) && ping.Raised?)
  }

  /** The outcome of `run` given what starting the compositor, the scenario
      body and the ping did. */
  function RunSteps(start: Step<()>, body: Step<Outcome>, ping: Step<bool>): (r: Execution)
    // the calls go in order, each at most once, and stop at the first that ends the run
    ensures r.issued <= [StartCompositor, RunBody, SendPing]
    ensures StartCompositor in r.issued
    ensures RunBody in r.issued <==> start.Returned?
    ensures SendPing in r.issued <==> BodySucceeded(start, body)
    // success needs every step: a started compositor, an OK body and a true ping
    ensures r.outcome.status == OK <==> BodySucceeded(start, body) && ping == Returned(true)
    ensures r.outcome.status == OK ==> r.outcome.message == None
    // a non-OK body outcome is passed through unchanged
    ensures start.Returned? && body.Returned? && !SameStatus(body.value.status, OK) ==> r.outcome == body.value
    ensures BodySucceeded(start, body) && ping == Returned(false) ==> r.outcome == Outcome(WRONG, Some(PingFailureMessage))
    // every fault becomes CRASHED with the fixed prefix, and CRASHED arises only so or from the body
    ensures Faulted(start, body, ping) ==>
      r.outcome.status == CRASHED && r.outcome.message.Some? && CrashPrefix <= r.outcome.message.value
    ensures r.outcome.status == CRASHED ==>
      Faulted(start, body, ping) || (body.Returned? && body.value.status == CRASHED)
  {
    if start.Raised? then
      Execution(CrashOutcome(start.trace), [StartCompositor])
    else if body.Raised? then
      Execution(CrashOutcome(body.trace), [StartCompositor, RunBody])
    else if !SameStatus(body.value.status, OK) then
      Execution(body.value, [StartCompositor, RunBody])
    else if ping.Raised? then
      Execution(CrashOutcome(ping.trace), [StartCompositor, RunBody, SendPing])
    else if ping.value then
      Execution(Outcome(OK, None), [StartCompositor, RunBody, SendPing])
    else
      Execution(Outcome(WRONG, Some(PingFailureMessage)), [StartCompositor, RunBody, SendPing])
  }

  /** The ping's answer matters only when it is sent. */
  lemma PingIgnoredUnlessBodySucceeded(start: Step<()>, body: Step<Outcome>, ping1: Step<bool>, ping2: Step<bool>)
    requires !BodySucceeded(start, body)
    ensures RunSteps(start, body, ping1) == RunSteps(start, body, ping2)
  {
  }

  /** What `run_wayfire` amounts to for `run`: it raises when spawning the
      compositor or connecting to its socket raises. */
  function StartStep(spawn: Step<Pid>, connect: Step<()>): (r: Step<()>)
    ensures r.Returned? <==> spawn.Returned? && connect.Returned?
  {
    if spawn.Raised? then Raised(spawn.trace) else connect
  }

  // ---------------------------------------------------------------------
  // The harness object

  class WayfireTest {
    /** The spawned compositor, or None before it is started. */
    var wayfireProcess: Option<Pid>
    /** The IPC connection, reduced to the socket path it is bound to. */
    var socket: Option<string>
    var socketName: string
    /** Settle-time scale of the client waits, in seconds. */
    var ipcDuration: real
    var screenshots: seq<string>
    var screenshotPrefix: string

    /** A fresh harness whose socket path is built from the random `id`. */
    constructor (id: string)
      ensures wayfireProcess == None && socket == None
      ensures socketName == SocketName(id)
      ensures ipcDuration == 0.1
      ensures screenshots == [] && screenshotPrefix == ""
    {
      wayfireProcess := None;
      socket := None;
      socketName := SocketPrefix + id + SocketSuffix;
      ipcDuration := 0.1;
      screenshots := [];
      screenshotPrefix := "";
    }

    method SetIpcDuration(duration: real)
      modifies this`ipcDuration
      ensures ipcDuration == duration
    {
      ipcDuration := duration;
    }

    /** Polls the view list `waits` times, waiting `interval` ms after each
        poll that does not see `nrClients` views, then polls once more; only
        that last poll decides the result. `observed[k]` is the view count the
        `k`-th poll sees. */
    method WaitForClientsToOpen(observed: seq<nat>, nrClients: int, waits: int := 10, interval: int := 100)
      returns (ok: bool, trace: seq<Event>)
      requires Iterations(waits) < |observed|
      ensures ok <==> observed[Iterations(waits)] == nrClients
      ensures trace == PollLoop(observed[..Iterations(waits)], nrClients, interval) + [ListViews]
      ensures Occurrences(trace, ListViews) == Iterations(waits) + 1
      ensures Occurrences(trace, WaitMs(interval)) == Mismatches(observed[..Iterations(waits)], nrClients)
      ensures Occurrences(trace, WaitMs(interval)) <= Iterations(waits)
    {
      var n := Iterations(waits);
      trace := [];
      for k := 0 to n
        invariant trace == PollLoop(observed[..k], nrClients, interval)
      {
        trace := trace + [ListViews];
        if observed[k] != nrClients {
          trace := trace + [WaitMs(interval)];
        }
        assert observed[..k + 1][..k] == observed[..k];
      }
      trace := trace + [ListViews];
      PollLoopCounts(observed[..n], nrClients, interval);
      OccurrencesAppend(PollLoop(observed[..n], nrClients, interval), [ListViews], ListViews);
      OccurrencesAppend(PollLoop(observed[..n], nrClients, interval), [ListViews], WaitMs(interval));
      if observed[n] != nrClients {
        return false, trace;
      }
      return true, trace;
    }

    /** Checks the client binaries in order and stops at the first one that
        is not in `found`, the binaries `shutil.which` finds. `queried` lists the
        binaries looked up. */
    method RequireTestClients(clients: seq<string>, found: set<string>)
      returns (o: Outcome, queried: seq<string>)
      ensures var k := FirstMissing(clients, found);
        && queried == clients[..if k < |clients| then k + 1 else k]
        && o == if k < |clients| then Outcome(SKIPPED, Some(MissingClientMessage(clients[k])))
                else Outcome(OK, None)
    {
      queried := [];
      for i := 0 to |clients|
        invariant queried == clients[..i]
        invariant forall j :: 0 <= j < i ==> clients[j] in found
      {
        queried := queried + [clients[i]];
        if clients[i] !in found {
          return Outcome(SKIPPED, Some(MissingClientMessage(clients[i]))), queried;
        }
      }
      assert queried == clients;
      o := Outcome(OK, None);
    }

    /** Records the screenshot path of `stage` and returns the capture
        service's error (`captureError`) unchanged. */
    method TakeScreenshot(stage: string, captureError: Option<string>) returns (err: Option<string>)
      modifies this`screenshots
      ensures screenshots == old(screenshots) + [ScreenshotPath(screenshotPrefix, stage)]
      ensures err == captureError
    {
      var fullPath := screenshotPrefix + "-" + stage + ".png";
      screenshots := screenshots + [fullPath];
      err := captureError;
    }

    /** Starts the compositor (`spawn`) and connects to its socket (`connect`). */
    method RunWayfire(spawn: Step<Pid>, connect: Step<()>) returns (start: Step<()>)
      modifies this`wayfireProcess, this`socket
      ensures start == StartStep(spawn, connect)
      ensures wayfireProcess == if spawn.Returned? then Some(spawn.value) else old(wayfireProcess)
      ensures socket == if spawn.Returned? && connect.Returned? then Some(socketName) else old(socket)
    {
      if spawn.Raised? {
        return Raised(spawn.trace);
      }
      wayfireProcess := Some(spawn.value);
      if connect.Raised? {
        return connect;
      }
      socket := Some(socketName);
      start := connect;
    }

    /** Starts the compositor, runs the scenario body, and checks with a ping
        that the compositor is still alive; every exception becomes CRASHED. */
    method Run(spawn: Step<Pid>, connect: Step<()>, body: Step<Outcome>, ping: Step<bool>)
      returns (o: Outcome)
      modifies this`wayfireProcess, this`socket
      ensures o == RunSteps(StartStep(spawn, connect), body, ping).outcome
      ensures wayfireProcess == if spawn.Returned? then Some(spawn.value) else old(wayfireProcess)
      ensures socket == if spawn.Returned? && connect.Returned? then Some(socketName) else old(socket)
    {
      var start := RunWayfire(spawn, connect);
      if start.Raised? {
        return CrashOutcome(start.trace);
      }
      if body.Raised? {
        return CrashOutcome(body.trace);
      }
      var Outcome(status, msg) := body.value;
      if !SameStatus(status, OK) {
        return Outcome(status, msg);
      }
      if ping.Raised? {
        return CrashOutcome(ping.trace);
      }
      if ping.value {
        return Outcome(OK, None);
      }
      return Outcome(WRONG, Some(PingFailureMessage));
    }

    /** Presses `button` at the start, drags through 11 waypoints to the end,
        and releases the button when `release` holds. */
    method ClickAndDrag(button: string, startX: int, startY: int, endX: int, endY: int, release: bool := true)
      returns (trace: seq<Event>)
      ensures |trace| == if release then 14 else 13
      ensures trace[0] == MoveCursor(startX, startY)
      ensures trace[1] == ClickButton(button, Press)
      ensures forall i :: 0 <= i < 11 ==>
        trace[2 + i] == MoveCursor(Waypoint(startX, endX, i), Waypoint(startY, endY, i))
      ensures trace[2] == MoveCursor(startX, startY) && trace[12] == MoveCursor(endX, endY)
      ensures release ==> trace[13] == ClickButton(button, Release)
    {
      var dx := endX - startX;
      var dy := endY - startY;
      trace := [MoveCursor(startX, startY), ClickButton(button, Press)];
      for i := 0 to 11
        invariant |trace| == 2 + i
        invariant trace[0] == MoveCursor(startX, startY)
        invariant trace[1] == ClickButton(button, Press)
        invariant forall k :: 0 <= k < i ==>
          trace[2 + k] == MoveCursor(Waypoint(startX, endX, k), Waypoint(startY, endY, k))
      {
        trace := trace + [MoveCursor(startX + FloorDiv(dx * i, 10), startY + FloorDiv(dy * i, 10))];
      }
      if release {
        trace := trace + [ClickButton(button, Release)];
      }
      WaypointEndpoints(startX, endX);
      WaypointEndpoints(startY, endY);
    }

    /** The kill request of cleanup: the process whose group gets SIGKILL,
        or None when no compositor was recorded. Cleanup changes no field (it
        has no `modifies`), so a second call issues the same kill again. */
    method Cleanup() returns (killGroupOf: Option<Pid>)
      ensures killGroupOf == wayfireProcess
    {
      if wayfireProcess.Some? {
        killGroupOf := Some(wayfireProcess.value);
      } else {
        killGroupOf := None;
      }
    }
  }
}

# Wayfire test harness: a verified model of `WayfireTest`

The wayfire-tests repository runs end-to-end regression tests of the Wayfire
compositor. Every test scenario is a subclass of the shared harness class
`WayfireTest` in `wfpytest/wftest.py`. The harness provides these pieces:

- the outcome kinds `Status` (`OK`, `WRONG`, `GUI_WRONG`, `CRASHED`, `SKIPPED`);
- the per-test socket path under `/tmp/wst/`;
- the polling helper `wait_for_clients_to_open`;
- the client-binary check `require_test_clients`;
- screenshot bookkeeping;
- the drag gesture `click_and_drag`;
- `run`, which maps every way a test can end to a `(Status, message)` pair;
- the process-group kill in `cleanup`.

This project models those pieces in Dafny and proves what they promise.

Files:

- `outcomes.dfy`, module `Outcomes`: `Status` with its value pair
  `(name, colour)`, the harness's value-based equality `SameStatus`, and
  `Outcome`, the `(Status, Option<string>)` pair.
- `wftest.dfy`, module `WfTest`: the harness. The object is the class
  `WayfireTest`, with the fields the source sets in place:
  - `wayfireProcess`: the spawned compositor, reduced to its pid;
  - `socket`: the IPC connection, reduced to the socket path it is bound to;
  - `socketName`, `ipcDuration`, `screenshots` and `screenshotPrefix`.

  The module-level functions are the specifications of that class's methods.

The outside world is reduced to plain data:

- A call that may raise an `Exception` is a `Step<T>` value: `Returned(v)`
  or `Raised(traceback)`. This covers spawning the compositor, connecting to its
  socket, the scenario body `_run` and `ping`.
- IPC requests and `wait_ms` sleeps are `Event`s. The polling and drag methods
  return them in the order they are issued.
- The view counts seen by successive `list_views` calls are a sequence
  parameter.
- `shutil.which` is a parameter `found`: the set of binaries it finds.
- The output of `uuid4` is a string parameter of the constructor.

Notes on the code as written:

- `wait_for_clients_to_open` has no early exit when a poll matches. It
  always runs all `waits` iterations and then polls once more, and only that
  last poll decides the result. `WaitForClientsToOpen` states exactly this.
- `run` itself calls neither `prepare` nor `cleanup`; the outer test runner
  calls them. `Run` and `RunSteps` do not call them either.
- `cleanup` never clears `_wayfire_process`, so a second call issues the
  kill again. `Cleanup` returns the kill request that the guard produces.
- `Status.__eq__` compares the value pairs. `SameStatus` states that this is
  the same as comparing the kinds, because no two kinds share a value pair.

## Model

| member | source | states |
|---|---|---|
| `Outcomes.Status.Value` | wfpytest/wftest.py:17-21 | every kind has a non-empty name; the colour is green exactly for OK, yellow exactly for SKIPPED, and red exactly for WRONG, GUI_WRONG and CRASHED |
| `Outcomes.SameStatus` | wfpytest/wftest.py:23-24 | `__eq__` on value pairs holds exactly when the two statuses are the same kind |
| `Outcomes.WrongDiffersFromGuiWrong` | wfpytest/wftest.py:18-24 | WRONG and GUI_WRONG have the same colour, yet they do not compare equal |
| `Outcomes.OkDiffersFromSkipped` | wfpytest/wftest.py:17-24 | OK and SKIPPED differ in name and in colour, and they do not compare equal |
| `WfTest.WayfireTest.constructor` | wfpytest/wftest.py:34-43 | a new harness has no process and no connection, the socket path built from its id, an IPC duration of 0.1, no screenshots and an empty prefix |
| `WfTest.WayfireTest.SetIpcDuration` | wfpytest/wftest.py:31-32 | sets the settle-time scale to the given duration |
| `WfTest.SocketName` | wfpytest/wftest.py:38-40 | the socket path starts with `/tmp/wst/wayfire-`, ends in `.socket`, and holds the id between them |
| `WfTest.SocketNameRoundTrip` | wfpytest/wftest.py:39-40 | the id can be recovered from the socket path |
| `WfTest.SocketNamesDistinct` | wfpytest/wftest.py:39-40 | distinct ids give distinct socket paths, so two harness instances never share a socket |
| `WfTest.Iterations` | wfpytest/wftest.py:49 | `range(waits)` runs `waits` times, and not at all when `waits` is zero or negative |
| `WfTest.PollStep` | wfpytest/wftest.py:50-51 | one iteration polls first, then waits iff the poll did not see `nr_clients` views; it issues two events on a mismatch and one otherwise |
| `WfTest.PollLoop` | wfpytest/wftest.py:49-51 | the loop issues only polls and waits of `interval` ms |
| `WfTest.Mismatches` | wfpytest/wftest.py:49-51 | the number of mismatching polls is at most the number of polls, and it is zero exactly when every poll saw the expected count |
| `WfTest.PollLoopCounts` | wfpytest/wftest.py:49-51 | the loop issues one `list_views` per iteration and one `wait_ms(interval)` per mismatching poll |
| `WfTest.WayfireTest.WaitForClientsToOpen` | wfpytest/wftest.py:48-56 | with the defaults `waits = 10` and `interval = 100`, runs exactly `max(waits, 0)` iterations and waits only after a mismatching poll; then polls once more, for `max(waits, 0) + 1` polls in all; the result is true iff that last poll saw `nr_clients`; waits never exceed the iterations |
| `WfTest.MissingClientMessage` | wfpytest/wftest.py:64 | the skip message is "Missing ", then the client name, then " (Did you compile test clients?)" |
| `WfTest.FirstMissing` | wfpytest/wftest.py:62-63 | gives the index of the first client not found: every earlier client is found, and that client is not |
| `WfTest.FirstMissingAllFound` | wfpytest/wftest.py:62-65 | no client is missing exactly when every client in the list is found |
| `WfTest.WayfireTest.RequireTestClients` | wfpytest/wftest.py:61-65 | returns `(OK, None)` when no client is missing, so (by `FirstMissingAllFound`) iff every client is found; otherwise returns `SKIPPED` with the "Missing … (Did you compile test clients?)" message for the first missing client; looks up clients in list order and none after that one |
| `WfTest.ScreenshotPath` | wfpytest/wftest.py:68 | the path starts with the prefix and a dash, ends in `.png`, and is 5 characters longer than prefix and stage together |
| `WfTest.ScreenshotPathRoundTrip` | wfpytest/wftest.py:68 | the stage can be recovered from the path, given the prefix |
| `WfTest.ScreenshotPathsDistinct` | wfpytest/wftest.py:68 | with one prefix, different stages give different files |
| `WfTest.WayfireTest.TakeScreenshot` | wfpytest/wftest.py:67-70 | appends exactly `prefix-stage.png` to the end of `screenshots`, leaves earlier entries unchanged, and returns the capture service's error unchanged |
| `WfTest.StartStep` | wfpytest/wftest.py:107-116 | starting the compositor succeeds iff both the spawn and the socket connection succeed |
| `WfTest.WayfireTest.RunWayfire` | wfpytest/wftest.py:107-116 | records the process once the spawn succeeds and the connection only once connecting succeeds; raises the first fault |
| `WfTest.RunSteps` | wfpytest/wftest.py:81-94 | calls start, body and ping in that order, each at most once; pings iff the body returned OK; passes a non-OK body outcome through unchanged; gives `(OK, None)` iff start, body and ping all succeed; gives `(WRONG, "Wayfire failed to respond to ping")` on a false ping; turns every fault into CRASHED with the "Wayfire or client socket crashed, " prefix; CRASHED arises only from a fault or a CRASHED body outcome |
| `WfTest.PingIgnoredUnlessBodySucceeded` | wfpytest/wftest.py:84-86 | when the compositor fails to start, or the body raises or returns non-OK, the ping's answer cannot affect the result |
| `WfTest.CrashOutcome` | wfpytest/wftest.py:93-94 | a caught fault gives CRASHED with a message made of "Wayfire or client socket crashed, " followed by the traceback |
| `WfTest.WayfireTest.Run` | wfpytest/wftest.py:81-94 | returns the outcome `RunSteps` gives for the start, body and ping results, and never raises an `Exception`; the process and socket fields change as in `RunWayfire` |
| `WfTest.FloorDiv` | wfpytest/wftest.py:103 | Python's `//` with a positive divisor: the greatest `q` with `q * b <= a` |
| `WfTest.Waypoint` | wfpytest/wftest.py:103 | the `i`-th drag coordinate is the floor of `start + (end - start)·i/10`, the largest integer not above that point, as Python's `//` gives; when `end < start` it can pass the exact point by less than one, towards the end |
| `WfTest.WaypointEndpoints` | wfpytest/wftest.py:102-103 | the first drag move is exactly at the start and the eleventh exactly at the end |
| `WfTest.WaypointMonotone` | wfpytest/wftest.py:102-103 | each coordinate of the drag moves is monotone in the step index, in the direction from start to end |
| `WfTest.WaypointBetween` | wfpytest/wftest.py:102-103 | every drag coordinate lies between its start and end value |
| `WfTest.WayfireTest.ClickAndDrag` | wfpytest/wftest.py:96-105 | issues a move to the start, a press, exactly 11 moves to `start + d*i // 10`, the first at the start and the last at the end, then one release iff `release` holds (default true) |
| `WfTest.WayfireTest.Cleanup` | wfpytest/wftest.py:122-125 | sends no kill request when no compositor process is recorded; otherwise kills the group of the recorded process; changes no field, so a second call repeats the same kill |

## Left out

- Process spawning. This covers opening the log file, copying the environment,
  setting `_WAYFIRE_SOCKET`, the `-c wayfire.ini` argument (`locate_cfgfile`)
  and `os.setsid` (wfpytest/wftest.py:107-120). The environment variable carries the
  harness's own `socketName` (wfpytest/wftest.py:110), but the model does not
  record it on the spawn, so it does not state that the compositor and the IPC
  client use one path. The spawn is folded into the `spawn` step, which either
  returns a pid or raises.
- The randomized start-up sleep (wfpytest/wftest.py:115). It is a wall-clock
  delay with a random length.
- The `mkdir` of `/tmp/wst/` in the constructor. It is a filesystem effect.
- Sleep durations: `wait_for_clients` and the float scaling in `wait_ms`
  (wfpytest/wftest.py:45-46, 58-59). A sleep appears only as a `WaitMs(ms)`
  event carrying the unscaled milliseconds. `wait_for_clients` issues no IPC
  request, so it is not modelled.
- WfTest.WayfireTest.WaitForClientsToOpen: does not model the `ValueError` that
  `time.sleep` raises in `wait_ms` for a negative interval
  (wfpytest/wftest.py:59). With a negative interval and a mismatching poll,
  the method emits `WaitMs(interval)` and returns normally. Sleep durations
  are not modelled.
- WfTest.WayfireTest.TakeScreenshot: does not model `wu.take_screenshot`
  raising (wfpytest/wftest.py:70). In Python the path is already appended
  when it raises. The model takes only the service's returned error, because
  that service is not part of this model.
- WfTest.WayfireTest.Run: `Raised` stands only for exceptions that are
  subclasses of `Exception`, which is all that `except Exception` catches
  (wfpytest/wftest.py:93). A `KeyboardInterrupt` or `SystemExit` raised by
  `run_wayfire`, `_run` or `ping` escapes `run`. The same holds for
  `RunSteps`.
- `os.getpgid` and `os.killpg` in `cleanup`. They are OS calls. `Cleanup`
  returns the pid whose process group gets SIGKILL. Because of `setsid`, that
  pid is also the group id.
- The IPC wire protocol, `WayfireIPCClient`, and `wfutil.take_screenshot`.
  They are not part of this model. Their answers are parameters: view counts,
  `Step` results and the capture error.
- `uuid4`, `shutil.which` and `traceback.format_exc`. These are foreign calls,
  replaced by parameters.
- The scenario hooks `prepare` and `_run`, and their defaults
  (wfpytest/wftest.py:72-76). The body of `_run` is an oracle `Step<Outcome>`.
  State the body changes on the harness object, such as screenshots it takes,
  is not carried through `Run`.
- Calling a helper that uses the IPC socket before the socket is connected,
  which raises `AttributeError` in Python. Helpers that use the socket are only
  called from inside `_run`. There any exception is the body's `Raised` step,
  which `Run` maps to CRASHED.
- Drag coordinates are modelled as integers. Python float coordinates, for
  which `//` is float floor division, are not modelled.
- The scenario files under `tests/`. They are scripted interactions with a
  live compositor and consume the harness. They are not part of the harness.

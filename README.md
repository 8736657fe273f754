# Pairing handshake and location relay — a Dafny model

This project models the small stateful core of a task-tracking backend for a chat bot:

- **The pairing slot and its expiry timer** (`app/instances.py`). `ThreadSafeKey` is one
  process-wide slot holding a `(key, name)` pair. `TimerSingleton` owns at most one asyncio task
  that waits `TIMER` seconds (default 30) and then, in its `finally`, clears the slot. The asyncio
  steps become atomic methods of a class: `Start`, `Stop`, and `ResumeTask(now)`, the turn the
  event loop gives the timer task. `ResumeTask` runs the task's `finally` when the task was
  cancelled or its deadline has passed. `Start` cancels and awaits an outstanding task, so that
  task's `finally` runs inside `Start`, before the new pair is installed.
  The class invariant `TimerSingleton.Valid` states these facts:
  - a key sits in the slot exactly while a timer task is outstanding;
  - every task except the newest has run its `finally`, once each and in creation order;
  - the event is set only on a task whose cancellation was requested.

  Because of these facts, an old timer can never wipe a newer key.
- **Authentication** (`app/server.py`). `authenticate` first tries the bootstrap window,
  `|hour*60 + minute - key| <= 10`, which makes the caller OWNER. Then it tries the pairing
  slot, which makes the caller a WORKER named after the stored name and stops the timer.
  Otherwise it answers with one indistinguishable 401. `create_user` mints a key in
  [100000, 999999], only for an OWNER. `list_tasks` decides whose tasks a caller may see. The
  wall clock is an input. Random tokens and keys are arbitrary values in their ranges. The user
  table is reduced to the row `get_user` finds (an input) and the `Grant` written on success.
- **The location relay** (`index.py`). `LocationsWorker` is an append-only list with a cursor
  to the last location handed out. Its methods are proved against the value-level `Feed`. The
  lemma `HandedOutInSaveOrder` proves the following for any sequence of calls: the batches
  returned by `get_locations`, one after the other, are exactly the saved locations up to the
  cursor, in save order. So, as long as calls do not overlap, every location is handed out
  once, after a final `get_locations`.

**A pairing key is not single-use.** `is_valid` only reads the slot
(`app/instances.py:24-30`). The key is cleared only when the cancelled timer task runs its
`finally` (`app/instances.py:63-64`), so the same key authenticates again until then.
`Server.RedeemTwiceBeforeTimerRuns` exhibits this: two successes, then a rejection once the
task has run. Superseding a timer is the cancel-and-await step inside `start`.

Files: `wrappers.dfy` (Option), `instances.dfy` (module `Instances`), `server.dfy` (module
`Server`), `locations.dfy` (module `Locations`).

## Model

| member | source | states |
|---|---|---|
| `Instances.ThreadSafeKey.constructor` | app/instances.py:10-13 | the slot starts with key and name both `None` |
| `Instances.ThreadSafeKey.Add` | app/instances.py:15-21 | both fields are overwritten with the new pair, so a previous key no longer matches unless it equals the new one |
| `Instances.ThreadSafeKey.IsValid` | app/instances.py:23-30 | returns the stored name exactly when the presented key equals the stored key, `None` for any other key or an empty slot; it changes nothing, so repeated calls give the same answer |
| `Instances.ThreadSafeKey.Clear` | app/instances.py:32-37 | the key becomes `None` (no integer matches afterwards) and the name is kept; a second clear changes nothing |
| `Instances.TimerSingleton.constructor` | app/instances.py:40-52 | timeout is `TIMER` or 30 when unset; no task, event clear, empty slot, invariant established |
| `Instances.TimerSingleton.RunFinally` | app/instances.py:63-66 | the task's `finally` clears the slot key, drops the task, clears the event, and records that this task has ended |
| `Instances.TimerSingleton.ResumeTask` | app/instances.py:54-66 | the task ends on cancellation or on timeout alike, by running its `finally`; before its deadline and while uncancelled nothing changes |
| `Instances.TimerSingleton.Start` | app/instances.py:68-79 | an outstanding task ends first (its clear is recorded before the new pair is installed); afterwards the slot holds the new pair and exactly one fresh, uncancelled task with deadline now + timeout is outstanding |
| `Instances.TimerSingleton.Stop` | app/instances.py:81-87 | with no task nothing changes; otherwise the task is marked cancelled and the event set, and the slot is untouched until the task's `finally` runs |
| `Server.InBootstrapWindow` | app/server.py:97-100 | accepts exactly the keys within 10 minutes of the minutes since midnight, both ends included |
| `Server.BootstrapTolerance` | app/server.py:100 | offsets of +10 and -10 are accepted, +11 and -11 are not |
| `Server.PairingKeyNeverBootstraps` | app/server.py:97-100 | no key in the pairing range [100000, 999999] falls in the bootstrap window at any time of day |
| `Server.Authenticate` | app/server.py:95-118 | bootstrap first: OWNER, slot and timer untouched; else a matching key with a non-empty name: WORKER with that name, timer stopped, key left in the slot; else 401 with no state change; every token is in [0, 2^63) |
| `Server.CreateUser` | app/server.py:121-133 | a caller who is not a known OWNER gets 401 and nothing changes; an OWNER gets a key in [100000, 999999] that the slot now holds with the given name under a fresh timer |
| `Server.TasksScope` | app/server.py:238-250 | a request is served exactly for OWNER or WORKER callers; an OWNER gets the requested id; a WORKER always gets its own id whatever it asked for; any other result id goes only to an OWNER |
| `Server.UserRoleRejected` | app/server.py:246-250 | a USER caller, or a token that matches no user, gets 401 |
| `Server.SupersededKeyRejected` | app/instances.py:68-79 | after two pairings the first key is rejected (when the keys differ) and the second authenticates under the second name |
| `Server.KeyExpiresAtTimeout` | app/instances.py:57-66 | without cancellation, a key still matches one second before its deadline and is rejected once the timer task runs at the deadline |
| `Server.RedeemTwiceBeforeTimerRuns` | app/server.py:106-115 | a pairing key authenticates twice before the stopped timer task runs its `finally`, and is rejected afterwards |
| `Locations.HasCoordinates` | index.py:28-29 | a request passes only when both `long` and `lat` are present and truthy |
| `Locations.ZeroCoordinateRejected` | index.py:28-29 | a coordinate equal to 0 is rejected like a missing one |
| `Locations.SaveAppends` | index.py:10-11 | saving appends at the end, keeps earlier entries and the cursor, and keeps the cursor invariant |
| `Locations.GetHandsOutUnseen` | index.py:13-16 | the batch is exactly what follows the cursor; the list is unchanged; the cursor moves to the last entry |
| `Locations.SecondGetIsEmpty` | index.py:13-16 | a second fetch with no save in between returns nothing |
| `Locations.Replay` | index.py:5-16 | from construction onward, under any calls, `-1 <= last_given <= len(locations) - 1` |
| `Locations.HandedOutInSaveOrder` | index.py:5-16 | under any calls the list is the saved locations in save order, and the batches handed out, concatenated, are exactly those up to the cursor |
| `Locations.DrainHandsOutAll` | index.py:13-16 | after a final fetch every saved location has been handed out exactly once, in save order |
| `Locations.LocationsWorker.constructor` | index.py:6-8 | a new worker holds nothing and has handed out nothing |
| `Locations.LocationsWorker.SaveLocation` | index.py:10-11 | the new state is the old one with the location appended |
| `Locations.LocationsWorker.GetLocations` | index.py:13-16 | the batch and the new state are those of `Feed.Get` on the old state |
| `Locations.LocationSend` | index.py:25-35 | 400 and nothing saved unless both coordinates are truthy; otherwise the stamped location is saved and the answer is 200 |

## Left out

- Real concurrency: the locks, `asyncio.Event`, `wait_for` and task scheduling become atomic sequential steps. Interleavings inside a handler, such as two `authenticate` calls racing between `is_valid` and `stop`, are not modelled.
- `LocationsWorker` calls are taken as atomic, and the exactly-once result assumes calls that do not overlap. Flask serves requests on threads (index.py:47). A `save_location` landing between index.py:14 and index.py:15 would never be handed out, and two overlapping `get_locations` calls could return the same batch twice.
- A task cancelled before its first step never enters its `try`, so its `finally` does not run. The model treats a task as started once it is created.
- `start`'s `done()` test is not modelled separately. In the model a task that is still referenced has never finished.
- The singleton `__new__`, `message_id` and `chat_id` are not modelled. The model passes the one timer object explicitly. `message_id` and `chat_id` are never used by the modelled code.
- The `TIMER` variable is taken as already parsed to an integer. A value that `int()` rejects is not modelled.
- The user table (app/db/requests.py) is not part of this model. `get_user` is an input. `set_user` and `update_user` are summarised by the `Grant` returned. Database errors, which `authenticate` lets escape as a 500, are not modelled.
- Logging is not modelled, nor are the HTTP layers (FastAPI, Flask), the other CRUD endpoints of app/server.py, the append to `input.txt` in index.py, server.js, app/filters.py and the startup code.
- `location_send` handles a request body only as a JSON object. A body that is not an object, which fails with an error in the source, is not modelled. JSON numbers are reals, and NaN is not modelled.

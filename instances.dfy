/**
 * The pairing-code slot and its expiry timer (app/instances.py).
 *
 * The asyncio machinery is modelled as atomic, sequential steps:
 *  - `TimerSingleton.Start`  : cancel and await any outstanding timer task, install the new pair,
 *                              clear the event, create a new timer task;
 *  - `TimerSingleton.Stop`   : request cancellation of the outstanding task and set the event;
 *  - `TimerSingleton.ResumeTask` : the event loop gives the timer task a turn; it leaves its
 *                              `try` (cancelled, or its timeout has elapsed) and runs its `finally`.
 */
module Instances {
  import opened Wrappers

  /** The `(key, name)` tuple handed to `ThreadSafeKey.add` and `TimerSingleton.start`. */
  datatype Pairing = Pairing(key: int, name: string)

  /** Default of the `TIMER` environment variable, in seconds. */
  const DEFAULT_TIMEOUT: int := 30

  /** The single, process-wide pairing slot. `None` models Python's `None`. */
  class ThreadSafeKey {
    var key: Option<int>
    var name: Option<string>

    /** Both class attributes start out as `None`. */
    constructor ()
      ensures key == None && name == None
    {
      key := None;
      name := None;
    }

    /** `add`: overwrite both fields with the given pair. */
    method Add(data: Pairing)
      modifies this
      ensures key == Some(data.key) && name == Some(data.name)
    {
      key := Some(data.key);
      name := Some(data.name);
    }

    /**
     * `is_valid`: the stored name when the presented key equals the stored one, `None` otherwise.
     * It reads the slot only: the key is not consumed.
     */
    method IsValid(presented: int) returns (r: Option<string>)
      ensures key == Some(presented) ==> r == name
      ensures key != Some(presented) ==> r == None
    {
      if key == Some(presented) {
        r := name;
      } else {
        r := None;
      }
    }

    /** `clear`: forget the key only; the name stays behind. */
    method Clear()
      modifies this
      ensures key == None && name == old(name)
    {
      key := None;
    }
  }

  /**
   * The outstanding timer task: `deadline` is the instant at which `wait_for` gives up
   * waiting, `cancelled` whether `cancel()` has been requested.
   */
  datatype Task = Task(deadline: int, cancelled: bool)

  class TimerSingleton {
    /** The `ThreadSafeKey` slot whose lifetime this timer bounds. */
    const slot: ThreadSafeKey
    /** `timeout`, read once from the environment. */
    const timeout: int
    /** `_task`: `None`, or the task created by the latest `start` whose `finally` has not yet run. */
    var task: Option<Task>
    /** `_event`: set by `stop`, cleared by `start` and by the task's `finally`. */
    var event: bool

    /** Number of timer tasks created so far. */
    ghost var started: nat
    /**
     * Generations (0, 1, 2, ... in creation order) of the tasks whose `finally` has run,
     * in the order it ran. The outstanding task, if any, is generation `|finished|`.
     */
    ghost var finished: seq<nat>

    /**
     * The timer's invariant: a key sits in the slot exactly while a task is outstanding;
     * every task but the newest has run its `finally`, each once and in creation order;
     * the event is only ever set on a task whose cancellation has been requested.
     */
    ghost predicate Valid()
      reads this, slot
    {
      && (task.Some? <==> slot.key.Some?)
      && (slot.key.Some? ==> slot.name.Some?)
      && (forall j :: 0 <= j < |finished| ==> finished[j] == j)
      && started == |finished| + (if task.Some? then 1 else 0)
      && (event ==> task.Some? && task.value.cancelled)
    }

    /**
     * The singleton with its slot; `timerEnv` is the `TIMER` variable, already read as an
     * integer, or `None` when unset.
     */
    constructor (timerEnv: Option<int>)
      ensures Valid() && fresh(slot)
      ensures timerEnv.None? ==> timeout == DEFAULT_TIMEOUT
      ensures timerEnv.Some? ==> timeout == timerEnv.value
      ensures task == None && !event && slot.key == None
      ensures started == 0 && finished == []
    {
      slot := new ThreadSafeKey();
      timeout := timerEnv.GetOr(DEFAULT_TIMEOUT);
      task := None;
      event := false;
      started := 0;
      finished := [];
    }

    /** The `finally` of `_start_timer`: clear the slot, drop the task, clear the event. */
    method RunFinally()
      requires Valid() && task.Some?
      modifies this, slot
      ensures Valid()
      ensures task == None && !event && slot.key == None && slot.name == old(slot.name)
      ensures started == old(started) && finished == old(finished) + [|old(finished)|]
    {
      finished := finished + [|finished|];
      slot.Clear();
      task := None;
      event := false;
    }

    /**
     * The event loop gives the timer task a turn at time `now`. The task leaves `wait_for`
     * when its cancellation was requested or its timeout has elapsed, and then runs its
     * `finally`; otherwise it keeps waiting and nothing changes.
     */
    method ResumeTask(now: int)
      requires Valid()
      modifies this, slot
      ensures Valid()
      ensures old(task).Some? && (old(task).value.cancelled || now >= old(task).value.deadline) ==>
                task == None && !event && slot.key == None && slot.name == old(slot.name)
                && finished == old(finished) + [|old(finished)|]
      ensures old(task).None? || (!old(task).value.cancelled && now < old(task).value.deadline) ==>
                task == old(task) && event == old(event) && finished == old(finished)
                && slot.key == old(slot.key) && slot.name == old(slot.name)
      ensures started == old(started)
    {
      if task.Some? && (task.value.cancelled || now >= task.value.deadline) {
        RunFinally();
      }
    }

    /**
     * `start`: an outstanding task is cancelled and awaited (so its `finally` clears the slot
     * first), then the new pair is installed, the event cleared and a fresh task armed.
     */
    method Start(data: Pairing, now: int)
      requires Valid()
      modifies this, slot
      ensures Valid()
      ensures slot.key == Some(data.key) && slot.name == Some(data.name)
      ensures task == Some(Task(now + timeout, false)) && !event
      ensures started == old(started) + 1
      ensures old(task).Some? ==> finished == old(finished) + [|old(finished)|]
      ensures old(task).None? ==> finished == old(finished)
    {
      if task.Some? {
        task := Some(task.value.(cancelled := true));
        RunFinally();
      }
      slot.Add(data);
      event := false;
      task := Some(Task(now + timeout, false));
      started := started + 1;
    }

    /**
     * `stop`: with no task, nothing happens. Otherwise the task's cancellation is requested
     * and the event set; the slot is left alone until the task's `finally` runs.
     */
    method Stop()
      requires Valid()
      modifies this
      ensures Valid()
      ensures old(task).None? ==> task == None && event == old(event)
      ensures old(task).Some? ==> task == Some(old(task).value.(cancelled := true)) && event
      ensures started == old(started) && finished == old(finished)
    {
      if task.Some? {
        task := Some(task.value.(cancelled := true));
        event := true;
      }
    }
  }
}

/**
 * The authentication decisions of the HTTP backend (app/server.py): `authenticate`,
 * `create_user` and the role decision of `list_tasks`.
 *
 * The wall clock is an input (`Clock`); `secrets.randbits(63)` and
 * `random.randint(100000, 999999)` are arbitrary choices within their ranges; the user
 * table is reduced to what the handlers read from it (`get_user`, an input) and what they
 * write to it (the `Grant` returned).
 */
module Server {
  import opened Wrappers
  import opened Instances

  /** Role values stored in the user table (app/config/roles.py). */
  const USER: int := 1
  const WORKER: int := 2
  const OWNER: int := 4

  /** Tokens are `secrets.randbits(63)`: 0 <= token < 2^63. */
  const TOKEN_BOUND: int := 0x8000_0000_0000_0000

  /** Pairing keys are `random.randint(100000, 999999)`, both ends included. */
  const KEY_MIN: int := 100000
  const KEY_MAX: int := 999999

  /** Half-width, in minutes, of the bootstrap window. */
  const BOOTSTRAP_TOLERANCE: int := 10

  /** Local wall-clock time as `datetime.now()` reports it. */
  datatype Clock = Clock(hour: int, minute: int) {
    predicate Valid() { 0 <= hour < 24 && 0 <= minute < 60 }

    /** `now.hour * 60 + now.minute`. */
    function MinutesToday(): int { hour * 60 + minute }
  }

  /** A row of the user table as `get_user(token)` returns it. */
  datatype Account = Account(id: int, role: int)

  /**
   * What a successful authentication writes to the user table and answers: the new token,
   * the role given, and the display name written (`None`: left as it was).
   */
  datatype Grant = Grant(token: int, role: int, fullname: Option<string>)

  /** An endpoint's answer; `Unauthorized` is the one 401 "Token is invalid" reply. */
  datatype Reply<+T> = Ok(value: T) | Unauthorized

  function Abs(x: int): nat { if x < 0 then -x else x }

  /** The bootstrap test `abs(minutes_today - key) <= 10`. */
  function InBootstrapWindow(minutesToday: int, key: int): (ok: bool)
    ensures ok <==> minutesToday - BOOTSTRAP_TOLERANCE <= key <= minutesToday + BOOTSTRAP_TOLERANCE
  {
    Abs(minutesToday - key) <= BOOTSTRAP_TOLERANCE
  }

  /** Offsets of 10 minutes either way are accepted; offsets of 11 are not. */
  lemma BootstrapTolerance(minutesToday: int)
    ensures InBootstrapWindow(minutesToday, minutesToday + 10)
    ensures InBootstrapWindow(minutesToday, minutesToday - 10)
    ensures !InBootstrapWindow(minutesToday, minutesToday + 11)
    ensures !InBootstrapWindow(minutesToday, minutesToday - 11)
  {
  }

  /**
   * A minted pairing key can never be taken for a bootstrap code: there are at most
   * 1439 minutes in a day, far below the smallest key.
   */
  lemma PairingKeyNeverBootstraps(now: Clock, key: int)
    requires now.Valid()
    requires KEY_MIN <= key <= KEY_MAX
    ensures !InBootstrapWindow(now.MinutesToday(), key)
  {
  }

  /** The caller found by `get_user(token)` exists and is an OWNER. */
  predicate IsOwner(caller: Option<Account>) {
    caller.Some? && caller.value.role == OWNER
  }

  /**
   * The pairing path's condition: `ThreadSafeKey.is_valid(key)` yields a truthy name,
   * i.e. the key matches and the stored name is not empty.
   */
  predicate Redeemable(slot: ThreadSafeKey, key: int)
    reads slot
  {
    slot.key == Some(key) && slot.name.Some? && slot.name.value != ""
  }

  /**
   * `authenticate`: the bootstrap window is tried first and makes the caller OWNER without
   * looking at the slot; then the pairing path makes the caller a WORKER named after the
   * stored name and stops the timer; otherwise 401. The pairing key is NOT consumed: it
   * stays in the slot until the cancelled timer task runs its `finally`.
   */
  method Authenticate(timer: TimerSingleton, now: Clock, key: int) returns (r: Reply<Grant>)
    requires timer.Valid()
    modifies timer
    ensures timer.Valid() && unchanged(timer.slot)
    ensures r.Ok? ==> 0 <= r.value.token < TOKEN_BOUND
    ensures InBootstrapWindow(now.MinutesToday(), key) ==>
              r.Ok? && r.value.role == OWNER && r.value.fullname == None && unchanged(timer)
    ensures !InBootstrapWindow(now.MinutesToday(), key) && Redeemable(timer.slot, key) ==>
              && r.Ok? && r.value.role == WORKER && r.value.fullname == timer.slot.name
              && timer.task == Some(old(timer.task).value.(cancelled := true)) && timer.event
              && timer.started == old(timer.started) && timer.finished == old(timer.finished)
    ensures !InBootstrapWindow(now.MinutesToday(), key) && !Redeemable(timer.slot, key) ==>
              r == Unauthorized && unchanged(timer)
  {
    if InBootstrapWindow(now.MinutesToday(), key) {
      var token :| 0 <= token < TOKEN_BOUND;
      return Ok(Grant(token, OWNER, None));
    }
    var name := timer.slot.IsValid(key);
    if name.Some? && name.value != "" {
      var token :| 0 <= token < TOKEN_BOUND;
      r := Ok(Grant(token, WORKER, name));
      timer.Stop();
    } else {
      r := Unauthorized;
    }
  }

  /**
   * `create_user`: only an OWNER may start a pairing. The minted key lies in
   * [100000, 999999], is installed in the slot with the given name under a fresh timer,
   * and is returned; any other caller gets 401 and nothing changes.
   */
  method CreateUser(timer: TimerSingleton, caller: Option<Account>, fullname: string, instant: int)
    returns (r: Reply<int>)
    requires timer.Valid()
    modifies timer, timer.slot
    ensures timer.Valid()
    ensures !IsOwner(caller) ==> r == Unauthorized && unchanged(timer) && unchanged(timer.slot)
    ensures IsOwner(caller) ==>
              && r.Ok? && KEY_MIN <= r.value <= KEY_MAX
              && timer.slot.key == Some(r.value) && timer.slot.name == Some(fullname)
              && timer.task == Some(Task(instant + timer.timeout, false)) && !timer.event
  {
    if !IsOwner(caller) {
      return Unauthorized;
    }
    var key :| KEY_MIN <= key <= KEY_MAX;
    timer.Start(Pairing(key, fullname), instant);
    r := Ok(key);
  }

  /**
   * The role decision of `list_tasks`: the user id whose tasks are fetched. An OWNER gets
   * the requested id (-1, the default, asks for everyone's), a WORKER always its own id,
   * and anyone else, or an unknown token, 401.
   */
  function TasksScope(caller: Option<Account>, requestedUserId: int): (r: Reply<int>)
    ensures r.Ok? <==> caller.Some? && (caller.value.role == OWNER || caller.value.role == WORKER)
    ensures r.Ok? && caller.value.role == OWNER ==> r.value == requestedUserId
    ensures r.Ok? && caller.value.role == WORKER ==> r.value == caller.value.id
    ensures r.Ok? && r.value != caller.value.id ==> IsOwner(caller) && r.value == requestedUserId
  {
    match caller
    case None => Unauthorized
    case Some(user) =>
      if user.role == OWNER then Ok(requestedUserId)
      else if user.role == WORKER then Ok(user.id)
      else Unauthorized
  }

  /** A caller with the USER role, or whose token matches no user, is never served. */
  lemma UserRoleRejected(caller: Option<Account>, requestedUserId: int)
    requires caller.None? || caller.value.role == USER
    ensures TasksScope(caller, requestedUserId) == Unauthorized
  {
  }

  /**
   * A newer pairing supersedes an older one: after two `create_user` calls the first key no
   * longer authenticates and the second one does, under its own name.
   */
  method SupersededKeyRejected(timer: TimerSingleton, owner: Account, now: Clock, instant: int)
    returns (first: Reply<int>, second: Reply<int>, stale: Reply<Grant>, current: Reply<Grant>)
    requires timer.Valid() && now.Valid() && owner.role == OWNER
    modifies timer, timer.slot
    ensures first.Ok? && second.Ok?
    ensures first.value != second.value ==> stale == Unauthorized
    ensures current.Ok? && current.value.role == WORKER && current.value.fullname == Some("Carl")
  {
    first := CreateUser(timer, Some(owner), "Bob", instant);
    second := CreateUser(timer, Some(owner), "Carl", instant);
    PairingKeyNeverBootstraps(now, first.value);
    PairingKeyNeverBootstraps(now, second.value);
    stale := Authenticate(timer, now, first.value);
    current := Authenticate(timer, now, second.value);
  }

  /**
   * The pairing key is not single-use: a second presentation of the same key succeeds
   * again as long as the stopped timer task has not yet run its `finally`; once it has,
   * the key is rejected.
   */
  method RedeemTwiceBeforeTimerRuns(timer: TimerSingleton, owner: Account, now: Clock, instant: int)
    returns (key: Reply<int>, once: Reply<Grant>, twice: Reply<Grant>, after: Reply<Grant>)
    requires timer.Valid() && now.Valid() && owner.role == OWNER
    modifies timer, timer.slot
    ensures key.Ok?
    ensures once.Ok? && once.value.role == WORKER && once.value.fullname == Some("Alice")
    ensures twice.Ok? && twice.value.role == WORKER && twice.value.fullname == Some("Alice")
    ensures after == Unauthorized
  {
    key := CreateUser(timer, Some(owner), "Alice", instant);
    PairingKeyNeverBootstraps(now, key.value);
    once := Authenticate(timer, now, key.value);
    twice := Authenticate(timer, now, key.value);
    timer.ResumeTask(instant);
    after := Authenticate(timer, now, key.value);
  }

  /**
   * Expiry by timeout: with no cancellation, a turn of the timer task one second before its
   * deadline leaves the key matching; a turn at the deadline clears the slot, and the key is
   * then rejected.
   */
  method KeyExpiresAtTimeout(timer: TimerSingleton, owner: Account, now: Clock, instant: int)
    returns (key: Reply<int>, early: Option<string>, late: Reply<Grant>)
    requires timer.Valid() && now.Valid() && owner.role == OWNER
    modifies timer, timer.slot
    ensures key.Ok?
    ensures early == Some("Dana")
    ensures late == Unauthorized
  {
    key := CreateUser(timer, Some(owner), "Dana", instant);
    PairingKeyNeverBootstraps(now, key.value);
    timer.ResumeTask(instant + timer.timeout - 1);
    early := timer.slot.IsValid(key.value);
    timer.ResumeTask(instant + timer.timeout);
    late := Authenticate(timer, now, key.value);
  }
}

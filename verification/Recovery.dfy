/** Crash recovery of account workers: the process table, the recovery flag with its pending slot,
    the wait group, and shutdown. Threads run one lock section or one call out at a time and are
    interleaved arbitrarily. */
module Recovery {

  type Id = string
  type Proc = nat
  type Tid = nat

  const MAX_LEVEL: nat := 8

  // ---------------------------------------------------------------- the restart delay

  function Doubled(base: nat, times: nat): nat {
    if times == 0 then base else 2 * Doubled(base, times - 1)
  }

  lemma {:induction false} DoubledGrows(base: nat, a: nat, b: nat)
    requires a <= b
    ensures Doubled(base, a) <= Doubled(base, b)
  {
    if a < b { DoubledGrows(base, a, b - 1); }
  }

  function Delay(base: nat, max: nat, level: int): nat {
    var doubled := Doubled(base, if level <= 1 then 0 else level - 1);
    if doubled <= max then doubled else max
  }

  /** The delay before restart `level`: the base doubled for each level above one, capped. The loop
      stops before a doubling could pass the cap, so nothing overflows. */
  method RestartDelay(base: nat, max: nat, level: int) returns (delay: nat)
    ensures delay == Delay(base, max, level)
  {
    var top := if level <= 0 then 1 else level;
    delay := base;
    var step := 1;
    while step < top && delay < max
      invariant 1 <= step <= top && delay == Doubled(base, step - 1)
      invariant step > 1 ==> delay <= max
    {
      if delay > max / 2 {
        assert Doubled(base, step) > max;
        DoubledGrows(base, step, top - 1);
        return max;
      }
      delay := 2 * delay;
      step := step + 1;
    }
    DoubledGrows(base, step - 1, top - 1);
    if delay > max {
      return max;
    }
    if step < top && max > 0 {
      assert Doubled(base, step) > max;
      DoubledGrows(base, step, top - 1);
    }
  }

  // ---------------------------------------------------------------- shared state

  /** Everything guarded by the manager's lock, with the wait group. */
  datatype Table = Table(
    processes: map<Id, Proc>,
    recovering: set<Id>,
    pending: set<Id>,
    waiting: nat,
    cancelled: bool)

  datatype Begun = Started | Queued | Dropped

  /** `beginAccountRecovery` under the lock. */
  function Begin(t: Table, id: Id): (Table, Begun) {
    if t.cancelled then (t, Dropped)
    else if id in t.recovering then (t.(pending := t.pending + {id}), Queued)
    else (t.(recovering := t.recovering + {id}, waiting := t.waiting + 1), Started)
  }

  /** A recovery's unwinding under the lock: gives up the flag and takes the pending failure. */
  function Unwind(t: Table, id: Id): (Table, bool) {
    (t.(recovering := t.recovering - {id}, pending := t.pending - {id}), id in t.pending)
  }

  function Detach(t: Table, id: Id): Table {
    t.(processes := t.processes - {id})
  }

  datatype Registered = Kept | Surplus

  /** The second lock section of `startAccount`, with a started process in hand. */
  function Register(t: Table, id: Id, p: Proc): (Table, Registered) {
    if t.cancelled || id in t.processes then (t, Surplus)
    else (t.(processes := t.processes[id := p]), Kept)
  }

  function Climbed(level: nat): nat {
    if level < MAX_LEVEL then level + 1 else level
  }

  /** The manager, each method one section under its lock. */
  class Manager {
    var processes: map<Id, Proc>
    var recovering: set<Id>
    var pending: map<Id, string>
    var restarts: map<Id, nat>
    var restartBackoff: map<Id, nat>
    var waiting: nat
    var cancelled: bool

    ghost function Now(): Table
      reads this
    {
      Table(processes, recovering, pending.Keys, waiting, cancelled)
    }

    function Counter(m: map<Id, nat>, id: Id): nat {
      if id in m then m[id] else 0
    }

    constructor ()
      ensures Now() == Table(map[], {}, {}, 0, false) && restarts == map[] && restartBackoff == map[]
    {
      processes, recovering, pending, restarts, restartBackoff := map[], {}, map[], map[], map[];
      waiting, cancelled := 0, false;
    }

    method BeginAccountRecovery(id: Id, message: string) returns (begun: Begun, backoffLevel: nat)
      modifies this
      ensures (Now(), begun) == Begin(old(Now()), id)
      ensures begun.Queued? ==> pending == old(pending)[id := message]
      ensures begun.Started? ==>
        && restarts == old(restarts)[id := Counter(old(restarts), id) + 1]
        && restartBackoff == old(restartBackoff)[id := backoffLevel]
        && backoffLevel == Climbed(Counter(old(restartBackoff), id))
      ensures !begun.Started? ==> restarts == old(restarts) && restartBackoff == old(restartBackoff)
    {
      backoffLevel := 0;
      if cancelled {
        return Dropped, 0;
      }
      if id in recovering {
        pending := pending[id := message];
        assert pending.Keys == old(pending).Keys + {id};
        return Queued, 0;
      }
      recovering := recovering + {id};
      restarts := restarts[id := Counter(restarts, id) + 1];
      backoffLevel := Counter(restartBackoff, id);
      if backoffLevel < MAX_LEVEL {
        backoffLevel := backoffLevel + 1;
      }
      restartBackoff := restartBackoff[id := backoffLevel];
      waiting := waiting + 1;
      begun := Started;
    }

    /** A recovery's start failed: the next attempt waits at the next level. */
    method RecordFailedStart(id: Id) returns (backoffLevel: nat)
      modifies this`restarts, this`restartBackoff
      ensures restarts == old(restarts)[id := Counter(old(restarts), id) + 1]
      ensures restartBackoff == old(restartBackoff)[id := backoffLevel]
      ensures backoffLevel == Climbed(Counter(old(restartBackoff), id))
    {
      restarts := restarts[id := Counter(restarts, id) + 1];
      backoffLevel := Counter(restartBackoff, id);
      if backoffLevel < MAX_LEVEL {
        backoffLevel := backoffLevel + 1;
      }
      restartBackoff := restartBackoff[id := backoffLevel];
    }

    /** `resetRestartBackoff`, when a worker has proved healthy. */
    method ResetRestartBackoff(id: Id)
      modifies this`restartBackoff
      ensures restartBackoff == old(restartBackoff) - {id} && Counter(restartBackoff, id) == 0
    {
      restartBackoff := restartBackoff - {id};
    }

    method UnwindRecovery(id: Id) returns (again: bool, message: string)
      modifies this
      ensures (Now(), again) == Unwind(old(Now()), id)
      ensures again ==> message == old(pending)[id]
    {
      recovering := recovering - {id};
      again := id in pending;
      message := if again then pending[id] else "";
      pending := pending - {id};
    }

    method RegisterProcess(id: Id, p: Proc) returns (r: Registered)
      modifies this
      ensures (Now(), r) == Register(old(Now()), id, p)
    {
      if cancelled || id in processes {
        return Surplus;
      }
      processes := processes[id := p];
      r := Kept;
    }

    method DetachProcess(id: Id) returns (found: bool, p: Proc)
      modifies this
      ensures found == (id in old(processes)) && (found ==> p == old(processes)[id])
      ensures Now() == Detach(old(Now()), id)
    {
      found := id in processes;
      p := if found then processes[id] else 0;
      processes := processes - {id};
    }
  }

  // ---------------------------------------------------------------- threads

  /** What a thread does next. `p` is a process the thread alone is responsible for. */
  datatype Step =
    | Checking                   // before startAccount's first lock section
    | Spawning                   // the starter has been called
    | Spawned(p: Proc)           // it returned `p`, not yet registered
    | Discarding(p: Proc)        // `p` must be stopped: shutdown, or another one is registered
    | Launching(p: Proc)         // registered; the watcher is about to be started
    | StartFailed                // startAccount returned an error
    | StartDone                  // startAccount returned without error, or at shutdown
    | Watching(p: Proc)          // waits for `p` to exit
    | Detached(p: Proc)          // the watchdog took `p` from the table and is about to stop it
    | Removed(p: Proc)           // stopAccount took `p` from the table and is about to stop it
    | Reporting                  // about to call beginAccountRecovery
    | Waiting                    // a recovery before its next attempt
    | Unwinding                  // a recovery about to give up its flag
    | Reentering                 // it took a pending failure and is about to begin again
    | Finishing                  // about to leave the wait group

  /** A recovery goroutine counts in the wait group; any other thread does not. */
  datatype Thread = Thread(id: Id, recovery: bool, step: Step)

  datatype Closing = Open | Cancelled | Waited | Stopping(left: set<Proc>)

  datatype Sys = Sys(
    t: Table,
    threads: map<Tid, Thread>,
    nextTid: Tid,
    spawned: set<Proc>,
    exited: set<Proc>,
    stopped: set<Proc>,
    owed: set<Id>,
    closing: Closing)

  function Init(): Sys {
    Sys(Table(map[], {}, {}, 0, false), map[], 0, {}, {}, {}, {}, Open)
  }

  datatype Event =
    | CallStart(id: Id)              // an external startAccountWithRecovery
    | CallStop(id: Id)               // stopAccount
    | CallRestartStuck(id: Id)       // the watchdog's restartStuckWorker
    | ProcessExits(p: Proc)
    | Move(tid: Tid, ok: bool, p: Proc)  // one step of a thread; `ok` and `p` answer its call out
    | BeginClose
    | WaitGroupEmpty
    | TakeAll
    | StopOne(p: Proc)

  function Spawn(s: Sys, th: Thread): Sys {
    s.(threads := s.threads[s.nextTid := th], nextTid := s.nextTid + 1)
  }

  function Goto(s: Sys, tid: Tid, step: Step): Sys
    requires tid in s.threads
  {
    s.(threads := s.threads[tid := s.threads[tid].(step := step)])
  }

  function EndThread(s: Sys, tid: Tid): Sys {
    s.(threads := s.threads - {tid})
  }

  /** `beginAccountRecovery` as a step of thread `tid`, which then continues or ends. An unanswered
      report is owed; a recovery that starts answers it. */
  function Report(s: Sys, id: Id): Sys {
    var (t, begun) := Begin(s.t, id);
    match begun
    case Dropped => s
    case Queued => s.(t := t, owed := s.owed + {id})
    case Started => Spawn(s.(t := t, owed := s.owed - {id}), Thread(id, true, Waiting))
  }

  ghost predicate Enabled(s: Sys, e: Event) {
    match e
    case CallStart(_) => true
    case CallStop(_) => true
    case CallRestartStuck(_) => true
    case ProcessExits(p) => p in s.spawned
    case Move(tid, ok, p) =>
      tid in s.threads &&
      (match s.threads[tid].step
       case Spawning => ok ==> p !in s.spawned
       case Watching(q) => q in s.exited || s.t.cancelled
       case _ => true)
    case BeginClose => s.closing.Open?
    case WaitGroupEmpty => s.closing.Cancelled? && s.t.waiting == 0
    case TakeAll => s.closing.Waited?
    case StopOne(p) => s.closing.Stopping? && p in s.closing.left
  }

  /** A step of a thread. Depending on the step `ok` is the starter's success, the account still
      wanting a worker process, or the watcher seeing the exit rather than the shutdown. */
  function Moved(s: Sys, tid: Tid, ok: bool, p: Proc): Sys
    requires tid in s.threads
  {
    var th := s.threads[tid];
    match th.step
    case Checking =>
      if s.t.cancelled || th.id in s.t.processes || !ok then Goto(s, tid, StartDone) else Goto(s, tid, Spawning)
    case Spawning =>
      if ok then Goto(s.(spawned := s.spawned + {p}), tid, Spawned(p)) else Goto(s, tid, StartFailed)
    case Spawned(q) =>
      var (t, r) := Register(s.t, th.id, q);
      Goto(s.(t := t), tid, if r.Kept? then Launching(q) else Discarding(q))
    case Discarding(q) => Goto(s.(stopped := s.stopped + {q}), tid, StartDone)
    case Launching(q) => Spawn(Goto(s, tid, StartDone), Thread(th.id, false, Watching(q)))
    case StartFailed =>
      if th.recovery then Goto(s, tid, if s.t.cancelled then Unwinding else Waiting)
      else if s.t.cancelled then EndThread(s, tid)
      else Goto(s, tid, Reporting)
    case StartDone => if th.recovery then Goto(s, tid, Unwinding) else EndThread(s, tid)
    case Watching(q) =>
      if q in s.exited && (ok || !s.t.cancelled) && th.id in s.t.processes && s.t.processes[th.id] == q
      then Goto(s.(t := Detach(s.t, th.id)), tid, Reporting)
      else EndThread(s, tid)
    case Detached(q) => Goto(s.(stopped := s.stopped + {q}), tid, Reporting)
    case Removed(q) => EndThread(s.(stopped := s.stopped + {q}), tid)
    case Reporting => EndThread(Report(s, th.id), tid)
    case Waiting => Goto(s, tid, if s.t.cancelled || !ok then Unwinding else Checking)
    case Unwinding =>
      var (t, again) := Unwind(s.t, th.id);
      Goto(s.(t := t), tid, if again then Reentering else Finishing)
    case Reentering => Goto(Report(s, th.id), tid, Finishing)
    case Finishing => EndThread(s.(t := s.t.(waiting := if s.t.waiting > 0 then s.t.waiting - 1 else 0)), tid)
  }

  function Effect(s: Sys, e: Event): Sys {
    match e
    case CallStart(id) => Spawn(s, Thread(id, false, Checking))
    case CallStop(id) =>
      if id in s.t.processes
      then Spawn(s.(t := Detach(s.t, id)), Thread(id, false, Removed(s.t.processes[id])))
      else s
    case CallRestartStuck(id) =>
      if id in s.t.processes
      then Spawn(s.(t := Detach(s.t, id)), Thread(id, false, Detached(s.t.processes[id])))
      else Spawn(s, Thread(id, false, Reporting))
    case ProcessExits(p) => s.(exited := s.exited + {p})
    case Move(tid, ok, p) => if tid in s.threads then Moved(s, tid, ok, p) else s
    case BeginClose => s.(t := s.t.(cancelled := true), closing := Cancelled)
    case WaitGroupEmpty => s.(closing := Waited)
    case TakeAll => s.(t := s.t.(processes := map[]), closing := Stopping(s.t.processes.Values))
    case StopOne(p) =>
      if s.closing.Stopping? then s.(stopped := s.stopped + {p}, closing := Stopping(s.closing.left - {p})) else s
  }

  ghost function Next(s: Sys, e: Event): Sys {
    if Enabled(s, e) then Effect(s, e) else s
  }

  ghost function Run(events: seq<Event>): Sys {
    if events == [] then Init() else Next(Run(events[..|events| - 1]), events[|events| - 1])
  }

  // ---------------------------------------------------------------- the recovery flag

  /** The recovery still owns its account's flag. */
  predicate Owns(th: Thread) {
    th.recovery && th.step != Reentering && th.step != Finishing
  }

  ghost predicate OwnsId(s: Sys, tid: Tid, id: Id) {
    tid in s.threads && s.threads[tid].id == id && Owns(s.threads[tid])
  }

  ghost predicate Reenters(s: Sys, tid: Tid, id: Id) {
    tid in s.threads && s.threads[tid] == Thread(id, true, Reentering)
  }

  /** Steps only a recovery, or only another kind of thread, can be at. */
  predicate RoleOk(th: Thread) {
    if th.recovery
    then !th.step.Watching? && !th.step.Detached? && !th.step.Removed? && !th.step.Reporting?
    else !th.step.Waiting? && !th.step.Unwinding? && !th.step.Reentering? && !th.step.Finishing?
  }

  ghost predicate ThreadsOk(s: Sys) {
    forall tid :: tid in s.threads ==> tid < s.nextTid && RoleOk(s.threads[tid])
  }

  /** Each set flag has exactly one recovery owning it, and a pending failure implies the flag. */
  ghost predicate FlagInv(s: Sys) {
    && (forall tid, id :: OwnsId(s, tid, id) ==> id in s.t.recovering)
    && (forall id :: id in s.t.recovering ==> exists tid :: OwnsId(s, tid, id))
    && (forall a, b, id :: OwnsId(s, a, id) && OwnsId(s, b, id) ==> a == b)
    && s.t.pending <= s.t.recovering
  }

  /** Until shutdown, a report not answered by a later recovery is pending or being re-entered. */
  ghost predicate OwedInv(s: Sys) {
    !s.t.cancelled ==> forall id :: id in s.owed ==> id in s.t.pending || exists tid :: Reenters(s, tid, id)
  }

  ghost function Recoveries(s: Sys): set<Tid> {
    set tid | tid in s.threads && s.threads[tid].recovery
  }

  ghost predicate GroupInv(s: Sys) {
    s.t.waiting == |Recoveries(s)|
  }

  ghost predicate ClosingInv(s: Sys) {
    && (s.closing.Open? <==> !s.t.cancelled)
    && (s.closing.Waited? || s.closing.Stopping? ==> s.t.waiting == 0)
    && (s.closing.Stopping? ==> s.t.processes == map[])
  }

  // ---------------------------------------------------------------- process responsibility

  function InHand(step: Step): set<Proc> {
    match step
    case Spawned(p) => {p}
    case Discarding(p) => {p}
    case Detached(p) => {p}
    case Removed(p) => {p}
    case _ => {}
  }

  ghost predicate HeldBy(s: Sys, p: Proc, tid: Tid) {
    tid in s.threads && p in InHand(s.threads[tid].step)
  }

  /** Someone answers for `p`: it is registered, exited, stopped, in the hands of a thread about to
      register or stop it, or on Close's list. */
  ghost predicate Accounted(s: Sys, p: Proc) {
    || p in s.t.processes.Values
    || p in s.exited
    || p in s.stopped
    || (s.closing.Stopping? && p in s.closing.left)
    || exists tid :: HeldBy(s, p, tid)
  }

  ghost predicate NoLeak(s: Sys) {
    forall p :: p in s.spawned ==> Accounted(s, p)
  }

  /** `tid` watches `p` for account `id`, or is about to start its watcher. */
  ghost predicate Watches(s: Sys, tid: Tid, id: Id, p: Proc) {
    tid in s.threads && s.threads[tid].id == id &&
    (s.threads[tid].step == Watching(p) || s.threads[tid].step == Launching(p))
  }

  /** Until shutdown every registered process has a watcher that will report its exit. */
  ghost predicate Watched(s: Sys) {
    !s.t.cancelled ==> forall id :: id in s.t.processes ==> exists tid :: Watches(s, tid, id, s.t.processes[id])
  }

  ghost predicate Inv(s: Sys) {
    && ThreadsOk(s) && FlagInv(s) && OwedInv(s) && GroupInv(s) && ClosingInv(s)
    && NoLeak(s) && Watched(s)
  }

  lemma ThreadStaysOk(s: Sys, e: Event, tid: Tid)
    requires ThreadsOk(s) && Enabled(s, e) && tid in Effect(s, e).threads
    ensures tid < Effect(s, e).nextTid && RoleOk(Effect(s, e).threads[tid])
  {
    if e.Move? { MovedThreadOk(s, e.tid, e.ok, e.p, tid); }
  }

  lemma MovedThreadOk(s: Sys, mover: Tid, ok: bool, p: Proc, tid: Tid)
    requires ThreadsOk(s) && mover in s.threads && tid in Moved(s, mover, ok, p).threads
    ensures tid < Moved(s, mover, ok, p).nextTid && RoleOk(Moved(s, mover, ok, p).threads[tid])
  {
    if tid != mover { OthersStayOrStart(s, mover, ok, p, tid); }
  }

  /** A thread other than the one that moves is as it was, or was started just now. */
  lemma OthersStayOrStart(s: Sys, mover: Tid, ok: bool, p: Proc, tid: Tid)
    requires ThreadsOk(s) && mover in s.threads && tid in Moved(s, mover, ok, p).threads && tid != mover
    ensures s.nextTid <= Moved(s, mover, ok, p).nextTid
    ensures if tid in s.threads then Moved(s, mover, ok, p).threads[tid] == s.threads[tid]
            else tid == s.nextTid < Moved(s, mover, ok, p).nextTid && RoleOk(Moved(s, mover, ok, p).threads[tid])
  {}

  lemma ThreadsStayOk(s: Sys, e: Event)
    requires ThreadsOk(s) && Enabled(s, e)
    ensures ThreadsOk(Effect(s, e))
  {
    forall tid | tid in Effect(s, e).threads
      ensures tid < Effect(s, e).nextTid && RoleOk(Effect(s, e).threads[tid])
    {
      ThreadStaysOk(s, e, tid);
    }
  }

  lemma ClosingKept(s: Sys, e: Event)
    requires ThreadsOk(s) && GroupInv(s) && ClosingInv(s) && Enabled(s, e)
    ensures ClosingInv(Effect(s, e))
  {}

  // Wait group: only a recovery that begins or finishes changes the set of recoveries.

  lemma ReportKeepsGroup(s: Sys, id: Id)
    requires ThreadsOk(s) && GroupInv(s)
    ensures GroupInv(Report(s, id))
  {
    if Begin(s.t, id).1.Started? {
      assert Recoveries(Report(s, id)) == Recoveries(s) + {s.nextTid};
    } else {
      assert Recoveries(Report(s, id)) == Recoveries(s);
    }
  }

  lemma FinishKeepsGroup(s: Sys, tid: Tid, ok: bool, p: Proc)
    requires ThreadsOk(s) && GroupInv(s) && tid in s.threads && s.threads[tid].step.Finishing?
    ensures GroupInv(Moved(s, tid, ok, p))
  {
    assert tid in Recoveries(s);
    assert Recoveries(Moved(s, tid, ok, p)) == Recoveries(s) - {tid};
  }

  lemma OthersKeepRecoveries(s: Sys, e: Event)
    requires ThreadsOk(s) && Enabled(s, e)
    requires e.Move? ==> !s.threads[e.tid].step.Finishing? && !s.threads[e.tid].step.Reporting? &&
                         !s.threads[e.tid].step.Reentering?
    ensures Recoveries(Effect(s, e)) == Recoveries(s)
    ensures Effect(s, e).t.waiting == s.t.waiting
  {
    var s' := Effect(s, e);
    forall tid ensures tid in Recoveries(s') <==> tid in Recoveries(s) {}
  }

  lemma GroupKept(s: Sys, e: Event)
    requires ThreadsOk(s) && GroupInv(s) && Enabled(s, e)
    ensures GroupInv(Effect(s, e))
  {
    if e.Move? && s.threads[e.tid].step.Finishing? {
      FinishKeepsGroup(s, e.tid, e.ok, e.p);
    } else if e.Move? && (s.threads[e.tid].step.Reporting? || s.threads[e.tid].step.Reentering?) {
      var reported := Report(s, s.threads[e.tid].id);
      ReportKeepsGroup(s, s.threads[e.tid].id);
      assert Recoveries(Effect(s, e)) == Recoveries(reported);
    } else {
      OthersKeepRecoveries(s, e);
    }
  }

  // The flag: owners change only when a recovery begins or unwinds.

  lemma SameOwnersKeepFlag(s: Sys, s': Sys)
    requires FlagInv(s) && s'.t.recovering == s.t.recovering && s'.t.pending == s.t.pending
    requires forall tid, id :: OwnsId(s', tid, id) <==> OwnsId(s, tid, id)
    ensures FlagInv(s')
  {
    forall id | id in s'.t.recovering ensures exists tid :: OwnsId(s', tid, id) {
      var tid :| OwnsId(s, tid, id);
      assert OwnsId(s', tid, id);
    }
  }

  lemma ReportKeepsFlag(s: Sys, id: Id)
    requires ThreadsOk(s) && FlagInv(s)
    ensures FlagInv(Report(s, id))
  {
    var s' := Report(s, id);
    if Begin(s.t, id).1.Started? {
      assert forall tid, k :: OwnsId(s', tid, k) <==> OwnsId(s, tid, k) || (tid == s.nextTid && k == id);
      forall k | k in s'.t.recovering ensures exists tid :: OwnsId(s', tid, k) {
        if k == id {
          assert OwnsId(s', s.nextTid, id);
        } else {
          var tid :| OwnsId(s, tid, k);
          assert OwnsId(s', tid, k);
        }
      }
    } else {
      forall k | k in s'.t.recovering ensures exists tid :: OwnsId(s', tid, k) {
        var tid :| OwnsId(s, tid, k);
        assert OwnsId(s', tid, k);
      }
      assert forall tid, k :: OwnsId(s', tid, k) <==> OwnsId(s, tid, k);
    }
  }

  lemma UnwindKeepsFlag(s: Sys, tid: Tid, ok: bool, p: Proc)
    requires ThreadsOk(s) && FlagInv(s) && tid in s.threads && s.threads[tid].step.Unwinding?
    ensures FlagInv(Moved(s, tid, ok, p))
  {
    var s', id := Moved(s, tid, ok, p), s.threads[tid].id;
    assert OwnsId(s, tid, id);
    assert forall t, k :: OwnsId(s', t, k) <==> OwnsId(s, t, k) && t != tid;
    forall k | k in s'.t.recovering ensures exists t :: OwnsId(s', t, k) {
      var t :| OwnsId(s, t, k);
      assert OwnsId(s', t, k);
    }
  }

  lemma FlagKept(s: Sys, e: Event)
    requires ThreadsOk(s) && FlagInv(s) && Enabled(s, e)
    ensures FlagInv(Effect(s, e))
  {
    hide FlagInv, Begin;
    var s' := Effect(s, e);
    if e.Move? && s.threads[e.tid].step.Unwinding? {
      UnwindKeepsFlag(s, e.tid, e.ok, e.p);
    } else if e.Move? && (s.threads[e.tid].step.Reporting? || s.threads[e.tid].step.Reentering?) {
      var reported := Report(s, s.threads[e.tid].id);
      ReportKeepsFlag(s, s.threads[e.tid].id);
      SameOwnersKeepFlag(reported, s');
    } else {
      SameOwnersKeepFlag(s, s');
    }
  }

  // Owed reports: they move from the pending slot into the hands of the unwinding recovery.

  /** A step of one thread leaves the others where they are. */
  lemma OthersStay(s: Sys, e: Event, tid: Tid)
    requires ThreadsOk(s) && tid in s.threads && !(e.Move? && e.tid == tid)
    ensures tid in Effect(s, e).threads && Effect(s, e).threads[tid] == s.threads[tid]
  {
  }

  lemma PendingKept(s: Sys, e: Event, id: Id)
    requires ThreadsOk(s) && Enabled(s, e) && id in s.t.pending && id !in Effect(s, e).t.pending
    ensures Reenters(Effect(s, e), e.tid, id)
  {
  }

  lemma OwedKeptFor(s: Sys, e: Event, id: Id)
    requires ThreadsOk(s) && OwedInv(s) && FlagInv(s) && Enabled(s, e)
    requires !Effect(s, e).t.cancelled && id in Effect(s, e).owed
    ensures id in Effect(s, e).t.pending || exists tid :: Reenters(Effect(s, e), tid, id)
  {
    var s' := Effect(s, e);
    if id in s.t.pending {
      if id !in s'.t.pending { PendingKept(s, e, id); }
    } else if id in s.owed {
      var tid :| Reenters(s, tid, id);
      if e.Move? && e.tid == tid {
        assert Begin(s.t, id).1.Queued?;
      } else {
        OthersStay(s, e, tid);
        assert Reenters(s', tid, id);
      }
    }
  }

  lemma OwedKept(s: Sys, e: Event)
    requires ThreadsOk(s) && OwedInv(s) && FlagInv(s) && Enabled(s, e)
    ensures OwedInv(Effect(s, e))
  {
    var s' := Effect(s, e);
    if !s'.t.cancelled {
      forall id | id in s'.owed ensures id in s'.t.pending || exists tid :: Reenters(s', tid, id) {
        OwedKeptFor(s, e, id);
      }
    }
  }

  // Processes: each leaves one holder for the next in the same step.

  lemma HolderPassesOn(s: Sys, e: Event, p: Proc, tid: Tid)
    requires ThreadsOk(s) && Enabled(s, e) && HeldBy(s, p, tid)
    ensures Accounted(Effect(s, e), p)
  {
    var s' := Effect(s, e);
    if e.Move? && e.tid == tid {
      if s.threads[tid].step.Spawned? && !HeldBy(s', p, tid) {
        assert s'.t.processes[s.threads[tid].id] == p;
      }
    } else {
      OthersStay(s, e, tid);
      assert HeldBy(s', p, tid);
    }
  }

  lemma RegisteredPassesOn(s: Sys, e: Event, p: Proc, id: Id)
    requires ThreadsOk(s) && Enabled(s, e) && id in s.t.processes && s.t.processes[id] == p
    ensures Accounted(Effect(s, e), p)
  {
    var s' := Effect(s, e);
    if id in s'.t.processes {
      assert s'.t.processes[id] == p;
    } else if e.CallStop? || e.CallRestartStuck? {
      assert HeldBy(s', p, s.nextTid);
    }
  }

  lemma StillAccounted(s: Sys, e: Event, p: Proc)
    requires ThreadsOk(s) && Enabled(s, e) && Accounted(s, p)
    ensures Accounted(Effect(s, e), p)
  {
    if exists tid :: HeldBy(s, p, tid) {
      var tid :| HeldBy(s, p, tid);
      HolderPassesOn(s, e, p, tid);
    } else if p in s.t.processes.Values {
      var id :| id in s.t.processes && s.t.processes[id] == p;
      RegisteredPassesOn(s, e, p, id);
    }
  }

  lemma NoLeakKept(s: Sys, e: Event)
    requires ThreadsOk(s) && NoLeak(s) && Enabled(s, e)
    ensures NoLeak(Effect(s, e))
  {
    var s' := Effect(s, e);
    forall p | p in s'.spawned ensures Accounted(s', p) {
      if p in s.spawned {
        StillAccounted(s, e, p);
      } else {
        assert HeldBy(s', p, e.tid);
      }
    }
  }

  // Watchers: one is started with every registration and lives until it saw its process exit.

  lemma WatcherMoves(s: Sys, e: Event, id: Id, p: Proc)
    requires ThreadsOk(s) && Enabled(s, e) && e.Move? && Watches(s, e.tid, id, p) && !s.t.cancelled
    requires id in s.t.processes && s.t.processes[id] == p && id in Effect(s, e).t.processes
    ensures Watches(Effect(s, e), s.nextTid, id, p)
  {
  }

  lemma NewlyRegistered(s: Sys, e: Event, id: Id)
    requires ThreadsOk(s) && Enabled(s, e) && id in Effect(s, e).t.processes
    requires !(id in s.t.processes && s.t.processes[id] == Effect(s, e).t.processes[id])
    ensures e.Move? && Watches(Effect(s, e), e.tid, id, Effect(s, e).t.processes[id])
  {
  }

  lemma WatchedKeptFor(s: Sys, e: Event, id: Id)
    requires ThreadsOk(s) && Watched(s) && Enabled(s, e)
    requires !Effect(s, e).t.cancelled && id in Effect(s, e).t.processes
    ensures exists tid :: Watches(Effect(s, e), tid, id, Effect(s, e).t.processes[id])
  {
    var p := Effect(s, e).t.processes[id];
    if id in s.t.processes && s.t.processes[id] == p {
      var tid :| Watches(s, tid, id, p);
      if e.Move? && e.tid == tid {
        WatcherMoves(s, e, id, p);
      } else {
        OthersStay(s, e, tid);
        assert Watches(Effect(s, e), tid, id, p);
      }
    } else {
      NewlyRegistered(s, e, id);
    }
  }

  lemma WatchedKept(s: Sys, e: Event)
    requires ThreadsOk(s) && Watched(s) && Enabled(s, e)
    ensures Watched(Effect(s, e))
  {
    var s' := Effect(s, e);
    if !s'.t.cancelled {
      forall id | id in s'.t.processes ensures exists tid :: Watches(s', tid, id, s'.t.processes[id]) {
        WatchedKeptFor(s, e, id);
      }
    }
  }

  // Accounts without their worker: whoever lost it or failed to start it passes the duty on.

  /** The accounts that an event takes a worker from, other than by asking for it to be stopped, and those
      it fails to start one for. */
  ghost function Lost(s: Sys, e: Event): set<Id> {
    (if e.CallStop? || e.TakeAll? then {} else s.t.processes.Keys - Effect(s, e).t.processes.Keys) +
    (if e.CallRestartStuck? then {e.id} else {}) +
    (if e.Move? && e.tid in s.threads && s.threads[e.tid].step.Spawning? && !e.ok then {s.threads[e.tid].id} else {})
  }

  /** The accounts that have a worker after an event, and those it finds to want none. */
  ghost function Served(s: Sys, e: Event): set<Id> {
    Effect(s, e).t.processes.Keys +
    if e.Move? && e.tid in s.threads && (s.threads[e.tid].step.Waiting? || s.threads[e.tid].step.Checking?) && !e.ok
    then {s.threads[e.tid].id} else {}
  }

  /** The accounts that lost their worker, or whose last start failed, and neither got another since nor were
      found to want none. */
  ghost function Due(events: seq<Event>): set<Id> {
    if events == [] then {}
    else
      var s, e := Run(events[..|events| - 1]), events[|events| - 1];
      var before := Due(events[..|events| - 1]);
      if Enabled(s, e) then before + Lost(s, e) - Served(s, e) else before
  }

  /** `tid` is on its way to start a worker for the account, or to report that it has none. */
  ghost predicate OnItsWay(s: Sys, tid: Tid, id: Id) {
    tid in s.threads && s.threads[tid].id == id &&
    match s.threads[tid].step
    case Checking => true
    case Spawning => true
    case Spawned(_) => true
    case StartFailed => true
    case Detached(_) => true
    case Reporting => true
    case Waiting => true
    case Reentering => true
    case _ => false
  }

  ghost predicate Cared(s: Sys, id: Id) {
    id in s.t.pending || exists tid :: OnItsWay(s, tid, id)
  }

  ghost predicate DueInv(s: Sys, due: set<Id>) {
    !s.t.cancelled ==> forall id :: id in due ==> Cared(s, id)
  }

  /** Whoever loses a worker or fails to start one goes on to report it or to try again. */
  lemma LoserCares(s: Sys, e: Event, id: Id)
    requires ThreadsOk(s) && Enabled(s, e) && !Effect(s, e).t.cancelled && id in Lost(s, e)
    ensures exists tid :: OnItsWay(Effect(s, e), tid, id)
  {
    var s' := Effect(s, e);
    if e.CallRestartStuck? {
      assert OnItsWay(s', s.nextTid, id);
    } else {
      assert OnItsWay(s', e.tid, id);
    }
  }

  /** A thread on its way stays so, hands the report over, or has served the account. */
  lemma CarerCares(s: Sys, e: Event, id: Id, tid: Tid)
    requires ThreadsOk(s) && Enabled(s, e) && !Effect(s, e).t.cancelled && OnItsWay(s, tid, id)
    ensures Cared(Effect(s, e), id) || id in Served(s, e)
  {
    var s' := Effect(s, e);
    if e.Move? && e.tid == tid {
      var step := s.threads[tid].step;
      if step.Reporting? || step.Reentering? {
        ReportCares(s, id);
        if !(id in s'.t.pending) { assert OnItsWay(s', s.nextTid, id); }
      } else if !(id in Served(s, e)) {
        assert OnItsWay(s', tid, id);
      }
    } else {
      OthersStay(s, e, tid);
      assert OnItsWay(s', tid, id);
    }
  }

  lemma ReportCares(s: Sys, id: Id)
    requires ThreadsOk(s) && !s.t.cancelled
    ensures id in Report(s, id).t.pending || OnItsWay(Report(s, id), s.nextTid, id)
  {}

  lemma DueKeptFor(s: Sys, e: Event, due: set<Id>, id: Id)
    requires ThreadsOk(s) && DueInv(s, due) && Enabled(s, e) && !Effect(s, e).t.cancelled
    requires id in due + Lost(s, e) - Served(s, e)
    ensures Cared(Effect(s, e), id)
  {
    if id in Lost(s, e) {
      LoserCares(s, e, id);
    } else if id in s.t.pending {
      if id !in Effect(s, e).t.pending {
        PendingKept(s, e, id);
        assert OnItsWay(Effect(s, e), e.tid, id);
      }
    } else {
      var tid :| OnItsWay(s, tid, id);
      CarerCares(s, e, id, tid);
    }
  }

  lemma {:induction false} RunsKeepDue(events: seq<Event>)
    ensures DueInv(Run(events), Due(events))
  {
    if events != [] {
      var s, e := Run(events[..|events| - 1]), events[|events| - 1];
      RunsKeepDue(events[..|events| - 1]);
      RunsKeepInv(events[..|events| - 1]);
      if Enabled(s, e) && !Effect(s, e).t.cancelled {
        forall id | id in Due(events) ensures Cared(Effect(s, e), id) {
          DueKeptFor(s, e, Due(events[..|events| - 1]), id);
        }
      }
    }
  }

  lemma {:induction false} RunsKeepInv(events: seq<Event>)
    ensures Inv(Run(events))
  {
    if events != [] {
      var s, e := Run(events[..|events| - 1]), events[|events| - 1];
      RunsKeepInv(events[..|events| - 1]);
      if Enabled(s, e) {
        ThreadsStayOk(s, e);
        FlagKept(s, e);
        OwedKept(s, e);
        GroupKept(s, e);
        ClosingKept(s, e);
        NoLeakKept(s, e);
        WatchedKept(s, e);
      }
    } else {
      assert Recoveries(Init()) == {};
    }
  }

  // ---------------------------------------------------------------- guarantees

  /** In every interleaving the flag is set exactly while one recovery owns it, no two recoveries of
      an account own it at once, and a pending failure finds it set. */
  lemma OneOwnerPerAccount(events: seq<Event>, id: Id)
    ensures var s := Run(events);
      && (id in s.t.recovering <==> exists tid :: OwnsId(s, tid, id))
      && (forall a, b :: OwnsId(s, a, id) && OwnsId(s, b, id) ==> a == b)
      && (id in s.t.pending ==> id in s.t.recovering)
  {
    RunsKeepInv(events);
  }

  /** Until shutdown no reported failure is dropped: it was answered by a recovery that began after
      it, or it is pending behind a live recovery, or the recovery that took it is re-entering. */
  lemma NoReportIsDropped(events: seq<Event>, id: Id)
    requires var s := Run(events); !s.t.cancelled && id in s.owed
    ensures var s := Run(events);
      (id in s.t.pending && exists tid :: OwnsId(s, tid, id)) || exists tid :: Reenters(s, tid, id)
  {
    RunsKeepInv(events);
  }

  /** Until shutdown no account is abandoned: one that lost its worker, or whose last start failed, and that
      neither has a worker again nor was found to want none, has a thread on its way to another start or to
      the report that leads to one, or its report is pending behind a live recovery. */
  lemma NoAccountIsAbandoned(events: seq<Event>, id: Id)
    requires var s := Run(events); !s.t.cancelled && id in Due(events)
    ensures var s := Run(events);
      (exists tid :: OnItsWay(s, tid, id)) || (id in s.t.pending && exists tid :: OwnsId(s, tid, id))
  {
    RunsKeepDue(events);
    RunsKeepInv(events);
    assert Cared(Run(events), id);
  }

  /** The wait group counts the live recoveries, so none is alive once Close's wait returned. */
  lemma NoRecoveryOutlivesClose(events: seq<Event>, tid: Tid)
    requires var s := Run(events); s.closing.Waited? || s.closing.Stopping?
    ensures var s := Run(events); tid in s.threads ==> !s.threads[tid].recovery
  {
    RunsKeepInv(events);
    var s := Run(events);
    assert Recoveries(s) == {};
    assert tid !in Recoveries(s);
  }

  /** Every process the starter ever returned is registered, exited, stopped, in the hands of a step
      about to register or stop it, or on Close's list. */
  lemma EveryProcessIsAccountedFor(events: seq<Event>, p: Proc)
    requires p in Run(events).spawned
    ensures Accounted(Run(events), p)
  {
    RunsKeepInv(events);
  }

  /** Once Close has worked through its list and the last threads are gone, no worker is left
      running: every process ever started has exited or been stopped. */
  lemma CloseLeavesNothingRunning(events: seq<Event>, p: Proc)
    requires var s := Run(events); s.closing == Stopping({}) && s.threads == map[] && p in s.spawned
    ensures var s := Run(events); p in s.exited || p in s.stopped
  {
    RunsKeepInv(events);
    assert Accounted(Run(events), p);
  }

  /** Until shutdown every registered worker is watched, so its exit will be seen and reported. */
  lemma EveryWorkerIsWatched(events: seq<Event>, id: Id)
    requires var s := Run(events); !s.t.cancelled && id in s.t.processes
    ensures var s := Run(events); exists tid :: Watches(s, tid, id, s.t.processes[id])
  {
    RunsKeepInv(events);
  }
}

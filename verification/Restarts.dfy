/** What restarts come to over whole runs: how long they wait, that each recovery answers a report of its
    own, that a start left alone registers its worker, and that all threads end once Close has begun. */
module Restarts {
  import opened Recovery

  // ---------------------------------------------------------------- the delay

  /** The first restart waits for the base, and each level above one twice as long as the one below it, up to
      the cap. */
  lemma EachLevelDoubles(base: nat, max: nat, level: int)
    ensures level <= 1 ==> Delay(base, max, level) == if base < max then base else max
    ensures level >= 1 ==>
      Delay(base, max, level + 1) ==
        if 2 * Delay(base, max, level) < max then 2 * Delay(base, max, level) else max
  {
    if level >= 1 { DoubledGrows(base, level - 1, level); }
  }

  /** The level after `n` failures in a row, the backoff having been reset before them. */
  function LevelAfter(n: nat): nat {
    if n == 0 then 0 else Climbed(LevelAfter(n - 1))
  }

  lemma {:induction false} LevelIsCount(n: nat)
    ensures LevelAfter(n) == if n < 8 then n else 8
  {
    if n > 0 { LevelIsCount(n - 1); }
  }

  /** The second to eighth failure in a row is followed by twice the delay of the one before, up to the cap, and
      later ones by the delay of the eighth. */
  lemma EachFailureDoublesTheDelay(base: nat, max: nat, n: nat)
    requires n >= 1
    ensures var before, after := Delay(base, max, LevelAfter(n)), Delay(base, max, LevelAfter(n + 1));
      after == if n >= 8 then before else if 2 * before < max then 2 * before else max
  {
    LevelIsCount(n);
    LevelIsCount(n + 1);
    EachLevelDoubles(base, max, n);
  }

  // ---------------------------------------------------------------- recoveries answer reports

  /** The recoveries of the account that took over a pending failure and have not yet begun again. */
  ghost function Reenterers(s: Sys, id: Id): set<Tid> {
    set tid | tid in s.threads && Reenters(s, tid, id)
  }

  /** The failures of the account that were reported and that no recovery has taken up. */
  ghost function Unanswered(s: Sys, id: Id): nat {
    |Reenterers(s, id)| + if id in s.t.pending then 1 else 0
  }

  ghost predicate IsAt(s: Sys, e: Event, id: Id, step: Step) {
    Enabled(s, e) && e.Move? && s.threads[e.tid].id == id && s.threads[e.tid].step == step
  }

  /** The event reports a failure of the account. */
  ghost predicate Reports(s: Sys, e: Event, id: Id) {
    IsAt(s, e, id, Reporting)
  }

  /** The event starts a recovery of the account. */
  ghost predicate Begins(s: Sys, e: Event, id: Id) {
    && Enabled(s, e) && s.nextTid !in s.threads && s.nextTid in Effect(s, e).threads
    && Effect(s, e).threads[s.nextTid] == Thread(id, true, Waiting)
  }

  ghost function ReportsOf(events: seq<Event>, id: Id): nat {
    if events == [] then 0
    else
      var before := events[..|events| - 1];
      ReportsOf(before, id) + if Reports(Run(before), events[|events| - 1], id) then 1 else 0
  }

  ghost function RecoveriesOf(events: seq<Event>, id: Id): nat {
    if events == [] then 0
    else
      var before := events[..|events| - 1];
      RecoveriesOf(before, id) + if Begins(Run(before), events[|events| - 1], id) then 1 else 0
  }

  lemma ReportingIsCounted(s: Sys, e: Event, id: Id)
    requires ThreadsOk(s) && IsAt(s, e, id, Reporting)
    ensures Unanswered(Effect(s, e), id) + (if Begins(s, e, id) then 1 else 0) <= Unanswered(s, id) + 1
  {
    assert Reenterers(Effect(s, e), id) == Reenterers(s, id);
  }

  lemma ReenteringIsCounted(s: Sys, e: Event, id: Id)
    requires ThreadsOk(s) && IsAt(s, e, id, Reentering)
    ensures Unanswered(Effect(s, e), id) + (if Begins(s, e, id) then 1 else 0) <= Unanswered(s, id)
  {
    assert e.tid in Reenterers(s, id);
    assert Reenterers(Effect(s, e), id) == Reenterers(s, id) - {e.tid};
  }

  lemma UnwindingIsCounted(s: Sys, e: Event, id: Id)
    requires ThreadsOk(s) && IsAt(s, e, id, Unwinding)
    ensures Unanswered(Effect(s, e), id) == Unanswered(s, id) && !Begins(s, e, id)
  {
    var s' := Effect(s, e);
    assert e.tid !in Reenterers(s, id);
    if id in s.t.pending {
      assert Reenterers(s', id) == Reenterers(s, id) + {e.tid};
    } else {
      assert Reenterers(s', id) == Reenterers(s, id);
    }
  }

  lemma OtherStepsCountNothing(s: Sys, e: Event, id: Id)
    requires ThreadsOk(s) && Enabled(s, e)
    requires !IsAt(s, e, id, Reporting) && !IsAt(s, e, id, Reentering) && !IsAt(s, e, id, Unwinding)
    ensures Unanswered(Effect(s, e), id) == Unanswered(s, id) && !Begins(s, e, id)
  {
    OthersReenterNothing(s, e, id);
    assert Reenterers(Effect(s, e), id) == Reenterers(s, id);
  }

  lemma OthersReenterNothing(s: Sys, e: Event, id: Id)
    requires ThreadsOk(s) && Enabled(s, e)
    requires !IsAt(s, e, id, Reentering) && !IsAt(s, e, id, Unwinding)
    ensures forall tid :: Reenters(Effect(s, e), tid, id) <==> Reenters(s, tid, id)
  {}

  /** Every recovery of an account answers a failure reported for it, each a different one; what is pending
      or being re-entered is not answered yet. */
  lemma {:induction false} EveryRecoveryAnswersAReport(events: seq<Event>, id: Id)
    ensures RecoveriesOf(events, id) + Unanswered(Run(events), id) <= ReportsOf(events, id)
  {
    if events == [] {
      assert Reenterers(Run(events), id) == {};
    } else {
      var before, e := events[..|events| - 1], events[|events| - 1];
      EveryRecoveryAnswersAReport(before, id);
      RunsKeepInv(before);
      var s := Run(before);
      if IsAt(s, e, id, Reporting) {
        ReportingIsCounted(s, e, id);
      } else if IsAt(s, e, id, Reentering) {
        ReenteringIsCounted(s, e, id);
      } else if IsAt(s, e, id, Unwinding) {
        UnwindingIsCounted(s, e, id);
      } else if Enabled(s, e) {
        OtherStepsCountNothing(s, e, id);
      }
    }
  }

  // ---------------------------------------------------------------- starts

  ghost predicate Starting(s: Sys, tid: Tid) {
    tid in s.threads && s.threads[tid].step.Spawning?
  }

  /** A worker's starter is called only for an account that wants a worker and has none, with the manager
      open. */
  lemma OnlyMissingWorkersAreStarted(s: Sys, e: Event, tid: Tid)
    requires Enabled(s, e) && !Starting(s, tid) && Starting(Effect(s, e), tid)
    ensures e.Move? && e.tid == tid && e.ok && !s.t.cancelled && s.threads[tid].id !in s.t.processes
  {}

  /** The next four moves of a thread with nothing in between, each answered well. */
  ghost function FourMoves(s: Sys, tid: Tid, p: Proc): Sys {
    var checked := Next(s, Move(tid, true, p));
    var spawned := Next(checked, Move(tid, true, p));
    Next(Next(spawned, Move(tid, true, p)), Move(tid, true, p))
  }

  /** A start of an account without a worker, left alone and answered well, registers the new process and
      has it watched; a recovery gets there once its wait is over. */
  lemma UndisturbedStartRegisters(s: Sys, tid: Tid, p: Proc)
    requires ThreadsOk(s) && tid in s.threads && !s.t.cancelled && p !in s.spawned
    requires s.threads[tid].step.Checking? && s.threads[tid].id !in s.t.processes
    ensures var s', id := FourMoves(s, tid, p), s.threads[tid].id;
      && id in s'.t.processes && s'.t.processes[id] == p && p in s'.spawned
      && s.nextTid in s'.threads && s'.threads[s.nextTid] == Thread(id, false, Watching(p))
  {}

  lemma RecoveryTriesAfterItsWait(s: Sys, tid: Tid, p: Proc)
    requires tid in s.threads && !s.t.cancelled && s.threads[tid].step.Waiting?
    ensures var s' := Next(s, Move(tid, true, p));
      s'.t == s.t && s'.spawned == s.spawned && tid in s'.threads && s'.threads[tid].step.Checking?
  {}

  /** The processes that a starter has returned. */
  ghost function Started(events: seq<Event>): set<Proc> {
    if events == [] then {}
    else
      var before, e := events[..|events| - 1], events[|events| - 1];
      var s := Run(before);
      Started(before) +
      if Enabled(s, e) && e.Move? && s.threads[e.tid].step.Spawning? && e.ok then {e.p} else {}
  }

  /** The model keeps track of every process a starter has returned, and of no others. */
  lemma {:induction false} StartedAreSpawned(events: seq<Event>)
    ensures Run(events).spawned == Started(events)
  {
    if events != [] { StartedAreSpawned(events[..|events| - 1]); }
  }

  // ---------------------------------------------------------------- one keeper for each process

  ghost predicate Registered(s: Sys, p: Proc, id: Id) {
    id in s.t.processes && s.t.processes[id] == p
  }

  ghost predicate Listed(s: Sys, p: Proc) {
    s.closing.Stopping? && p in s.closing.left
  }

  /** `p` is registered for one account, in the hands of one thread, on Close's list or stopped, and no two of
      these at once. */
  ghost predicate OneKeeper(s: Sys, p: Proc) {
    && (forall id, id' :: Registered(s, p, id) && Registered(s, p, id') ==> id == id')
    && (forall tid, tid' :: HeldBy(s, p, tid) && HeldBy(s, p, tid') ==> tid == tid')
    && (forall id, tid :: Registered(s, p, id) ==> !HeldBy(s, p, tid))
    && (forall id :: Registered(s, p, id) ==> p in s.spawned && !Listed(s, p) && p !in s.stopped)
    && (forall tid :: HeldBy(s, p, tid) ==> p in s.spawned && !Listed(s, p) && p !in s.stopped)
    && (Listed(s, p) ==> p in s.spawned && p !in s.stopped)
    && (p in s.stopped ==> p in s.spawned)
  }

  lemma RegistrationKeepsKeeper(s: Sys, e: Event, p: Proc)
    requires ThreadsOk(s) && ClosingInv(s) && OneKeeper(s, p) && Enabled(s, e) && e.Move?
    requires s.threads[e.tid].step.Spawned?
    ensures OneKeeper(Effect(s, e), p)
  {
    var s', q := Effect(s, e), s.threads[e.tid].step.p;
    forall tid | tid != e.tid ensures HeldBy(s', p, tid) <==> HeldBy(s, p, tid) {}
    assert HeldBy(s, q, e.tid);
    assert HeldBy(s', p, e.tid) ==> p == q && s'.t == s.t;
    forall id | Registered(s', p, id)
      ensures Registered(s, p, id) || (p == q && id == s.threads[e.tid].id && !HeldBy(s', p, e.tid))
    {}
  }

  /** What a move other than a registration does with a process. */
  lemma MovePassesOn(s: Sys, e: Event, p: Proc)
    requires ThreadsOk(s) && Enabled(s, e) && e.Move? && !s.threads[e.tid].step.Spawned?
    ensures var s' := Effect(s, e);
      && s'.closing == s.closing && s.spawned <= s'.spawned
      && (HeldBy(s', p, e.tid) ==> p in s'.spawned && (p !in s.spawned || HeldBy(s, p, e.tid)))
      && (p in s'.stopped ==> p in s.stopped || (HeldBy(s, p, e.tid) && !HeldBy(s', p, e.tid)))
      && (forall tid :: tid != e.tid ==> (HeldBy(s', p, tid) <==> HeldBy(s, p, tid)))
      && (forall id :: Registered(s', p, id) ==> Registered(s, p, id))
  {}

  lemma MoveKeepsKeeper(s: Sys, e: Event, p: Proc)
    requires ThreadsOk(s) && ClosingInv(s) && OneKeeper(s, p) && Enabled(s, e) && e.Move?
    requires !s.threads[e.tid].step.Spawned?
    ensures OneKeeper(Effect(s, e), p)
  {
    MovePassesOn(s, e, p);
    hide Effect, HeldBy, Registered;
  }

  lemma CallKeepsKeeper(s: Sys, e: Event, p: Proc)
    requires ThreadsOk(s) && ClosingInv(s) && OneKeeper(s, p) && Enabled(s, e) && !e.Move?
    ensures OneKeeper(Effect(s, e), p)
  {
    var s' := Effect(s, e);
    forall tid | tid != s.nextTid ensures HeldBy(s', p, tid) <==> HeldBy(s, p, tid) {}
    forall id | Registered(s', p, id) ensures Registered(s, p, id) {}
    if e.TakeAll? && p in s.t.processes.Values {
      var id :| id in s.t.processes && s.t.processes[id] == p;
      assert Registered(s, p, id);
    }
    if (e.CallStop? || e.CallRestartStuck?) && e.id in s.t.processes && s.t.processes[e.id] == p {
      assert Registered(s, p, e.id);
    }
  }

  lemma {:induction false} RunsKeepOneKeeper(events: seq<Event>, p: Proc)
    ensures OneKeeper(Run(events), p)
  {
    if events != [] {
      var before, e := events[..|events| - 1], events[|events| - 1];
      RunsKeepOneKeeper(before, p);
      RunsKeepInv(before);
      if Enabled(Run(before), e) {
        if !e.Move? { CallKeepsKeeper(Run(before), e, p); }
        else if Run(before).threads[e.tid].step.Spawned? { RegistrationKeepsKeeper(Run(before), e, p); }
        else { MoveKeepsKeeper(Run(before), e, p); }
      }
    }
  }

  /** A registered worker serves one account, nobody is about to stop it, and it has not been stopped. */
  lemma RegisteredWorkersAreLeftAlone(events: seq<Event>, id: Id, other: Id, tid: Tid)
    requires id in Run(events).t.processes
    ensures var s, p := Run(events), Run(events).t.processes[id];
      && p in s.spawned && p !in s.stopped && !HeldBy(s, p, tid)
      && (other in s.t.processes && s.t.processes[other] == p ==> other == id)
  {
    var p := Run(events).t.processes[id];
    RunsKeepOneKeeper(events, p);
    assert Registered(Run(events), p, id);
    assert Registered(Run(events), p, other) ==> other == id;
  }

  /** Each process is stopped at most once: one that is about to be stopped, by a thread or by Close, has not
      been stopped yet. */
  lemma EachProcessIsStoppedOnce(events: seq<Event>, e: Event, p: Proc)
    requires Enabled(Run(events), e) && p in Effect(Run(events), e).stopped && p !in Run(events).stopped
    ensures var s, s' := Run(events), Run(events + [e]);
      p in s'.stopped && !Listed(s', p) && (forall tid :: !HeldBy(s', p, tid)) && p !in s'.t.processes.Values
  {
    assert (events + [e])[..|events|] == events;
    RunsKeepOneKeeper(events + [e], p);
    var s' := Run(events + [e]);
    if p in s'.t.processes.Values {
      var id :| id in s'.t.processes && s'.t.processes[id] == p;
      assert Registered(s', p, id);
    }
  }

  /** Stopping an account or restarting a stuck worker takes the worker from its account and into the hands
      of a new thread, which stops it; a stuck account without a worker is reported. */
  lemma CallsTakeTheWorker(s: Sys, e: Event)
    requires e.CallStop? || e.CallRestartStuck?
    ensures var s' := Effect(s, e);
      && e.id !in s'.t.processes
      && (e.id in s.t.processes ==> HeldBy(s', s.t.processes[e.id], s.nextTid))
      && (e.id !in s.t.processes && e.CallRestartStuck? ==>
            s.nextTid in s'.threads && s'.threads[s.nextTid] == Thread(e.id, false, Reporting))
  {}

  // ---------------------------------------------------------------- Close ends every thread

  /** How many more steps a thread can take once Close has begun. */
  function StepsLeft(step: Step): nat {
    match step
    case Spawning => 7
    case Spawned(_) => 6
    case Checking => 5
    case Discarding(_) => 5
    case Launching(_) => 5
    case StartDone => 4
    case StartFailed => 4
    case Waiting => 4
    case Unwinding => 3
    case Reentering => 2
    case Watching(_) => 2
    case Detached(_) => 2
    case Finishing => 1
    case Removed(_) => 1
    case Reporting => 1
  }

  ghost function LeftFor(s: Sys, tid: Tid): nat {
    if tid in s.threads then StepsLeft(s.threads[tid].step) else 0
  }

  lemma EveryMoveEndsSooner(s: Sys, e: Event)
    requires ThreadsOk(s) && Enabled(s, e) && e.Move? && s.t.cancelled
    ensures LeftFor(Effect(s, e), e.tid) < LeftFor(s, e.tid)
  {}

  lemma OthersHaveNoMoreLeft(s: Sys, e: Event, tid: Tid)
    requires ThreadsOk(s) && Enabled(s, e) && s.t.cancelled && tid < s.nextTid && !(e.Move? && e.tid == tid)
    ensures LeftFor(Effect(s, e), tid) == LeftFor(s, tid)
  {}

  lemma CancelledForGood(s: Sys, e: Event)
    requires Enabled(s, e) && s.t.cancelled
    ensures Effect(s, e).t.cancelled && s.nextTid <= Effect(s, e).nextTid
  {}

  /** The steps the thread takes in a run after its first `from` events. */
  ghost function Moves(events: seq<Event>, from: nat, tid: Tid): nat {
    if |events| <= from then 0
    else
      var before, e := events[..|events| - 1], events[|events| - 1];
      Moves(before, from, tid) + if e.Move? && e.tid == tid && Enabled(Run(before), e) then 1 else 0
  }

  /** Once Close has begun no thread takes more than seven further steps, so the recoveries that it waits for
      end, whatever they were doing: none of them starts over. */
  lemma {:induction false} CloseEndsEveryThread(events: seq<Event>, from: nat, tid: Tid)
    requires from <= |events| && Run(events[..from]).t.cancelled && tid < Run(events[..from]).nextTid
    ensures var s, s' := Run(events[..from]), Run(events);
      && s'.t.cancelled && s.nextTid <= s'.nextTid
      && Moves(events, from, tid) + LeftFor(s', tid) <= LeftFor(s, tid) <= 7
  {
    if from == |events| {
      assert events[..from] == events;
    } else {
      var before, e := events[..|events| - 1], events[|events| - 1];
      assert before[..from] == events[..from];
      CloseEndsEveryThread(before, from, tid);
      RunsKeepInv(before);
      if Enabled(Run(before), e) {
        CancelledForGood(Run(before), e);
        if e.Move? && e.tid == tid { EveryMoveEndsSooner(Run(before), e); }
        else { OthersHaveNoMoreLeft(Run(before), e, tid); }
      }
    }
  }

  /** Each worker on Close's list is stopped once, and then off the list. */
  lemma EachStopShortensTheList(s: Sys, e: Event)
    requires Enabled(s, e) && e.StopOne?
    ensures var s' := Effect(s, e);
      s'.closing.Stopping? && s'.closing.left == s.closing.left - {e.p} && e.p in s'.stopped &&
      |s'.closing.left| < |s.closing.left|
  {}
}

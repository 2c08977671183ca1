/** Where the drainer gets to: from any state of any run in which it has not exited, writes that succeed
    from then on put all that was delivered on disk, fire every flush that was asked for, and let a drainer
    told to close exit. */
module Drains {
  import opened Strings
  import opened Persister

  lemma {:induction false} LowestExists(keys: set<string>) returns (id: string)
    requires keys != {}
    ensures id in keys && forall other :: other in keys ==> AtMost(id, other)
    decreases keys
  {
    LessIsStrictTotalOrder();
    var one :| one in keys;
    if keys == {one} {
      id := one;
    } else {
      var low := LowestExists(keys - {one});
      id := if Less(one, low) then one else low;
      forall other | other in keys ensures AtMost(id, other) {
        if other != one { assert other in keys - {one}; }
      }
    }
  }

  /** The events lead from `s` to `s'`, no write fails, and nothing is produced, delivered or asked for. */
  ghost predicate Leads(s: Sys, events: seq<Event>, s': Sys) {
    && RunFrom(s, events) == s' && NoWriteFails(events)
    && forall i :: 0 <= i < |events| ==>
         !events[i].Produce? && !events[i].Deliver? && !events[i].Flush? && !events[i].Close?
  }

  lemma LeadsOn(s: Sys, events: seq<Event>, s': Sys, more: seq<Event>, s'': Sys)
    requires Leads(s, events, s') && Leads(s', more, s'')
    ensures Leads(s, events + more, s'')
  {
    RunsCompose(s, events, more);
  }

  lemma StepLeads(s: Sys, e: Event)
    requires !e.Produce? && !e.Deliver? && !e.Flush? && !e.Close? && (e.Write? ==> e.ok)
    ensures Leads(s, [e], Next(s, e))
  {
    RunOfTwo(s, e, e);
  }

  // ---------------------------------------------------------------- one snapshot

  /** A write that succeeds puts the version on its own table and leaves the other one alone. */
  lemma WriteTouchesOneTable(s: Sys, applied: bool, ok: bool)
    requires Enabled(s, Write(applied, ok))
    ensures var s', id, v := Effect(s, Write(applied, ok)), s.drainer.id, s.drainer.v;
      && s'.q == s.q && (ok ==> s'.drainer == Busy(id, v, if s.drainer.stage.WritingState? then WritingCooldowns
                                                          else Written))
      && (s.drainer.stage.WritingState? ==>
            s'.cooldowns == s.cooldowns && s'.states == if applied then s.states[id := v] else s.states)
      && (s.drainer.stage.WritingCooldowns? ==>
            s'.states == s.states && s'.cooldowns == if applied then s.cooldowns[id := v] else s.cooldowns)
  {}

  /** What the drainer has in hand can be put on disk, after which it is idle. */
  lemma HandIsSaved(s: Sys) returns (more: seq<Event>, s': Sys)
    requires s.drainer.Busy? && !s.drainer.stage.Failed?
    ensures Leads(s, more, s') && s'.drainer.Idle? && s'.q.dirty == s.q.dirty && s'.q.closed == s.q.closed
    ensures s'.q.flushes == s.q.flushes && s'.fired == s.fired && s'.delivered == s.delivered
    decreases if s.drainer.stage.WritingState? then 2 else if s.drainer.stage.WritingCooldowns? then 1 else 0
  {
    if s.drainer.stage.Written? {
      more, s' := [FinishWritten], Next(s, FinishWritten);
      StepLeads(s, FinishWritten);
    } else {
      var written := Next(s, Write(true, true));
      StepLeads(s, Write(true, true));
      WriteTouchesOneTable(s, true, true);
      var rest;
      rest, s' := HandIsSaved(written);
      LeadsOn(s, [Write(true, true)], written, rest, s');
      more := [Write(true, true)] + rest;
    }
  }

  /** Whatever the drainer is doing, short of having exited, it gets back to being idle. */
  lemma DrainerGetsIdle(s: Sys) returns (more: seq<Event>, s': Sys)
    requires !s.drainer.Exited?
    ensures Leads(s, more, s') && s'.drainer.Idle? && s'.q.closed == s.q.closed
    ensures s'.q.flushes == s.q.flushes && s'.fired == s.fired && s'.delivered == s.delivered
  {
    match s.drainer
    case Idle => more, s' := [], s;
    case BackingOff =>
      more, s' := [BackoffOver], Next(s, BackoffOver);
      StepLeads(s, BackoffOver);
    case Busy(id, v, stage) =>
      if stage.Failed? {
        var failed := Next(s, FinishFailed);
        StepLeads(s, FinishFailed);
        StepLeads(failed, BackoffOver);
        s' := Next(failed, BackoffOver);
        LeadsOn(s, [FinishFailed], failed, [BackoffOver], s');
        more := [FinishFailed] + [BackoffOver];
      } else {
        more, s' := HandIsSaved(s);
      }
  }

  // ---------------------------------------------------------------- all of them

  /** One round takes the lowest account off the dirty set. */
  lemma RoundTakesOne(s: Sys) returns (more: seq<Event>, s': Sys)
    requires s.drainer.Idle? && s.q.dirty != map[]
    ensures Leads(s, more, s') && s'.drainer.Idle? && s'.q.closed == s.q.closed
    ensures s'.q.flushes == s.q.flushes && s'.fired == s.fired && s'.delivered == s.delivered
    ensures s'.q.dirty.Keys < s.q.dirty.Keys
  {
    var id := LowestExists(s.q.dirty.Keys);
    var taken := Next(s, Take(id));
    StepLeads(s, Take(id));
    if taken.drainer.Idle? {
      more, s' := [Take(id)], taken;
    } else {
      var rest;
      rest, s' := HandIsSaved(taken);
      LeadsOn(s, [Take(id)], taken, rest, s');
      more := [Take(id)] + rest;
    }
  }

  lemma {:induction false} IdleDrains(s: Sys) returns (more: seq<Event>, s': Sys)
    requires s.drainer.Idle?
    ensures Leads(s, more, s') && s'.drainer.Idle? && s'.q.dirty == map[] && s'.q.closed == s.q.closed
    ensures s'.q.flushes == s.q.flushes && s'.fired == s.fired && s'.delivered == s.delivered
    decreases s.q.dirty.Keys
  {
    if s.q.dirty == map[] {
      more, s' := [], s;
    } else {
      var round, next := RoundTakesOne(s);
      var rest;
      rest, s' := IdleDrains(next);
      LeadsOn(s, round, next, rest, s');
      more := round + rest;
    }
  }

  /** With nothing left to write, the flushes fire, and a drainer told to close exits. */
  lemma EmptyFires(s: Sys) returns (more: seq<Event>, s': Sys)
    requires s.drainer.Idle? && s.q.dirty == map[]
    ensures Leads(s, more, s') && s'.q == s.q.(flushes := []) && s'.delivered == s.delivered
    ensures s'.drainer == if s.q.closed then Exited(false) else Idle
    ensures forall i :: 0 <= i < |s.q.flushes| ==> s.q.flushes[i] in s'.fired
  {
    var fired := s;
    more := [];
    if s.q.flushes != [] {
      fired, more := Next(s, Fire), [Fire];
      StepLeads(s, Fire);
    }
    s' := fired;
    if s.q.closed {
      s' := Next(fired, Exit);
      StepLeads(fired, Exit);
      LeadsOn(s, more, fired, [Exit], s');
      more := more + [Exit];
    }
  }

  /** Wherever a run stands, if the drainer has not exited, it can still save everything: writes that succeed
      from then on put all that was delivered in time on disk, fire every flush asked for, and let a drainer
      told to close exit, with nothing abandoned. */
  lemma WritesThatSucceedSaveEverything(events: seq<Event>) returns (more: seq<Event>)
    requires !Run(events).drainer.Exited?
    ensures NoWriteFails(more)
    ensures var s, s' := Run(events), Run(events + more);
      && s'.q.dirty == map[] && s'.delivered == s.delivered
      && Covered(s.delivered, s'.states) && Covered(s.delivered, s'.cooldowns)
      && s'.drainer == (if s.q.closed then Exited(false) else Idle)
      && forall i :: 0 <= i < |s.q.flushes| ==> s.q.flushes[i] in s'.fired
  {
    var s := Run(events);
    var first, idle := DrainerGetsIdle(s);
    var second, empty := IdleDrains(idle);
    var third, end := EmptyFires(empty);
    LeadsOn(s, first, idle, second, empty);
    LeadsOn(s, first + second, empty, third, end);
    more := first + second + third;
    RunsCompose(Init(), events, more);
    RunsKeepInv(events + more);
    forall id | id in s.delivered
      ensures s.delivered[id] <= Of(end.states, id) && s.delivered[id] <= Of(end.cooldowns, id)
    {
      assert CellInv(CellOf(end, id));
    }
  }

  /** A flush asked for while the queue is open is among those to fire, under a number of its own. */
  lemma FlushIsQueued(s: Sys)
    requires Enabled(s, Flush)
    ensures var s' := Effect(s, Flush);
      |s.covers| in s'.q.flushes && |s'.covers| == |s.covers| + 1 && s'.covers[|s.covers|] == s.delivered
  {
    assert Effect(s, Flush).q.flushes[|s.q.flushes|] == |s.covers|;
  }
}

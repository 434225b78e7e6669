/** Which interruption a sender reports that was not woken. */
module ProtocolInterrupts {
  import opened Errno
  import opened ChannelQueue
  import opened Protocol
  import opened ProtocolInv
  import opened ProtocolThreads
  import opened ProtocolTheorems
  import opened ProtocolExits

  /** The sender of this record is on its way back from this interruption. */
  predicate Coming(pc: Pc, m: nat, rc: int) {
    (pc.Interrupted? || pc.Missed? || pc.Taking?) && pc.rec == m && pc.rc == rc
  }

  predicate Searches(a: Step) {
    a.Leave? && (a.leave.MissQueued? || a.leave.FindReceiver?)
  }

  /** At step `k` the timeout or a signal ended the sleep of this sender, and up to step `j` it has only
      looked for its record since. */
  ghost predicate StoppedAt(states: seq<State>, steps: seq<Step>, k: nat, j: nat, t: nat, m: nat, rc: int)
    requires k < j <= |steps| && j <= |states|
  {
    && steps[k] == Leave(t, Interrupt(rc)) && PcOf(states[k], t).Blocked? && PcOf(states[k], t).rec == m
    && forall l :: k < l < j && ByThread(steps[l], t) ==> Searches(steps[l])
  }

  lemma SendNotComing(s: State, t: nat, a: SendStep, m: nat, rc: int)
    requires EnabledSend(s, t, a)
    ensures !Coming(PcOf(ApplySend(s, t, a), t), m, rc)
  {
    hide HAdd;
  }

  lemma ServeNotComing(s: State, t: nat, a: ServeStep, m: nat, rc: int)
    requires EnabledServe(s, t, a)
    ensures !Coming(PcOf(ApplyServe(s, t, a), t), m, rc)
  {
    hide IndexOf, RemoveAt, HTake;
  }

  lemma LeaveComing(s: State, t: nat, a: LeaveStep, m: nat, rc: int)
    requires EnabledLeave(s, t, a) && Coming(PcOf(ApplyLeave(s, t, a), t), m, rc)
    ensures if Searches(Leave(t, a)) then Coming(PcOf(s, t), m, rc)
            else a == Interrupt(rc) && PcOf(s, t).Blocked? && PcOf(s, t).rec == m
  {
    hide IndexOf, RemoveAt, HWithdraw;
  }

  /** A sender gets on its way back by its interruption, and stays on it while it searches. */
  lemma OwnComing(s: State, a: Step, t: nat, m: nat, rc: int)
    requires Enabled(s, a) && ByThread(a, t) && Coming(PcOf(Apply(s, a), t), m, rc)
    ensures if Searches(a) then Coming(PcOf(s, t), m, rc)
            else a == Leave(t, Interrupt(rc)) && PcOf(s, t).Blocked? && PcOf(s, t).rec == m
  {
    hide Coming, PcOf, EnabledSend, EnabledLeave, EnabledServe, ApplySend, ApplyLeave, ApplyServe;
    match a
    case Send(_, x) => SendNotComing(s, t, x, m, rc);
    case Leave(_, x) => LeaveComing(s, t, x, m, rc);
    case Serve(_, x) => ServeNotComing(s, t, x, m, rc);
  }

  lemma {:induction false} ComesFrom(states: seq<State>, steps: seq<Step>, j: nat, t: nat, m: nat, rc: int) returns (k: nat)
    requires Run(states, steps) && j < |states| && Coming(PcOf(states[j], t), m, rc)
    ensures k < j && StoppedAt(states, steps, k, j, t, m, rc)
  {
    hide Enabled, Apply, Searches;
    NobodyComing(states[0].limit, t, m, rc);
    var s, a := states[j - 1], steps[j - 1];
    hide Coming;
    if ByThread(a, t) {
      OwnComing(s, a, t, m, rc);
      if Searches(a) {
        k := ComesFrom(states, steps, j - 1, t, m, rc);
      } else {
        k := j - 1;
      }
    } else {
      OtherPc(s, a, t);
      k := ComesFrom(states, steps, j - 1, t, m, rc);
    }
  }

  lemma NobodyComing(limit: nat, t: nat, m: nat, rc: int)
    ensures !Coming(PcOf(Start(limit), t), m, rc)
  {
  }

  /** The step with which a sender decides to return so. */
  predicate ReturnsBy(a: LeaveStep, how: How) {
    match how
    case Woken => a.LeaveWoken?
    case WithdrewQueued => a.WithdrawQueued?
    case WithdrewPending => a.WithdrawPending?
    case NoReceiver => a.LeaveNoReceiver?
    case Overtaken => a.LeaveOvertaken?
  }

  /** What a sender reports: the interruption it comes from, or, woken or overtaken, the status as it
      is now. */
  lemma ReturnsFrom(s: State, t: nat, a: LeaveStep, m: nat) returns (rc: int)
    requires Inv(s) && EnabledLeave(s, t, a) && RecOf(PcOf(s, t)) == m && m in s.recs && m in ApplyLeave(s, t, a).recs
    requires ApplyLeave(s, t, a).recs[m].exit != s.recs[m].exit
    ensures s.recs[m].hook.task == t
    ensures var exit := ApplyLeave(s, t, a).recs[m].exit;
            && exit.Exit? && ReturnsBy(a, exit.how)
            && (!exit.how.Woken? ==> Coming(PcOf(s, t), m, rc))
            && exit.rc == if exit.how.Overtaken? || exit.how.Woken? then s.recs[m].status else rc
  {
    hide Inv, IndexOf, RemoveAt, HWithdraw;
    Instances(s, t, m, 0, 0);
    var pc := PcOf(s, t);
    rc := if pc.Interrupted? || pc.Missed? || pc.Taking? then pc.rc else 0;
  }

  lemma ReturnsFromStep(s: State, a: Step, m: nat) returns (rc: int)
    requires Inv(s) && Enabled(s, a) && Returns(s, a, m) && m in s.recs && m in Apply(s, a).recs
    requires Apply(s, a).recs[m].exit != s.recs[m].exit
    ensures s.recs[m].hook.task == a.t
    ensures var exit := Apply(s, a).recs[m].exit;
            && exit.Exit? && ReturnsBy(a.leave, exit.how)
            && (!exit.how.Woken? ==> Coming(PcOf(s, a.t), m, rc))
            && exit.rc == if exit.how.Overtaken? || exit.how.Woken? then s.recs[m].status else rc
  {
    hide Inv, EnabledLeave, ApplyLeave, ReturnsBy, Coming;
    rc := ReturnsFrom(s, a.t, a.leave, m);
  }

  /** Step `j` is the return of this sender, which was interrupted at step `k` with this code. */
  ghost predicate ReturnedAt(states: seq<State>, steps: seq<Step>, k: nat, j: nat, rc: int, r: Rec)
    requires k < j < |steps| && j < |states| && r.exit.Exit?
  {
    && StoppedAt(states, steps, k, j, r.hook.task, r.hook.rec, rc)
    && steps[j].Leave? && steps[j].t == r.hook.task && ReturnsBy(steps[j].leave, r.exit.how)
    && (if r.exit.how.Overtaken? then r.hook.rec in states[j].recs && r.exit.rc == states[j].recs[r.hook.rec].status else r.exit.rc == rc)
    && ((rc == ETIMEDOUT && r.timed) || rc == ERESTARTSYS)
  }

  lemma CodeOf(states: seq<State>, steps: seq<Step>, k: nat, j: nat, t: nat, m: nat, rc: int)
    requires Run(states, steps) && k < j < |states| && StoppedAt(states, steps, k, j, t, m, rc) && m in states[j].recs
    ensures (rc == ETIMEDOUT && states[j].recs[m].timed) || rc == ERESTARTSYS
  {
    assert Enabled(states[k], steps[k]) && CanInterrupt(states[k], t, rc);
    hide Enabled, Apply;
    RunRec(states, steps, k, j, m);
  }

  lemma OwnRecord(s: State, m: nat)
    requires Inv(s) && m in s.recs
    ensures s.recs[m].hook.rec == m
  {
    hide Inv;
    Instances(s, 0, m, 0, 0);
  }

  /** A sender that was not woken was interrupted before, and has only looked for its record between
      the interruption and its return. If it took its record back, or found no receiver, it reports
      exactly this interruption: the timeout, which only a message with one can have, or the signal.
      If it was overtaken it reports the status of that moment. */
  lemma {:induction false} ReportsItsInterruption(states: seq<State>, steps: seq<Step>, i: nat, m: nat)
    requires Run(states, steps) && i < |states| && m in states[i].recs
    requires states[i].recs[m].exit.Exit? && !states[i].recs[m].exit.how.Woken?
    ensures exists k, j, rc :: 0 <= k < j < i && ReturnedAt(states, steps, k, j, rc, states[i].recs[m])
  {
    hide Enabled, Apply, Inv, Returns, ReturnsBy, StoppedAt;
    NoRecords(states[0].limit);
    var s, a := states[i - 1], steps[i - 1];
    Reachable(states, steps, i - 1);
    Reachable(states, steps, i);
    OwnRecord(states[i], m);
    StepRec(s, a, m);
    if s.recs[m].exit == states[i].recs[m].exit {
      ReportsItsInterruption(states, steps, i - 1, m);
      var k, j, rc :| 0 <= k < j < i - 1 && ReturnedAt(states, steps, k, j, rc, s.recs[m]);
      assert ReturnedAt(states, steps, k, j, rc, states[i].recs[m]);
    } else {
      IsLeave(s, a, m);
      var rc := ReturnsFromStep(s, a, m);
      var k := ComesFrom(states, steps, i - 1, a.t, m, rc);
      CodeOf(states, steps, k, i - 1, a.t, m, rc);
      assert ReturnedAt(states, steps, k, i - 1, rc, states[i].recs[m]);
    }
  }

  /** A sender that was woken reports the status of that moment. */
  lemma {:induction false} ReportsTheStatus(states: seq<State>, steps: seq<Step>, i: nat, m: nat)
    requires Run(states, steps) && i < |states| && m in states[i].recs
    requires states[i].recs[m].exit.Exit? && states[i].recs[m].exit.how.Woken?
    ensures exists j :: 0 <= j < i && steps[j] == Leave(states[i].recs[m].hook.task, LeaveWoken)
                        && m in states[j].recs && states[i].recs[m].exit.rc == states[j].recs[m].status
  {
    hide Enabled, Apply, Inv, Returns;
    NoRecords(states[0].limit);
    var s, a := states[i - 1], steps[i - 1];
    Reachable(states, steps, i - 1);
    StepRec(s, a, m);
    if s.recs[m].exit == states[i].recs[m].exit {
      ReportsTheStatus(states, steps, i - 1, m);
    } else {
      IsLeave(s, a, m);
      var rc := ReturnsFromStep(s, a, m);
    }
  }

  lemma IsLeave(s: State, a: Step, m: nat)
    requires Returns(s, a, m)
    ensures a.Leave?
  {
  }

  lemma NoRecords(limit: nat)
    ensures Start(limit).recs == map[]
  {
  }
}

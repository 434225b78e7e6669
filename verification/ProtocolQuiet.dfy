/** Runs in which no sender is interrupted, neither by a timeout nor by a signal. */
module ProtocolQuiet {
  import opened ChannelQueue
  import opened Protocol
  import opened ProtocolInv
  import opened ProtocolSteps
  import opened ProtocolTeardown
  import opened ProtocolTheorems
  import opened ProtocolExits

  predicate Interrupts(a: Step) {
    a.Leave? && a.leave.Interrupt?
  }

  /** A sender is awake only if its record is completed, and whoever has a wake-up to do has it to
      do for a sender that sleeps on this record. */
  ghost predicate ThreadQuiet(s: State, t: nat)
    requires t in s.threads
  {
    match s.threads[t].pc
    case Armed(_, _) => !s.threads[t].awake
    case Calling(m, _) => s.threads[t].awake ==> m in s.recs && s.recs[m].place.Done?
    case Blocked(m, _) => s.threads[t].awake ==> m in s.recs && s.recs[m].place.Done?
    case Waking(m, _) => m in s.recs && Asleep(s, s.recs[m].hook.task, m)
    case Interrupted(_, _, _) => false
    case Missed(_, _, _) => false
    case Taking(_, _, _, _) => false
    case _ => true
  }

  /** A sender that returned was woken, and reports the status of its completed record. */
  predicate RecQuiet(r: Rec) {
    r.exit.Exit? ==> r.exit.how.Woken? && r.place.Done? && r.exit.rc == r.status
  }

  ghost predicate Quiet(s: State) {
    && (forall t :: t in s.threads ==> ThreadQuiet(s, t))
    && (forall m :: m in s.recs ==> RecQuiet(s.recs[m]))
  }

  lemma QuietInstances(s: State, t: nat, m: nat)
    requires Quiet(s)
    ensures t in s.threads ==> ThreadQuiet(s, t)
    ensures m in s.recs ==> RecQuiet(s.recs[m])
  {
  }

  // ----- Steps that wake no sender -----

  /** No thread but `t` moves, and only receivers are woken; what is done stays done. */
  ghost predicate Gentle(s: State, s': State, t: nat) {
    && (forall x :: x in s'.threads && x != t ==>
          if x in s.threads then
            && s'.threads[x].pc == s.threads[x].pc
            && (s'.threads[x].awake == s.threads[x].awake || s.threads[x].pc.Checking? || s.threads[x].pc.Dozing?)
          else s'.threads[x].pc.Idle?)
    && (forall x :: x in s.threads ==> x in s'.threads)
    && (forall m :: m in s.recs ==> m in s'.recs && s'.recs[m].hook == s.recs[m].hook && (s.recs[m].place.Done? ==> s'.recs[m].place.Done?))
    && (t in s.threads && (s.threads[t].pc.Blocked? || s.threads[t].pc.Calling?) && !s.threads[t].awake ==>
          t in s'.threads && (s'.threads[t].pc.Blocked? || s'.threads[t].pc.Calling?) && s'.threads[t].pc.rec == s.threads[t].pc.rec
          && !s'.threads[t].awake)
  }

  lemma GentleQuiet(s: State, s': State, t: nat, x: nat)
    requires Gentle(s, s', t) && Quiet(s) && x in s'.threads && x != t
    ensures ThreadQuiet(s', x)
  {
    assert x in s.threads ==> ThreadQuiet(s, x);
  }

  lemma EnvGentle(s: State, a: EnvStep)
    requires EnabledEnv(s, a) && !a.CleanPending? && !a.CleanQueued? && 0 !in s.threads
    ensures Gentle(s, ApplyEnv(s, a), 0)
  {
  }

  lemma SendGentle(s: State, t: nat, a: SendStep)
    requires Inv(s) && EnabledSend(s, t, a)
    ensures Gentle(s, ApplySend(s, t, a), t)
  {
    hide Gentle, DoCall, Inv;
    if a.Call? {
      CallGentle(s, t);
    } else {
      hide EnabledSend, ApplySend;
      SenderGentle(s, t, a);
    }
  }

  lemma CallGentle(s: State, t: nat)
    requires CanCall(s, t)
    ensures Gentle(s, DoCall(s, t), t)
  {
  }

  lemma SenderGentle(s: State, t: nat, a: SendStep)
    requires Inv(s) && EnabledSend(s, t, a) && !a.Call?
    ensures Gentle(s, ApplySend(s, t, a), t)
  {
    hide Inv, Gentle, EnabledSend, ApplySend;
    if a.BeginSend? || a.Enqueue? || a.Release? {
      OwnerGentle(s, t, a);
    } else {
      SeekerGentle(s, t, a);
    }
  }

  lemma OwnerGentle(s: State, t: nat, a: SendStep)
    requires Inv(s) && EnabledSend(s, t, a) && (a.BeginSend? || a.Enqueue? || a.Release?)
    ensures Gentle(s, ApplySend(s, t, a), t)
  {
    hide Inv, HAdd, Accepts, RecOk;
    Instances(s, t, 0, 0, 0);
  }

  lemma SeekerGentle(s: State, t: nat, a: SendStep)
    requires Inv(s) && EnabledSend(s, t, a) && !a.Call? && !a.BeginSend? && !a.Enqueue? && !a.Release?
    ensures Gentle(s, ApplySend(s, t, a), t)
  {
    hide Inv, NoProcess, RecOk;
    Instances(s, t, 0, 0, 0);
  }

  lemma LeaveGentle(s: State, t: nat, a: LeaveStep)
    requires Inv(s) && Quiet(s) && EnabledLeave(s, t, a) && !a.Interrupt?
    ensures (a.LeaveWoken? || a.SleepOn?) && Gentle(s, ApplyLeave(s, t, a), t)
  {
    hide Inv, Quiet, IndexOf, RemoveAt, HWithdraw;
    QuietInstances(s, t, 0);
  }

  lemma ServeGentle(s: State, t: nat, a: ServeStep)
    requires Inv(s) && EnabledServe(s, t, a) && !a.Wake?
    ensures Gentle(s, ApplyServe(s, t, a), t)
  {
    hide Inv, Gentle, EnabledServe, ApplyServe;
    if a.Receive? || a.TakePending? {
      TakerGentle(s, t, a);
    } else if a.FreeReceived? || a.Pend? || a.FailReceive? || a.Finish? {
      HolderGentle(s, t, a);
    } else {
      WaiterGentle(s, t, a);
    }
  }

  lemma TakerGentle(s: State, t: nat, a: ServeStep)
    requires Inv(s) && EnabledServe(s, t, a) && (a.Receive? || a.TakePending?)
    ensures Gentle(s, ApplyServe(s, t, a), t)
  {
    hide Inv, RemoveAt, HTake;
    NotDone(s, t, a);
  }

  lemma HolderGentle(s: State, t: nat, a: ServeStep)
    requires Inv(s) && EnabledServe(s, t, a) && (a.FreeReceived? || a.Pend? || a.FailReceive? || a.Finish?)
    ensures Gentle(s, ApplyServe(s, t, a), t)
  {
    hide Inv, RecOk;
    Instances(s, t, 0, 0, 0);
  }

  lemma WaiterGentle(s: State, t: nat, a: ServeStep)
    requires EnabledServe(s, t, a) && !a.Wake? && !a.Receive? && !a.TakePending?
    requires !a.FreeReceived? && !a.Pend? && !a.FailReceive? && !a.Finish?
    ensures Gentle(s, ApplyServe(s, t, a), t)
  {
  }

  /** MsgReceive and MsgReply never touch a completed record. */
  lemma NotDone(s: State, t: nat, a: ServeStep)
    requires Inv(s) && EnabledServe(s, t, a)
    ensures a.Receive? ==> !s.recs[s.chans[PcOf(s, t).chan].h.q.waiting[0].rec].place.Done?
    ensures a.TakePending? ==> !s.recs[s.procs[a.e].pending[IndexOf(s.procs[a.e].pending, a.rcvid)].rec].place.Done?
  {
    hide Inv;
    if a.Receive? {
      ReceivingQueued(s, t);
    } else if a.TakePending? {
      TakingPending(s, a.e, a.rcvid);
    }
  }

  // ----- The thread that makes the step -----

  lemma SendOwn(s: State, t: nat, a: SendStep)
    requires Inv(s) && Quiet(s) && EnabledSend(s, t, a)
    ensures ThreadQuiet(ApplySend(s, t, a), t)
  {
    hide Inv, Quiet, HAdd;
    QuietInstances(s, t, 0);
  }

  lemma ServeOwn(s: State, t: nat, a: ServeStep)
    requires Inv(s) && Quiet(s) && EnabledServe(s, t, a) && !a.Wake?
    ensures ThreadQuiet(ApplyServe(s, t, a), t)
  {
    hide Inv, Quiet, IndexOf, RemoveAt, HTake;
    if a.Finish? || a.FailReceive? {
      SleepsOnIt(s, t);
    }
  }

  /** The sender of a record that a receiver or a replier has in hand sleeps on it. */
  lemma SleepsOnIt(s: State, t: nat)
    requires Inv(s) && Quiet(s) && HasRec(s, t) && ((PcOf(s, t).Received? && s.recs[RecOf(PcOf(s, t))].Normal()) || PcOf(s, t).Replying?)
    ensures Asleep(s, s.recs[RecOf(PcOf(s, t))].hook.task, RecOf(PcOf(s, t)))
    ensures s.recs[RecOf(PcOf(s, t))].hook.task != t
  {
    hide Inv, Quiet;
    var m := RecOf(PcOf(s, t));
    var task := s.recs[m].hook.task;
    Instances(s, t, m, 0, 0);
    QuietInstances(s, task, m);
  }

  // ----- Waking senders -----

  /** Only this sender wakes up, and its record is done; nobody else is about to wake it. */
  lemma OneWakesQuiet(s: State, s': State, k: nat, m: nat, x: nat)
    requires Quiet(s) && m in s.recs && Asleep(s, s.recs[m].hook.task, m)
    requires forall y :: y in s.threads && y != k && s.threads[y].pc.Waking? ==> s.threads[y].pc.done != m
    requires s'.threads.Keys == s.threads.Keys && x in s'.threads
    requires forall y :: y in s.threads && y != k ==> s'.threads[y].pc == s.threads[y].pc
    requires forall y :: y in s.threads && y != s.recs[m].hook.task ==> s'.threads[y].awake == s.threads[y].awake
    requires k in s.threads ==> s'.threads[k].pc.Idle? || s'.threads[k].pc.Releasing?
    requires k in s.threads ==> s.threads[k].pc.Waking?
    requires s'.recs.Keys == s.recs.Keys && s'.recs[m].place.Done?
    requires forall n :: n in s.recs ==> s'.recs[n].hook == s.recs[n].hook && (s.recs[n].place.Done? ==> s'.recs[n].place.Done?)
    ensures ThreadQuiet(s', x)
  {
    assert ThreadQuiet(s, x);
  }

  lemma WakeQuiet(s: State, t: nat, x: nat)
    requires Inv(s) && Quiet(s) && CanWake(s, t) && x in s.threads
    ensures ThreadQuiet(DoWake(s, t), x)
  {
    hide Inv, Quiet;
    var m := PcOf(s, t).done;
    Instances(s, t, m, 0, 0);
    QuietInstances(s, t, m);
    forall y | y in s.threads && y != t && s.threads[y].pc.Waking?
      ensures s.threads[y].pc.done != m
    {
      Instances(s, y, 0, 0, 0);
    }
    hide ThreadOk, RecOk, ThreadQuiet;
    OneWakesQuiet(s, DoWake(s, t), t, m, x);
  }

  lemma CleanPendingQuiet(s: State, e: nat, x: nat)
    requires Inv(s) && Quiet(s) && CanCleanPending(s, e) && x in s.threads
    ensures ThreadQuiet(DoCleanPending(s, e), x)
  {
    hide Inv, Quiet;
    FirstPending(s, e);
    var m := s.procs[e].pending[0].rec;
    NoNull(s);
    Instances(s, s.recs[m].hook.task, m, 0, 0);
    QuietInstances(s, s.recs[m].hook.task, m);
    forall y | y in s.threads && s.threads[y].pc.Waking?
      ensures s.threads[y].pc.done != m
    {
      Instances(s, y, 0, 0, 0);
    }
    hide ThreadOk, RecOk, ThreadQuiet;
    OneWakesQuiet(s, DoCleanPending(s, e), 0, m, x);
  }

  /** In such runs a channel is torn down with pulses and no-reply messages in its queue only. */
  lemma OnlyHeapQueued(s: State, c: nat)
    requires Inv(s) && Quiet(s) && CanCleanQueued(s, c)
    ensures !s.recs[s.chans[c].h.q.waiting[0].rec].Normal()
  {
    hide Inv, Quiet;
    FirstQueued(s, c);
    var m := s.chans[c].h.q.waiting[0].rec;
    QuietInstances(s, 0, m);
    if s.recs[m].Normal() {
      NobodyBlocked(s, c, m);
    }
  }

  lemma CleanQueuedGentle(s: State, c: nat)
    requires Inv(s) && Quiet(s) && CanCleanQueued(s, c)
    ensures Gentle(s, DoCleanQueued(s, c), 0)
  {
    hide Inv, Quiet;
    OnlyHeapQueued(s, c);
    FirstQueued(s, c);
    NoNull(s);
  }

  // ----- Every step -----

  lemma KeepThread(s: State, a: Step, x: nat)
    requires Inv(s) && Quiet(s) && Enabled(s, a) && !Interrupts(a) && x in Apply(s, a).threads
    ensures ThreadQuiet(Apply(s, a), x)
  {
    hide Inv, Quiet, Gentle, ThreadQuiet, EnabledSend, EnabledLeave, EnabledServe, ApplySend, ApplyLeave, ApplyServe;
    match a
    case Env(b) => KeepThreadEnv(s, b, x);
    case Send(t, b) =>
      SendGentle(s, t, b);
      if x == t { SendOwn(s, t, b); } else { GentleQuiet(s, ApplySend(s, t, b), t, x); }
    case Leave(t, b) =>
      LeaveGentle(s, t, b);
      if x == t { LeftQuiet(s, t, b); } else { GentleQuiet(s, ApplyLeave(s, t, b), t, x); }
    case Serve(t, b) => KeepThreadServe(s, t, b, x);
  }

  lemma LeftQuiet(s: State, t: nat, a: LeaveStep)
    requires EnabledLeave(s, t, a) && (a.LeaveWoken? || a.SleepOn?)
    ensures t in ApplyLeave(s, t, a).threads && ThreadQuiet(ApplyLeave(s, t, a), t)
  {
  }

  lemma KeepThreadEnv(s: State, a: EnvStep, x: nat)
    requires Inv(s) && Quiet(s) && EnabledEnv(s, a) && x in ApplyEnv(s, a).threads
    ensures ThreadQuiet(ApplyEnv(s, a), x)
  {
    hide Inv, Quiet, Gentle, ThreadQuiet;
    NoNull(s);
    if a.CleanPending? {
      CleanPendingQuiet(s, a.e, x);
    } else {
      if a.CleanQueued? {
        CleanQueuedGentle(s, a.c);
      } else {
        EnvGentle(s, a);
      }
      NotNullThread(s, a);
      hide EnabledEnv, ApplyEnv;
      GentleQuiet(s, ApplyEnv(s, a), 0, x);
    }
  }

  lemma NotNullThread(s: State, a: EnvStep)
    requires EnabledEnv(s, a) && 0 !in s.threads
    ensures 0 !in ApplyEnv(s, a).threads
  {
  }

  lemma KeepThreadServe(s: State, t: nat, a: ServeStep, x: nat)
    requires Inv(s) && Quiet(s) && EnabledServe(s, t, a) && x in ApplyServe(s, t, a).threads
    ensures ThreadQuiet(ApplyServe(s, t, a), x)
  {
    hide Inv, Quiet, Gentle, ThreadQuiet;
    if a.Wake? {
      WakeQuiet(s, t, x);
    } else {
      ServeGentle(s, t, a);
      if x == t {
        ServeOwn(s, t, a);
      } else {
        hide EnabledServe, ApplyServe;
        GentleQuiet(s, ApplyServe(s, t, a), t, x);
      }
    }
  }

  /** The only way back is to be woken, with a completed record. */
  lemma ReturnsWoken(s: State, a: Step, m: nat)
    requires Inv(s) && Quiet(s) && Enabled(s, a) && !Interrupts(a) && Returns(s, a, m) && m in s.recs
    ensures m in Apply(s, a).recs
    ensures Apply(s, a).recs[m] == s.recs[m] || Apply(s, a).recs[m] == s.recs[m].(exit := Exit(Woken, s.recs[m].status))
    ensures Apply(s, a).recs[m] != s.recs[m] ==> s.recs[m].place.Done?
  {
    hide Inv, Quiet, IndexOf, RemoveAt, HWithdraw;
    QuietInstances(s, a.t, 0);
  }

  lemma KeepRec(s: State, a: Step, m: nat)
    requires Inv(s) && Quiet(s) && Enabled(s, a) && !Interrupts(a) && m in Apply(s, a).recs
    ensures RecQuiet(Apply(s, a).recs[m])
  {
    hide Inv, Quiet, Enabled, Apply, Returns;
    StepRec(s, a, m);
    QuietInstances(s, 0, m);
    if m in s.recs && Apply(s, a).recs[m].exit != s.recs[m].exit {
      ReturnsWoken(s, a, m);
    }
  }

  lemma KeepQuiet(s: State, a: Step)
    requires Inv(s) && Quiet(s) && Enabled(s, a) && !Interrupts(a)
    ensures Quiet(Apply(s, a))
  {
    hide Inv, Enabled, Apply, ThreadQuiet, RecQuiet;
    var s' := Apply(s, a);
    forall t | t in s'.threads
      ensures ThreadQuiet(s', t)
    {
      KeepThread(s, a, t);
    }
    forall m | m in s'.recs
      ensures RecQuiet(s'.recs[m])
    {
      KeepRec(s, a, m);
    }
  }

  lemma {:induction false} QuietRun(states: seq<State>, steps: seq<Step>, i: nat)
    requires Run(states, steps) && i < |states|
    requires forall k :: 0 <= k < i ==> !Interrupts(steps[k])
    ensures Quiet(states[i])
  {
    hide Enabled, Apply, Inv, Interrupts;
    if i > 0 {
      hide Quiet;
      QuietRun(states, steps, i - 1);
      Reachable(states, steps, i - 1);
      KeepQuiet(states[i - 1], steps[i - 1]);
    }
  }

  /** As long as no sender is interrupted, every MsgSend that returns was woken after its record had
      been completed, and reports the status it was completed with. */
  lemma UninterruptedResults(states: seq<State>, steps: seq<Step>, i: nat, m: nat)
    requires Run(states, steps) && i < |states| && m in states[i].recs && states[i].recs[m].exit.Exit?
    requires forall k :: 0 <= k < i ==> !Interrupts(steps[k])
    ensures states[i].recs[m].place.Done? && states[i].recs[m].exit.how.Woken? && states[i].recs[m].exit.rc == states[i].recs[m].status
  {
    QuietRun(states, steps, i);
  }

  // ----- And the record is gone from everywhere -----

  /** A sender is out while the teardown of the receiving process, which has woken it, still has to
      unlink its record. */
  ghost predicate Overtakes(s: State, a: Step) {
    exists m, e :: GivesBack(s, a, m) && e in s.procs && s.procs[e].dying == m
  }

  /** Nobody but such a teardown touches the record of a sender on its way out. */
  lemma OutIsFree(s: State, a: Step, m: nat)
    requires Inv(s) && Quiet(s) && Enabled(s, a) && GivesBack(s, a, m)
    ensures forall k :: k in s.threads ==> !WakesFor(s.threads[k].pc, m)
    ensures forall c :: c in s.chans ==> s.chans[c].dying != m
    ensures m in s.recs && s.recs[m].Completed()
  {
    hide Inv, Quiet, Enabled, Apply;
    ReleaseStep(s, a, m);
    Instances(s, a.t, m, 0, 0);
    QuietInstances(s, 0, m);
    forall k | k in s.threads
      ensures !WakesFor(s.threads[k].pc, m)
    {
      QuietInstances(s, k, 0);
    }
    forall c | c in s.chans
      ensures s.chans[c].dying != m
    {
      Instances(s, 0, 0, c, 0);
      assert a.t in ChanHolders(s.threads, PcOf(s, a.t).chan);
    }
  }

  lemma GuardedUnlessOvertaking(s: State, a: Step)
    requires Inv(s) && Quiet(s) && Enabled(s, a)
    ensures Guarded(s, a) <==> !Overtakes(s, a)
  {
    hide Inv, Quiet, Enabled, Apply, GivesBack;
    forall m | GivesBack(s, a, m)
      ensures LetGo(s, m) <==> forall e :: e in s.procs ==> s.procs[e].dying != m
    {
      OutIsFree(s, a, m);
      NotNull(s, a, m);
    }
  }

  lemma NotNull(s: State, a: Step, m: nat)
    requires GivesBack(s, a, m)
    ensures m != 0
  {
  }

  /** In a run without interruptions no record of a sender that is out is shown to anybody, if and
      only if no sender overtakes the teardown that woke it. */
  lemma UninterruptedClean(states: seq<State>, steps: seq<Step>)
    requires Run(states, steps)
    requires forall k :: 0 <= k < |steps| ==> !Interrupts(steps[k])
    ensures (forall i :: 0 <= i < |states| ==> Clean(states[i])) <==> (forall k :: 0 <= k < |steps| ==> !Overtakes(states[k], steps[k]))
  {
    CleanIffGuarded(states, steps);
    hide Inv, Clean, Guarded, Overtakes, Interrupts, Enabled, Apply;
    forall k | 0 <= k < |steps|
      ensures Guarded(states[k], steps[k]) <==> !Overtakes(states[k], steps[k])
    {
      Reachable(states, steps, k);
      QuietRun(states, steps, k);
      GuardedUnlessOvertaking(states[k], steps[k]);
    }
  }
}

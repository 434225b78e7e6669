/**
  How a blocked MsgSend ends. The code lets a sender return in three places without having its
  record in hand (`LeaveWoken`, `LeaveNoReceiver`, `LeaveOvertaken`). Its result is right if it
  does so when the record is completed. The memory of the record is gone when the sender is out
  (`Release`); nobody can find or touches it from then on if and only if the record is settled
  and let go of at that step.
 */
module ProtocolExits {
  import opened Errno
  import opened ChannelQueue
  import opened Protocol
  import opened ProtocolInv
  import opened ProtocolSteps
  import opened ProtocolTheorems

  // ----- How a record evolves -----

  predicate Settled(p: Place) {
    p.Done? || p.Withdrawn? || p.Discarded? || p.Freed?
  }

  /** Completion, withdrawal, freeing and return are final. */
  predicate Evolves(r: Rec, r': Rec) {
    && r'.hook == r.hook && r'.via == r.via && r'.timed == r.timed
    && (r.gone ==> r'.gone)
    && r.takes <= r'.takes && r.frees <= r'.frees
    && (r.exit.Exit? ==> r'.exit == r.exit)
    && (Settled(r.place) ==> r'.place == r.place && r'.status == r.status && r'.tag == r.tag)
    && (Published(r) ==> Published(r'))
  }

  ghost predicate Returns(s: State, a: Step, m: nat) {
    a.Leave? && RecOf(PcOf(s, a.t)) == m
  }

  /** The sender of the record is out, and with it the memory of the record. */
  ghost predicate GivesBack(s: State, a: Step, m: nat) {
    a.Send? && a.send.Release? && PcOf(s, a.t).Releasing? && PcOf(s, a.t).rec == m && m != 0
  }

  /** What one step does to one record; a record that appears is with its sender. */
  ghost predicate RecStep(s: State, s': State, a: Step, m: nat) {
    if m in s.recs then
      && m in s'.recs && Evolves(s.recs[m], s'.recs[m])
      && (s'.recs[m].exit != s.recs[m].exit ==> Returns(s, a, m))
      && (s'.recs[m].gone != s.recs[m].gone ==> GivesBack(s, a, m))
    else
      m in s'.recs ==> s'.recs[m].exit == NotYet && !s'.recs[m].gone && s'.recs[m].place.AtSender?
  }

  lemma EnvRec(s: State, a: EnvStep, m: nat)
    requires Inv(s) && EnabledEnv(s, a)
    ensures RecStep(s, ApplyEnv(s, a), Env(a), m)
  {
    hide Inv, EnabledEnv, ApplyEnv, RecStep;
    if a.CleanPending? || a.CleanQueued? {
      CleaningRec(s, a, m);
    } else {
      SameRecs(s, a);
      SameRecStep(s, ApplyEnv(s, a), Env(a), m);
    }
  }

  lemma SameRecs(s: State, a: EnvStep)
    requires EnabledEnv(s, a) && !a.CleanPending? && !a.CleanQueued?
    ensures ApplyEnv(s, a).recs == s.recs
  {
  }

  lemma SameRecStep(s: State, s': State, a: Step, m: nat)
    requires s'.recs == s.recs
    ensures RecStep(s, s', a, m)
  {
  }

  lemma CleaningRec(s: State, a: EnvStep, m: nat)
    requires Inv(s) && EnabledEnv(s, a) && (a.CleanPending? || a.CleanQueued?)
    ensures RecStep(s, ApplyEnv(s, a), Env(a), m)
  {
    hide Inv;
    match a
    case CleanPending(e) => FirstPending(s, e);
    case CleanQueued(c) => FirstQueued(s, c);
  }

  /** The record that a teardown takes next is on the list, and so not settled. */
  lemma FirstPending(s: State, e: nat)
    requires Inv(s) && CanCleanPending(s, e)
    ensures s.recs[s.procs[e].pending[0].rec].place == OnPending(e) && s.recs[s.procs[e].pending[0].rec].Normal()
  {
    hide Inv;
    Instances(s, 0, s.procs[e].pending[0].rec, 0, e);
    assert s.procs[e].pending[0] in s.procs[e].pending;
  }

  lemma FirstQueued(s: State, c: nat)
    requires Inv(s) && CanCleanQueued(s, c)
    ensures s.recs[s.chans[c].h.q.waiting[0].rec].place == InQueue(c)
  {
    hide Inv;
    Instances(s, 0, 0, c, 0);
    assert s.chans[c].h.q.waiting[0] in s.chans[c].h.q.waiting;
  }

  lemma SendRec(s: State, t: nat, a: SendStep, m: nat)
    requires Inv(s) && EnabledSend(s, t, a)
    ensures RecStep(s, ApplySend(s, t, a), Send(t, a), m)
  {
    hide Inv, EnabledSend, ApplySend, RecStep;
    match a
    case BeginSend(_, _, _, _) => BeginRec(s, t, a, m);
    case Enqueue => EnqueueRec(s, t, m);
    case Release => ReleaseRec(s, t, m);
    case _ => PrepareRec(s, t, a, m);
  }

  lemma BeginRec(s: State, t: nat, a: SendStep, m: nat)
    requires EnabledSend(s, t, a) && a.BeginSend?
    ensures RecStep(s, ApplySend(s, t, a), Send(t, a), m)
  {
  }

  lemma EnqueueRec(s: State, t: nat, m: nat)
    requires Inv(s) && EnabledSend(s, t, Enqueue)
    ensures RecStep(s, ApplySend(s, t, Enqueue), Send(t, Enqueue), m)
  {
    hide Inv, HAdd, Accepts;
    Instances(s, t, RecOf(PcOf(s, t)), 0, 0);
  }

  lemma ReleaseRec(s: State, t: nat, m: nat)
    requires EnabledSend(s, t, Release)
    ensures RecStep(s, ApplySend(s, t, Release), Send(t, Release), m)
  {
  }

  lemma PrepareRec(s: State, t: nat, a: SendStep, m: nat)
    requires Inv(s) && EnabledSend(s, t, a) && !a.BeginSend? && !a.Enqueue? && !a.Release?
    ensures RecStep(s, ApplySend(s, t, a), Send(t, a), m)
  {
    hide Inv, NoProcess;
    Instances(s, t, RecOf(PcOf(s, t)), 0, 0);
  }

  lemma LeaveRec(s: State, t: nat, a: LeaveStep, m: nat)
    requires Inv(s) && EnabledLeave(s, t, a)
    ensures RecStep(s, ApplyLeave(s, t, a), Leave(t, a), m)
  {
    hide Inv, EnabledLeave, ApplyLeave, RecStep;
    if a.WithdrawQueued? || a.WithdrawPending? {
      WithdrawRec(s, t, a, m);
    } else {
      ReturnRec(s, t, a, m);
    }
  }

  lemma WithdrawRec(s: State, t: nat, a: LeaveStep, m: nat)
    requires Inv(s) && EnabledLeave(s, t, a) && (a.WithdrawQueued? || a.WithdrawPending?)
    ensures RecStep(s, ApplyLeave(s, t, a), Leave(t, a), m)
  {
    hide Inv, IndexOf, RemoveAt, HWithdraw;
    if a.WithdrawQueued? {
      WithdrawingQueued(s, t);
    } else {
      WithdrawingPending(s, t);
    }
    Instances(s, t, RecOf(PcOf(s, t)), 0, 0);
    hide Queued, FoundPending;
  }

  lemma ReturnRec(s: State, t: nat, a: LeaveStep, m: nat)
    requires Inv(s) && EnabledLeave(s, t, a) && !a.WithdrawQueued? && !a.WithdrawPending?
    ensures RecStep(s, ApplyLeave(s, t, a), Leave(t, a), m)
  {
    hide Inv, Queued, FoundPending, NoProcess;
    Instances(s, t, RecOf(PcOf(s, t)), 0, 0);
  }

  /** A sender that finds its record in the queue finds one that is not settled. */
  lemma WithdrawingQueued(s: State, t: nat)
    requires Inv(s) && CanWithdrawQueued(s, t)
    ensures s.recs[RecOf(PcOf(s, t))].place.InQueue?
  {
    hide Inv, IndexOf;
    var mine, c := RecOf(PcOf(s, t)), PcOf(s, t).chan;
    Instances(s, t, mine, c, 0);
    QueuedIsMine(s, s.recs[mine].hook, c);
    assert s.chans[c].h.q.waiting[IndexOf(s.chans[c].h.q.waiting, s.recs[mine].hook.rcvid)] in s.chans[c].h.q.waiting;
  }

  lemma WithdrawingPending(s: State, t: nat)
    requires Inv(s) && CanWithdrawPending(s, t)
    ensures s.recs[RecOf(PcOf(s, t))].place.OnPending?
  {
    hide Inv, IndexOf;
    var mine := RecOf(PcOf(s, t));
    Instances(s, t, mine, 0, 0);
    PendingIsMine(s, PcOf(s, t).target, s.recs[mine].hook);
  }

  lemma ServeRec(s: State, t: nat, a: ServeStep, m: nat)
    requires Inv(s) && EnabledServe(s, t, a)
    ensures RecStep(s, ApplyServe(s, t, a), Serve(t, a), m)
  {
    hide RecStep, Inv, EnabledServe, ApplyServe;
    if a.Receive? || a.FreeReceived? || a.Pend? {
      ReceiverRec(s, t, a, m);
    } else if a.TakePending? {
      TakingRec(s, t, a, m);
    } else if a.Finish? || a.FailReceive? {
      FinishingRec(s, t, a, m);
    } else {
      WaiterRecs(s, t, a);
      SameRecStep(s, ApplyServe(s, t, a), Serve(t, a), m);
    }
  }

  lemma WaiterRecs(s: State, t: nat, a: ServeStep)
    requires EnabledServe(s, t, a)
    requires !a.Receive? && !a.FreeReceived? && !a.Pend? && !a.TakePending? && !a.Finish? && !a.FailReceive?
    ensures ApplyServe(s, t, a).recs == s.recs
  {
  }

  lemma ReceiverRec(s: State, t: nat, a: ServeStep, m: nat)
    requires Inv(s) && EnabledServe(s, t, a) && (a.Receive? || a.FreeReceived? || a.Pend?)
    ensures RecStep(s, ApplyServe(s, t, a), Serve(t, a), m)
  {
    hide Inv, IndexOf, RemoveAt, HTake;
    if a.Receive? {
      ReceivingQueued(s, t);
    }
    Instances(s, t, RecOf(PcOf(s, t)), 0, 0);
    hide ThreadOk;
  }

  lemma TakingRec(s: State, t: nat, a: ServeStep, m: nat)
    requires Inv(s) && EnabledServe(s, t, a) && a.TakePending?
    ensures RecStep(s, ApplyServe(s, t, a), Serve(t, a), m)
  {
    hide Inv, IndexOf, RemoveAt;
    TakingPending(s, a.e, a.rcvid);
    hide FoundPending;
  }

  lemma FinishingRec(s: State, t: nat, a: ServeStep, m: nat)
    requires Inv(s) && EnabledServe(s, t, a) && (a.Finish? || a.FailReceive?)
    ensures RecStep(s, ApplyServe(s, t, a), Serve(t, a), m)
  {
    hide Inv;
    Instances(s, t, RecOf(PcOf(s, t)), 0, 0);
    hide ThreadOk;
  }

  lemma ReceivingQueued(s: State, t: nat)
    requires Inv(s) && CanReceive(s, t)
    ensures s.recs[s.chans[PcOf(s, t).chan].h.q.waiting[0].rec].place.InQueue?
  {
    hide Inv;
    var c := PcOf(s, t).chan;
    Instances(s, 0, 0, c, 0);
    assert s.chans[c].h.q.waiting[0] in s.chans[c].h.q.waiting;
  }

  lemma TakingPending(s: State, e: nat, rcvid: int)
    requires Inv(s) && e in s.procs && FoundPending(s, e, rcvid)
    ensures var h := s.procs[e].pending[IndexOf(s.procs[e].pending, rcvid)];
            h.rec in s.recs && s.recs[h.rec].place.OnPending?
  {
    hide Inv;
    Instances(s, 0, 0, 0, e);
    assert s.procs[e].pending[IndexOf(s.procs[e].pending, rcvid)] in s.procs[e].pending;
  }

  lemma StepRec(s: State, a: Step, m: nat)
    requires Inv(s) && Enabled(s, a)
    ensures RecStep(s, Apply(s, a), a, m)
  {
    hide Inv, RecStep, EnabledEnv, EnabledSend, EnabledLeave, EnabledServe, ApplyEnv, ApplySend, ApplyLeave, ApplyServe;
    match a
    case Env(x) => EnvRec(s, x, m);
    case Send(t, x) => SendRec(s, t, x, m);
    case Leave(t, x) => LeaveRec(s, t, x, m);
    case Serve(t, x) => ServeRec(s, t, x, m);
  }

  /** From any state of a run to any later one. */
  lemma {:induction false} RunRec(states: seq<State>, steps: seq<Step>, i: nat, j: nat, m: nat)
    requires Run(states, steps) && i <= j < |states| && m in states[i].recs
    ensures m in states[j].recs && Evolves(states[i].recs[m], states[j].recs[m])
    decreases j
  {
    hide Enabled, Apply, Inv;
    if i < j {
      RunRec(states, steps, i, j - 1, m);
      Reachable(states, steps, j - 1);
      StepRec(states[j - 1], steps[j - 1], m);
    }
  }

  // ----- Right results -----

  /** A sender is about to return without its record in hand. */
  predicate BlindReturn(a: Step) {
    a.Leave? && (a.leave.LeaveWoken? || a.leave.LeaveNoReceiver? || a.leave.LeaveOvertaken?)
  }

  /** Such a return happens when the record has been completed. */
  ghost predicate Answered(s: State, a: Step) {
    BlindReturn(a) ==> RecOf(PcOf(s, a.t)) in s.recs && s.recs[RecOf(PcOf(s, a.t))].Completed()
  }

  predicate Interruption(rc: int) {
    rc == ETIMEDOUT || rc == ERESTARTSYS
  }

  /** A sender that returned either withdrew its record and reports the interruption, or its
      record was completed by somebody else; then it reports the status that was set, unless it
      was interrupted and no process had the receiver's pid any more. */
  ghost predicate ResultOk(r: Rec) {
    r.exit.Exit? ==>
      match r.exit.how
      case Woken => r.place.Done? && r.exit.rc == r.status
      case Overtaken => r.place.Done? && r.exit.rc == r.status
      case NoReceiver => r.place.Done? && Interruption(r.exit.rc)
      case WithdrewQueued => r.place.Withdrawn? && Interruption(r.exit.rc)
      case WithdrewPending => r.place.Withdrawn? && Interruption(r.exit.rc)
  }

  lemma ReturnOk(s: State, t: nat, a: LeaveStep, m: nat)
    requires Inv(s) && EnabledLeave(s, t, a) && m in s.recs && RecOf(PcOf(s, t)) == m && Answered(s, Leave(t, a))
    ensures m in ApplyLeave(s, t, a).recs && ResultOk(ApplyLeave(s, t, a).recs[m])
  {
    hide Inv, IndexOf, RemoveAt, HWithdraw;
    Instances(s, t, m, 0, 0);
  }

  lemma ResultStays(r: Rec, r': Rec)
    requires ResultOk(r) && Evolves(r, r') && r'.exit == r.exit
    ensures ResultOk(r')
  {
  }

  lemma NoResult(r: Rec)
    requires r.exit == NotYet
    ensures ResultOk(r)
  {
  }

  lemma ReturnStep(s: State, a: Step, m: nat)
    requires Inv(s) && Enabled(s, a) && Answered(s, a) && m in s.recs && Returns(s, a, m)
    ensures m in Apply(s, a).recs && ResultOk(Apply(s, a).recs[m])
  {
    hide Inv, ApplyLeave, EnabledLeave, ResultOk, Answered;
    ReturnOk(s, a.t, a.leave, m);
  }

  lemma AnsweredStep(s: State, a: Step, m: nat)
    requires Inv(s) && Enabled(s, a) && (Returns(s, a, m) ==> Answered(s, a))
    requires m in s.recs ==> ResultOk(s.recs[m])
    ensures m in Apply(s, a).recs ==> ResultOk(Apply(s, a).recs[m])
  {
    hide Inv, Apply, Enabled, Answered, Evolves, Returns, ResultOk;
    StepRec(s, a, m);
    var s' := Apply(s, a);
    if m !in s.recs {
      if m in s'.recs {
        NoResult(s'.recs[m]);
      }
    } else if s'.recs[m].exit == s.recs[m].exit {
      ResultStays(s.recs[m], s'.recs[m]);
    } else {
      ReturnStep(s, a, m);
    }
  }

  /** The result of a message is right if its own sender waited for completion; what other senders
      do does not matter. */
  lemma {:induction false} AnsweredRun(states: seq<State>, steps: seq<Step>, i: nat, m: nat)
    requires Run(states, steps) && i < |states|
    requires forall k :: 0 <= k < i && Returns(states[k], steps[k], m) ==> Answered(states[k], steps[k])
    ensures m in states[i].recs ==> ResultOk(states[i].recs[m])
  {
    hide Enabled, Apply, Inv, Answered, Returns, ResultOk;
    if i > 0 {
      AnsweredRun(states, steps, i - 1, m);
      Reachable(states, steps, i - 1);
      AnsweredStep(states[i - 1], steps[i - 1], m);
    }
  }

  // ----- Clean returns -----

  /** A thread still has the wake-up to do, for which it reads the record. */
  predicate WakesFor(pc: Pc, m: nat) {
    pc.Waking? && pc.done == m
  }

  /** The record is completed, and whoever did that has not let go of it. */
  ghost predicate Touching(s: State, m: nat) {
    || (exists t :: t in s.threads && WakesFor(s.threads[t].pc, m))
    || (m != 0 && exists e :: e in s.procs && s.procs[e].dying == m)
    || (m != 0 && exists c :: c in s.chans && s.chans[c].dying == m)
  }

  /** Somebody but its sender finds the record on a list, has it in hand, or still touches it. */
  ghost predicate Shown(s: State, m: nat) {
    (exists p :: FoundAt(s, m, p)) || Touching(s, m)
  }

  /** A record whose sender is out is not shown to anybody. */
  ghost predicate Hidden(s: State, m: nat) {
    m in s.recs && s.recs[m].gone ==> !Shown(s, m)
  }

  /** The guard the code does not have, where a sender decides to return: it waits until the record
      is completed and let go of. */
  ghost predicate Waits(s: State, a: Step) {
    Answered(s, a) && (BlindReturn(a) ==> !Touching(s, RecOf(PcOf(s, a.t))))
  }

  lemma TouchedPlace(s: State, m: nat)
    requires Inv(s) && Touching(s, m)
    ensures m in s.recs && (s.recs[m].place.Done? || s.recs[m].place.Freed?)
  {
    hide Inv;
    if t :| t in s.threads && WakesFor(s.threads[t].pc, m) {
      Instances(s, t, m, 0, 0);
    } else if e :| e in s.procs && s.procs[e].dying == m {
      Instances(s, 0, m, 0, e);
    } else {
      var c :| c in s.chans && s.chans[c].dying == m;
      Instances(s, 0, m, c, 0);
    }
  }

  /** A step leaves all teardowns where they are, but for the beginning of another record. */
  ghost predicate SameDying(s: State, s': State, m: nat) {
    && (forall e :: e in s'.procs && s'.procs[e].dying == m != 0 ==> e in s.procs && s.procs[e].dying == m)
    && (forall c :: c in s'.chans && s'.chans[c].dying == m != 0 ==> c in s.chans && s.chans[c].dying == m)
  }

  /** And begins no wake-up for the record. */
  ghost predicate NoNewWaker(s: State, s': State, m: nat) {
    forall t :: t in s'.threads && WakesFor(s'.threads[t].pc, m) ==> t in s.threads && WakesFor(s.threads[t].pc, m)
  }

  lemma EnvDying(s: State, a: EnvStep, m: nat)
    requires Inv(s) && EnabledEnv(s, a) && m in s.recs && Settled(s.recs[m].place)
    ensures SameDying(s, ApplyEnv(s, a), m)
  {
    hide EnabledEnv, ApplyEnv, SameDying;
    if a.CleanPending? || a.CleanQueued? {
      CleanDying(s, a, m);
    } else {
      QuietDying(s, a, m);
    }
  }

  lemma CleanDying(s: State, a: EnvStep, m: nat)
    requires Inv(s) && EnabledEnv(s, a) && m in s.recs && Settled(s.recs[m].place) && (a.CleanPending? || a.CleanQueued?)
    ensures SameDying(s, ApplyEnv(s, a), m)
  {
    hide Inv;
    match a
    case CleanPending(e) => FirstPending(s, e);
    case CleanQueued(c) => FirstQueued(s, c);
  }

  lemma QuietDying(s: State, a: EnvStep, m: nat)
    requires EnabledEnv(s, a) && !a.CleanPending? && !a.CleanQueued?
    ensures SameDying(s, ApplyEnv(s, a), m)
  {
    QuietProcs(s, a);
    QuietChans(s, a);
    hide EnabledEnv, ApplyEnv;
  }

  lemma QuietProcs(s: State, a: EnvStep)
    requires EnabledEnv(s, a) && !a.CleanPending? && !a.CleanQueued?
    ensures forall e :: e in ApplyEnv(s, a).procs && ApplyEnv(s, a).procs[e].dying != 0 ==>
              e in s.procs && s.procs[e].dying == ApplyEnv(s, a).procs[e].dying
  {
  }

  lemma QuietChans(s: State, a: EnvStep)
    requires EnabledEnv(s, a) && !a.CleanPending? && !a.CleanQueued?
    ensures forall c :: c in ApplyEnv(s, a).chans && ApplyEnv(s, a).chans[c].dying != 0 ==>
              c in s.chans && s.chans[c].dying == ApplyEnv(s, a).chans[c].dying
  {
  }

  lemma EnvWaker(s: State, a: EnvStep, m: nat)
    requires EnabledEnv(s, a)
    ensures NoNewWaker(s, ApplyEnv(s, a), m)
  {
  }

  lemma SendDying(s: State, t: nat, a: SendStep, m: nat)
    requires EnabledSend(s, t, a)
    ensures SameDying(s, ApplySend(s, t, a), m)
  {
    hide HAdd;
  }

  lemma SendWaker(s: State, t: nat, a: SendStep, m: nat)
    requires EnabledSend(s, t, a)
    ensures NoNewWaker(s, ApplySend(s, t, a), m)
  {
    hide HAdd;
  }

  lemma LeaveUntouched(s: State, t: nat, a: LeaveStep, m: nat)
    requires EnabledLeave(s, t, a)
    ensures SameDying(s, ApplyLeave(s, t, a), m) && NoNewWaker(s, ApplyLeave(s, t, a), m)
  {
    hide IndexOf, RemoveAt, HWithdraw;
  }

  lemma ServeDying(s: State, t: nat, a: ServeStep, m: nat)
    requires EnabledServe(s, t, a)
    ensures SameDying(s, ApplyServe(s, t, a), m)
  {
    hide IndexOf, RemoveAt, HTake;
  }

  lemma ServeWaker(s: State, t: nat, a: ServeStep, m: nat)
    requires Inv(s) && EnabledServe(s, t, a) && m in s.recs && Settled(s.recs[m].place)
    ensures NoNewWaker(s, ApplyServe(s, t, a), m)
  {
    hide Inv, IndexOf, RemoveAt, HTake, RecOk;
    Instances(s, t, 0, 0, 0);
  }

  lemma NoNewTouch(s: State, s': State, m: nat)
    requires SameDying(s, s', m) && NoNewWaker(s, s', m) && !Touching(s, m)
    ensures !Touching(s', m)
  {
  }

  /** Once let go of, a settled record is not touched again. */
  lemma StaysUntouched(s: State, a: Step, m: nat)
    requires Inv(s) && Enabled(s, a) && m in s.recs && Settled(s.recs[m].place) && !Touching(s, m)
    ensures !Touching(Apply(s, a), m)
  {
    hide Inv, Touching, SameDying, NoNewWaker, EnabledEnv, EnabledSend, EnabledLeave, EnabledServe, ApplyEnv, ApplySend, ApplyLeave, ApplyServe;
    match a {
      case Env(x) => EnvDying(s, x, m); EnvWaker(s, x, m);
      case Send(t, x) => SendDying(s, t, x, m); SendWaker(s, t, x, m);
      case Leave(t, x) => LeaveUntouched(s, t, x, m);
      case Serve(t, x) => ServeDying(s, t, x, m); ServeWaker(s, t, x, m);
    }
    NoNewTouch(s, Apply(s, a), m);
  }

  ghost predicate Over(s: State, m: nat) {
    m in s.recs && s.recs[m].exit.Exit? ==> ResultOk(s.recs[m]) && !Touching(s, m)
  }

  lemma CompletedIsDone(s: State, m: nat)
    requires Inv(s) && m in s.recs && s.recs[m].Completed()
    ensures s.recs[m].place.Done?
  {
    hide Inv;
    Instances(s, 0, m, 0, 0);
  }

  lemma WaitingStep(s: State, a: Step, m: nat)
    requires Inv(s) && Enabled(s, a) && (Returns(s, a, m) ==> Waits(s, a)) && Over(s, m)
    requires m in s.recs ==> ResultOk(s.recs[m])
    ensures Over(Apply(s, a), m)
  {
    var s' := Apply(s, a);
    hide Inv, Apply, Enabled, Answered, Touching, ResultOk, Evolves;
    AnsweredStep(s, a, m);
    StepRec(s, a, m);
    Keep(s, a);
    if m in s'.recs && s'.recs[m].exit.Exit? {
      if s.recs[m].exit.Exit? {
        SettledIfOver(s.recs[m]);
        StaysUntouched(s, a, m);
      } else if BlindReturn(a) {
        AnsweredIsDone(s, a, m);
        StaysUntouched(s, a, m);
      } else {
        NotBlind(s, a, m);
        if Touching(s', m) {
          TouchedPlace(s', m);
        }
      }
    }
  }

  lemma SettledIfOver(r: Rec)
    requires ResultOk(r) && r.exit.Exit?
    ensures Settled(r.place)
  {
  }

  lemma AnsweredIsDone(s: State, a: Step, m: nat)
    requires Inv(s) && Returns(s, a, m) && BlindReturn(a) && Answered(s, a)
    ensures m in s.recs && s.recs[m].place.Done?
  {
    hide Inv;
    CompletedIsDone(s, m);
  }

  lemma NotBlind(s: State, a: Step, m: nat)
    requires Inv(s) && Enabled(s, a) && Returns(s, a, m) && !BlindReturn(a) && m in s.recs && !s.recs[m].exit.Exit?
    ensures m in Apply(s, a).recs && (Apply(s, a).recs[m].exit.Exit? ==> Apply(s, a).recs[m].place.Withdrawn?)
  {
    hide Inv, IndexOf, RemoveAt, HWithdraw;
    Instances(s, a.t, m, 0, 0);
  }

  /** A sender that waits so leaves a record with the right result that nobody touches. */
  lemma {:induction false} WaitingRun(states: seq<State>, steps: seq<Step>, i: nat, m: nat)
    requires Run(states, steps) && i < |states|
    requires forall k :: 0 <= k < i && Returns(states[k], steps[k], m) ==> Waits(states[k], steps[k])
    ensures Over(states[i], m)
  {
    hide Enabled, Apply, Inv, Answered, Touching, Returns, ResultOk;
    if i > 0 {
      WaitingRun(states, steps, i - 1, m);
      AnsweredRun(states, steps, i - 1, m);
      Reachable(states, steps, i - 1);
      WaitingStep(states[i - 1], steps[i - 1], m);
    }
  }

  ghost predicate AlwaysHidden(states: seq<State>, m: nat) {
    forall i :: 0 <= i < |states| ==> Hidden(states[i], m)
  }

  lemma GoneIsOver(s: State, m: nat)
    requires Inv(s) && m in s.recs && s.recs[m].gone
    ensures s.recs[m].exit.Exit?
  {
    hide Inv;
    Instances(s, 0, m, 0, 0);
  }

  /** A settled record that nobody touches is found nowhere. */
  lemma SettledIsHidden(s: State, m: nat)
    requires Inv(s) && m in s.recs && Settled(s.recs[m].place) && !Touching(s, m)
    ensures Hidden(s, m)
  {
    hide Inv, FoundAt, Touching;
    forall p
      ensures !FoundAt(s, m, p)
    {
      WhereFound(s, m, p);
    }
  }

  /** So waiting where the decision is taken is enough. */
  lemma WaitingHides(states: seq<State>, steps: seq<Step>, m: nat)
    requires Run(states, steps)
    requires forall k :: 0 <= k < |steps| && Returns(states[k], steps[k], m) ==> Waits(states[k], steps[k])
    ensures AlwaysHidden(states, m)
  {
    hide Enabled, Apply, Inv, Waits, Hidden, Returns, Touching;
    forall i | 0 <= i < |states|
      ensures Hidden(states[i], m)
    {
      WaitingRun(states, steps, i, m);
      Reachable(states, steps, i);
      if m in states[i].recs && states[i].recs[m].gone {
        GoneIsOver(states[i], m);
        SettledIfOver(states[i].recs[m]);
        SettledIsHidden(states[i], m);
      } else {
        NotGone(states[i], m);
      }
    }
  }

  lemma NotGone(s: State, m: nat)
    requires m in s.recs ==> !s.recs[m].gone
    ensures Hidden(s, m)
  {
  }

  // ----- The exact condition, where the memory is given back -----

  /** The record is completed, or its sender has taken it back, and everybody has let go of it. */
  ghost predicate LetGo(s: State, m: nat) {
    m in s.recs && (s.recs[m].Completed() || s.recs[m].place.Withdrawn?) && !Touching(s, m)
  }

  /** No sender gets out before that. */
  ghost predicate Guarded(s: State, a: Step) {
    forall m :: GivesBack(s, a, m) ==> LetGo(s, m)
  }

  lemma LetGoIsSettled(s: State, m: nat)
    requires Inv(s) && LetGo(s, m) && s.recs[m].exit.Exit?
    ensures Settled(s.recs[m].place)
  {
    hide Inv, Touching;
    Instances(s, 0, m, 0, 0);
  }

  /** A returned record that is neither completed nor taken back is still with somebody. */
  lemma StillSomewhere(s: State, m: nat)
    requires Inv(s) && m in s.recs && s.recs[m].exit.Exit? && !s.recs[m].Completed() && !s.recs[m].place.Withdrawn?
    ensures Findable(s.recs[m].place)
  {
    hide Inv;
    Instances(s, 0, m, 0, 0);
  }

  /** What getting out changes: one record, one thread and one count. */
  lemma ReleaseStep(s: State, a: Step, m: nat)
    requires Inv(s) && Enabled(s, a) && GivesBack(s, a, m)
    ensures m in s.recs && s.recs[m].exit.Exit?
    ensures var s' := Apply(s, a);
      && m in s'.recs && s'.recs[m] == s.recs[m].(gone := true)
      && (forall t :: t in s.threads && s.threads[t].pc.Waking? ==> t in s'.threads && s'.threads[t].pc == s.threads[t].pc)
      && s'.procs == s.procs
      && (forall c :: c in s.chans ==> c in s'.chans && s'.chans[c].dying == s.chans[c].dying)
  {
    hide Inv;
    Instances(s, a.t, m, 0, 0);
  }

  lemma StaysTouched(s: State, a: Step, m: nat)
    requires Inv(s) && Enabled(s, a) && GivesBack(s, a, m) && Touching(s, m)
    ensures Touching(Apply(s, a), m)
  {
    hide Inv, Enabled, Apply;
    ReleaseStep(s, a, m);
    var s' := Apply(s, a);
    if t :| t in s.threads && WakesFor(s.threads[t].pc, m) {
      assert WakesFor(s'.threads[t].pc, m);
    } else if e :| e in s.procs && s.procs[e].dying == m {
      assert s'.procs[e].dying == m;
    } else {
      var c :| c in s.chans && s.chans[c].dying == m;
      assert s'.chans[c].dying == m;
    }
  }

  /** Getting out too early leaves the record on a list, with a thread, or with somebody who is about
      to read or unlink it. */
  lemma UnguardedLeaves(s: State, a: Step, m: nat)
    requires Inv(s) && Enabled(s, a) && GivesBack(s, a, m) && !LetGo(s, m)
    ensures !Hidden(Apply(s, a), m)
  {
    hide Inv, FoundAt, Touching, Enabled, Apply, GivesBack;
    ReleaseStep(s, a, m);
    var s' := Apply(s, a);
    if Touching(s, m) {
      StaysTouched(s, a, m);
    } else {
      StillSomewhere(s, m);
      Keep(s, a);
      WhereFound(s', m, s'.recs[m].place);
      assert FoundAt(s', m, s'.recs[m].place);
    }
  }

  /** The record of a sender that is out is settled, and nobody touches it. */
  ghost predicate Buried(s: State, m: nat) {
    m in s.recs && s.recs[m].gone ==> Settled(s.recs[m].place) && !Touching(s, m)
  }

  lemma KeepBuried(s: State, a: Step, m: nat)
    requires Inv(s) && Enabled(s, a) && Buried(s, m) && (GivesBack(s, a, m) ==> LetGo(s, m))
    ensures Buried(Apply(s, a), m)
  {
    hide Inv, Enabled, Apply, Touching, GivesBack;
    StepRec(s, a, m);
    var s' := Apply(s, a);
    if m in s'.recs && s'.recs[m].gone {
      if !s.recs[m].gone {
        ReleaseStep(s, a, m);
        LetGoIsSettled(s, m);
      }
      StaysUntouched(s, a, m);
    }
  }

  /** The sender of this record gets out only when the record is let go of. */
  ghost predicate AlwaysGuarded(states: seq<State>, steps: seq<Step>, m: nat)
    requires |states| == |steps| + 1
  {
    forall k :: 0 <= k < |steps| && GivesBack(states[k], steps[k], m) ==> LetGo(states[k], m)
  }

  lemma {:induction false} BuriedRun(states: seq<State>, steps: seq<Step>, i: nat, m: nat)
    requires Run(states, steps) && i < |states| && AlwaysGuarded(states, steps, m)
    ensures Buried(states[i], m)
  {
    hide Enabled, Apply, Inv, Buried, GivesBack, LetGo;
    if i == 0 {
      NothingToBury(states[0].limit, m);
    } else {
      BuriedRun(states, steps, i - 1, m);
      Reachable(states, steps, i - 1);
      KeepBuried(states[i - 1], steps[i - 1], m);
    }
  }

  lemma NothingToBury(limit: nat, m: nat)
    ensures Buried(Start(limit), m)
  {
  }

  /** For every message: once its sender is out, and the memory of its record gone, nobody can find
      the record or touches it, exactly when the record was completed or taken back, and let go of,
      at the step with which its sender got out. */
  lemma HiddenIffGuarded(states: seq<State>, steps: seq<Step>, m: nat)
    requires Run(states, steps)
    ensures AlwaysHidden(states, m) <==> AlwaysGuarded(states, steps, m)
  {
    hide Enabled, Apply, Inv, Hidden, GivesBack, LetGo, Touching;
    if k :| 0 <= k < |steps| && GivesBack(states[k], steps[k], m) && !LetGo(states[k], m) {
      Reachable(states, steps, k);
      UnguardedLeaves(states[k], steps[k], m);
      assert !Hidden(states[k + 1], m);
    } else {
      forall i | 0 <= i < |states|
        ensures Hidden(states[i], m)
      {
        BuriedRun(states, steps, i, m);
        Reachable(states, steps, i);
        if m in states[i].recs && states[i].recs[m].gone {
          SettledIsHidden(states[i], m);
        } else {
          NotGone(states[i], m);
        }
      }
    }
  }

  /** No record of a sender that is out is shown to anybody. */
  ghost predicate Clean(s: State) {
    forall m :: Hidden(s, m)
  }

  /** The same for all messages of a run. */
  lemma CleanIffGuarded(states: seq<State>, steps: seq<Step>)
    requires Run(states, steps)
    ensures (forall i :: 0 <= i < |states| ==> Clean(states[i])) <==> (forall k :: 0 <= k < |steps| ==> Guarded(states[k], steps[k]))
  {
    hide Enabled, Apply, Hidden, GivesBack, LetGo;
    if k, m :| 0 <= k < |steps| && GivesBack(states[k], steps[k], m) && !LetGo(states[k], m) {
      HiddenIffGuarded(states, steps, m);
      var i :| 0 <= i < |states| && !Hidden(states[i], m);
      assert !Clean(states[i]);
      assert !Guarded(states[k], steps[k]);
    } else {
      forall i, m | 0 <= i < |states|
        ensures Hidden(states[i], m)
      {
        HiddenIffGuarded(states, steps, m);
      }
    }
  }
}

/** What holds in every run of the driver. */
module ProtocolTheorems {
  import opened ChannelQueue
  import opened Protocol
  import opened ProtocolInv
  import opened ProtocolSteps
  import opened ProtocolTeardown

  // ----- The invariant holds in every state of every run -----

  lemma KeepEnv(s: State, a: EnvStep)
    requires Inv(s) && EnabledEnv(s, a)
    ensures Inv(ApplyEnv(s, a))
  {
    hide Inv;
    var s' := ApplyEnv(s, a);
    match a
    case Spawn(t) => KeepSpawn(s, s', t);
    case UseFile(t, poll) => KeepUseFile(s, s', t, poll);
    case OpenFile(e, pid) => KeepOpenFile(s, s', e, pid);
    case OpenPoll(e) => KeepOpenPoll(s, s', e);
    case ClosePoll(e) => KeepClosePoll(s, s', e);
    case Unlink(e) => KeepUnlink(s, s', e);
    case Close(e) => KeepClose(s, s', e);
    case CleanPending(e) => KeepCleanPending(s, s', e);
    case UnlinkPending(e) => KeepUnlinkPending(s, s', e);
    case FreeProcess(e) => KeepFreeProcess(s, s', e);
    case CreateChannel(e) => KeepCreateChannel(s, s', e);
    case UnlistChannel(e, c) => KeepUnlistChannel(s, s', e, c);
    case CleanQueued(c) => KeepCleanQueued(s, s', c);
    case UnlinkQueued(c) => KeepUnlinkQueued(s, s', c);
    case FreeChannel(c) => KeepFreeChannel(s, s', c);
    case Leak(c) => KeepLeak(s, s', c);
    case Attach(e, coid, conn) => KeepAttach(s, s', e, coid, conn);
    case Detach(e, coid) => KeepDetach(s, s', e, coid);
  }

  lemma KeepSend(s: State, t: nat, a: SendStep)
    requires Inv(s) && EnabledSend(s, t, a)
    ensures Inv(ApplySend(s, t, a))
  {
    hide Inv;
    var s' := ApplySend(s, t, a);
    match a
    case BeginSend(e, m, kind, coid) => KeepBeginSend(s, s', t, e, m, kind, coid);
    case FindTarget(x) => KeepFindTarget(s, s', t, x);
    case NoTarget => KeepNoTarget(s, s', t);
    case FindChan => KeepFindChan(s, s', t);
    case NoChan => KeepNoChan(s, s', t);
    case Arm => KeepArm(s, s', t);
    case Enqueue => KeepEnqueue(s, s', t);
    case Call => KeepCall(s, s', t);
    case GiveUp => KeepGiveUp(s, s', t);
    case Release => KeepRelease(s, s', t);
  }

  lemma KeepLeave(s: State, t: nat, a: LeaveStep)
    requires Inv(s) && EnabledLeave(s, t, a)
    ensures Inv(ApplyLeave(s, t, a))
  {
    hide Inv;
    var s' := ApplyLeave(s, t, a);
    match a
    case LeaveWoken => KeepLeaveWoken(s, s', t);
    case SleepOn => KeepSleepOn(s, s', t);
    case Interrupt(rc) => KeepInterrupt(s, s', t, rc);
    case WithdrawQueued => KeepWithdrawQueued(s, s', t);
    case MissQueued => KeepMissQueued(s, s', t);
    case FindReceiver(x) => KeepFindReceiver(s, s', t, x);
    case LeaveNoReceiver => KeepLeaveNoReceiver(s, s', t);
    case WithdrawPending => KeepWithdrawPending(s, s', t);
    case LeaveOvertaken => KeepLeaveOvertaken(s, s', t);
  }

  lemma KeepServe(s: State, t: nat, a: ServeStep)
    requires Inv(s) && EnabledServe(s, t, a)
    ensures Inv(ApplyServe(s, t, a))
  {
    hide Inv;
    var s' := ApplyServe(s, t, a);
    match a
    case BeginReceive(e, c) => KeepBeginReceive(s, s', t, e, c);
    case SeeReady => KeepWaiting(s, s', t, PcOf(s, t).chan);
    case Prepare => KeepWaiting(s, s', t, PcOf(s, t).chan);
    case Doze => KeepWaiting(s, s', t, PcOf(s, t).chan);
    case StopWaiting(_) => KeepWaiting(s, s', t, PcOf(s, t).chan);
    case ReceiveNone => KeepWaiting(s, s', t, PcOf(s, t).chan);
    case Receive => KeepReceive(s, s', t);
    case FreeReceived => KeepFreeReceived(s, s', t);
    case Pend => KeepPend(s, s', t);
    case FailReceive(err) => KeepFailReceive(s, s', t, err);
    case TakePending(e, rcvid) => KeepTakePending(s, s', t, e, rcvid);
    case Finish(status) => KeepFinish(s, s', t, status);
    case Wake => KeepWake(s, s', t);
  }

  lemma Keep(s: State, a: Step)
    requires Inv(s) && Enabled(s, a)
    ensures Inv(Apply(s, a))
  {
    hide Inv, EnabledEnv, EnabledSend, EnabledLeave, EnabledServe, ApplyEnv, ApplySend, ApplyLeave, ApplyServe;
    match a
    case Env(x) => KeepEnv(s, x);
    case Send(t, x) => KeepSend(s, t, x);
    case Leave(t, x) => KeepLeave(s, t, x);
    case Serve(t, x) => KeepServe(s, t, x);
  }

  lemma {:induction false} Reachable(states: seq<State>, steps: seq<Step>, i: nat)
    requires Run(states, steps) && i < |states|
    ensures Inv(states[i]) && states[i].limit == states[0].limit
  {
    hide Enabled, Apply, Inv;
    if i == 0 {
      StartOk(states[0].limit);
    } else {
      Reachable(states, steps, i - 1);
      Keep(states[i - 1], steps[i - 1]);
      SameLimit(states[i - 1], steps[i - 1]);
    }
  }

  lemma StartOk(limit: nat)
    ensures Inv(Start(limit))
  {
  }

  lemma SameLimit(s: State, a: Step)
    requires Enabled(s, a)
    ensures Apply(s, a).limit == s.limit
  {
    hide EnabledEnv, EnabledSend, EnabledLeave, EnabledServe, ApplyEnv, ApplySend, ApplyLeave, ApplyServe;
    match a
    case Env(x) => EnvLimit(s, x);
    case Send(t, x) => SendLimit(s, t, x);
    case Leave(t, x) => LeaveLimit(s, t, x);
    case Serve(t, x) => ServeLimit(s, t, x);
  }

  lemma EnvLimit(s: State, a: EnvStep)
    requires EnabledEnv(s, a)
    ensures ApplyEnv(s, a).limit == s.limit
  {
  }

  lemma SendLimit(s: State, t: nat, a: SendStep)
    requires EnabledSend(s, t, a)
    ensures ApplySend(s, t, a).limit == s.limit
  {
  }

  lemma LeaveLimit(s: State, t: nat, a: LeaveStep)
    requires EnabledLeave(s, t, a)
    ensures ApplyLeave(s, t, a).limit == s.limit
  {
  }

  lemma ServeLimit(s: State, t: nat, a: ServeStep)
    requires EnabledServe(s, t, a)
    ensures ApplyServe(s, t, a).limit == s.limit
  {
  }

  // ----- One place for every record, and the tag agrees -----

  predicate In(list: seq<Hook>, m: nat) {
    exists h :: h in list && h.rec == m
  }

  /** A place where somebody other than the sender can get hold of a record. */
  predicate Findable(p: Place) {
    p.InQueue? || p.OnPending? || p.InHands? || p.WithReplier?
  }

  /** The record can be found there; read off the lists and the threads. */
  predicate FoundAt(s: State, m: nat, p: Place) {
    match p
    case InQueue(c) => c in s.chans && In(s.chans[c].h.q.waiting, m)
    case OnPending(e) => e in s.procs && In(s.procs[e].pending, m)
    case InHands(t) => t in s.threads && s.threads[t].pc.Received? && s.threads[t].pc.rec == m
    case WithReplier(t) => t in s.threads && s.threads[t].pc.Replying? && s.threads[t].pc.rec == m
    case _ => false
  }

  lemma WhereFound(s: State, m: nat, p: Place)
    requires Inv(s) && m in s.recs
    ensures FoundAt(s, m, p) <==> s.recs[m].place == p && Findable(p)
  {
    hide Inv;
    match p
    case InQueue(c) => Instances(s, 0, m, c, 0);
    case OnPending(e) => Instances(s, 0, m, 0, e);
    case InHands(t) => Instances(s, t, m, 0, 0);
    case WithReplier(t) => Instances(s, t, m, 0, 0);
    case _ =>
  }

  /** The record is at one place at most, its tag agrees with the place, and as long as its
      sender is inside and nobody completed or withdrew it, it is somewhere. */
  ghost predicate PlacedOnce(s: State, m: nat)
    requires m in s.recs
  {
    var r := s.recs[m];
    && (forall p, q :: FoundAt(s, m, p) && FoundAt(s, m, q) ==> p == q)
    && (forall p :: FoundAt(s, m, p) ==> r.tag == if p.InQueue? then Initial else if p.InHands? then Receiving else Pending)
    && (r.takes == 0 && Inside(PcOf(s, r.hook.task), m) ==> exists p :: FoundAt(s, m, p))
  }

  lemma OnePlaceIn(s: State, m: nat)
    requires Inv(s) && m in s.recs
    ensures PlacedOnce(s, m)
  {
    hide Inv, FoundAt;
    var r := s.recs[m];
    forall p
      ensures FoundAt(s, m, p) <==> r.place == p && Findable(p)
    {
      WhereFound(s, m, p);
    }
    Instances(s, r.hook.task, m, 0, 0);
    assert r.takes == 0 && Inside(PcOf(s, r.hook.task), m) ==> FoundAt(s, m, r.place);
  }

  /** In every state of every run each record is at one place at most and no list links a record
      twice. */
  lemma OnePlace(states: seq<State>, steps: seq<Step>, i: nat)
    requires Run(states, steps) && i < |states|
    ensures forall m :: m in states[i].recs ==> PlacedOnce(states[i], m)
    ensures forall c :: c in states[i].chans ==> Distinct(states[i].chans[c].h.q.waiting)
    ensures forall e :: e in states[i].procs ==> Distinct(states[i].procs[e].pending)
  {
    var s := states[i];
    Reachable(states, steps, i);
    hide Inv, Run, PlacedOnce;
    forall m | m in s.recs
      ensures PlacedOnce(s, m)
    {
      OnePlaceIn(s, m);
    }
    forall c | c in s.chans
      ensures Distinct(s.chans[c].h.q.waiting)
    {
      Instances(s, 0, 0, c, 0);
    }
    forall e | e in s.procs
      ensures Distinct(s.procs[e].pending)
    {
      Instances(s, 0, 0, 0, e);
    }
  }
}

/** From the reply to the result: who set the status a sender returns, and through which
    connection its message went. */
module ProtocolReplies {
  import opened Errno
  import opened ChannelQueue
  import opened Connections
  import opened Protocol
  import opened ProtocolInv
  import opened ProtocolThreads
  import opened ProtocolTheorems
  import opened ProtocolExits

  // ----- Replies -----

  /** The step completes this record with this status: MsgReply or MsgError stores it, a copy of
      MsgReceive fails with it, or a teardown answers ESRCH. */
  ghost predicate Completes(s: State, a: Step, m: nat, status: int) {
    m in s.recs &&
    match a
    case Serve(t, Finish(x)) => PcOf(s, t) == Replying(m) && x == status
    case Serve(t, FailReceive(x)) => PcOf(s, t).Received? && PcOf(s, t).rec == m && x == status
    case Env(CleanPending(e)) => e in s.procs && s.procs[e].pending != [] && s.procs[e].pending[0].rec == m && status == ESRCH
    case Env(CleanQueued(c)) => c in s.chans && s.chans[c].h.q.waiting != [] && s.chans[c].h.q.waiting[0].rec == m
                                && s.recs[m].Normal() && status == ESRCH
    case _ => false
  }

  lemma EnvCompleting(s: State, a: EnvStep, m: nat)
    requires Inv(s) && EnabledEnv(s, a) && m in s.recs && !s.recs[m].place.Done?
    ensures m in ApplyEnv(s, a).recs
    ensures ApplyEnv(s, a).recs[m].place.Done? ==> Completes(s, Env(a), m, ApplyEnv(s, a).recs[m].status)
  {
    hide Inv;
  }

  lemma SendCompleting(s: State, t: nat, a: SendStep, m: nat)
    requires EnabledSend(s, t, a) && m in s.recs && !s.recs[m].place.Done?
    ensures m in ApplySend(s, t, a).recs && !ApplySend(s, t, a).recs[m].place.Done?
  {
  }

  lemma LeaveCompleting(s: State, t: nat, a: LeaveStep, m: nat)
    requires EnabledLeave(s, t, a) && m in s.recs && !s.recs[m].place.Done?
    ensures m in ApplyLeave(s, t, a).recs && !ApplyLeave(s, t, a).recs[m].place.Done?
  {
    hide IndexOf, RemoveAt, HWithdraw;
  }

  lemma ServeCompleting(s: State, t: nat, a: ServeStep, m: nat)
    requires EnabledServe(s, t, a) && m in s.recs && !s.recs[m].place.Done?
    ensures m in ApplyServe(s, t, a).recs
    ensures ApplyServe(s, t, a).recs[m].place.Done? ==> Completes(s, Serve(t, a), m, ApplyServe(s, t, a).recs[m].status)
  {
    hide IndexOf, RemoveAt, HTake;
  }

  /** Only a completing step makes a record done. */
  lemma Completing(s: State, a: Step, m: nat)
    requires Inv(s) && Enabled(s, a) && m in s.recs && !s.recs[m].place.Done?
    ensures m in Apply(s, a).recs
    ensures Apply(s, a).recs[m].place.Done? ==> Completes(s, a, m, Apply(s, a).recs[m].status)
  {
    hide Inv, Completes, EnabledEnv, EnabledSend, EnabledLeave, EnabledServe, ApplyEnv, ApplySend, ApplyLeave, ApplyServe;
    match a
    case Env(x) => EnvCompleting(s, x, m);
    case Send(t, x) => SendCompleting(s, t, x, m);
    case Leave(t, x) => LeaveCompleting(s, t, x, m);
    case Serve(t, x) => ServeCompleting(s, t, x, m);
  }

  lemma EnvCompleted(s: State, a: EnvStep, m: nat, status: int)
    requires Inv(s) && EnabledEnv(s, a) && Completes(s, Env(a), m, status)
    ensures !Settled(s.recs[m].place) && m in ApplyEnv(s, a).recs
    ensures ApplyEnv(s, a).recs[m].place.Done? && ApplyEnv(s, a).recs[m].status == status
  {
    hide Inv;
    match a
    case CleanPending(e) => FirstPending(s, e);
    case CleanQueued(c) => FirstQueued(s, c);
  }

  /** A completing step finds the record undone and makes it done with that status. */
  lemma Completed(s: State, a: Step, m: nat, status: int)
    requires Inv(s) && Enabled(s, a) && Completes(s, a, m, status)
    ensures !Settled(s.recs[m].place) && m in Apply(s, a).recs
    ensures Apply(s, a).recs[m].place.Done? && Apply(s, a).recs[m].status == status
  {
    hide Inv, EnabledEnv, ApplyEnv, EnabledServe, ApplyServe, Completes;
    IsEnvOrServe(s, a, m, status);
    match a
    case Env(x) => EnvCompleted(s, x, m, status);
    case Serve(t, x) => ServeCompleted(s, t, x, m, status);
  }

  lemma IsEnvOrServe(s: State, a: Step, m: nat, status: int)
    requires Completes(s, a, m, status)
    ensures a.Env? || a.Serve?
  {
  }

  lemma ServeCompleted(s: State, t: nat, a: ServeStep, m: nat, status: int)
    requires Inv(s) && EnabledServe(s, t, a) && Completes(s, Serve(t, a), m, status)
    ensures !Settled(s.recs[m].place) && m in ApplyServe(s, t, a).recs
    ensures ApplyServe(s, t, a).recs[m].place.Done? && ApplyServe(s, t, a).recs[m].status == status
  {
    hide Inv;
    Instances(s, t, m, 0, 0);
  }

  /** Whatever a record was completed with was given by exactly one step of the run. */
  lemma {:induction false} CompletedOnce(states: seq<State>, steps: seq<Step>, j: nat, m: nat)
    requires Run(states, steps) && j < |states| && m in states[j].recs && states[j].recs[m].place.Done?
    ensures exists i :: 0 <= i < j && Completes(states[i], steps[i], m, states[j].recs[m].status)
    ensures forall i, k, x, y |
              0 <= i < |steps| && 0 <= k < |steps| && Completes(states[i], steps[i], m, x) && Completes(states[k], steps[k], m, y) ::
              i == k && x == y
  {
    CompletedBefore(states, steps, j, m);
    hide Run, Completes;
    forall i, k, x, y | 0 <= i < |steps| && 0 <= k < |steps| && Completes(states[i], steps[i], m, x) && Completes(states[k], steps[k], m, y)
      ensures i == k && x == y
    {
      NoSecond(states, steps, i, k, m, x, y);
      NoSecond(states, steps, k, i, m, y, x);
      StatusOf(states, steps, i, m, x);
      StatusOf(states, steps, k, m, y);
    }
  }

  lemma StatusOf(states: seq<State>, steps: seq<Step>, i: nat, m: nat, x: int)
    requires Run(states, steps) && i < |steps| && Completes(states[i], steps[i], m, x)
    ensures m in states[i + 1].recs && states[i + 1].recs[m].place.Done? && states[i + 1].recs[m].status == x
    ensures m in states[i].recs && !Settled(states[i].recs[m].place)
  {
    Reachable(states, steps, i);
    hide Inv, Completes, Enabled, Apply;
    Completed(states[i], steps[i], m, x);
  }

  lemma NoSecond(states: seq<State>, steps: seq<Step>, i: nat, k: nat, m: nat, x: int, y: int)
    requires Run(states, steps) && i < |steps| && k < |steps|
    requires Completes(states[i], steps[i], m, x) && Completes(states[k], steps[k], m, y)
    ensures i >= k
  {
    hide Enabled, Apply, Completes;
    StatusOf(states, steps, i, m, x);
    StatusOf(states, steps, k, m, y);
    if i < k {
      RunRec(states, steps, i + 1, k, m);
    }
  }

  lemma {:induction false} CompletedBefore(states: seq<State>, steps: seq<Step>, j: nat, m: nat)
    requires Run(states, steps) && j < |states| && m in states[j].recs && states[j].recs[m].place.Done?
    ensures exists i :: 0 <= i < j && Completes(states[i], steps[i], m, states[j].recs[m].status)
  {
    hide Enabled, Apply, Inv, Completes;
    if j > 0 {
      Reachable(states, steps, j - 1);
      var s, a := states[j - 1], steps[j - 1];
      StepRec(s, a, m);
      if s.recs[m].place.Done? {
        CompletedBefore(states, steps, j - 1, m);
      } else {
        Completing(s, a, m);
      }
    }
  }

  /** A sender that was woken, or that found its record taken, returns what the completing step of
      its record gave, if it did not return before its record was completed. */
  lemma ResultIsReply(states: seq<State>, steps: seq<Step>, j: nat, m: nat)
    requires Run(states, steps) && j < |states| && m in states[j].recs
    requires forall k :: 0 <= k < j && Returns(states[k], steps[k], m) ==> Answered(states[k], steps[k])
    requires states[j].recs[m].exit.Exit? && (states[j].recs[m].exit.how.Woken? || states[j].recs[m].exit.how.Overtaken?)
    ensures exists i :: 0 <= i < j && Completes(states[i], steps[i], m, states[j].recs[m].exit.rc)
  {
    AnsweredRun(states, steps, j, m);
    hide Run, Completes, Answered;
    CompletedOnce(states, steps, j, m);
  }

  /** And a message that was answered is reported with that answer, unless its sender was
      interrupted and found no process under the receiver's pid; then the interruption is. */
  lemma ReplyIsReported(states: seq<State>, steps: seq<Step>, i: nat, j: nat, m: nat, status: int)
    requires Run(states, steps) && i < j < |states| && Completes(states[i], steps[i], m, status)
    requires forall k :: 0 <= k < j && Returns(states[k], steps[k], m) ==> Answered(states[k], steps[k])
    ensures m in states[j].recs
    ensures states[j].recs[m].exit.Exit? && !states[j].recs[m].exit.how.NoReceiver? ==> states[j].recs[m].exit.rc == status
    ensures states[j].recs[m].exit.Exit? && states[j].recs[m].exit.how.NoReceiver? ==> Interruption(states[j].recs[m].exit.rc)
  {
    AnsweredRun(states, steps, j, m);
    hide Run, Completes, Answered;
    StatusOf(states, steps, i, m, status);
    RunRec(states, steps, i + 1, j, m);
  }

  /** The step takes the record with this id off a pending list. */
  predicate Takes(a: Step, t: nat, rcvid: int) {
    a.Serve? && a.t == t && a.serve.TakePending? && a.serve.rcvid == rcvid
  }

  lemma SendersDoNotReply(s: State, t: nat, a: SendStep, b: LeaveStep)
    ensures EnabledSend(s, t, a) ==> !PcOf(ApplySend(s, t, a), t).Replying?
    ensures EnabledLeave(s, t, b) ==> !PcOf(ApplyLeave(s, t, b), t).Replying?
  {
    hide IndexOf, RemoveAt, HWithdraw, HAdd;
  }

  lemma RepliersTook(s: State, t: nat, a: ServeStep, m: nat)
    requires Inv(s) && EnabledServe(s, t, a) && PcOf(ApplyServe(s, t, a), t) == Replying(m)
    ensures m in s.recs && a.TakePending? && a.rcvid == s.recs[m].hook.rcvid
  {
    hide Inv, RemoveAt, HTake;
    var e := a.e;
    Instances(s, 0, 0, 0, e);
    assert s.procs[e].pending[IndexOf(s.procs[e].pending, a.rcvid)] in s.procs[e].pending;
  }

  lemma OwnPc(s: State, a: Step, t: nat, m: nat)
    requires Inv(s) && Enabled(s, a) && ByThread(a, t) && PcOf(Apply(s, a), t) == Replying(m)
    ensures m in s.recs && Takes(a, t, s.recs[m].hook.rcvid)
  {
    hide Inv, PcOf, EnabledSend, EnabledLeave, EnabledServe, ApplySend, ApplyLeave, ApplyServe;
    match a
    case Send(_, x) => SendersDoNotReply(s, t, x, LeaveWoken);
    case Leave(_, x) => SendersDoNotReply(s, t, Release, x);
    case Serve(_, x) => RepliersTook(s, t, x, m);
  }

  /** A thread that is about to store a reply has named the id of exactly this record, and done
      nothing else since. */
  lemma {:induction false} RepliedById(states: seq<State>, steps: seq<Step>, j: nat, t: nat, m: nat)
    requires Run(states, steps) && j < |states| && PcOf(states[j], t) == Replying(m)
    ensures m in states[j].recs
    ensures exists i :: 0 <= i < j && Takes(steps[i], t, states[j].recs[m].hook.rcvid) && forall k :: i < k < j ==> !ByThread(steps[k], t)
  {
    hide Enabled, Apply, Inv, Takes, ByThread;
    if j > 0 {
      var s, a := states[j - 1], steps[j - 1];
      Reachable(states, steps, j - 1);
      if ByThread(a, t) {
        OwnPc(s, a, t, m);
      } else {
        OtherPc(s, a, t);
        RepliedById(states, steps, j - 1, t, m);
      }
      StepRec(s, a, m);
    }
  }

  // ----- Connections -----

  predicate Rebinds(a: Step, e: nat, coid: nat) {
    a.Env? && ((a.env.Attach? && a.env.e == e && a.env.coid == coid) || (a.env.Detach? && a.env.e == e && a.env.coid == coid))
  }

  ghost predicate Bound(s: State, e: nat, coid: nat, conn: Connection) {
    e in s.procs && coid in s.procs[e].conns && s.procs[e].conns[coid] == conn
  }

  lemma EnvBinding(s: State, a: EnvStep, e: nat, coid: nat, conn: Connection)
    requires EnabledEnv(s, a)
    ensures Bound(ApplyEnv(s, a), e, coid, conn) <==>
            if Rebinds(Env(a), e, coid) then a == Attach(e, coid, conn) else Bound(s, e, coid, conn)
  {
  }

  lemma Rebinding(s: State, a: Step, e: nat, coid: nat, conn: Connection)
    requires Enabled(s, a)
    ensures Bound(Apply(s, a), e, coid, conn) <==>
            if Rebinds(a, e, coid) then a == Env(Attach(e, coid, conn)) else Bound(s, e, coid, conn)
  {
    hide EnabledEnv, ApplyEnv;
    if a.Env? {
      EnvBinding(s, a.env, e, coid, conn);
    } else {
      hide Enabled, Apply;
      ThreadOnly(s, a);
    }
  }

  /** Step `i` attached this connection, and nothing was attached or detached under its coid since. */
  ghost predicate AttachedAt(steps: seq<Step>, i: nat, j: nat, e: nat, coid: nat, conn: Connection)
    requires i < j <= |steps|
  {
    steps[i] == Env(Attach(e, coid, conn)) && forall k :: i < k < j ==> !Rebinds(steps[k], e, coid)
  }

  /** A coid leads to a connection exactly if this connection was attached last under it and not
      detached since. */
  lemma {:induction false} Attached(states: seq<State>, steps: seq<Step>, j: nat, e: nat, coid: nat, conn: Connection)
    requires Run(states, steps) && j < |states|
    ensures Bound(states[j], e, coid, conn) <==> exists i :: 0 <= i < j && AttachedAt(steps, i, j, e, coid, conn)
  {
    hide Enabled, Apply, Bound, Rebinds;
    if j == 0 {
      NothingBound(states[0].limit, e, coid, conn);
    } else {
      Rebinding(states[j - 1], steps[j - 1], e, coid, conn);
      Attached(states, steps, j - 1, e, coid, conn);
      if Rebinds(steps[j - 1], e, coid) {
        RebindsItself(steps[j - 1], e, coid, conn);
        assert steps[j - 1] == Env(Attach(e, coid, conn)) ==> AttachedAt(steps, j - 1, j, e, coid, conn);
      } else {
        var n := j - 1;
        if i :| 0 <= i < n && AttachedAt(steps, i, n, e, coid, conn) {
          assert AttachedAt(steps, i, j, e, coid, conn);
        }
        if i :| 0 <= i < j && AttachedAt(steps, i, j, e, coid, conn) {
          RebindsItself(steps[i], e, coid, conn);
          assert AttachedAt(steps, i, j - 1, e, coid, conn);
        }
      }
    }
  }

  lemma RebindsItself(a: Step, e: nat, coid: nat, conn: Connection)
    ensures a == Env(Attach(e, coid, conn)) ==> Rebinds(a, e, coid)
  {
  }

  lemma NothingBound(limit: nat, e: nat, coid: nat, conn: Connection)
    ensures !Bound(Start(limit), e, coid, conn)
  {
  }
}

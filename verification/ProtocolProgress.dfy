/** No handler gets stuck, and a sender that was interrupted is soon out. */
module ProtocolProgress {
  import opened Errno
  import opened ChannelQueue
  import opened Protocol
  import opened ProtocolInv
  import opened ProtocolThreads
  import opened ProtocolTheorems

  // ----- Every thread that does not sleep can move -----

  /** The thread gave up the processor and nobody has woken it; a sender that gave a timeout sleeps
      until it is interrupted. */
  predicate Sleeps(s: State, t: nat) {
    || (HasRec(s, t) && PcOf(s, t).Blocked? && (s.recs[PcOf(s, t).rec].timed || !s.threads[t].awake))
    || (t in s.threads && s.threads[t].pc.Dozing? && !s.threads[t].awake)
  }

  /** A step that a timeout, a signal or a failing copy decides on, not the thread. */
  predicate External(a: Step) {
    || (a.Leave? && a.leave.Interrupt?)
    || (a.Send? && a.send.GiveUp?)
    || (a.Serve? && (a.serve.StopWaiting? || a.serve.FailReceive?))
  }

  ghost predicate CanMove(s: State, t: nat) {
    exists a :: Enabled(s, a) && ByThread(a, t) && !External(a)
  }

  /** A sender in its busy loop, and the receiver it waits for can move. */
  ghost predicate WaitsForReceiver(s: State, t: nat) {
    && t in s.threads && s.threads[t].pc.Missed?
    && exists k :: k in s.threads && s.threads[k].pc.Received? && s.threads[k].pc.rec == s.threads[t].pc.rec && CanMove(s, k)
  }

  lemma Sends(s: State, t: nat, a: SendStep)
    requires EnabledSend(s, t, a) && !a.GiveUp?
    ensures CanMove(s, t)
  {
    assert Enabled(s, Send(t, a));
  }

  lemma Leaves(s: State, t: nat, a: LeaveStep)
    requires EnabledLeave(s, t, a) && !a.Interrupt?
    ensures CanMove(s, t)
  {
    assert Enabled(s, Leave(t, a));
  }

  lemma Serves(s: State, t: nat, a: ServeStep)
    requires EnabledServe(s, t, a) && !a.StopWaiting? && !a.FailReceive?
    ensures CanMove(s, t)
  {
    assert Enabled(s, Serve(t, a));
  }

  lemma NextSend(s: State, t: nat)
    requires Inv(s) && t in s.threads
    requires var pc := s.threads[t].pc; pc.Connecting? || pc.Finding? || pc.Ready? || pc.Armed?
    ensures CanMove(s, t)
  {
    hide Inv, CanMove;
    var pc := s.threads[t].pc;
    var m := pc.rec;
    Instances(s, t, m, HeldChan(pc), HeldEntry(pc));
    match pc
    case Connecting(_) =>
      if x :| Linked(s, x, s.recs[m].via.pid) {
        Sends(s, t, FindTarget(x));
      } else {
        Sends(s, t, NoTarget);
      }
    case Finding(_, x) => Sends(s, t, if s.recs[m].via.chid in s.procs[x].channels then FindChan else NoChan);
    case Ready(_, _) => Sends(s, t, if s.recs[m].Normal() then Arm else Enqueue);
    case Armed(_, _) => Sends(s, t, Enqueue);
  }

  lemma NextCall(s: State, t: nat)
    requires t in s.threads && (s.threads[t].pc.Calling? || s.threads[t].pc.Refused? || s.threads[t].pc.Sent?)
    ensures CanMove(s, t)
  {
    hide CanMove;
    Sends(s, t, Call);
  }

  lemma NextLeave(s: State, t: nat)
    requires Inv(s) && t in s.threads && !Sleeps(s, t)
    requires var pc := s.threads[t].pc; pc.Blocked? || pc.Interrupted? || pc.Missed? || pc.Taking?
    ensures s.threads[t].pc.rec in s.recs
    ensures CanMove(s, t) || (s.threads[t].pc.Missed? && s.recs[s.threads[t].pc.rec].tag.Receiving?)
  {
    hide Inv, CanMove, IndexOf;
    var pc := s.threads[t].pc;
    var m := pc.rec;
    Instances(s, t, m, HeldChan(pc), HeldEntry(pc));
    match pc
    case Blocked(_, _) => Leaves(s, t, LeaveWoken);
    case Interrupted(_, _, _) => Leaves(s, t, if Queued(s, t) then WithdrawQueued else MissQueued);
    case Missed(_, _, _) =>
      if s.recs[m].tag.Receiving? {
      } else if x :| Linked(s, x, s.recs[m].receiverPid) {
        Leaves(s, t, FindReceiver(x));
      } else {
        Leaves(s, t, LeaveNoReceiver);
      }
    case Taking(_, _, _, x) =>
      Leaves(s, t, if FoundPending(s, x, s.recs[m].hook.rcvid) then WithdrawPending else LeaveOvertaken);
  }

  lemma NextWait(s: State, t: nat)
    requires Inv(s) && t in s.threads && !Sleeps(s, t)
    requires var pc := s.threads[t].pc; pc.Arriving? || pc.Checking? || pc.Dozing? || pc.Dequeuing?
    ensures CanMove(s, t)
  {
    hide Inv, CanMove, Ok;
    var pc := s.threads[t].pc;
    var c := pc.chan;
    Instances(s, t, 0, c, 0);
    match pc
    case Arriving(_) => Serves(s, t, if Waiting(s, c) then SeeReady else Prepare);
    case Checking(_) => Serves(s, t, if Waiting(s, c) then SeeReady else Doze);
    case Dozing(_) => Serves(s, t, Prepare);
    case Dequeuing(_) =>
      if s.chans[c].h.q.waiting == [] {
        Serves(s, t, ReceiveNone);
      } else {
        assert s.chans[c].h.q.waiting[0] in s.chans[c].h.q.waiting;
        Serves(s, t, Receive);
      }
  }

  lemma NextServe(s: State, t: nat)
    requires Inv(s) && t in s.threads
    requires var pc := s.threads[t].pc; pc.Received? || pc.Replying? || pc.Waking? || pc.Releasing?
    ensures CanMove(s, t)
  {
    hide Inv, CanMove;
    var pc := s.threads[t].pc;
    Instances(s, t, RecOf(pc), HeldChan(pc), 0);
    match pc
    case Received(_, m) => Serves(s, t, if s.recs[m].Normal() then Pend else FreeReceived);
    case Replying(_) => Serves(s, t, Finish(0));
    case Waking(_, _) => Serves(s, t, Wake);
    case Releasing(_, _) => Sends(s, t, Release);
  }

  lemma NotStuckIn(s: State, t: nat)
    requires Inv(s) && t in s.threads && !s.threads[t].pc.Idle? && !Sleeps(s, t)
    ensures CanMove(s, t) || WaitsForReceiver(s, t)
  {
    hide Inv, CanMove;
    var pc := s.threads[t].pc;
    if pc.Connecting? || pc.Finding? || pc.Ready? || pc.Armed? {
      NextSend(s, t);
    } else if pc.Calling? || pc.Refused? || pc.Sent? {
      NextCall(s, t);
    } else if pc.Blocked? || pc.Interrupted? || pc.Missed? || pc.Taking? {
      NextLeave(s, t);
      if pc.Missed? && s.recs[pc.rec].tag.Receiving? {
        Instances(s, t, pc.rec, 0, 0);
        NextServe(s, s.recs[pc.rec].place.thread);
      }
    } else if pc.Arriving? || pc.Checking? || pc.Dozing? || pc.Dequeuing? {
      NextWait(s, t);
    } else {
      NextServe(s, t);
    }
  }

  /** No handler gets stuck. Every thread inside one that does not sleep has a step to take, without
      the help of a timeout or a signal, except a sender in its busy loop, and then the receiver it
      waits for has one. */
  lemma NotStuck(states: seq<State>, steps: seq<Step>, i: nat, t: nat)
    requires Run(states, steps) && i < |states| && t in states[i].threads && !states[i].threads[t].pc.Idle?
    requires !Sleeps(states[i], t)
    ensures CanMove(states[i], t) || WaitsForReceiver(states[i], t)
  {
    hide Inv, Run, CanMove, WaitsForReceiver;
    Reachable(states, steps, i);
    NotStuckIn(states[i], t);
  }

  /** And one that sleeps can be stopped: a sender by a signal, by its timeout exactly if it gave one, and
      by nothing else, a receiver by both. */
  lemma SleepersCanBeStopped(states: seq<State>, steps: seq<Step>, i: nat, t: nat)
    requires Run(states, steps) && i < |states| && Sleeps(states[i], t)
    ensures var s, pc := states[i], PcOf(states[i], t);
            if pc.Blocked? then
              forall rc :: Enabled(s, Leave(t, Interrupt(rc))) <==> rc == ERESTARTSYS || (rc == ETIMEDOUT && s.recs[pc.rec].timed)
            else
              forall signal :: Enabled(s, Serve(t, StopWaiting(signal)))
  {
    hide Inv, Run;
    Reachable(states, steps, i);
    Instances(states[i], t, RecOf(PcOf(states[i], t)), HeldChan(PcOf(states[i], t)), 0);
  }

  /** The sender of this record tries to add it to the queue. */
  ghost predicate Tries(s: State, a: Step, m: nat) {
    a.Send? && a.send.Enqueue? && RecOf(PcOf(s, a.t)) == m
  }

  predicate Named(s: State, m: nat) {
    m in s.recs && s.recs[m].receiverChid != 0
  }

  lemma EnvNames(s: State, a: EnvStep, m: nat)
    requires EnabledEnv(s, a)
    ensures Named(ApplyEnv(s, a), m) <==> Named(s, m)
  {
  }

  lemma SendNames(s: State, t: nat, a: SendStep, m: nat)
    requires EnabledSend(s, t, a) && (HeldChan(PcOf(s, t)) != 0 || !a.Enqueue?)
    ensures Named(ApplySend(s, t, a), m) <==> Named(s, m) || Tries(s, Send(t, a), m)
  {
    hide HAdd, Accepts;
  }

  lemma LeaveNames(s: State, t: nat, a: LeaveStep, m: nat)
    requires EnabledLeave(s, t, a)
    ensures Named(ApplyLeave(s, t, a), m) <==> Named(s, m)
  {
    hide IndexOf, RemoveAt, HWithdraw;
  }

  lemma ServeNames(s: State, t: nat, a: ServeStep, m: nat)
    requires EnabledServe(s, t, a)
    ensures Named(ApplyServe(s, t, a), m) <==> Named(s, m)
  {
    hide IndexOf, RemoveAt, HTake;
  }

  lemma StepNames(s: State, a: Step, m: nat)
    requires Inv(s) && Enabled(s, a)
    ensures Named(Apply(s, a), m) <==> Named(s, m) || Tries(s, a, m)
  {
    hide Inv, Named, EnabledEnv, EnabledSend, EnabledLeave, EnabledServe, ApplyEnv, ApplySend, ApplyLeave, ApplyServe;
    match a
    case Env(x) => EnvNames(s, x, m);
    case Send(t, x) =>
      if x.Enqueue? { TriesOnChannel(s, t); }
      SendNames(s, t, x, m);
    case Leave(t, x) => LeaveNames(s, t, x, m);
    case Serve(t, x) => ServeNames(s, t, x, m);
  }

  lemma TriesOnChannel(s: State, t: nat)
    requires Inv(s) && EnabledSend(s, t, Enqueue)
    ensures HeldChan(PcOf(s, t)) != 0
  {
    hide Inv;
    Instances(s, t, 0, 0, 0);
  }

  lemma {:induction false} NamedIffTried(states: seq<State>, steps: seq<Step>, i: nat, m: nat)
    requires Run(states, steps) && i < |states|
    ensures Named(states[i], m) <==> exists k :: 0 <= k < i && Tries(states[k], steps[k], m)
  {
    hide Inv, Enabled, Apply, Tries;
    if i > 0 {
      hide Named;
      NamedIffTried(states, steps, i - 1, m);
      Reachable(states, steps, i - 1);
      StepNames(states[i - 1], steps[i - 1], m);
    }
  }

  lemma MayGiveUp(s: State, t: nat)
    requires Inv(s) && PcOf(s, t).Ready?
    ensures var m := PcOf(s, t).rec;
            m in s.recs
            && (Enabled(s, Send(t, GiveUp)) <==> s.recs[m].hook.NoReply() && Named(s, m))
            && (Enabled(s, Send(t, GiveUp)) ==>
                  var s' := Apply(s, Send(t, GiveUp));
                  m in s'.recs && s.recs[m].frees == 0 && s'.recs[m].frees == 1 && PcOf(s', t) == Releasing(PcOf(s, t).chan, 0))
  {
    hide Inv;
    Instances(s, t, PcOf(s, t).rec, 0, 0);
  }

  /** A no-reply sender can be stopped by a signal between two tries, and not before the first one; then
      its record is freed. A sender of anything else cannot. */
  lemma NoReplyCanGiveUp(states: seq<State>, steps: seq<Step>, i: nat, t: nat)
    requires Run(states, steps) && i < |states| && PcOf(states[i], t).Ready?
    ensures var s, m := states[i], PcOf(states[i], t).rec;
            m in s.recs
            && (Enabled(s, Send(t, GiveUp)) <==> s.recs[m].hook.NoReply() && exists k :: 0 <= k < i && Tries(states[k], steps[k], m))
            && (Enabled(s, Send(t, GiveUp)) ==>
                  var s' := Apply(s, Send(t, GiveUp));
                  m in s'.recs && s.recs[m].frees == 0 && s'.recs[m].frees == 1 && PcOf(s', t) == Releasing(PcOf(s, t).chan, 0))
  {
    hide Inv, Run, Enabled, Apply, Named, Tries;
    Reachable(states, steps, i);
    NamedIffTried(states, steps, i, PcOf(states[i], t).rec);
    MayGiveUp(states[i], t);
  }

  /** Whatever step the receiver takes, it ends the busy loop of the sender. */
  lemma BusyLoopEnds(states: seq<State>, steps: seq<Step>, i: nat, t: nat, k: nat)
    requires Run(states, steps) && i < |steps| && t in states[i].threads && states[i].threads[t].pc.Missed?
    requires k in states[i].threads && states[i].threads[k].pc.Received? && states[i].threads[k].pc.rec == states[i].threads[t].pc.rec
    requires ByThread(steps[i], k)
    ensures var m := states[i].threads[t].pc.rec;
            m in states[i + 1].recs && !states[i + 1].recs[m].tag.Receiving?
  {
    var s, a := states[i], steps[i];
    assert Enabled(s, a) && states[i + 1] == Apply(s, a);
    Reachable(states, steps, i);
    hide Inv, Run;
    Instances(s, t, s.threads[t].pc.rec, 0, 0);
    ReceiverSteps(s, a, k);
  }

  lemma ReceiverSteps(s: State, a: Step, k: nat)
    requires Enabled(s, a) && ByThread(a, k) && PcOf(s, k).Received?
    requires PcOf(s, k).rec in s.recs && s.recs[PcOf(s, k).rec].Normal()
    ensures PcOf(s, k).rec in Apply(s, a).recs && !Apply(s, a).recs[PcOf(s, k).rec].tag.Receiving?
  {
    assert a.Serve? && (a.serve.Pend? || a.serve.FailReceive?);
  }

  // ----- And it comes to an end -----

  /** How many own steps a thread has left at most before it sleeps, tries again or is out. */
  function Rank(pc: Pc): nat {
    match pc
    case Idle => 0
    case Releasing(_, _) => 1
    case Sent(_) => 2
    case Waking(_, _) => 2
    case Taking(_, _, _, _) => 2
    case Received(_, _) => 3
    case Replying(_) => 3
    case Missed(_, _, _) => 3
    case Interrupted(_, _, _) => 4
    case Dequeuing(_) => 4
    case Blocked(_, _) => 5
    case Dozing(_) => 5
    case Calling(_, _) => 6
    case Checking(_) => 6
    case Armed(_, _) => 8
    case Arriving(_) => 7
    case Refused(_, _) => 7
    case Ready(_, _) => 9
    case Finding(_, _) => 10
    case Connecting(_) => 11
  }

  /** A thread enters a handler, a refused no-reply sender tries again, a woken receiver looks again,
      or a woken sender with a timeout sleeps on. */
  predicate StartsOver(pc: Pc, a: Step) {
    pc.Idle? || pc.Refused? || (pc.Dozing? && a.Serve? && a.serve.Prepare?) || (a.Leave? && a.leave.SleepOn?)
  }

  lemma SendDescends(s: State, t: nat, a: SendStep)
    requires EnabledSend(s, t, a) && !StartsOver(PcOf(s, t), Send(t, a))
    ensures Rank(PcOf(ApplySend(s, t, a), t)) < Rank(PcOf(s, t))
  {
    hide HAdd;
  }

  lemma LeaveDescends(s: State, t: nat, a: LeaveStep)
    requires EnabledLeave(s, t, a) && !StartsOver(PcOf(s, t), Leave(t, a))
    ensures Rank(PcOf(ApplyLeave(s, t, a), t)) < Rank(PcOf(s, t))
  {
    hide IndexOf, RemoveAt, HWithdraw;
  }

  lemma ServeDescends(s: State, t: nat, a: ServeStep)
    requires EnabledServe(s, t, a) && !StartsOver(PcOf(s, t), Serve(t, a))
    ensures Rank(PcOf(ApplyServe(s, t, a), t)) < Rank(PcOf(s, t))
  {
    hide IndexOf, RemoveAt, HTake;
  }

  lemma Descends(s: State, a: Step, t: nat)
    requires Enabled(s, a) && ByThread(a, t) && !StartsOver(PcOf(s, t), a)
    ensures Rank(PcOf(Apply(s, a), t)) < Rank(PcOf(s, t))
  {
    hide Rank, StartsOver, PcOf, EnabledSend, EnabledLeave, EnabledServe, ApplySend, ApplyLeave, ApplyServe;
    match a
    case Send(_, x) => SendDescends(s, t, x);
    case Leave(_, x) => LeaveDescends(s, t, x);
    case Serve(_, x) => ServeDescends(s, t, x);
  }

  /** How many of the steps from `i` to `j` are the thread's own. */
  function OwnSteps(steps: seq<Step>, i: nat, j: nat, t: nat): nat
    requires i <= j <= |steps|
    decreases j
  {
    if i == j then 0 else OwnSteps(steps, i, j - 1, t) + if ByThread(steps[j - 1], t) then 1 else 0
  }

  /** Whatever the others do meanwhile, a thread takes at most as many own steps as its rank says
      until it starts over: four for a sender from the moment it was interrupted, and for a receiver
      whose wait is over. */
  lemma {:induction false} EndsSoon(states: seq<State>, steps: seq<Step>, i: nat, j: nat, t: nat)
    requires Run(states, steps) && i <= j <= |steps|
    requires forall k :: i <= k < j && ByThread(steps[k], t) ==> !StartsOver(PcOf(states[k], t), steps[k])
    ensures OwnSteps(steps, i, j, t) + Rank(PcOf(states[j], t)) <= Rank(PcOf(states[i], t))
    decreases j
  {
    hide Enabled, Apply, Rank, StartsOver, PcOf;
    if i < j {
      EndsSoon(states, steps, i, j - 1, t);
      if ByThread(steps[j - 1], t) {
        Descends(states[j - 1], steps[j - 1], t);
      } else {
        OtherPc(states[j - 1], steps[j - 1], t);
      }
    }
  }
}

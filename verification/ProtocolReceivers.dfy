/** Receivers: when they sleep, who wakes them, and what the condition they wait for means. */
module ProtocolReceivers {
  import opened ChannelQueue
  import opened Protocol
  import opened ProtocolInv
  import opened ProtocolSteps
  import opened ProtocolTheorems
  import opened ProtocolThreads

  // ----- Every step but adding a message -----

  /** No queue counts more messages than before, no refusals are added, and no thread but `t` goes
      to sleep. */
  ghost predicate Calm(s: State, s': State, t: nat) {
    && (forall x :: x in s'.threads && x != t ==>
          (x in s.threads && (s.threads[x].awake ==> s'.threads[x].awake)) || s'.threads[x].pc.Idle?)
    && (forall c :: c in s'.chans ==>
          if c in s.chans then
            && s'.chans[c].h.q.numWaiting <= s.chans[c].h.q.numWaiting && s'.chans[c].h.rejected == s.chans[c].h.rejected
          else s'.chans[c].h == NEW)
    && (forall c :: c in s.chans ==> c in s'.chans)
  }

  lemma EnvCalm(s: State, a: EnvStep)
    requires EnabledEnv(s, a) && s.nextChid + 1 !in s.chans
    ensures Calm(s, ApplyEnv(s, a), 0)
  {
    EnvCalmThreads(s, a);
    EnvCalmChans(s, a);
    hide EnabledEnv, ApplyEnv;
  }

  lemma EnvCalmThreads(s: State, a: EnvStep)
    requires EnabledEnv(s, a)
    ensures forall x :: x in ApplyEnv(s, a).threads ==>
              (x in s.threads && (s.threads[x].awake ==> ApplyEnv(s, a).threads[x].awake)) || ApplyEnv(s, a).threads[x].pc.Idle?
  {
  }

  lemma EnvCalmChans(s: State, a: EnvStep)
    requires EnabledEnv(s, a) && s.nextChid + 1 !in s.chans
    ensures forall c :: c in ApplyEnv(s, a).chans ==>
              if c in s.chans then
                && ApplyEnv(s, a).chans[c].h.q.numWaiting == s.chans[c].h.q.numWaiting
                && ApplyEnv(s, a).chans[c].h.rejected == s.chans[c].h.rejected
              else ApplyEnv(s, a).chans[c].h == NEW
    ensures forall c :: c in s.chans ==> c in ApplyEnv(s, a).chans
  {
  }

  lemma SendCalm(s: State, t: nat, a: SendStep)
    requires EnabledSend(s, t, a) && !a.Enqueue?
    ensures Calm(s, ApplySend(s, t, a), t)
  {
  }

  lemma LeaveCalm(s: State, t: nat, a: LeaveStep)
    requires EnabledLeave(s, t, a)
    ensures Calm(s, ApplyLeave(s, t, a), t)
  {
    hide IndexOf, RemoveAt;
  }

  lemma ServeCalm(s: State, t: nat, a: ServeStep)
    requires EnabledServe(s, t, a)
    ensures Calm(s, ApplyServe(s, t, a), t)
  {
    hide IndexOf, RemoveAt;
  }

  function Actor(a: Step): nat {
    if a.Env? then 0 else a.t
  }

  predicate Enqueues(a: Step) {
    a.Send? && a.send.Enqueue?
  }

  lemma StepCalm(s: State, a: Step)
    requires Enabled(s, a) && !Enqueues(a) && s.nextChid + 1 !in s.chans
    ensures Calm(s, Apply(s, a), Actor(a))
  {
    hide EnabledEnv, EnabledSend, EnabledLeave, EnabledServe, ApplyEnv, ApplySend, ApplyLeave, ApplyServe, Calm;
    match a
    case Env(x) => EnvCalm(s, x);
    case Send(t, x) => SendCalm(s, t, x);
    case Leave(t, x) => LeaveCalm(s, t, x);
    case Serve(t, x) => ServeCalm(s, t, x);
  }

  /** Adding a message changes one queue, and its thread is about to wake the receivers there. */
  lemma EnqueueRings(s: State, t: nat)
    requires CanEnqueue(s, t)
    ensures var s', c := DoEnqueue(s, t), PcOf(s, t).chan;
      && s'.chans.Keys == s.chans.Keys && c in s.chans
      && (forall x :: x in s.chans && x != c ==> s'.chans[x] == s.chans[x])
      && s'.chans[c].h.rejected == s.chans[c].h.rejected + Bit(RefusedAt(s, Send(t, Enqueue), c))
      && (forall x :: x in s'.threads && x != t ==> x in s.threads && s'.threads[x] == s.threads[x])
      && Rings(PcOf(s', t), c)
  {
  }

  /** The step is an attempt to add a message to this channel, and it is refused. */
  predicate RefusedAt(s: State, a: Step, c: nat) {
    && Enqueues(a) && CanEnqueue(s, a.t) && PcOf(s, a.t).chan == c
    && !Accepts(s.chans[c].h.q, s.recs[PcOf(s, a.t).rec].hook, s.limit)
  }

  lemma FreshChid(s: State)
    requires Inv(s)
    ensures s.nextChid + 1 !in s.chans
  {
    assert s.nextChid + 1 in s.chans ==> ChanOk(s, s.nextChid + 1);
  }

  // ----- No receiver sleeps on a message -----

  /** The receiver sleeps although the condition it waits for holds. */
  predicate Oversleeps(s: State, x: nat, c: nat) {
    && x in s.threads && s.threads[x].pc == Dozing(c) && !s.threads[x].awake
    && c in s.chans && Waiting(s, c)
  }

  /** Whoever does is about to be woken. */
  ghost predicate Bells(s: State) {
    forall x, c :: Oversleeps(s, x, c) ==> exists k :: Rings(PcOf(s, k), c)
  }

  /** A thread that is about to wake a queue does nothing else first. */
  lemma RingerCalls(s: State, a: Step, c: nat)
    requires Enabled(s, a) && !a.Env? && Rings(PcOf(s, a.t), c)
    ensures a == Send(a.t, Call)
  {
  }

  lemma CallWakes(s: State, t: nat, x: nat, c: nat)
    requires CanCall(s, t) && Rings(PcOf(s, t), c) && x in s.threads && s.threads[x].pc == Dozing(c)
    ensures x in DoCall(s, t).threads && DoCall(s, t).threads[x].awake
  {
  }

  lemma SendersDoNotDoze(s: State, t: nat, a: SendStep, b: LeaveStep)
    ensures EnabledSend(s, t, a) ==> !PcOf(ApplySend(s, t, a), t).Dozing?
    ensures EnabledLeave(s, t, b) ==> !PcOf(ApplyLeave(s, t, b), t).Dozing?
  {
    hide IndexOf, RemoveAt, HWithdraw, HAdd;
  }

  lemma ReceiversDoze(s: State, t: nat, a: ServeStep, c: nat)
    requires EnabledServe(s, t, a) && PcOf(ApplyServe(s, t, a), t) == Dozing(c)
    ensures c in ApplyServe(s, t, a).chans ==> !Waiting(ApplyServe(s, t, a), c)
  {
    hide IndexOf, RemoveAt, HTake;
  }

  /** A thread falls asleep only when it finds no message. */
  lemma DozesOnNothing(s: State, a: Step, c: nat)
    requires Enabled(s, a) && !a.Env? && PcOf(Apply(s, a), a.t) == Dozing(c)
    ensures c in Apply(s, a).chans ==> !Waiting(Apply(s, a), c)
  {
    hide PcOf, EnabledSend, EnabledLeave, EnabledServe, ApplySend, ApplyLeave, ApplyServe, Waiting;
    match a
    case Send(t, x) => SendersDoNotDoze(s, t, x, LeaveWoken);
    case Leave(t, x) => SendersDoNotDoze(s, t, Release, x);
    case Serve(t, x) => ReceiversDoze(s, t, x, c);
  }

  /** Whoever oversleeps after a step that adds no message did so before. */
  lemma SleptBefore(s: State, a: Step, x: nat, c: nat)
    requires Inv(s) && Enabled(s, a) && !Enqueues(a) && Oversleeps(Apply(s, a), x, c)
    ensures Oversleeps(s, x, c) && !ByThread(a, x)
  {
    hide Enabled, Apply, Inv;
    FreshChid(s);
    StepCalm(s, a);
    NoNull(s);
    if ByThread(a, x) {
      DozesOnNothing(s, a, c);
    } else {
      OtherPc(s, a, x);
    }
  }

  lemma StillRings(s: State, a: Step, x: nat, c: nat, k: nat)
    requires Enabled(s, a) && Oversleeps(s, x, c) && Oversleeps(Apply(s, a), x, c) && Rings(PcOf(s, k), c)
    ensures Rings(PcOf(Apply(s, a), k), c)
  {
    hide Enabled, Apply, Rings;
    if ByThread(a, k) {
      RingerCalls(s, a, c);
      CallStep(s, k);
      CallWakes(s, k, x, c);
    } else {
      OtherPc(s, a, k);
    }
  }

  lemma CallStep(s: State, t: nat)
    requires Enabled(s, Send(t, Call))
    ensures CanCall(s, t) && Apply(s, Send(t, Call)) == DoCall(s, t)
  {
  }

  lemma EnqueueBells(s: State, t: nat)
    requires CanEnqueue(s, t) && Bells(s)
    ensures Bells(DoEnqueue(s, t))
  {
    var s', c0 := DoEnqueue(s, t), PcOf(s, t).chan;
    EnqueueRings(s, t);
    EnqueuerIsAwake(s, t);
    hide DoEnqueue, CanEnqueue, Rings;
    forall x, c | Oversleeps(s', x, c)
      ensures exists k :: Rings(PcOf(s', k), c)
    {
      if c == c0 {
        assert Rings(PcOf(s', t), c);
      } else {
        assert Oversleeps(s, x, c);
        var k :| Rings(PcOf(s, k), c);
        assert Rings(PcOf(s', k), c);
      }
    }
  }

  lemma EnqueuerIsAwake(s: State, t: nat)
    requires CanEnqueue(s, t)
    ensures forall c :: !Rings(PcOf(s, t), c) && PcOf(DoEnqueue(s, t), t) != Dozing(c)
  {
  }

  lemma KeepBells(s: State, a: Step)
    requires Inv(s) && Enabled(s, a) && Bells(s)
    ensures Bells(Apply(s, a))
  {
    if Enqueues(a) {
      EnqueueBells(s, a.t);
    } else {
      hide Enabled, Apply, Inv, Oversleeps, Rings;
      var s' := Apply(s, a);
      forall x, c | Oversleeps(s', x, c)
        ensures exists k :: Rings(PcOf(s', k), c)
      {
        SleptBefore(s, a, x, c);
        var k :| Rings(PcOf(s, k), c);
        StillRings(s, a, x, c, k);
      }
    }
  }

  lemma {:induction false} BellsRing(states: seq<State>, steps: seq<Step>, i: nat)
    requires Run(states, steps) && i < |states|
    ensures Bells(states[i])
  {
    hide Enabled, Apply, Inv, Bells;
    if i == 0 {
      NobodySleeps(states[0].limit);
    } else {
      BellsRing(states, steps, i - 1);
      Reachable(states, steps, i - 1);
      KeepBells(states[i - 1], steps[i - 1]);
    }
  }

  lemma NobodySleeps(limit: nat)
    ensures Bells(Start(limit))
  {
  }

  /** No receiver sleeps on a message: whenever one is asleep on a channel that has a message queued,
      or whose counter says so, some thread has waking this wait queue as its only next step. */
  lemma NoSleepingReceiver(states: seq<State>, steps: seq<Step>, i: nat, t: nat)
    requires Run(states, steps) && i < |states| && t in states[i].threads
    requires states[i].threads[t].pc.Dozing? && !states[i].threads[t].awake
    ensures states[i].threads[t].pc.chan in states[i].chans
    ensures var c := states[i].threads[t].pc.chan;
            states[i].chans[c].h.q.waiting != [] || Waiting(states[i], c) ==>
              exists k :: CanCall(states[i], k) && Rings(PcOf(states[i], k), c)
  {
    hide Inv, Run, Rings, CanCall, Bells;
    Reachable(states, steps, i);
    BellsRing(states, steps, i);
    SleeperIsCalled(states[i], t);
  }

  lemma SleepersChannel(s: State, t: nat, c: nat)
    requires Inv(s) && t in s.threads && s.threads[t].pc == Dozing(c)
    ensures c in s.chans && (s.chans[c].h.q.waiting != [] ==> Waiting(s, c))
  {
    hide Inv;
    Instances(s, t, 0, c, 0);
    Alive(s, t, c);
    WaitCondition(s.chans[c].h, s.limit);
  }

  lemma RingerCanCall(s: State, k: nat, c: nat)
    requires Rings(PcOf(s, k), c)
    ensures CanCall(s, k)
  {
  }

  lemma SleeperIsCalled(s: State, t: nat)
    requires Inv(s) && Bells(s) && t in s.threads && s.threads[t].pc.Dozing? && !s.threads[t].awake
    ensures s.threads[t].pc.chan in s.chans
    ensures var c := s.threads[t].pc.chan;
            s.chans[c].h.q.waiting != [] || Waiting(s, c) ==> exists k :: CanCall(s, k) && Rings(PcOf(s, k), c)
  {
    var c := s.threads[t].pc.chan;
    hide Inv, Rings, CanCall, PcOf;
    SleepersChannel(s, t, c);
    if s.chans[c].h.q.waiting != [] || Waiting(s, c) {
      assert Oversleeps(s, t, c);
      var k :| Rings(PcOf(s, k), c);
      RingerCanCall(s, k, c);
    }
  }

  // ----- When a receiver leaves without a message -----

  predicate Receiving(pc: Pc) {
    pc.Arriving? || pc.Checking? || pc.Dozing? || pc.Dequeuing?
  }

  lemma LeavesWhenEmpty(s: State, a: Step, t: nat)
    requires Enabled(s, a) && ByThread(a, t) && Receiving(PcOf(s, t)) && !Receiving(PcOf(Apply(s, a), t))
    ensures HasChan(s, t)
    ensures var waiting := s.chans[PcOf(s, t).chan].h.q.waiting;
            || a == Serve(t, StopWaiting(true))
            || (a == Serve(t, ReceiveNone) && waiting == [])
            || (waiting != [] && PcOf(Apply(s, a), t) == Received(PcOf(s, t).chan, waiting[0].rec))
  {
    hide HTake;
  }

  /** A receiver gets the first message of the queue, or it was stopped by a signal, or it found the
      queue empty: also when its time is over it looks once more. */
  lemma LeavesOnlyIfEmpty(states: seq<State>, steps: seq<Step>, i: nat, t: nat)
    requires Run(states, steps) && i < |steps| && ByThread(steps[i], t)
    requires Receiving(PcOf(states[i], t)) && !Receiving(PcOf(states[i + 1], t))
    ensures HasChan(states[i], t)
    ensures var waiting := states[i].chans[PcOf(states[i], t).chan].h.q.waiting;
            || steps[i] == Serve(t, StopWaiting(true))
            || (steps[i] == Serve(t, ReceiveNone) && waiting == [])
            || (waiting != [] && PcOf(states[i + 1], t) == Received(PcOf(states[i], t).chan, waiting[0].rec))
  {
    assert Enabled(states[i], steps[i]) && states[i + 1] == Apply(states[i], steps[i]);
    hide Run, Enabled, Apply;
    LeavesWhenEmpty(states[i], steps[i], t);
  }

  // ----- What the condition means -----

  lemma EnqueueStep(s: State, a: Step)
    requires Enabled(s, a) && Enqueues(a)
    ensures CanEnqueue(s, a.t) && Apply(s, a) == DoEnqueue(s, a.t)
  {
  }

  lemma RefusalsStep(s: State, a: Step, c: nat)
    requires Inv(s) && Enabled(s, a) && c in Apply(s, a).chans
    ensures Apply(s, a).chans[c].h.rejected == (if c in s.chans then s.chans[c].h.rejected else 0) + Bit(RefusedAt(s, a, c))
  {
    hide Enabled, Apply, Inv, DoEnqueue;
    if Enqueues(a) {
      EnqueueStep(s, a);
      EnqueueRings(s, a.t);
    } else {
      FreshChid(s);
      StepCalm(s, a);
    }
  }

  lemma {:induction false} RefusalsCounted(states: seq<State>, steps: seq<Step>, i: nat, c: nat)
    requires Run(states, steps) && i < |states| && c in states[i].chans
    ensures states[i].chans[c].h.rejected > 0 <==> exists k :: 0 <= k < i && RefusedAt(states[k], steps[k], c)
  {
    hide Enabled, Apply, Inv, RefusedAt;
    if i > 0 {
      var s, a := states[i - 1], steps[i - 1];
      Reachable(states, steps, i - 1);
      RefusalsStep(s, a, c);
      if c in s.chans {
        RefusalsCounted(states, steps, i - 1, c);
      } else {
        NotRefused(states, steps, i, c);
      }
    }
  }

  /** Nothing is refused on a channel that does not exist yet. */
  lemma {:induction false} NotRefused(states: seq<State>, steps: seq<Step>, i: nat, c: nat)
    requires Run(states, steps) && 0 < i < |states| && c !in states[i - 1].chans
    ensures forall k :: 0 <= k < i ==> !RefusedAt(states[k], steps[k], c)
  {
    hide Enabled, Apply, Inv;
    if i > 1 {
      Reachable(states, steps, i - 2);
      if c in states[i - 2].chans {
        StaysCreated(states[i - 2], steps[i - 2], c);
      }
      NotRefused(states, steps, i - 1, c);
    }
  }

  lemma StaysCreated(s: State, a: Step, c: nat)
    requires Inv(s) && Enabled(s, a) && c in s.chans
    ensures c in Apply(s, a).chans
  {
    FreshChid(s);
    hide Enabled, Apply, Inv;
    StepOwners(s, a);
  }

  /** The condition receivers and pollers wait for never misses a queued message; on an empty queue
      it is exact if and only if no attempt to add a message to the channel was ever refused. */
  lemma WaitIsExact(states: seq<State>, steps: seq<Step>, i: nat, c: nat)
    requires Run(states, steps) && i < |states| && c in states[i].chans && !states[i].chans[c].closing
    ensures states[i].chans[c].h.q.waiting != [] ==> Waiting(states[i], c)
    ensures states[i].chans[c].h.q.waiting == [] ==>
              (Waiting(states[i], c) <==> exists k :: 0 <= k < i && RefusedAt(states[k], steps[k], c))
  {
    RefusalsCounted(states, steps, i, c);
    hide Inv, Run, RefusedAt;
    Reachable(states, steps, i);
    Instances(states[i], 0, 0, c, 0);
  }
}

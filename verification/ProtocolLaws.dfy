/** Completion, routing, wake-ups, lifetimes, queues and progress, in every run. */
module ProtocolLaws {
  import opened ChannelQueue
  import opened Connections
  import opened Protocol
  import opened ProtocolInv
  import opened ProtocolThreads
  import opened ProtocolSteps
  import opened ProtocolTeardown
  import opened ProtocolTheorems
  import opened ProtocolExits

  // ----- At most one completion -----

  /** Of all the steps of a run at most one completes or withdraws a record, and at most one
      frees it. */
  lemma TakenOnce(states: seq<State>, steps: seq<Step>, i: nat, j: nat, m: nat)
    requires Run(states, steps) && i < j < |steps| && m in states[i].recs
    ensures m in states[i + 1].recs && m in states[j].recs && m in states[j + 1].recs
    ensures states[i + 1].recs[m].takes > states[i].recs[m].takes ==> states[j + 1].recs[m].takes == states[j].recs[m].takes
    ensures states[i + 1].recs[m].frees > states[i].recs[m].frees ==> states[j + 1].recs[m].frees == states[j].recs[m].frees
  {
    RunRec(states, steps, i, i + 1, m);
    RunRec(states, steps, i + 1, j, m);
    RunRec(states, steps, j, j + 1, m);
    Reachable(states, steps, j + 1);
    hide Inv, Run;
    Instances(states[j + 1], 0, m, 0, 0);
  }

  /** MsgReply, MsgError and the interrupted sender find a receive id on a pending list exactly
      when a normal message with that id is pending there. */
  lemma PendingById(s: State, e: nat, rcvid: int)
    requires Inv(s) && e in s.procs
    ensures FoundPending(s, e, rcvid) <==>
            exists m :: m in s.recs && s.recs[m].hook.rcvid == rcvid && s.recs[m].place == OnPending(e) && s.recs[m].Normal()
  {
    hide Inv;
    Instances(s, 0, 0, 0, e);
    var list := s.procs[e].pending;
    if FoundPending(s, e, rcvid) {
      var h := list[IndexOf(list, rcvid)];
      assert h in list;
      Instances(s, 0, h.rec, 0, 0);
    } else {
      forall m | m in s.recs && s.recs[m].place == OnPending(e)
        ensures s.recs[m].hook.rcvid != rcvid
      {
        Instances(s, 0, m, 0, 0);
        assert s.recs[m].hook in list;
      }
    }
  }

  /** An idle thread that may enter a handler of a process can reply to an id exactly when a normal
      message with that id is pending with this process. */
  lemma ReplyAccepted(states: seq<State>, steps: seq<Step>, i: nat, t: nat, e: nat, rcvid: int)
    requires Run(states, steps) && i < |states| && MayEnter(states[i], t, e)
    ensures Enabled(states[i], Serve(t, TakePending(e, rcvid))) <==>
            exists m :: m in states[i].recs && states[i].recs[m].hook.rcvid == rcvid && states[i].recs[m].place == OnPending(e)
                        && states[i].recs[m].Normal()
  {
    hide Inv, Run;
    Reachable(states, steps, i);
    PendingById(states[i], e, rcvid);
    Instances(states[i], 0, 0, 0, e);
    var list := states[i].procs[e].pending;
    if IndexOf(list, rcvid) < |list| {
      assert list[IndexOf(list, rcvid)] in list;
    }
  }

  /** Once a message was completed or withdrawn, or if it is a pulse or a no-reply message,
      every later reply to its id is refused with ESRCH, by every process. */
  lemma LateReply(states: seq<State>, steps: seq<Step>, i: nat, j: nat, m: nat, e: nat)
    requires Run(states, steps) && i <= j < |states| && m in states[i].recs && e in states[j].procs
    requires states[i].recs[m].takes > 0 || !states[i].recs[m].Normal()
    ensures !FoundPending(states[j], e, states[i].recs[m].hook.rcvid)
  {
    var s, rcvid := states[j], states[i].recs[m].hook.rcvid;
    RunRec(states, steps, i, j, m);
    hide Inv, Run;
    Reachable(states, steps, j);
    Instances(s, 0, m, 0, 0);
    OneRcvid(s);
    PendingById(s, e, rcvid);
    forall n | n in s.recs && s.recs[n].hook.rcvid == rcvid && s.recs[n].Normal()
      ensures n == m
    {
      Instances(s, 0, n, 0, 0);
    }
  }

  /** The record a reply to this id takes, and the only thread that waits for it. */
  ghost predicate Routes(s: State, e: nat, rcvid: int, m: nat)
    requires e in s.procs
  {
    && m in s.recs && s.recs[m].hook.rcvid == rcvid && s.recs[m].Normal() && s.recs[m].takes == 0
    && s.recs[m].via.pid == s.procs[e].pid
    && (forall t, n :: t in s.threads && n in s.recs && Inside(s.threads[t].pc, n) && s.recs[n].hook.rcvid == rcvid ==>
          n == m && t == s.recs[m].hook.task)
  }

  lemma RoutesIn(s: State, e: nat, h: Hook)
    requires Inv(s) && e in s.procs && h in s.procs[e].pending
    ensures Routes(s, e, h.rcvid, h.rec)
  {
    hide Inv;
    Instances(s, 0, 0, 0, e);
    Instances(s, 0, h.rec, 0, 0);
    OneRcvid(s);
    forall t, n | t in s.threads && n in s.recs && Inside(s.threads[t].pc, n) && s.recs[n].hook.rcvid == h.rcvid
      ensures n == h.rec && t == h.task
    {
      Instances(s, t, n, 0, 0);
    }
  }

  /** A reply reaches only the sender that holds the rcvid, and that sender sent its message to
      the replying process. */
  lemma ReplyRouting(states: seq<State>, steps: seq<Step>, i: nat, e: nat, rcvid: int)
    requires Run(states, steps) && i < |states| && e in states[i].procs && FoundPending(states[i], e, rcvid)
    ensures var list := states[i].procs[e].pending;
            Routes(states[i], e, rcvid, list[IndexOf(list, rcvid)].rec)
  {
    hide Inv, Run, Routes;
    Reachable(states, steps, i);
    var list := states[i].procs[e].pending;
    assert list[IndexOf(list, rcvid)] in list;
    RoutesIn(states[i], e, list[IndexOf(list, rcvid)]);
  }

  // ----- No lost wake-up -----

  /** The next step of this thread is to wake the sender of this record. */
  predicate AboutToWake(s: State, k: nat, m: nat) {
    CanWake(s, k) && s.threads[k].pc.done == m
  }

  lemma WakerIn(s: State, m: nat) returns (k: nat)
    requires Inv(s) && m in s.recs && Asleep(s, s.recs[m].hook.task, m) && s.recs[m].Completed() && !s.recs[m].timed
    ensures AboutToWake(s, k, m)
  {
    hide Inv;
    Instances(s, s.recs[m].hook.task, m, 0, 0);
    k := s.recs[m].place.setter;
    Instances(s, k, m, 0, 0);
  }

  /** A sender without timeout asleep with a completed record is about to be woken: the thread that
      completed it has the wake-up of exactly this sender as its next step. */
  lemma NoLostWakeup(states: seq<State>, steps: seq<Step>, i: nat, m: nat)
    requires Run(states, steps) && i < |states| && m in states[i].recs && !states[i].recs[m].timed
    requires Asleep(states[i], states[i].recs[m].hook.task, m) && states[i].recs[m].Completed()
    ensures exists k :: AboutToWake(states[i], k, m)
  {
    hide Inv, Run, AboutToWake;
    Reachable(states, steps, i);
    var k := WakerIn(states[i], m);
  }

  /** This thread sleeps on a completed record, and its wake-up, if it was to have one, has been given. */
  ghost predicate WakeupSpent(s: State, t: nat, m: nat) {
    && t in s.threads && m in s.recs && PcOf(s, t).Blocked? && PcOf(s, t).rec == m && s.recs[m].Completed()
    && forall k :: !AboutToWake(s, k, m)
  }

  lemma SpentOn(s: State, t: nat, m: nat)
    requires Inv(s) && WakeupSpent(s, t, m)
    ensures CanLeaveWoken(s, t) <==> !s.recs[m].timed
  {
    hide Inv, AboutToWake;
    Instances(s, t, m, 0, 0);
    if !s.recs[m].timed && !s.threads[t].awake {
      var k := WakerIn(s, m);
    }
  }

  /** A blocked sender with a timeout, woken or not, can only sleep on or be interrupted. */
  lemma TimedMoves(s: State, a: Step, t: nat, m: nat)
    requires Enabled(s, a) && ByThread(a, t) && PcOf(s, t).Blocked? && PcOf(s, t).rec == m && m in s.recs && s.recs[m].timed
    ensures a == Leave(t, SleepOn) || (a.Leave? && a.leave.Interrupt?)
  {
  }

  /** A completion ends the wait of its sender if and only if the message was sent without timeout:
      with a timeout the sender sleeps on until the time is over or a signal comes. */
  lemma ReplyEndsWait(states: seq<State>, steps: seq<Step>, i: nat, t: nat, m: nat)
    requires Run(states, steps) && i < |states| && WakeupSpent(states[i], t, m)
    ensures CanLeaveWoken(states[i], t) <==> !states[i].recs[m].timed
    ensures states[i].recs[m].timed ==>
              forall a :: Enabled(states[i], a) && ByThread(a, t) ==> a == Leave(t, SleepOn) || (a.Leave? && a.leave.Interrupt?)
  {
    hide Inv, Run, Enabled, AboutToWake, CanLeaveWoken;
    Reachable(states, steps, i);
    SpentOn(states[i], t, m);
    if states[i].recs[m].timed {
      forall a | Enabled(states[i], a) && ByThread(a, t)
        ensures a == Leave(t, SleepOn) || (a.Leave? && a.leave.Interrupt?)
      {
        TimedMoves(states[i], a, t, m);
      }
    }
  }

  /** The sender did not return because it was woken. */
  predicate NotWoken(r: Rec) {
    r.exit.Exit? ==> !r.exit.how.Woken?
  }

  lemma TimedReturn(s: State, t: nat, a: LeaveStep, m: nat)
    requires EnabledLeave(s, t, a) && RecOf(PcOf(s, t)) == m && m in s.recs && s.recs[m].timed && NotWoken(s.recs[m])
    ensures m in ApplyLeave(s, t, a).recs && NotWoken(ApplyLeave(s, t, a).recs[m])
  {
    hide IndexOf, RemoveAt, HWithdraw;
  }

  lemma TimedStep(s: State, a: Step, m: nat)
    requires Inv(s) && Enabled(s, a) && (m in s.recs && s.recs[m].timed ==> NotWoken(s.recs[m]))
    ensures m in Apply(s, a).recs && Apply(s, a).recs[m].timed ==> NotWoken(Apply(s, a).recs[m])
  {
    hide Inv, EnabledLeave, ApplyLeave, Apply, Enabled;
    StepRec(s, a, m);
    if m in s.recs && s.recs[m].timed && Apply(s, a).recs[m].exit != s.recs[m].exit {
      TimedLeave(s, a, m);
    }
  }

  lemma TimedLeave(s: State, a: Step, m: nat)
    requires Enabled(s, a) && Returns(s, a, m) && m in s.recs && s.recs[m].timed && NotWoken(s.recs[m])
    ensures m in Apply(s, a).recs && NotWoken(Apply(s, a).recs[m])
  {
    hide EnabledLeave, ApplyLeave, NotWoken;
    TimedReturn(s, a.t, a.leave, m);
  }

  /** A message sent with a timeout never returns because of its reply: its sender withdraws it, or
      finds out, interrupted, what became of it. */
  lemma {:induction false} TimedNeverWoken(states: seq<State>, steps: seq<Step>, i: nat, m: nat)
    requires Run(states, steps) && i < |states|
    ensures m in states[i].recs && states[i].recs[m].timed && states[i].recs[m].exit.Exit? ==> !states[i].recs[m].exit.how.Woken?
  {
    hide Inv, Enabled, Apply;
    if i > 0 {
      TimedNeverWoken(states, steps, i - 1, m);
      Reachable(states, steps, i - 1);
      TimedStep(states[i - 1], steps[i - 1], m);
    }
  }

  // ----- Lifetimes -----

  /** The counts cover the list entry and every handler between find and release, so a channel
      that can still be reached is not freed, and a process entry neither. */
  lemma Lifetimes(states: seq<State>, steps: seq<Step>, i: nat)
    requires Run(states, steps) && i < |states|
    ensures var s := states[i];
            && (forall c :: c in s.chans ==>
                  && s.chans[c].refs >= Bit(Listed(s, c)) + |ChanHolders(s.threads, c)|
                  && (s.chans[c].freed ==> !Listed(s, c) && ChanHolders(s.threads, c) == {}))
            && (forall e :: e in s.procs ==>
                  && s.procs[e].refs >= Bit(s.procs[e].fd.Open?) + s.procs[e].polls + |EntryHolders(s.threads, e)|
                  && (s.procs[e].dead ==> !s.procs[e].fd.Open? && EntryHolders(s.threads, e) == {}))
  {
    var s := states[i];
    hide Inv, Run;
    Reachable(states, steps, i);
    forall c | c in s.chans
      ensures s.chans[c].refs >= Bit(Listed(s, c)) + |ChanHolders(s.threads, c)|
      ensures s.chans[c].freed ==> !Listed(s, c) && ChanHolders(s.threads, c) == {}
    {
      Instances(s, 0, 0, c, 0);
    }
    forall e | e in s.procs
      ensures s.procs[e].refs >= Bit(s.procs[e].fd.Open?) + s.procs[e].polls + |EntryHolders(s.threads, e)|
      ensures s.procs[e].dead ==> !s.procs[e].fd.Open? && EntryHolders(s.threads, e) == {}
    {
      Instances(s, 0, 0, 0, e);
    }
  }

  /** A channel is never torn down with the message of a blocked sender in its queue: once its
      count is zero, no sender that is still inside has its record there. */
  lemma NoBlockedSenderTornDown(states: seq<State>, steps: seq<Step>, i: nat, c: nat, t: nat)
    requires Run(states, steps) && i < |states| && c in states[i].chans && states[i].chans[c].refs == 0
    requires t in states[i].threads && Inside(states[i].threads[t].pc, RecOf(states[i].threads[t].pc))
    ensures !In(states[i].chans[c].h.q.waiting, RecOf(states[i].threads[t].pc))
  {
    hide Inv, Run;
    Reachable(states, steps, i);
    NotTornDown(states[i], c, t);
  }

  lemma NotTornDown(s: State, c: nat, t: nat)
    requires Inv(s) && c in s.chans && s.chans[c].refs == 0 && t in s.threads && Inside(s.threads[t].pc, RecOf(s.threads[t].pc))
    ensures !In(s.chans[c].h.q.waiting, RecOf(s.threads[t].pc))
  {
    hide Inv, Ok;
    var m := RecOf(s.threads[t].pc);
    Instances(s, t, m, c, 0);
    if In(s.chans[c].h.q.waiting, m) {
      NobodyBlocked(s, c, m);
    }
  }

  /** An interrupted sender whose record is not in the queue finds it RECEIVING, PENDING or
      FINISHED, as the comment above its busy loop says. */
  lemma MissedTag(states: seq<State>, steps: seq<Step>, i: nat, t: nat)
    requires Run(states, steps) && i < |states| && t in states[i].threads
    requires states[i].threads[t].pc.Missed? || states[i].threads[t].pc.Taking?
    ensures RecOf(states[i].threads[t].pc) in states[i].recs
    ensures !states[i].recs[RecOf(states[i].threads[t].pc)].tag.Initial?
  {
    hide Inv, Run;
    Reachable(states, steps, i);
    Instances(states[i], t, RecOf(states[i].threads[t].pc), 0, 0);
  }

  // ----- Queues -----

  /** The queue laws of a channel that is not torn down: first in, first out, and the counters. */
  lemma QueueLaws(states: seq<State>, steps: seq<Step>, i: nat, c: nat)
    requires Run(states, steps) && i < |states| && c in states[i].chans && !states[i].chans[c].closing
    ensures Fifo(states[i].chans[c].h)
    ensures Counters(states[i].chans[c].h, states[0].limit)
  {
    hide Inv, Run;
    Reachable(states, steps, i);
    Instances(states[i], 0, 0, c, 0);
  }

  lemma EnqueueOutcome(s: State, t: nat)
    requires Inv(s) && CanEnqueue(s, t)
    ensures var s', m, c := DoEnqueue(s, t), PcOf(s, t).rec, PcOf(s, t).chan;
            var hook, waiting := s.recs[m].hook, s.chans[c].h.q.waiting;
            m in s'.recs && c in s'.chans &&
            if hook.NoReply() && |NoReplies(waiting)| >= s.limit then
              s'.chans[c].h.q.waiting == waiting && s'.recs[m].place == AtSender(t) && PcOf(s', t) == Refused(m, c)
            else
              && s'.chans[c].h.q.waiting == waiting + [hook] && s'.recs[m].place == InQueue(c)
              && PcOf(s', t) == if hook.task != 0 then Calling(m, c) else Sent(c)
  {
    var m, c := PcOf(s, t).rec, PcOf(s, t).chan;
    hide Inv, HAdd, Accepts, NoReplies;
    Instances(s, t, m, c, 0);
    Alive(s, t, c);
    RefusedIffFull(s.chans[c].h, s.recs[m].hook, s.limit);
    hide ThreadOk, ChanOk, Ok;
  }

  /** In every run, adding a message fails exactly when it is a no-reply message and the channel holds
      as many of these as the limit allows; then its sender will try again. Any other message joins
      the end of the queue. */
  lemma RefusedWhenFull(states: seq<State>, steps: seq<Step>, i: nat, t: nat)
    requires Run(states, steps) && i < |steps| && steps[i] == Send(t, Enqueue)
    ensures HasRec(states[i], t) && HasChan(states[i], t)
    ensures var s, s', m, c := states[i], states[i + 1], RecOf(PcOf(states[i], t)), HeldChan(PcOf(states[i], t));
            var hook, waiting := s.recs[m].hook, s.chans[c].h.q.waiting;
            m in s'.recs && c in s'.chans &&
            if hook.NoReply() && |NoReplies(waiting)| >= states[0].limit then
              s'.chans[c].h.q.waiting == waiting && s'.recs[m].place == AtSender(t) && PcOf(s', t) == Refused(m, c)
            else
              && s'.chans[c].h.q.waiting == waiting + [hook] && s'.recs[m].place == InQueue(c)
              && PcOf(s', t) == if hook.task != 0 then Calling(m, c) else Sent(c)
  {
    assert Enabled(states[i], steps[i]) && states[i + 1] == Apply(states[i], steps[i]);
    Reachable(states, steps, i);
    hide Run, Inv, DoEnqueue, NoReplies;
    EnqueueOutcome(states[i], t);
  }

  /** By the time a channel has been freed, every pulse and no-reply record it ever accepted has
      been freed exactly once. */
  lemma HeapRecordsFreed(states: seq<State>, steps: seq<Step>, i: nat, c: nat, h: Hook)
    requires Run(states, steps) && i < |states| && c in states[i].chans && states[i].chans[c].freed
    requires h in states[i].chans[c].h.accepted && h.task == 0
    ensures h.rec in states[i].recs && states[i].recs[h.rec].frees == 1
  {
    hide Inv, Run;
    Reachable(states, steps, i);
    HeapRecordFreed(states[i], c, h);
  }

  lemma HeapRecordFreed(s: State, c: nat, h: Hook)
    requires Inv(s) && c in s.chans && s.chans[c].freed && h in s.chans[c].h.accepted && h.task == 0
    ensures h.rec in s.recs && s.recs[h.rec].frees == 1
  {
    hide Inv;
    Instances(s, 0, 0, c, 0);
    Instances(s, 0, h.rec, 0, 0);
    forall t | t in s.threads
      ensures s.recs[h.rec].place != InHands(t)
    {
      assert t !in ChanHolders(s.threads, c);
    }
  }

  // ----- Isolation -----

  /** A thread that received a message received it on its own channel, through a connection that
      names its process and this channel; so does every pending record. */
  lemma Isolation(states: seq<State>, steps: seq<Step>, i: nat)
    requires Run(states, steps) && i < |states|
    ensures var s := states[i];
            forall t :: t in s.threads && s.threads[t].pc.Received? ==>
              && s.threads[t].entry in s.procs && s.threads[t].pc.rec in s.recs
              && s.recs[s.threads[t].pc.rec].via == Connection(s.procs[s.threads[t].entry].pid, s.threads[t].pc.chan)
    ensures var s := states[i];
            forall e, h :: e in s.procs && h in s.procs[e].pending ==>
              && h.rec in s.recs
              && s.recs[h.rec].receiverPid == s.recs[h.rec].via.pid == s.procs[e].pid
              && s.recs[h.rec].receiverChid == s.recs[h.rec].via.chid
              && s.recs[h.rec].via.chid in s.chans && s.chans[s.recs[h.rec].via.chid].owner == e
  {
    hide Inv, Run;
    Reachable(states, steps, i);
    ReceivedIsMine(states[i]);
    PendingIsSent(states[i]);
  }

  lemma ReceivedIsMine(s: State)
    requires Inv(s)
    ensures forall t :: t in s.threads && s.threads[t].pc.Received? ==>
              && s.threads[t].entry in s.procs && s.threads[t].pc.rec in s.recs
              && s.recs[s.threads[t].pc.rec].via == Connection(s.procs[s.threads[t].entry].pid, s.threads[t].pc.chan)
  {
    hide Inv;
    forall t | t in s.threads && s.threads[t].pc.Received?
      ensures s.threads[t].entry in s.procs && s.threads[t].pc.rec in s.recs
      ensures s.recs[s.threads[t].pc.rec].via == Connection(s.procs[s.threads[t].entry].pid, s.threads[t].pc.chan)
    {
      Instances(s, t, s.threads[t].pc.rec, 0, 0);
    }
  }

  lemma PendingIsSent(s: State)
    requires Inv(s)
    ensures forall e, h :: e in s.procs && h in s.procs[e].pending ==>
              && h.rec in s.recs
              && s.recs[h.rec].receiverPid == s.recs[h.rec].via.pid == s.procs[e].pid
              && s.recs[h.rec].receiverChid == s.recs[h.rec].via.chid
              && s.recs[h.rec].via.chid in s.chans && s.chans[s.recs[h.rec].via.chid].owner == e
  {
    hide Inv;
    forall e, h | e in s.procs && h in s.procs[e].pending
      ensures h.rec in s.recs
      ensures s.recs[h.rec].receiverPid == s.recs[h.rec].via.pid == s.procs[e].pid
      ensures s.recs[h.rec].receiverChid == s.recs[h.rec].via.chid
      ensures s.recs[h.rec].via.chid in s.chans && s.chans[s.recs[h.rec].via.chid].owner == e
    {
      Instances(s, 0, h.rec, 0, e);
    }
  }

  /** The connection a message carries is the one its sender's table held when it was sent. */
  lemma SentThrough(states: seq<State>, steps: seq<Step>, i: nat, j: nat, t: nat, e: nat, m: nat, kind: Kind, coid: nat)
    requires Run(states, steps) && i < j < |states| && steps[i] == Send(t, BeginSend(e, m, kind, coid))
    ensures e in states[i].procs && coid in states[i].procs[e].conns
    ensures m in states[j].recs && states[j].recs[m].via == states[i].procs[e].conns[coid]
    ensures states[j].recs[m].timed <==> kind == NormalMessage(true)
    ensures states[j].recs[m].hook.task == (if kind.NormalMessage? then t else 0)
    ensures states[j].recs[m].hook.rcvid > 0 <==> !kind.PulseMessage?
  {
    assert Enabled(states[i], steps[i]) && states[i + 1] == Apply(states[i], steps[i]);
    assert CanBeginSend(states[i], t, e, m, kind, coid);
    RunRec(states, steps, i + 1, j, m);
  }
}

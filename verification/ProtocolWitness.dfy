/** Runs of the code in which a returned sender leaves its record behind, step by step. */
module ProtocolWitness {
  import opened Errno
  import opened ChannelQueue
  import opened Connections
  import opened Protocol
  import opened ProtocolInv
  import opened ProtocolTheorems
  import opened ProtocolExits
  import opened ProtocolLaws

  datatype Trace = Trace(states: seq<State>, steps: seq<Step>) {
    ghost predicate Valid() { states != [] && Run(states, steps) }

    function Last(): State
      requires states != []
    {
      states[|states| - 1]
    }
  }

  lemma Begin(limit: nat) returns (tr: Trace)
    ensures tr.Valid() && tr.Last() == Start(limit)
  {
    tr := Trace([Start(limit)], []);
  }

  /** One more step. */
  lemma Then(tr: Trace, a: Step) returns (next: Trace)
    requires tr.Valid() && Enabled(tr.Last(), a)
    ensures next.Valid() && next.states != [] && next.Last() == Apply(tr.Last(), a) && next.steps == tr.steps + [a]
  {
    hide Enabled, Apply;
    next := Trace(tr.states + [Apply(tr.Last(), a)], tr.steps + [a]);
  }

  lemma ThenSend(tr: Trace, t: nat, a: SendStep) returns (next: Trace)
    requires tr.Valid() && EnabledSend(tr.Last(), t, a)
    ensures next.Valid() && next.states != [] && next.Last() == ApplySend(tr.Last(), t, a) && next.steps == tr.steps + [Send(t, a)]
  {
    next := Then(tr, Send(t, a));
  }

  lemma ThenLeave(tr: Trace, t: nat, a: LeaveStep) returns (next: Trace)
    requires tr.Valid() && EnabledLeave(tr.Last(), t, a)
    ensures next.Valid() && next.states != [] && next.Last() == ApplyLeave(tr.Last(), t, a) && next.steps == tr.steps + [Leave(t, a)]
  {
    next := Then(tr, Leave(t, a));
  }

  lemma ThenServe(tr: Trace, t: nat, a: ServeStep) returns (next: Trace)
    requires tr.Valid() && EnabledServe(tr.Last(), t, a)
    ensures next.Valid() && next.states != [] && next.Last() == ApplyServe(tr.Last(), t, a) && next.steps == tr.steps + [Serve(t, a)]
  {
    next := Then(tr, Serve(t, a));
  }

  /** MsgReceive takes the only record of a queue. */
  lemma ReceiveStep(s: State, t: nat, c: nat, m: nat)
    requires CanReceive(s, t) && PcOf(s, t).chan == c && |s.chans[c].h.q.waiting| == 1 && s.chans[c].h.q.waiting[0].rec == m
    ensures var s', q := DoReceive(s, t), s.chans[c].h.q;
      && s'.threads == s.threads[t := s.threads[t].(pc := Received(c, m))]
      && s'.recs == s.recs[m := s.recs[m].(tag := Receiving, place := InHands(t))]
      && c in s'.chans && s'.chans[c].h.q.waiting == [] && s'.chans[c].h.q.numWaiting == q.numWaiting - 1
      && s'.chans[c].h.q.numNoreply == q.numNoreply - Bit(q.waiting[0].NoReply())
      && s'.procs == s.procs && s'.nextRcvid == s.nextRcvid && s'.limit == s.limit
  {
  }

  /** MsgSend finds its channel. */
  lemma FindChanStep(s: State, t: nat, m: nat, x: nat)
    requires CanFindChan(s, t) && PcOf(s, t) == Finding(m, x)
    ensures var s', c := DoFindChan(s, t), s.recs[m].via.chid;
      && s'.threads == s.threads[t := s.threads[t].(pc := Ready(m, c))]
      && s'.recs == s.recs[m := s.recs[m].(receiverPid := s.recs[m].via.pid)]
      && c in s'.chans && s'.chans[c].h == s.chans[c].h
      && s'.procs == s.procs[x := s.procs[x].(refs := s.procs[x].refs - 1)]
      && s'.nextRcvid == s.nextRcvid && s'.limit == s.limit
  {
  }

  /** Process 1 (pid 10) owns channel 1, process 2 (pid 20) is connected to it; threads 1 and 2
      are idle. */
  ghost predicate TwoProcesses(s: State) {
    && 1 in s.procs && 2 in s.procs && s.nextRcvid == 0 && s.recs == map[]
    && 1 in s.threads && s.threads[1].pc == Idle
    && 2 in s.threads && s.threads[2].pc == Idle && s.threads.Keys == {1, 2}
    && !s.threads[1].poll && !s.threads[2].poll
    && Server(s, []) && Client(s)
    && 1 in s.chans && s.chans[1].h == NEW
  }

  predicate Server(s: State, pending: seq<Hook>) {
    && 1 in s.procs && s.procs[1].pid == 10 && s.procs[1].fd == Open && s.procs[1].channels == {1} && s.procs[1].pending == pending && s.procs[1].polls == 0
  }

  predicate Client(s: State) {
    && 2 in s.procs && s.procs.Keys == {1, 2} && s.procs[2].pid == 20 && s.procs[2].fd == Open
    && 1 in s.procs[2].conns && s.procs[2].conns[1] == Connection(10, 1)
  }

  /** Thread 1 is the sender and stands at `one`, thread 2 is the receiver and stands at `two`. */
  ghost predicate Scene(s: State, one: Pc, two: Pc, r: Rec, waiting: seq<Hook>, pending: seq<Hook>) {
    && s.threads.Keys == {1, 2} && s.threads[1].pc == one && s.threads[1].entry == 2
    && s.threads[2].pc == two && !s.threads[1].poll && !s.threads[2].poll
    && s.recs == map[1 := r] && s.nextRcvid == 1
    && 1 in s.chans && s.chans[1].h.q.waiting == waiting
    && Server(s, pending) && Client(s)
  }

  const HOOK := Hook(1, 1, 1)

  // The record of the message, sent with a timeout or without, on its way.

  function FreshRec(timed: bool): Rec { Rec(HOOK, Connection(10, 1), timed, 0, 0, Initial, 0, AtSender(1), 0, 0, NotYet, false) }

  function SentRec(timed: bool): Rec { FreshRec(timed).(receiverPid := 10, receiverChid := 1, place := InQueue(1)) }

  function PendingRec(timed: bool): Rec { SentRec(timed).(tag := Pending, place := OnPending(1)) }

  function TakenRec(timed: bool): Rec { PendingRec(timed).(place := WithReplier(2), takes := 1) }

  function AnsweredRec(timed: bool): Rec { TakenRec(timed).(tag := Finished, place := Done(2)) }

  lemma TwoThreads(limit: nat) returns (tr: Trace)
    ensures tr.Valid() && tr.Last().limit == limit && tr.Last().threads == map[1 := Thread(0, false, Idle, true), 2 := Thread(0, false, Idle, true)]
    ensures tr.Last() == Start(limit).(threads := tr.Last().threads)
  {
    hide Run;
    tr := Begin(limit);
    tr := Then(tr, Env(Spawn(1)));
    tr := Then(tr, Env(Spawn(2)));
  }

  lemma Setup(limit: nat) returns (tr: Trace)
    ensures tr.Valid() && tr.Last().threads.Keys == {1, 2} && tr.Last().procs.Keys == {1} && tr.Last().nextRcvid == 0
    ensures tr.Last().recs == map[] && tr.Last().threads[1].pc == Idle && tr.Last().threads[2].pc == Idle
    ensures !tr.Last().threads[1].poll && !tr.Last().threads[2].poll
    ensures tr.Last().chans == map[1 := Chan(1, 1, 0, 0, false, false, NEW)] && Server(tr.Last(), []) && tr.Last().limit == limit
  {
    hide Run;
    tr := TwoThreads(limit);
    tr := Then(tr, Env(OpenFile(1, 10)));
    tr := Then(tr, Env(CreateChannel(1)));
  }

  lemma Setup2(limit: nat) returns (tr: Trace)
    ensures tr.Valid() && TwoProcesses(tr.Last()) && tr.Last().limit == limit
  {
    hide Run;
    tr := Setup(limit);
    tr := Then(tr, Env(OpenFile(2, 20)));
    tr := Then(tr, Env(Attach(2, 1, Connection(10, 1))));
  }

  lemma Connected(limit: nat, timed: bool) returns (tr: Trace)
    ensures tr.Valid() && Scene(tr.Last(), Finding(1, 1), Idle, FreshRec(timed), [], []) && tr.Last().chans[1].h == NEW
  {
    hide Run, Enabled, Apply;
    tr := Setup2(limit);
    tr := ThenSend(tr, 1, BeginSend(2, 1, NormalMessage(timed), 1));
    tr := ThenSend(tr, 1, FindTarget(1));
  }

  lemma Ready1(limit: nat, timed: bool) returns (tr: Trace)
    ensures tr.Valid() && Scene(tr.Last(), Ready(1, 1), Idle, FreshRec(timed).(receiverPid := 10), [], []) && tr.Last().chans[1].h == NEW
  {
    hide Run, Enabled, Apply;
    tr := Connected(limit, timed);
    FindChanStep(tr.Last(), 1, 1, 1);
    hide DoFindChan;
    tr := ThenSend(tr, 1, FindChan);
  }

  lemma Armed1(limit: nat, timed: bool) returns (tr: Trace)
    ensures tr.Valid() && Scene(tr.Last(), Armed(1, 1), Idle, FreshRec(timed).(receiverPid := 10), [], []) && tr.Last().chans[1].h == NEW
  {
    hide Run, Enabled, Apply;
    tr := Ready1(limit, timed);
    tr := ThenSend(tr, 1, Arm);
  }

  lemma Added1(limit: nat, timed: bool) returns (tr: Trace)
    ensures tr.Valid() && Scene(tr.Last(), Calling(1, 1), Idle, SentRec(timed), [HOOK], []) && Waiting(tr.Last(), 1)
  {
    hide Run, Enabled, Apply;
    tr := Armed1(limit, timed);
    EnqueueScene(tr.Last(), timed);
    hide Scene, CanEnqueue, DoEnqueue, Waiting;
    tr := ThenSend(tr, 1, Enqueue);
  }

  lemma EnqueueScene(s: State, timed: bool)
    requires Scene(s, Armed(1, 1), Idle, FreshRec(timed).(receiverPid := 10), [], []) && s.chans[1].h == NEW
    ensures CanEnqueue(s, 1) && Scene(DoEnqueue(s, 1), Calling(1, 1), Idle, SentRec(timed), [HOOK], []) && Waiting(DoEnqueue(s, 1), 1)
  {
  }

  lemma Published1(limit: nat, timed: bool) returns (tr: Trace)
    ensures tr.Valid() && Scene(tr.Last(), Blocked(1, 1), Idle, SentRec(timed), [HOOK], []) && Waiting(tr.Last(), 1)
  {
    hide Run, Enabled, Apply;
    tr := Added1(limit, timed);
    tr := ThenSend(tr, 1, Call);
  }

  lemma Arrived1(limit: nat, timed: bool) returns (tr: Trace)
    ensures tr.Valid() && Scene(tr.Last(), Blocked(1, 1), Dequeuing(1), SentRec(timed), [HOOK], []) && tr.Last().threads[2].entry == 1
  {
    hide Run, Enabled, Apply;
    tr := Published1(limit, timed);
    tr := ThenServe(tr, 2, BeginReceive(1, 1));
    tr := ThenServe(tr, 2, SeeReady);
  }

  lemma Received1(limit: nat, timed: bool) returns (tr: Trace)
    ensures tr.Valid() && Scene(tr.Last(), Blocked(1, 1), Received(1, 1), SentRec(timed).(tag := Receiving, place := InHands(2)), [], [])
    ensures tr.Last().threads[2].entry == 1
  {
    hide Run, Enabled, Apply;
    tr := Arrived1(limit, timed);
    ReceiveStep(tr.Last(), 2, 1, 1);
    hide DoReceive;
    tr := ThenServe(tr, 2, Receive);
  }

  lemma Pended1(limit: nat, timed: bool) returns (tr: Trace)
    ensures tr.Valid() && Scene(tr.Last(), Blocked(1, 1), Releasing(1, 0), PendingRec(timed), [], [HOOK])
  {
    hide Run, Enabled, Apply;
    tr := Received1(limit, timed);
    PendScene(tr.Last(), timed);
    hide Scene, CanPend, DoPend;
    tr := ThenServe(tr, 2, Pend);
  }

  lemma PendScene(s: State, timed: bool)
    requires Scene(s, Blocked(1, 1), Received(1, 1), SentRec(timed).(tag := Receiving, place := InHands(2)), [], [])
    requires s.threads[2].entry == 1
    ensures CanPend(s, 2) && Scene(DoPend(s, 2), Blocked(1, 1), Releasing(1, 0), PendingRec(timed), [], [HOOK])
  {
    PendStep(s, 2, 1, 1);
    hide DoPend;
  }

  /** MsgReceive puts the record on an empty pending list. */
  lemma PendStep(s: State, t: nat, c: nat, m: nat)
    requires CanPend(s, t) && PcOf(s, t) == Received(c, m) && s.procs[s.threads[t].entry].pending == []
    ensures var s', e := DoPend(s, t), s.threads[t].entry;
      && s'.threads == s.threads[t := s.threads[t].(pc := Releasing(c, 0))]
      && s'.recs == s.recs[m := s.recs[m].(tag := Pending, place := OnPending(e))]
      && s'.procs == s.procs[e := s.procs[e].(pending := [s.recs[m].hook])]
      && s'.chans == s.chans && s'.nextRcvid == s.nextRcvid && s'.limit == s.limit
  {
    assert [s.recs[m].hook] + [] == [s.recs[m].hook];
  }

  lemma Pending1(limit: nat, timed: bool) returns (tr: Trace)
    ensures tr.Valid() && Scene(tr.Last(), Blocked(1, 1), Idle, PendingRec(timed), [], [HOOK])
  {
    hide Run, Enabled, Apply;
    tr := Pended1(limit, timed);
    tr := ThenSend(tr, 2, Release);
  }

  lemma Taken1(limit: nat, timed: bool) returns (tr: Trace)
    ensures tr.Valid() && Scene(tr.Last(), Blocked(1, 1), Replying(1), TakenRec(timed), [], [])
  {
    hide Run, Enabled, Apply;
    tr := Pending1(limit, timed);
    tr := ThenServe(tr, 2, TakePending(1, 1));
  }

  /** MsgReply has taken the record and not stored the status yet; the interrupted sender does
      not find it on the pending list and returns at once, with the status as it was set up. */
  lemma OvertakenTooEarly(limit: nat) returns (tr: Trace)
    ensures tr.Valid() && 1 in tr.Last().recs
    ensures tr.Last().recs[1].gone && tr.Last().recs[1].exit == Exit(Overtaken, 0) && FoundAt(tr.Last(), 1, WithReplier(2))
    ensures !Clean(tr.Last())
  {
    hide Run, Enabled, Apply;
    tr := TooEarly1(limit);
    tr := ThenLeave(tr, 1, FindReceiver(1));
    tr := ThenLeave(tr, 1, LeaveOvertaken);
    tr := GetOut(tr, 1);
    NotClean(tr.Last(), 1, WithReplier(2));
  }

  lemma TooEarly1(limit: nat) returns (tr: Trace)
    ensures tr.Valid() && Scene(tr.Last(), Missed(1, 1, ETIMEDOUT), Replying(1), TakenRec(true), [], [])
  {
    hide Run, Enabled, Apply;
    tr := Taken1(limit, true);
    tr := ThenLeave(tr, 1, Interrupt(ETIMEDOUT));
    tr := ThenLeave(tr, 1, MissQueued);
  }

  lemma NotClean(s: State, m: nat, p: Place)
    requires m in s.recs && s.recs[m].gone && FoundAt(s, m, p)
    ensures !Clean(s)
  {
    assert !Hidden(s, m);
  }

  /** The sender is out: its record is gone, and stays where it was found. */
  lemma GetOut(tr: Trace, m: nat) returns (next: Trace)
    requires tr.Valid() && m != 0 && m in tr.Last().recs
    requires 1 in tr.Last().threads && tr.Last().threads[1].pc == Releasing(1, m) && 1 in tr.Last().chans
    ensures next.Valid() && next.Last().recs == tr.Last().recs[m := tr.Last().recs[m].(gone := true)]
    ensures next.Last().procs == tr.Last().procs
    ensures next.Last().threads == tr.Last().threads[1 := tr.Last().threads[1].(pc := Idle)]
    ensures forall p :: FoundAt(tr.Last(), m, p) ==> FoundAt(next.Last(), m, p)
  {
    hide Run, Enabled, Apply;
    next := ThenSend(tr, 1, Release);
  }

  /** The receiving process closes its file while one of its poll files is still open: its
      pending list lives on, but an interrupted sender finds no process and returns. */
  lemma LeftOnPendingList(limit: nat) returns (tr: Trace)
    ensures tr.Valid() && 1 in tr.Last().recs
    ensures tr.Last().recs[1].gone && tr.Last().recs[1].exit == Exit(NoReceiver, ETIMEDOUT) && FoundAt(tr.Last(), 1, OnPending(1))
    ensures !Clean(tr.Last())
  {
    hide Run;
    tr := Pending1(limit, true);
    tr := Then(tr, Env(OpenPoll(1)));
    tr := Then(tr, Env(Unlink(1)));
    tr := Unheard(tr);
    tr := GetOut(tr, 1);
    NotClean(tr.Last(), 1, OnPending(1));
  }

  lemma Unheard(tr: Trace) returns (next: Trace)
    requires tr.Valid() && tr.Last().threads.Keys == {1, 2} && tr.Last().threads[1].pc == Blocked(1, 1)
    requires 1 in tr.Last().recs && tr.Last().recs[1].timed && tr.Last().recs[1].receiverPid == 10 && !tr.Last().recs[1].tag.Receiving?
    requires 1 in tr.Last().chans && tr.Last().chans[1].h.q.waiting == []
    requires NoProcess(tr.Last(), 10)
    ensures next.Valid() && next.Last().procs == tr.Last().procs && 1 in next.Last().chans
    ensures 1 in next.Last().threads && next.Last().threads[1].pc == Releasing(1, 1)
    ensures next.Last().recs == tr.Last().recs[1 := tr.Last().recs[1].(exit := Exit(NoReceiver, ETIMEDOUT))]
  {
    hide Run, Enabled, Apply;
    next := ThenLeave(tr, 1, Interrupt(ETIMEDOUT));
    next := ThenLeave(next, 1, MissQueued);
    next := ThenLeave(next, 1, LeaveNoReceiver);
  }

  /** The message was answered with status 0, yet the timed sender reports a timeout, because the
      receiving process has closed before the sender looked for it. */
  lemma AnsweredButTimedOut(limit: nat) returns (tr: Trace)
    ensures tr.Valid() && 1 in tr.Last().recs
    ensures tr.Last().recs[1].tag == Finished && tr.Last().recs[1].status == 0
    ensures tr.Last().recs[1].exit == Exit(NoReceiver, ETIMEDOUT)
  {
    hide Run;
    tr := Answered1(limit, true);
    tr := Then(tr, Env(Unlink(1)));
    tr := Unheard(tr);
    tr := GetOut(tr, 1);
  }

  lemma Finished1(limit: nat, timed: bool) returns (tr: Trace)
    ensures tr.Valid() && Scene(tr.Last(), Blocked(1, 1), Waking(1, 0), AnsweredRec(timed), [], [])
  {
    hide Run, Enabled, Apply;
    tr := Taken1(limit, timed);
    FinishScene(tr.Last(), timed);
    hide Scene, CanFinish, DoFinish;
    tr := ThenServe(tr, 2, Finish(0));
  }

  lemma FinishScene(s: State, timed: bool)
    requires Scene(s, Blocked(1, 1), Replying(1), TakenRec(timed), [], [])
    ensures CanFinish(s, 2, 0) && Scene(DoFinish(s, 2, 0), Blocked(1, 1), Waking(1, 0), AnsweredRec(timed), [], [])
  {
  }

  lemma Answered1(limit: nat, timed: bool) returns (tr: Trace)
    ensures tr.Valid() && Scene(tr.Last(), Blocked(1, 1), Idle, AnsweredRec(timed), [], []) && tr.Last().threads[1].awake
  {
    hide Run, Enabled, Apply;
    tr := Finished1(limit, timed);
    tr := ThenServe(tr, 2, Wake);
  }

  /** The message was answered, its sender was woken, but has a timeout: it sleeps again, with its
      answer, and nobody is about to wake it. */
  lemma AnsweredAsleep(limit: nat) returns (tr: Trace)
    ensures tr.Valid() && 1 in tr.Last().recs && tr.Last().recs[1] == AnsweredRec(true)
    ensures WakeupSpent(tr.Last(), 1, 1) && Asleep(tr.Last(), 1, 1)
  {
    hide Run, Enabled, Apply;
    tr := Answered1(limit, true);
    tr := ThenLeave(tr, 1, SleepOn);
  }

  /** The reply is stored, the wake-up is still to come; meanwhile the interrupted sender has
      returned and sends its next message. */
  lemma SecondSend(limit: nat) returns (tr: Trace)
    ensures tr.Valid() && tr.Last().threads.Keys == {1, 2} && tr.Last().recs.Keys == {1, 2}
    ensures tr.Last().threads[1].pc == Finding(2, 1) && tr.Last().threads[2].pc == Waking(1, 0)
    ensures tr.Last().recs[1].hook == HOOK && tr.Last().recs[2] == FreshRec(false).(hook := Hook(2, 2, 1)) && Server(tr.Last(), [])
    ensures 1 in tr.Last().chans && tr.Last().chans[1].h.q.waiting == []
  {
    hide Run, Enabled, Apply;
    tr := Returned1(limit);
    tr := ThenSend(tr, 1, BeginSend(2, 2, NormalMessage(false), 1));
    tr := ThenSend(tr, 1, FindTarget(1));
  }

  lemma Returned1(limit: nat) returns (tr: Trace)
    ensures tr.Valid() && Scene(tr.Last(), Idle, Waking(1, 0), AnsweredRec(false).(exit := Exit(Overtaken, 0), gone := true), [], [])
  {
    hide Run, Enabled, Apply;
    tr := Overtaken1(limit);
    ReturnedScene(tr.Last());
    hide Scene, CanRelease, DoRelease;
    tr := ThenSend(tr, 1, Release);
  }

  lemma ReturnedScene(s: State)
    requires Scene(s, Releasing(1, 1), Waking(1, 0), AnsweredRec(false).(exit := Exit(Overtaken, 0)), [], [])
    ensures CanRelease(s, 1)
    ensures Scene(DoRelease(s, 1), Idle, Waking(1, 0), AnsweredRec(false).(exit := Exit(Overtaken, 0), gone := true), [], [])
  {
  }

  /** The interrupted sender finds its message answered and returns its status, as it should; the
      replier still has to read from the record whom to wake. */
  lemma TouchedAfterReturn(limit: nat) returns (tr: Trace)
    ensures tr.Valid() && 1 in tr.Last().recs && ResultOk(tr.Last().recs[1])
    ensures tr.Last().recs[1].tag == Finished && tr.Last().recs[1].gone && tr.Last().recs[1].exit == Exit(Overtaken, 0)
    ensures PcOf(tr.Last(), 1) == Idle && PcOf(tr.Last(), 2) == Waking(1, 0)
    ensures Touching(tr.Last(), 1) && !Clean(tr.Last())
  {
    hide Run;
    tr := Returned1(limit);
    assert WakesFor(tr.Last().threads[2].pc, 1);
    assert !Hidden(tr.Last(), 1);
  }

  lemma Overtaken1(limit: nat) returns (tr: Trace)
    ensures tr.Valid() && Scene(tr.Last(), Releasing(1, 1), Waking(1, 0), AnsweredRec(false).(exit := Exit(Overtaken, 0)), [], [])
  {
    hide Run, Enabled, Apply;
    tr := Looking1(limit);
    OvertakenScene(tr.Last());
    hide Scene, CanLeaveOvertaken, DoLeaveOvertaken;
    tr := ThenLeave(tr, 1, LeaveOvertaken);
  }

  lemma OvertakenScene(s: State)
    requires Scene(s, Taking(1, 1, ERESTARTSYS, 1), Waking(1, 0), AnsweredRec(false), [], [])
    ensures CanLeaveOvertaken(s, 1)
    ensures Scene(DoLeaveOvertaken(s, 1), Releasing(1, 1), Waking(1, 0), AnsweredRec(false).(exit := Exit(Overtaken, 0)), [], [])
  {
    NoneFound(s, 1);
    hide FoundPending;
  }

  lemma NoneFound(s: State, rcvid: int)
    requires Server(s, [])
    ensures !FoundPending(s, 1, rcvid)
  {
  }

  lemma Looking1(limit: nat) returns (tr: Trace)
    ensures tr.Valid() && Scene(tr.Last(), Taking(1, 1, ERESTARTSYS, 1), Waking(1, 0), AnsweredRec(false), [], [])
  {
    hide Run, Enabled, Apply;
    tr := Interrupted1(limit);
    tr := ThenLeave(tr, 1, FindReceiver(1));
  }

  lemma Interrupted1(limit: nat) returns (tr: Trace)
    ensures tr.Valid() && Scene(tr.Last(), Missed(1, 1, ERESTARTSYS), Waking(1, 0), AnsweredRec(false), [], [])
  {
    hide Run, Enabled, Apply;
    tr := Finished1(limit, false);
    tr := ThenLeave(tr, 1, Interrupt(ERESTARTSYS));
    tr := ThenLeave(tr, 1, MissQueued);
  }

  lemma SecondArmed(limit: nat) returns (tr: Trace)
    ensures tr.Valid() && tr.Last().threads.Keys == {1, 2} && tr.Last().recs.Keys == {1, 2}
    ensures tr.Last().threads[1].pc == Armed(2, 1) && tr.Last().threads[2].pc == Waking(1, 0)
    ensures tr.Last().recs[1].hook == HOOK && tr.Last().recs[2] == FreshRec(false).(hook := Hook(2, 2, 1), receiverPid := 10)
    ensures 1 in tr.Last().chans && tr.Last().chans[1].h.q.waiting == []
  {
    hide Run, Enabled, Apply;
    tr := SecondSend(limit);
    tr := ThenSend(tr, 1, FindChan);
    tr := ThenSend(tr, 1, Arm);
  }

  lemma SecondQueued(limit: nat) returns (tr: Trace)
    ensures tr.Valid() && tr.Last().threads.Keys == {1, 2} && tr.Last().recs.Keys == {1, 2}
    ensures tr.Last().threads[1].pc == Calling(2, 1) && tr.Last().threads[2].pc == Waking(1, 0)
    ensures tr.Last().recs[1].hook == HOOK && tr.Last().recs[2] == SentRec(false).(hook := Hook(2, 2, 1))
    ensures 1 in tr.Last().chans && tr.Last().chans[1].h.q.waiting == [Hook(2, 2, 1)]
  {
    hide Run, Enabled, Apply;
    tr := SecondArmed(limit);
    tr := ThenSend(tr, 1, Enqueue);
  }

  lemma SecondWoken(limit: nat) returns (tr: Trace)
    ensures tr.Valid() && 1 in tr.Last().threads && tr.Last().threads[1].pc == Blocked(2, 1) && tr.Last().threads[1].awake
    ensures 2 in tr.Last().recs && tr.Last().recs[2] == SentRec(false).(hook := Hook(2, 2, 1))
    ensures 1 in tr.Last().chans && tr.Last().chans[1].h.q.waiting == [Hook(2, 2, 1)]
  {
    hide Run, Enabled, Apply;
    tr := SecondCalled(limit);
    tr := ThenServe(tr, 2, Wake);
  }

  lemma SecondCalled(limit: nat) returns (tr: Trace)
    ensures tr.Valid() && tr.Last().threads.Keys == {1, 2}
    ensures tr.Last().threads[1].pc == Blocked(2, 1) && tr.Last().threads[2].pc == Waking(1, 0)
    ensures tr.Last().recs.Keys == {1, 2} && tr.Last().recs[1].hook == HOOK && tr.Last().recs[2] == SentRec(false).(hook := Hook(2, 2, 1))
    ensures 1 in tr.Last().chans && tr.Last().chans[1].h.q.waiting == [Hook(2, 2, 1)]
  {
    hide Run, Enabled, Apply;
    tr := SecondQueued(limit);
    tr := ThenSend(tr, 1, Call);
  }

  /** The late wake-up ends the second MsgSend with result 0 while its message still waits in the
      queue. */
  lemma LateWakeup(limit: nat) returns (tr: Trace)
    ensures tr.Valid() && 2 in tr.Last().recs
    ensures tr.Last().recs[2].gone && tr.Last().recs[2].exit == Exit(Woken, 0) && FoundAt(tr.Last(), 2, InQueue(1))
    ensures !Clean(tr.Last())
  {
    hide Run, Enabled, Apply;
    tr := SecondWoken(limit);
    tr := ThenLeave(tr, 1, LeaveWoken);
    assert Hook(2, 2, 1) in tr.Last().chans[1].h.q.waiting;
    tr := GetOut(tr, 2);
    NotClean(tr.Last(), 2, InQueue(1));
  }

  // ----- Teardown -----

  lemma Closed1(limit: nat) returns (tr: Trace)
    ensures tr.Valid() && tr.Last().threads.Keys == {1, 2} && tr.Last().threads[1].pc == Blocked(1, 1)
    ensures tr.Last().recs == map[1 := PendingRec(false)] && 1 in tr.Last().procs && tr.Last().procs[1].fd.Unlinked?
    ensures tr.Last().procs[1].pending == [HOOK] && tr.Last().procs[1].channels == {1} && 1 in tr.Last().chans
    ensures tr.Last().procs[1].refs == 1 && !tr.Last().procs[1].dead && tr.Last().procs[1].dying == 0
  {
    hide Run;
    tr := Pending1(limit, false);
    OneReference(tr);
    tr := Then(tr, Env(Unlink(1)));
  }

  /** Without poll files and searches the file has the only reference. */
  lemma OneReference(tr: Trace)
    requires tr.Valid() && Scene(tr.Last(), Blocked(1, 1), Idle, PendingRec(false), [], [HOOK])
    ensures tr.Last().procs[1].refs == 1 && !tr.Last().procs[1].dead && tr.Last().procs[1].dying == 0
  {
    hide Run, Inv;
    Reachable(tr.states, tr.steps, |tr.states| - 1);
    OneReferenceIn(tr.Last());
  }

  lemma OneReferenceIn(s: State)
    requires Inv(s) && 1 in s.procs && s.procs[1].fd.Open? && s.procs[1].polls == 0 && s.procs[1].channels != {}
    requires forall t :: t in s.threads ==> !s.threads[t].pc.Finding? && !s.threads[t].pc.Taking?
    ensures s.procs[1].refs == 1 && !s.procs[1].dead && s.procs[1].dying == 0
  {
    hide Inv;
    Instances(s, 0, 0, 0, 1);
    assert EntryHolders(s.threads, 1) == {};
  }

  /** The receiving process is torn down; the sender it has woken returns with ESRCH before its
      record is unlinked. */
  lemma ReturnedUnderTeardown(limit: nat) returns (tr: Trace)
    ensures tr.Valid() && 1 in tr.Last().recs && ResultOk(tr.Last().recs[1])
    ensures tr.Last().recs[1].gone && tr.Last().recs[1].exit == Exit(Woken, ESRCH) && Touching(tr.Last(), 1)
    ensures !Clean(tr.Last())
  {
    hide Run;
    tr := Unlisted1(limit);
    tr := Then(tr, Env(CleanPending(1)));
    tr := Then(tr, Leave(1, LeaveWoken));
    tr := GetOut(tr, 1);
    assert tr.Last().procs[1].dying == 1;
    assert !Hidden(tr.Last(), 1);
  }

  lemma Unlisted1(limit: nat) returns (tr: Trace)
    ensures tr.Valid() && tr.Last().threads.Keys == {1, 2} && tr.Last().threads[1].pc == Blocked(1, 1)
    ensures 1 in tr.Last().chans
    ensures tr.Last().recs == map[1 := PendingRec(false)] && CanCleanPending(tr.Last(), 1) && tr.Last().procs[1].pending == [HOOK]
  {
    hide Run;
    tr := Closed1(limit);
    tr := Then(tr, Env(Close(1)));
    tr := Then(tr, Env(UnlistChannel(1, 1)));
  }

  // ----- The wrong list -----

  lemma Reopened1(limit: nat) returns (tr: Trace)
    ensures tr.Valid() && tr.Last().threads.Keys == {1, 2} && tr.Last().threads[1].pc == Blocked(1, 1)
    ensures tr.Last().recs == map[1 := PendingRec(true)] && 1 in tr.Last().chans && tr.Last().chans[1].h.q.waiting == []
    ensures 1 in tr.Last().procs && !tr.Last().procs[1].fd.Open? && tr.Last().procs[1].pending == [HOOK]
    ensures 3 in tr.Last().procs && tr.Last().procs[3].pid == 10 && tr.Last().procs[3].fd.Open? && tr.Last().procs[3].pending == []
  {
    hide Run;
    tr := Pending1(limit, true);
    tr := Then(tr, Env(OpenPoll(1)));
    tr := Then(tr, Env(Unlink(1)));
    tr := Then(tr, Env(OpenFile(3, 10)));
  }

  /** The receiver closes its file with a poll file open, and opens it again: the interrupted sender
      finds the new entry and misses its record, which stays on the old list. It reports success. */
  lemma OtherList(limit: nat) returns (tr: Trace)
    ensures tr.Valid() && 1 in tr.Last().recs
    ensures tr.Last().recs[1].gone && tr.Last().recs[1].exit == Exit(Overtaken, 0) && FoundAt(tr.Last(), 1, OnPending(1))
    ensures !Clean(tr.Last())
  {
    hide Run, Enabled, Apply;
    tr := Looking3(limit);
    assert !CanWithdrawPending(tr.Last(), 1);
    tr := ThenLeave(tr, 1, LeaveOvertaken);
    assert HOOK in tr.Last().procs[1].pending;
    tr := GetOut(tr, 1);
    NotClean(tr.Last(), 1, OnPending(1));
  }

  lemma Looking3(limit: nat) returns (tr: Trace)
    ensures tr.Valid() && tr.Last().threads.Keys == {1, 2} && tr.Last().threads[1].pc == Taking(1, 1, ETIMEDOUT, 3)
    ensures tr.Last().recs == map[1 := PendingRec(true)]
    ensures 1 in tr.Last().procs && tr.Last().procs[1].pending == [HOOK]
    ensures 3 in tr.Last().procs && tr.Last().procs[3].pending == [] && 1 in tr.Last().chans
  {
    hide Run, Enabled, Apply;
    tr := Reopened1(limit);
    tr := ThenLeave(tr, 1, Interrupt(ETIMEDOUT));
    tr := ThenLeave(tr, 1, MissQueued);
    tr := ThenLeave(tr, 1, FindReceiver(3));
  }

  // ----- A refused message -----

  const FIRST := Hook(1, 1, 0)
  const SECOND := Hook(2, 2, 0)

  /** Thread 1 sends no-reply messages, thread 2 receives; at most one such message may wait. */
  ghost predicate NoReplyScene(s: State, one: Pc, two: Pc, q: Queue, nextRcvid: nat) {
    && s.threads.Keys == {1, 2} && s.threads[1].pc == one && s.threads[2].pc == two && s.limit == 1
    && !s.threads[1].poll && !s.threads[2].poll
    && s.nextRcvid == nextRcvid && Server(s, []) && Client(s)
    && 1 in s.chans && s.chans[1].h.q == q
  }

  lemma FindingNoReply(m: nat, rcvid: nat, q: Queue, tr: Trace) returns (next: Trace)
    requires tr.Valid() && NoReplyScene(tr.Last(), Idle, Idle, q, rcvid) && m > 0 && m !in tr.Last().recs
    ensures next.Valid() && NoReplyScene(next.Last(), Finding(m, 1), Idle, q, rcvid + 1)
    ensures m in next.Last().recs && next.Last().recs == tr.Last().recs[m := next.Last().recs[m]]
    ensures next.Last().recs[m].hook == Hook(m, rcvid + 1, 0) && next.Last().recs[m].via == Connection(10, 1)
  {
    hide Run, Enabled, Apply;
    next := ThenSend(tr, 1, BeginSend(2, m, NoReplyMessage, 1));
    next := ThenSend(next, 1, FindTarget(1));
  }

  lemma ReadyNoReply(m: nat, rcvid: nat, q: Queue, tr: Trace) returns (next: Trace)
    requires tr.Valid() && NoReplyScene(tr.Last(), Idle, Idle, q, rcvid) && m > 0 && m !in tr.Last().recs
    ensures next.Valid() && NoReplyScene(next.Last(), Ready(m, 1), Idle, q, rcvid + 1)
    ensures m in next.Last().recs && next.Last().recs == tr.Last().recs[m := next.Last().recs[m]] && next.Last().recs[m].hook == Hook(m, rcvid + 1, 0)
  {
    hide Run, Enabled, Apply;
    next := FindingNoReply(m, rcvid, q, tr);
    NoReplyFound(next.Last(), m, rcvid + 1, q);
    hide NoReplyScene, CanFindChan, DoFindChan;
    next := ThenSend(next, 1, FindChan);
  }

  lemma NoReplyFound(s: State, m: nat, rcvid: nat, q: Queue)
    requires NoReplyScene(s, Finding(m, 1), Idle, q, rcvid) && m in s.recs && s.recs[m].via == Connection(10, 1)
    ensures CanFindChan(s, 1) && NoReplyScene(DoFindChan(s, 1), Ready(m, 1), Idle, q, rcvid)
    ensures DoFindChan(s, 1).recs == s.recs[m := s.recs[m].(receiverPid := 10)]
  {
    FindChanStep(s, 1, m, 1);
    hide DoFindChan;
  }

  lemma FirstReady() returns (tr: Trace)
    ensures tr.Valid() && NoReplyScene(tr.Last(), Ready(1, 1), Idle, EMPTY, 1)
    ensures tr.Last().recs.Keys == {1} && tr.Last().recs[1].hook == FIRST
  {
    hide Run;
    tr := Setup2(1);
    tr := ReadyNoReply(1, 0, EMPTY, tr);
  }

  lemma FirstAdded() returns (tr: Trace)
    ensures tr.Valid() && NoReplyScene(tr.Last(), Sent(1), Idle, Queue([FIRST], 1, 1), 1)
    ensures tr.Last().recs.Keys == {1} && tr.Last().recs[1].hook == FIRST
  {
    hide Run, Enabled, Apply;
    tr := FirstReady();
    tr := ThenSend(tr, 1, Enqueue);
  }

  lemma SentFirst() returns (tr: Trace)
    ensures tr.Valid() && NoReplyScene(tr.Last(), Idle, Idle, Queue([FIRST], 1, 1), 1)
    ensures tr.Last().recs.Keys == {1} && tr.Last().recs[1].hook == FIRST
  {
    hide Run, Enabled, Apply;
    tr := FirstAdded();
    tr := ThenSend(tr, 1, Call);
    tr := ThenSend(tr, 1, Release);
  }

  lemma RefusedSecond() returns (tr: Trace)
    ensures tr.Valid() && NoReplyScene(tr.Last(), Refused(2, 1), Idle, Queue([FIRST], 2, 1), 2)
    ensures tr.Last().recs.Keys == {1, 2} && tr.Last().recs[1].hook == FIRST
  {
    hide Run, Enabled, Apply;
    tr := SecondReady();
    tr := ThenSend(tr, 1, Enqueue);
  }

  lemma SecondReady() returns (tr: Trace)
    ensures tr.Valid() && NoReplyScene(tr.Last(), Ready(2, 1), Idle, Queue([FIRST], 1, 1), 2)
    ensures tr.Last().recs.Keys == {1, 2} && tr.Last().recs[1].hook == FIRST && tr.Last().recs[2].hook == SECOND
  {
    hide Run, Enabled, Apply, NoReplyScene;
    tr := SentFirst();
    tr := ReadyNoReply(2, 1, Queue([FIRST], 1, 1), tr);
  }

  lemma Retried() returns (tr: Trace)
    ensures tr.Valid() && NoReplyScene(tr.Last(), Ready(2, 1), Idle, Queue([FIRST], 2, 1), 2)
    ensures tr.Last().recs.Keys == {1, 2} && tr.Last().recs[1].hook == FIRST
  {
    hide Run, Enabled, Apply;
    tr := RefusedSecond();
    tr := ThenSend(tr, 1, Call);
  }

  lemma Arrived2() returns (tr: Trace)
    ensures tr.Valid() && NoReplyScene(tr.Last(), Ready(2, 1), Dequeuing(1), Queue([FIRST], 2, 1), 2)
    ensures 1 in tr.Last().recs && tr.Last().recs[1].hook == FIRST
  {
    hide Run, Enabled, Apply;
    tr := Retried();
    tr := ThenServe(tr, 2, BeginReceive(1, 1));
    tr := ThenServe(tr, 2, SeeReady);
  }

  lemma Drained() returns (tr: Trace)
    ensures tr.Valid() && NoReplyScene(tr.Last(), Ready(2, 1), Received(1, 1), Queue([], 1, 0), 2)
    ensures 1 in tr.Last().recs && tr.Last().recs[1].hook == FIRST
  {
    hide Run, Enabled, Apply;
    tr := Arrived2();
    ReceiveStep(tr.Last(), 2, 1, 1);
    hide DoReceive;
    tr := ThenServe(tr, 2, Receive);
  }

  lemma Emptied() returns (tr: Trace)
    ensures tr.Valid() && NoReplyScene(tr.Last(), Ready(2, 1), Idle, Queue([], 1, 0), 2)
  {
    hide Run, Enabled, Apply;
    tr := Drained();
    tr := ThenServe(tr, 2, FreeReceived);
    tr := ThenSend(tr, 2, Release);
  }

  /** The limit is reached, a no-reply message is refused, and the queue is drained: the next
      MsgReceive does not wait on the empty queue and answers ETIMEDOUT at once. */
  lemma ReceivesNothingAtOnce() returns (tr: Trace)
    ensures tr.Valid() && |tr.steps| > 3
    ensures tr.steps[|tr.steps| - 3..] == [Serve(2, BeginReceive(1, 1)), Serve(2, SeeReady), Serve(2, ReceiveNone)]
    ensures 1 in tr.Last().chans && tr.Last().chans[1].h.q.waiting == [] && Waiting(tr.Last(), 1)
  {
    hide Run, Enabled, Apply;
    tr := Emptied();
    NotEmpty(tr);
    tr := ThenServe(tr, 2, BeginReceive(1, 1));
    tr := ThenServe(tr, 2, SeeReady);
    tr := ThenServe(tr, 2, ReceiveNone);
  }

  lemma NotEmpty(tr: Trace)
    requires tr.Valid() && tr.Last().threads.Keys == {1, 2}
    ensures |tr.steps| > 0
  {
    assert 1 in tr.Last().threads;
  }
}

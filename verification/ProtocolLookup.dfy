/** On which pending list an interrupted sender looks for its record. */
module ProtocolLookup {
  import opened ChannelQueue
  import opened Protocol
  import opened ProtocolInv
  import opened ProtocolThreads
  import opened ProtocolSteps
  import opened ProtocolTheorems
  import opened ProtocolExits
  import opened ProtocolLaws

  lemma OnePid(s: State)
    requires Inv(s)
    ensures PidsUnique(s)
  {
  }

  /** The interrupted sender that has found a process takes its pending record back exactly when
      this process is the one whose list has it. */
  lemma RightList(states: seq<State>, steps: seq<Step>, i: nat, t: nat)
    requires Run(states, steps) && i < |states| && t in states[i].threads && states[i].threads[t].pc.Taking?
    ensures var s, pc := states[i], states[i].threads[t].pc;
            pc.rec in s.recs && (s.recs[pc.rec].place.OnPending? ==> (CanWithdrawPending(s, t) <==> pc.target == s.recs[pc.rec].place.entry))
  {
    var s, pc := states[i], states[i].threads[t].pc;
    hide Inv, Run;
    Reachable(states, steps, i);
    Instances(s, t, pc.rec, 0, pc.target);
    if s.recs[pc.rec].place.OnPending? {
      PendingById(s, pc.target, s.recs[pc.rec].hook.rcvid);
      OneRcvid(s);
    }
  }

  /** The process whose channel a record was sent to. */
  function Receiver(s: State, m: nat): nat {
    if m in s.recs && s.recs[m].via.chid in s.chans then s.chans[s.recs[m].via.chid].owner else 0
  }

  lemma FindsReceiver(s: State, t: nat, x: nat)
    requires Inv(s) && CanFindReceiver(s, t, x)
    ensures var e := Receiver(s, PcOf(s, t).rec);
            e in s.procs && (x == e <==> s.procs[e].fd.Open?)
  {
    hide Inv;
    Instances(s, t, PcOf(s, t).rec, 0, 0);
    OnePid(s);
  }

  /** Step `i` is where thread `t`, which is about to take its record at `j`, looked the process up,
      and it has done nothing else since. */
  ghost predicate LooksUp(states: seq<State>, steps: seq<Step>, i: nat, j: nat, t: nat)
    requires i < |steps| && i < |states| && j < |states|
  {
    && PcOf(states[j], t).Taking? && (forall k :: i < k < j && k < |steps| ==> !ByThread(steps[k], t))
    && var pc := PcOf(states[j], t);
       var e := Receiver(states[j], pc.rec);
       && steps[i] == Leave(t, FindReceiver(pc.target))
       && e in states[i].procs && (pc.target == e <==> states[i].procs[e].fd.Open?)
  }

  lemma LooksUpNow(s: State, a: Step, t: nat)
    requires Inv(s) && Enabled(s, a) && ByThread(a, t) && PcOf(Apply(s, a), t).Taking?
    ensures var pc := PcOf(Apply(s, a), t);
            var e := Receiver(Apply(s, a), pc.rec);
            a == Leave(t, FindReceiver(pc.target)) && e in s.procs && (pc.target == e <==> s.procs[e].fd.Open?)
  {
    hide Inv, NoProcess;
    OnlyFinding(s, a, t);
    FindsReceiver(s, t, a.leave.x);
  }

  /** Only the lookup makes a sender hold the receiving process. */
  lemma OnlyFinding(s: State, a: Step, t: nat)
    requires Enabled(s, a) && ByThread(a, t) && PcOf(Apply(s, a), t).Taking?
    ensures a.Leave? && a.leave.FindReceiver?
  {
    hide EnabledSend, EnabledLeave, EnabledServe, ApplySend, ApplyLeave, ApplyServe;
    match a
    case Send(_, x) => SendsFindNone(s, t, x);
    case Leave(_, x) => OthersFindNone(s, t, x);
    case Serve(_, x) => ServesFindNone(s, t, x);
  }

  lemma SendsFindNone(s: State, t: nat, a: SendStep)
    requires EnabledSend(s, t, a)
    ensures !PcOf(ApplySend(s, t, a), t).Taking?
  {
    hide HAdd;
  }

  lemma OthersFindNone(s: State, t: nat, a: LeaveStep)
    requires EnabledLeave(s, t, a) && PcOf(ApplyLeave(s, t, a), t).Taking?
    ensures a.FindReceiver?
  {
    hide IndexOf, RemoveAt, HWithdraw;
  }

  lemma ServesFindNone(s: State, t: nat, a: ServeStep)
    requires EnabledServe(s, t, a)
    ensures !PcOf(ApplyServe(s, t, a), t).Taking?
  {
    hide IndexOf, RemoveAt, HTake;
  }

  lemma SameReceiver(s: State, a: Step, m: nat)
    requires Inv(s) && Enabled(s, a) && m in s.recs && s.recs[m].via.chid in s.chans
    ensures Receiver(Apply(s, a), m) == Receiver(s, m)
  {
    Instances(s, 0, 0, s.nextChid + 1, 0);
    hide Inv, Enabled, Apply;
    StepRec(s, a, m);
    StepOwners(s, a);
  }

  /** Which process that is was decided when it was looked up by pid: the right one if and only if
      the receiver had its file open at that step. A receiver that closed its file, with a poll file
      open, keeps its pending list, and its pid may belong to a new entry by then. */
  lemma {:induction false} FoundIffOpen(states: seq<State>, steps: seq<Step>, j: nat, t: nat)
    requires Run(states, steps) && j < |states| && t in states[j].threads && states[j].threads[t].pc.Taking?
    ensures exists i :: 0 <= i < j && LooksUp(states, steps, i, j, t)
    decreases j
  {
    hide Enabled, Apply, Inv;
    if j > 0 {
      var s, a, s' := states[j - 1], steps[j - 1], states[j];
      Reachable(states, steps, j - 1);
      if ByThread(a, t) {
        LooksUpNow(s, a, t);
        assert LooksUp(states, steps, j - 1, j, t);
      } else {
        OtherPc(s, a, t);
        FoundIffOpen(states, steps, j - 1, t);
        var i :| 0 <= i < j - 1 && LooksUp(states, steps, i, j - 1, t);
        Instances(s, t, s.threads[t].pc.rec, 0, 0);
        SameReceiver(s, a, s.threads[t].pc.rec);
        assert LooksUp(states, steps, i, j, t);
      }
    }
  }

  /** The record is pending with its receiver, which is the process looked for at step `i`. */
  lemma LookedUpThere(states: seq<State>, steps: seq<Step>, i: nat, j: nat, t: nat)
    requires Run(states, steps) && i < j < |states| && PcOf(states[j], t).Taking? && LooksUp(states, steps, i, j, t)
    ensures var s, pc := states[j], PcOf(states[j], t);
            pc.rec in s.recs && (s.recs[pc.rec].place.OnPending? ==> s.recs[pc.rec].place.entry == Receiver(s, pc.rec))
  {
    hide Run, Inv, LooksUp;
    Reachable(states, steps, j);
    Instances(states[j], t, PcOf(states[j], t).rec, 0, 0);
  }

  /** So an interrupted sender whose record is pending takes it back if and only if the receiver had
      its file open when the sender looked for it, which is the last thing the sender did. */
  lemma WithdrawsIffOpen(states: seq<State>, steps: seq<Step>, j: nat, t: nat)
    requires Run(states, steps) && j < |states| && t in states[j].threads && states[j].threads[t].pc.Taking?
    ensures var s, pc := states[j], states[j].threads[t].pc;
            pc.rec in s.recs &&
            (s.recs[pc.rec].place.OnPending? ==>
               exists i :: 0 <= i < j && steps[i] == Leave(t, FindReceiver(pc.target))
                           && (forall k :: i < k < j ==> !ByThread(steps[k], t))
                           && s.recs[pc.rec].place.entry in states[i].procs
                           && (CanWithdrawPending(s, t) <==> states[i].procs[s.recs[pc.rec].place.entry].fd.Open?))
  {
    hide Inv, Run, Enabled, Apply, CanWithdrawPending, Receiver, ByThread, FoundPending;
    RightList(states, steps, j, t);
    FoundIffOpen(states, steps, j, t);
    RunLength(states, steps);
    var i :| 0 <= i < j && LooksUp(states, steps, i, j, t);
    LookedUpThere(states, steps, i, j, t);
  }

  lemma RunLength(states: seq<State>, steps: seq<Step>)
    requires Run(states, steps)
    ensures |states| == |steps| + 1
  {
  }
}

/** What a step of one thread leaves alone. */
module ProtocolThreads {
  import opened ChannelQueue
  import opened Protocol

  predicate ByThread(a: Step, t: nat) {
    !a.Env? && a.t == t
  }

  /** Other threads stay where they are, and the connections of all processes stay. */
  ghost predicate Only(s: State, s': State, t: nat) {
    && (forall x :: x != t ==> PcOf(s', x) == PcOf(s, x))
    && (forall e :: e in s'.procs ==> e in s.procs && s'.procs[e].conns == s.procs[e].conns)
    && (forall e :: e in s.procs ==> e in s'.procs)
  }

  lemma SendOnly(s: State, t: nat, a: SendStep)
    requires EnabledSend(s, t, a)
    ensures Only(s, ApplySend(s, t, a), t)
  {
    hide HAdd;
  }

  lemma LeaveOnly(s: State, t: nat, a: LeaveStep)
    requires EnabledLeave(s, t, a)
    ensures Only(s, ApplyLeave(s, t, a), t)
  {
    hide IndexOf, RemoveAt, HWithdraw;
  }

  lemma ServeOnly(s: State, t: nat, a: ServeStep)
    requires EnabledServe(s, t, a)
    ensures Only(s, ApplyServe(s, t, a), t)
  {
    hide IndexOf, RemoveAt, HTake;
  }

  lemma ThreadOnly(s: State, a: Step)
    requires Enabled(s, a) && !a.Env?
    ensures Only(s, Apply(s, a), a.t)
  {
    hide EnabledSend, EnabledLeave, EnabledServe, ApplySend, ApplyLeave, ApplyServe, Only;
    match a
    case Send(t, x) => SendOnly(s, t, x);
    case Leave(t, x) => LeaveOnly(s, t, x);
    case Serve(t, x) => ServeOnly(s, t, x);
  }

  lemma OtherPc(s: State, a: Step, t: nat)
    requires Enabled(s, a) && !ByThread(a, t)
    ensures PcOf(Apply(s, a), t) == PcOf(s, t)
  {
    hide EnabledEnv, ApplyEnv, PcOf;
    if a.Env? {
      EnvPc(s, a.env, t);
    } else {
      hide Enabled, Apply;
      ThreadOnly(s, a);
    }
  }

  lemma EnvPc(s: State, a: EnvStep, t: nat)
    requires EnabledEnv(s, a)
    ensures PcOf(ApplyEnv(s, a), t) == PcOf(s, t)
  {
  }

  /** Channels stay with their processes. */
  ghost predicate SameOwners(s: State, s': State) {
    forall c :: c in s.chans ==> c in s'.chans && s'.chans[c].owner == s.chans[c].owner
  }

  lemma EnvOwners(s: State, a: EnvStep)
    requires EnabledEnv(s, a) && s.nextChid + 1 !in s.chans
    ensures SameOwners(s, ApplyEnv(s, a))
  {
  }

  lemma SendOwners(s: State, t: nat, a: SendStep)
    requires EnabledSend(s, t, a)
    ensures SameOwners(s, ApplySend(s, t, a))
  {
    hide HAdd;
  }

  lemma LeaveOwners(s: State, t: nat, a: LeaveStep)
    requires EnabledLeave(s, t, a)
    ensures SameOwners(s, ApplyLeave(s, t, a))
  {
    hide IndexOf, RemoveAt, HWithdraw;
  }

  lemma ServeOwners(s: State, t: nat, a: ServeStep)
    requires EnabledServe(s, t, a)
    ensures SameOwners(s, ApplyServe(s, t, a))
  {
    hide IndexOf, RemoveAt, HTake;
  }

  lemma StepOwners(s: State, a: Step)
    requires Enabled(s, a) && s.nextChid + 1 !in s.chans
    ensures SameOwners(s, Apply(s, a))
  {
    hide EnabledEnv, EnabledSend, EnabledLeave, EnabledServe, ApplyEnv, ApplySend, ApplyLeave, ApplyServe, SameOwners;
    match a
    case Env(x) => EnvOwners(s, x);
    case Send(t, x) => SendOwners(s, t, x);
    case Leave(t, x) => LeaveOwners(s, t, x);
    case Serve(t, x) => ServeOwners(s, t, x);
  }
}

/** Opening, closing and tearing down keep the invariant. */
module ProtocolTeardown {
  import opened ChannelQueue
  import opened Connections
  import opened Protocol
  import opened ProtocolInv
  import opened ProtocolSteps

  lemma KeepSpawn(s: State, s': State, t: nat)
    requires Inv(s) && CanSpawn(s, t) && s' == DoSpawn(s, t)
    ensures Inv(s')
  {
    hide Inv;
    NoNull(s);
    forall x | x > 0
      ensures |ChanHolders(s'.threads, x)| == |ChanHolders(s.threads, x)|
      ensures |EntryHolders(s'.threads, x)| == |EntryHolders(s.threads, x)|
    {
      MoveChan(s.threads, t, s'.threads[t], x);
      MoveEntry(s.threads, t, s'.threads[t], x);
    }
    Frame(s, s', t, 0, 0, 0);
  }

  lemma KeepUseFile(s: State, s': State, t: nat, poll: bool)
    requires Inv(s) && CanUseFile(s, t) && s' == DoUseFile(s, t, poll)
    ensures Inv(s')
  {
    hide Inv, Local;
    NoNull(s);
    Instances(s, t, 0, 0, 0);
    OneIsLocal(s, s', t, 0, 0, 0);
    Frame(s, s', t, 0, 0, 0);
  }

  lemma KeepOpenFile(s: State, s': State, e: nat, pid: nat)
    requires Inv(s) && CanOpenFile(s, e, pid) && s' == DoOpenFile(s, e, pid)
    ensures Inv(s')
  {
    NoHolders(s, e);
    hide Inv;
    NoNull(s);
    Frame(s, s', 0, 0, 0, e);
  }

  lemma NoHolders(s: State, e: nat)
    requires Inv(s) && e !in s.procs && e > 0
    ensures EntryHolders(s.threads, e) == {}
  {
    forall t | t in s.threads
      ensures HeldEntry(s.threads[t].pc) != e
    {
      assert ThreadOk(s, t);
    }
  }

  lemma KeepOpenPoll(s: State, s': State, e: nat)
    requires Inv(s) && CanOpenPoll(s, e) && s' == DoOpenPoll(s, e)
    ensures Inv(s')
  {
    hide Inv;
    Instances(s, 0, 0, 0, e);
    NoNull(s);
    Frame(s, s', 0, 0, 0, e);
  }

  lemma KeepClosePoll(s: State, s': State, e: nat)
    requires Inv(s) && CanClosePoll(s, e) && s' == DoClosePoll(s, e)
    ensures Inv(s')
  {
    hide Inv;
    Instances(s, 0, 0, 0, e);
    NoNull(s);
    Frame(s, s', 0, 0, 0, e);
  }

  lemma KeepUnlink(s: State, s': State, e: nat)
    requires Inv(s) && CanUnlink(s, e) && s' == DoUnlink(s, e)
    ensures Inv(s')
  {
    hide Inv;
    Instances(s, 0, 0, 0, e);
    NoNull(s);
    Frame(s, s', 0, 0, 0, e);
  }

  lemma KeepClose(s: State, s': State, e: nat)
    requires Inv(s) && CanClose(s, e) && s' == DoClose(s, e)
    ensures Inv(s')
  {
    hide Inv;
    Instances(s, 0, 0, 0, e);
    NoNull(s);
    Frame(s, s', 0, 0, 0, e);
  }

  lemma KeepAttach(s: State, s': State, e: nat, coid: nat, conn: Connection)
    requires Inv(s) && CanAttach(s, e, coid, conn) && s' == DoAttach(s, e, coid, conn)
    ensures Inv(s')
  {
    hide Inv;
    Instances(s, 0, 0, 0, e);
    NoNull(s);
    Frame(s, s', 0, 0, 0, e);
  }

  lemma KeepDetach(s: State, s': State, e: nat, coid: nat)
    requires Inv(s) && CanDetach(s, e, coid) && s' == DoDetach(s, e, coid)
    ensures Inv(s')
  {
    hide Inv;
    Instances(s, 0, 0, 0, e);
    NoNull(s);
    Frame(s, s', 0, 0, 0, e);
  }

  lemma KeepLeak(s: State, s': State, c: nat)
    requires Inv(s) && CanLeak(s, c) && s' == DoLeak(s, c)
    ensures Inv(s')
  {
    hide Inv;
    Instances(s, 0, 0, c, 0);
    NoNull(s);
    Frame(s, s', 0, 0, c, 0);
  }

  lemma UnlistedLocal(s: State, s': State, e: nat, c: nat)
    requires Inv(s) && CanUnlistChannel(s, e, c) && s' == DoUnlistChannel(s, e, c)
    ensures Local(s, s', 0, 0, c, e)
  {
    hide Inv, ChanHolders, EntryHolders;
    NoNull(s);
  }

  lemma KeepUnlistChannel(s: State, s': State, e: nat, c: nat)
    requires Inv(s) && CanUnlistChannel(s, e, c) && s' == DoUnlistChannel(s, e, c)
    ensures Inv(s')
  {
    hide Inv, Local;
    Instances(s, 0, 0, c, e);
    NoNull(s);
    UnlistedLocal(s, s', e, c);
    Frame(s, s', 0, 0, c, e);
  }

  lemma KeepCreateChannel(s: State, s': State, e: nat)
    requires Inv(s) && CanCreateChannel(s, e) && s' == DoCreateChannel(s, e)
    ensures Inv(s')
  {
    hide Inv, Ok;
    var c := s.nextChid + 1;
    NewChannel(s, e, c);
    Instances(s, 0, 0, 0, e);
    NoNull(s);
    NewOk(s.limit);
    Frame(s, s', 0, 0, c, e);
  }

  /** Nobody knows the next channel id. */
  lemma NewChannel(s: State, e: nat, c: nat)
    requires Inv(s) && c > s.nextChid && e in s.procs
    ensures c !in s.chans && c !in s.procs[e].channels && ChanHolders(s.threads, c) == {}
  {
    assert c in s.chans ==> ChanOk(s, c);
    assert ProcOk(s, e);
    forall t | t in s.threads
      ensures HeldChan(s.threads[t].pc) != c
    {
      assert ThreadOk(s, t);
    }
  }

  // ----- Cleaning up a list -----

  lemma FirstLeaves(list: seq<Hook>)
    requires list != [] && Distinct(list)
    ensures list[0] in list && Distinct(list[1..])
    ensures forall g :: g in list[1..] <==> g in list && g.rec != list[0].rec
  {
    RemoveAtFacts(list, 0);
    assert RemoveAt(list, 0) == list[1..];
  }

  lemma CleanRec(s: State, s': State, m: nat)
    requires m in s.recs && m in s'.recs && RecOk(s, m) && s'.recs[m] == CleanUp(s.recs[m]) && s'.nextRcvid == s.nextRcvid
    requires s.recs[m].place.OnPending? || (s.recs[m].place.InQueue? && (s.recs[m].Normal() ==> s.recs[m].exit.Exit?))
    requires s'.threads == s.threads && (s.recs[m].hook.task in s.threads ==> s.threads[s.recs[m].hook.task].awake)
    requires s'.chans.Keys == s.chans.Keys && (forall c :: c in s.chans ==> s'.chans[c].owner == s.chans[c].owner)
    requires s'.procs.Keys == s.procs.Keys && (forall e :: e in s.procs ==> s'.procs[e].pid == s.procs[e].pid)
    ensures RecOk(s', m) && RecMove(0, s.recs[m], s'.recs[m])
  {
  }

  lemma KeepCleanPending(s: State, s': State, e: nat)
    requires Inv(s) && CanCleanPending(s, e) && s' == DoCleanPending(s, e)
    ensures Inv(s')
  {
    hide Inv, DoCleanPending;
    var m := s.procs[e].pending[0].rec;
    var s1 := WakeUp(s, s.recs[m].hook.task);
    KeepWoken(s, s1);
    CleanedPendingAwake(s, s1, e, m);
    KeepCleanPendingAwake(s1, s', e, m);
  }

  lemma CleanedPendingAwake(s: State, s1: State, e: nat, m: nat)
    requires CanCleanPending(s, e) && m == s.procs[e].pending[0].rec && s1 == WakeUp(s, s.recs[m].hook.task)
    ensures CanCleanPending(s1, e) && DoCleanPending(s1, e) == DoCleanPending(s, e)
    ensures s1.recs[m].hook.task in s1.threads ==> s1.threads[s1.recs[m].hook.task].awake
    ensures DoCleanPending(s1, e).threads == s1.threads
  {
  }

  lemma KeepCleanPendingAwake(s: State, s': State, e: nat, m: nat)
    requires Inv(s) && CanCleanPending(s, e) && s' == DoCleanPending(s, e) && m == s.procs[e].pending[0].rec
    requires s.recs[m].hook.task in s.threads ==> s.threads[s.recs[m].hook.task].awake
    requires s'.threads == s.threads
    ensures Inv(s')
  {
    hide Inv, Local;
    NoNull(s);
    Instances(s, 0, m, 0, e);
    FirstLeaves(s.procs[e].pending);
    CleanRec(s, s', m);
    hide RecOk, RecMove;
    NoneIsLocal(s, s', m, 0, e);
    Frame(s, s', 0, m, 0, e);
  }

  lemma KeepUnlinkPending(s: State, s': State, e: nat)
    requires Inv(s) && CanUnlinkPending(s, e) && s' == DoUnlinkPending(s, e)
    ensures Inv(s')
  {
    hide Inv, Local;
    NoNull(s);
    Instances(s, 0, 0, 0, e);
    NoneIsLocal(s, s', 0, 0, e);
    Frame(s, s', 0, 0, 0, e);
  }

  lemma KeepFreeProcess(s: State, s': State, e: nat)
    requires Inv(s) && CanFreeProcess(s, e) && s' == DoFreeProcess(s, e)
    ensures Inv(s')
  {
    hide Inv, Local;
    NoNull(s);
    Instances(s, 0, 0, 0, e);
    NoneIsLocal(s, s', 0, 0, e);
    Frame(s, s', 0, 0, 0, e);
  }

  /** A channel without references has no blocked sender in its queue, for each of them would hold a
      reference. */
  lemma NobodyBlocked(s: State, c: nat, m: nat)
    requires Inv(s) && c in s.chans && s.chans[c].refs == 0
    requires m in s.recs && s.recs[m].place == InQueue(c) && s.recs[m].Normal()
    ensures s.recs[m].exit.Exit?
  {
    hide Inv;
    var t := s.recs[m].hook.task;
    Instances(s, t, m, c, 0);
    assert s.recs[m].exit == NotYet ==> t in ChanHolders(s.threads, c);
  }

  lemma KeepCleanQueued(s: State, s': State, c: nat)
    requires Inv(s) && CanCleanQueued(s, c) && s' == DoCleanQueued(s, c)
    ensures Inv(s')
  {
    hide Inv, DoCleanQueued;
    var m := s.chans[c].h.q.waiting[0].rec;
    var s1 := WakeUp(s, s.recs[m].hook.task);
    KeepWoken(s, s1);
    CleanedAwake(s, s1, c, m);
    KeepCleanAwake(s1, s', c, m);
  }

  /** Waking the sender first comes to the same. */
  lemma CleanedAwake(s: State, s1: State, c: nat, m: nat)
    requires CanCleanQueued(s, c) && m == s.chans[c].h.q.waiting[0].rec && s1 == WakeUp(s, s.recs[m].hook.task)
    ensures CanCleanQueued(s1, c) && DoCleanQueued(s1, c) == DoCleanQueued(s, c)
    ensures s1.recs[m].hook.task in s1.threads ==> s1.threads[s1.recs[m].hook.task].awake
    ensures DoCleanQueued(s1, c).threads == s1.threads
  {
  }

  lemma KeepCleanAwake(s: State, s': State, c: nat, m: nat)
    requires Inv(s) && CanCleanQueued(s, c) && s' == DoCleanQueued(s, c) && m == s.chans[c].h.q.waiting[0].rec
    requires s.recs[m].hook.task in s.threads ==> s.threads[s.recs[m].hook.task].awake
    requires s'.threads == s.threads
    ensures Inv(s')
  {
    hide Inv, Local, Ok;
    var list := s.chans[c].h.q.waiting;
    NoNull(s);
    Instances(s, 0, m, c, 0);
    FirstLeaves(list);
    if s.recs[m].Normal() {
      NobodyBlocked(s, c, m);
    }
    CleanRec(s, s', m);
    hide RecOk, RecMove;
    NoneIsLocal(s, s', m, c, 0);
    Frame(s, s', 0, m, c, 0);
  }

  lemma KeepUnlinkQueued(s: State, s': State, c: nat)
    requires Inv(s) && CanUnlinkQueued(s, c) && s' == DoUnlinkQueued(s, c)
    ensures Inv(s')
  {
    hide Inv, Local, Ok;
    NoNull(s);
    Instances(s, 0, 0, c, 0);
    NoneIsLocal(s, s', 0, c, 0);
    Frame(s, s', 0, 0, c, 0);
  }

  lemma KeepFreeChannel(s: State, s': State, c: nat)
    requires Inv(s) && CanFreeChannel(s, c) && s' == DoFreeChannel(s, c)
    ensures Inv(s')
  {
    hide Inv, Local, Ok;
    NoNull(s);
    Instances(s, 0, 0, c, 0);
    NoneIsLocal(s, s', 0, c, 0);
    Frame(s, s', 0, 0, c, 0);
  }
}

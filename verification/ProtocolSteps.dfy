/** Every step of a thread keeps the invariant. */
module ProtocolSteps {
  import opened ChannelQueue
  import opened Protocol
  import opened ProtocolInv

  // ----- Helpers -----

  /** A thread that holds a channel keeps it alive. */
  lemma Alive(s: State, t: nat, c: nat)
    requires t in s.threads && c in s.chans && ChanOk(s, c) && HeldChan(s.threads[t].pc) == c
    ensures s.chans[c].refs >= 1 && !s.chans[c].freed && Ok(s.chans[c].h, s.limit)
  {
    assert t in ChanHolders(s.threads, c);
  }

  /** Null is no object. */
  lemma NoNull(s: State)
    requires Inv(s)
    ensures 0 !in s.threads && 0 !in s.recs && 0 !in s.chans && 0 !in s.procs
  {
    Instances(s, 0, 0, 0, 0);
  }

  lemma OneRcvid(s: State)
    requires Inv(s)
    ensures RcvidsUnique(s)
  {
  }

  lemma HAddFacts(h: History, hook: Hook, limit: nat)
    ensures HAdd(h, hook, limit).withdrawn == h.withdrawn
    ensures HAdd(h, hook, limit).q.waiting == h.q.waiting + if Accepts(h.q, hook, limit) then [hook] else []
    ensures HAdd(h, hook, limit).accepted == h.accepted + if Accepts(h.q, hook, limit) then [hook] else []
  {
  }

  /** A record on its way to the queue has never been in one. */
  lemma EnqueueHistory(s: State, t: nat, m: nat, c: nat)
    requires Inv(s) && t in s.threads && m in s.recs && c in s.chans
    requires HeldChan(s.threads[t].pc) == c && s.recs[m].place == AtSender(t)
    ensures Ok(HAdd(s.chans[c].h, s.recs[m].hook, s.limit), s.limit)
  {
    var h, hook := s.chans[c].h, s.recs[m].hook;
    hide Inv;
    Instances(s, t, m, c, 0);
    Alive(s, t, c);
    OneRcvid(s);
    forall g | g in h.accepted
      ensures g.rec != hook.rec && (g.rcvid == hook.rcvid ==> g.rcvid == 0)
    {
      assert s.recs[g.rec].hook == g && Published(s.recs[g.rec]);
    }
    AddOk(h, hook, s.limit);
  }

  /** The rcvid of a sender that is still inside belongs to its own record only, so the search
      through the waiting list can only find that record. */
  lemma QueuedIsMine(s: State, hook: Hook, c: nat)
    requires Inv(s) && c in s.chans
    requires hook.rec in s.recs && s.recs[hook.rec].hook == hook && hook.rcvid > 0
    ensures forall g :: g in s.chans[c].h.q.waiting && g.rcvid == hook.rcvid ==> g == hook
  {
    hide Inv;
    Instances(s, 0, 0, c, 0);
    OneRcvid(s);
    forall g | g in s.chans[c].h.q.waiting && g.rcvid == hook.rcvid
      ensures g == hook
    {
      assert s.recs[g.rec].hook == g;
    }
  }

  /** The same for a pending list: taking a record off it by its rcvid removes exactly that
      record. */
  lemma PendingIsMine(s: State, e: nat, hook: Hook)
    requires Inv(s) && e in s.procs && FoundPending(s, e, hook.rcvid)
    requires hook.rec in s.recs && s.recs[hook.rec].hook == hook && hook.rcvid > 0
    ensures hook in s.procs[e].pending && s.recs[hook.rec].place == OnPending(e)
    ensures var list := Unpend(s, e, hook.rcvid).procs[e].pending;
            Distinct(list) && (forall g :: g in list <==> g in s.procs[e].pending && g.rec != hook.rec)
  {
    var list, i := s.procs[e].pending, IndexOf(s.procs[e].pending, hook.rcvid);
    hide Inv, RemoveAt;
    Instances(s, 0, 0, 0, e);
    OneRcvid(s);
    assert list[i] in list;
    assert s.recs[list[i].rec].hook == list[i];
    RemoveAtFacts(list, i);
  }

  lemma TakeFacts(h: History, limit: nat)
    requires Ok(h, limit) && h.q.waiting != []
    ensures Ok(HTake(h), limit)
    ensures HTake(h).q.waiting == h.q.waiting[1..]
    ensures h.q.waiting[0] in h.q.waiting
    ensures forall g :: g in h.q.waiting[1..] <==> g in h.q.waiting && g.rec != h.q.waiting[0].rec
  {
    TakeOk(h, limit);
    WaitingFacts(h);
    RemoveAtFacts(h.q.waiting, 0);
    assert RemoveAt(h.q.waiting, 0) == h.q.waiting[1..];
  }

  /** A thread changes a queue it holds, and the record that joins or leaves it. */
  lemma QueueStep(s: State, s': State, t: nat, m: nat, c: nat, h: History, r: Rec, pc: Pc)
    requires t in s.threads && m in s.recs && c in s.chans && s' == SetPc(SetRec(SetHistory(s, c, h), m, r), t, pc)
    requires RecOf(s.threads[t].pc) in {0, m} && RecOf(pc) in {0, m} && HeldChan(s.threads[t].pc) == HeldChan(pc) == c
    requires HeldEntry(s.threads[t].pc) == HeldEntry(pc) == 0
    requires RecOk(s, m) && RecMove(t, s.recs[m], r)
    requires r.place != s.recs[m].place ==> !s.recs[m].place.OnPending? && (s.recs[m].place.InQueue? ==> s.recs[m].place == InQueue(c))
    requires forall g :: g in s.chans[c].h.q.waiting && g.rec != m ==> g in h.q.waiting
    ensures Local(s, s', t, m, c, 0) && |ChanHolders(s'.threads, c)| == |ChanHolders(s.threads, c)|
  {
    hide Local, RecOk, RecMove, HeldChan, HeldEntry, RecOf;
    OneIsLocal(s, s', t, m, c, 0);
  }

  // ----- Sending -----

  lemma KeepBeginSend(s: State, s': State, t: nat, e: nat, m: nat, kind: Kind, coid: nat)
    requires Inv(s) && CanBeginSend(s, t, e, m, kind, coid) && s' == DoBeginSend(s, t, e, m, kind, coid)
    ensures Inv(s')
  {
    hide Inv, SameCounts, ChanOk, ProcOk;
    NoNull(s);
    Instances(s, t, m, 0, 0);
    Move(s.threads, t, s'.threads[t], 0, 0);
    Frame(s, s', t, m, 0, 0);
  }

  lemma KeepFindTarget(s: State, s': State, t: nat, x: nat)
    requires Inv(s) && CanFindTarget(s, t, x) && s' == DoFindTarget(s, t, x)
    ensures Inv(s')
  {
    hide Inv, Local;
    NoNull(s);
    var m := PcOf(s, t).rec;
    Instances(s, t, m, 0, x);
    OneIsLocal(s, s', t, m, 0, x);
    Frame(s, s', t, m, 0, x);
  }

  lemma KeepNoTarget(s: State, s': State, t: nat)
    requires Inv(s) && CanNoTarget(s, t) && s' == DoNoTarget(s, t)
    ensures Inv(s')
  {
    hide Inv, Local;
    NoNull(s);
    var m := PcOf(s, t).rec;
    Instances(s, t, m, 0, 0);
    OneIsLocal(s, s', t, m, 0, 0);
    Frame(s, s', t, m, 0, 0);
  }

  lemma FindChanLocal(s: State, s': State, t: nat, m: nat, x: nat, c: nat)
    requires Inv(s) && CanFindChan(s, t) && s' == DoFindChan(s, t) && m == PcOf(s, t).rec && x == PcOf(s, t).target && c == s.recs[m].via.chid
    ensures Local(s, s', t, m, c, x)
    ensures |ChanHolders(s'.threads, c)| == |ChanHolders(s.threads, c)| + 1 && |EntryHolders(s'.threads, x)| == |EntryHolders(s.threads, x)| - 1
  {
    hide Inv, Local;
    NoNull(s);
    Instances(s, t, m, 0, 0);
    OneIsLocal(s, s', t, m, c, x);
  }

  lemma FindChanTouched(s: State, s': State, t: nat, m: nat, x: nat, c: nat)
    requires Inv(s) && CanFindChan(s, t) && s' == DoFindChan(s, t) && m == PcOf(s, t).rec && x == PcOf(s, t).target && c == s.recs[m].via.chid
    ensures t in s'.threads && ThreadOk(s', t) && m in s'.recs && RecOk(s', m)
  {
    hide Inv;
    NoNull(s);
    Instances(s, t, m, c, x);
  }

  lemma FindChanChan(s: State, s': State, t: nat, m: nat, x: nat, c: nat)
    requires Inv(s) && CanFindChan(s, t) && s' == DoFindChan(s, t) && m == PcOf(s, t).rec && x == PcOf(s, t).target && c == s.recs[m].via.chid
    ensures c in s'.chans && ChanOk(s', c)
  {
    hide Inv, ThreadOk, ChanOk;
    NoNull(s);
    Instances(s, t, m, c, x);
    Move(s.threads, t, s'.threads[t], c, x);
    StillOpen(s, c);
    hide RecOk, ProcOk;
    Referenced(s, s', c);
  }

  /** A channel that is on a list or held is not torn down, and it counts its references. */
  lemma StillOpen(s: State, c: nat)
    requires c in s.chans && ChanOk(s, c)
    ensures s.chans[c].owner in s.procs && c > 0
    ensures s.chans[c].refs == Bit(Listed(s, c)) + s.chans[c].leaked + |ChanHolders(s.threads, c)|
    ensures s.chans[c].closing ==> s.chans[c].refs == 0
  {
  }

  /** Taking or dropping a reference keeps a channel that is not torn down sound. */
  lemma Referenced(s: State, s': State, c: nat)
    requires c in s.chans && ChanOk(s, c) && c in s'.chans && s'.chans[c] == s.chans[c].(refs := s'.chans[c].refs)
    requires !s.chans[c].closing && s'.nextChid == s.nextChid && s'.limit == s.limit && s.chans[c].owner in s'.procs
    requires s'.chans[c].refs == Bit(Listed(s', c)) + s'.chans[c].leaked + |ChanHolders(s'.threads, c)|
    requires forall x :: x in s.recs ==>
               && x in s'.recs && s'.recs[x].hook == s.recs[x].hook
               && s'.recs[x].place == s.recs[x].place && s'.recs[x].receiverChid == s.recs[x].receiverChid
    ensures ChanOk(s', c)
  {
    hide Ok, Distinct, Listed, ChanHolders;
  }

  lemma FindChanProc(s: State, s': State, t: nat, m: nat, x: nat, c: nat)
    requires Inv(s) && CanFindChan(s, t) && s' == DoFindChan(s, t) && m == PcOf(s, t).rec && x == PcOf(s, t).target && c == s.recs[m].via.chid
    ensures x in s'.procs && ProcOk(s', x)
  {
    hide Inv, Local;
    NoNull(s);
    Instances(s, t, m, c, x);
    FindChanLocal(s, s', t, m, x, c);
  }

  lemma KeepFindChan(s: State, s': State, t: nat)
    requires Inv(s) && CanFindChan(s, t) && s' == DoFindChan(s, t)
    ensures Inv(s')
  {
    hide Inv, Local, ThreadOk, RecOk, ChanOk, ProcOk;
    var m := PcOf(s, t).rec;
    var x := PcOf(s, t).target;
    var c := s.recs[m].via.chid;
    NoNull(s);
    FindChanLocal(s, s', t, m, x, c);
    FindChanTouched(s, s', t, m, x, c);
    FindChanChan(s, s', t, m, x, c);
    FindChanProc(s, s', t, m, x, c);
    Frame(s, s', t, m, c, x);
  }

  lemma NoChanLocal(s: State, s': State, t: nat, m: nat, x: nat)
    requires Inv(s) && CanNoChan(s, t) && s' == DoNoChan(s, t) && m == PcOf(s, t).rec && x == PcOf(s, t).target
    ensures Local(s, s', t, m, 0, x) && |EntryHolders(s'.threads, x)| == |EntryHolders(s.threads, x)| - 1
  {
    hide Inv, Local;
    NoNull(s);
    Instances(s, t, m, 0, 0);
    OneIsLocal(s, s', t, m, 0, x);
  }

  lemma NoChanTouched(s: State, s': State, t: nat, m: nat, x: nat)
    requires Inv(s) && CanNoChan(s, t) && s' == DoNoChan(s, t) && m == PcOf(s, t).rec && x == PcOf(s, t).target
    ensures t in s'.threads && ThreadOk(s', t) && m in s'.recs && RecOk(s', m)
  {
    hide Inv;
    NoNull(s);
    Instances(s, t, m, 0, x);
  }

  lemma NoChanProc(s: State, s': State, t: nat, m: nat, x: nat)
    requires Inv(s) && CanNoChan(s, t) && s' == DoNoChan(s, t) && m == PcOf(s, t).rec && x == PcOf(s, t).target
    ensures x in s'.procs && ProcOk(s', x)
  {
    hide Inv, Local;
    NoNull(s);
    Instances(s, t, m, 0, x);
    NoChanLocal(s, s', t, m, x);
  }

  lemma KeepNoChan(s: State, s': State, t: nat)
    requires Inv(s) && CanNoChan(s, t) && s' == DoNoChan(s, t)
    ensures Inv(s')
  {
    hide Inv, Local, ThreadOk, RecOk, ChanOk, ProcOk;
    var m := PcOf(s, t).rec;
    var x := PcOf(s, t).target;
    NoNull(s);
    NoChanLocal(s, s', t, m, x);
    NoChanTouched(s, s', t, m, x);
    NoChanProc(s, s', t, m, x);
    Frame(s, s', t, m, 0, x);
  }

  lemma KeepArm(s: State, s': State, t: nat)
    requires Inv(s) && CanArm(s, t) && s' == DoArm(s, t)
    ensures Inv(s')
  {
    hide Inv, Local;
    NoNull(s);
    var m := PcOf(s, t).rec;
    Instances(s, t, m, 0, 0);
    OneIsLocal(s, s', t, m, 0, 0);
    Frame(s, s', t, m, 0, 0);
  }

  lemma KeepAccepted(s: State, s': State, t: nat, m: nat, c: nat)
    requires Inv(s) && CanEnqueue(s, t) && s' == DoEnqueue(s, t)
    requires PcOf(s, t).rec == m && PcOf(s, t).chan == c
    requires Accepts(s.chans[c].h.q, s.recs[m].hook, s.limit)
    ensures Inv(s')
  {
    hide Inv, Local, Ok, HAdd, Accepts;
    NoNull(s);
    Instances(s, t, m, c, 0);
    Alive(s, t, c);
    EnqueueHistory(s, t, m, c);
    HAddFacts(s.chans[c].h, s.recs[m].hook, s.limit);
    QueueStep(s, s', t, m, c, HAdd(s.chans[c].h, s.recs[m].hook, s.limit), s'.recs[m], s'.threads[t].pc);
    hide ChanHolders, EntryHolders;
    Frame(s, s', t, m, c, 0);
  }

  lemma KeepRefused(s: State, s': State, t: nat, m: nat, c: nat)
    requires Inv(s) && CanEnqueue(s, t) && s' == DoEnqueue(s, t)
    requires PcOf(s, t).rec == m && PcOf(s, t).chan == c
    requires !Accepts(s.chans[c].h.q, s.recs[m].hook, s.limit)
    ensures Inv(s')
  {
    hide Inv, Local, Ok, HAdd;
    NoNull(s);
    Instances(s, t, m, c, 0);
    Alive(s, t, c);
    EnqueueHistory(s, t, m, c);
    HAddFacts(s.chans[c].h, s.recs[m].hook, s.limit);
    OneIsLocal(s, s', t, m, c, 0);
    Frame(s, s', t, m, c, 0);
  }

  lemma KeepEnqueue(s: State, s': State, t: nat)
    requires Inv(s) && CanEnqueue(s, t) && s' == DoEnqueue(s, t)
    ensures Inv(s')
  {
    var m, c := PcOf(s, t).rec, PcOf(s, t).chan;
    if Accepts(s.chans[c].h.q, s.recs[m].hook, s.limit) {
      KeepAccepted(s, s', t, m, c);
    } else {
      KeepRefused(s, s', t, m, c);
    }
  }

  lemma KeepGiveUp(s: State, s': State, t: nat)
    requires Inv(s) && CanGiveUp(s, t) && s' == DoGiveUp(s, t)
    ensures Inv(s')
  {
    hide Inv, Local;
    NoNull(s);
    var m := PcOf(s, t).rec;
    Instances(s, t, m, 0, 0);
    OneIsLocal(s, s', t, m, 0, 0);
    Frame(s, s', t, m, 0, 0);
  }

  lemma ReleaseLocal(s: State, s': State, t: nat, c: nat, m: nat)
    requires Inv(s) && CanRelease(s, t) && s' == DoRelease(s, t) && c == PcOf(s, t).chan && m == PcOf(s, t).rec
    ensures Local(s, s', t, m, c, 0) && |ChanHolders(s'.threads, c)| == |ChanHolders(s.threads, c)| - 1
  {
    hide Inv, Local;
    NoNull(s);
    Instances(s, t, m, 0, 0);
    OneIsLocal(s, s', t, m, c, 0);
  }

  lemma ReleaseTouched(s: State, s': State, t: nat, c: nat, m: nat)
    requires Inv(s) && CanRelease(s, t) && s' == DoRelease(s, t) && c == PcOf(s, t).chan && m == PcOf(s, t).rec
    ensures t in s'.threads && ThreadOk(s', t) && (m in s'.recs ==> RecOk(s', m))
  {
    hide Inv;
    NoNull(s);
    Instances(s, t, m, 0, 0);
  }

  lemma ReleaseChan(s: State, s': State, t: nat, c: nat, m: nat)
    requires Inv(s) && CanRelease(s, t) && s' == DoRelease(s, t) && c == PcOf(s, t).chan && m == PcOf(s, t).rec
    ensures c in s'.chans && ChanOk(s', c)
  {
    hide Inv, ThreadOk, ChanOk;
    NoNull(s);
    Instances(s, t, m, c, 0);
    Alive(s, t, c);
    Move(s.threads, t, s'.threads[t], c, 0);
    StillOpen(s, c);
    hide RecOk;
    Referenced(s, s', c);
  }

  lemma KeepRelease(s: State, s': State, t: nat)
    requires Inv(s) && CanRelease(s, t) && s' == DoRelease(s, t)
    ensures Inv(s')
  {
    hide Inv, Local, ThreadOk, RecOk, ChanOk, ProcOk;
    var c := PcOf(s, t).chan;
    var m := PcOf(s, t).rec;
    NoNull(s);
    ReleaseLocal(s, s', t, c, m);
    ReleaseTouched(s, s', t, c, m);
    ReleaseChan(s, s', t, c, m);
    Frame(s, s', t, m, c, 0);
  }

  // ----- Coming back -----

  lemma LeaveWokenLocal(s: State, s': State, t: nat, m: nat)
    requires Inv(s) && CanLeaveWoken(s, t) && s' == DoLeaveWoken(s, t) && m == PcOf(s, t).rec
    ensures Local(s, s', t, m, 0, 0)
  {
    hide Inv, Local;
    NoNull(s);
    Instances(s, t, m, 0, 0);
    OneIsLocal(s, s', t, m, 0, 0);
  }

  lemma LeaveWokenTouched(s: State, s': State, t: nat, m: nat)
    requires Inv(s) && CanLeaveWoken(s, t) && s' == DoLeaveWoken(s, t) && m == PcOf(s, t).rec
    ensures t in s'.threads && ThreadOk(s', t) && (m in s'.recs ==> RecOk(s', m))
  {
    hide Inv;
    NoNull(s);
    Instances(s, t, m, 0, 0);
  }

  lemma KeepLeaveWoken(s: State, s': State, t: nat)
    requires Inv(s) && CanLeaveWoken(s, t) && s' == DoLeaveWoken(s, t)
    ensures Inv(s')
  {
    hide Inv, Local, ThreadOk, RecOk, ChanOk, ProcOk;
    var m := PcOf(s, t).rec;
    NoNull(s);
    LeaveWokenLocal(s, s', t, m);
    LeaveWokenTouched(s, s', t, m);
    Frame(s, s', t, m, 0, 0);
  }

  lemma KeepSleepOn(s: State, s': State, t: nat)
    requires Inv(s) && CanSleepOn(s, t) && s' == DoSleepOn(s, t)
    ensures Inv(s')
  {
    hide Inv, Local;
    var m := PcOf(s, t).rec;
    NoNull(s);
    Instances(s, t, m, 0, 0);
    OneIsLocal(s, s', t, m, 0, 0);
    Frame(s, s', t, m, 0, 0);
  }

  lemma KeepInterrupt(s: State, s': State, t: nat, rc: int)
    requires Inv(s) && CanInterrupt(s, t, rc) && s' == DoInterrupt(s, t, rc)
    ensures Inv(s')
  {
    hide Inv, Local, ThreadOk, RecOk, ChanOk, ProcOk;
    NoNull(s);
    var m := PcOf(s, t).rec;
    InterruptTouched(s, s', t, rc, m);
    OneIsLocal(s, s', t, m, 0, 0);
    Frame(s, s', t, m, 0, 0);
  }

  lemma InterruptTouched(s: State, s': State, t: nat, rc: int, m: nat)
    requires Inv(s) && CanInterrupt(s, t, rc) && s' == DoInterrupt(s, t, rc) && m == PcOf(s, t).rec
    ensures t in s'.threads && ThreadOk(s', t) && (m in s.recs ==> RecOk(s, m)) && (m in s'.recs ==> RecOk(s', m))
  {
    hide Inv;
    NoNull(s);
    Instances(s, t, m, 0, 0);
  }

  /** Withdrawing its own record changes the queue of a sender as it should. */
  lemma WithdrawnHistory(s: State, t: nat, m: nat, c: nat)
    requires Inv(s) && CanWithdrawQueued(s, t) && m == PcOf(s, t).rec && c == PcOf(s, t).chan
    ensures s.recs[m].place == InQueue(c) && !s.chans[c].closing
    ensures var h, h' := s.chans[c].h, HWithdraw(s.chans[c].h, s.recs[m].hook.rcvid);
      && Ok(h', s.limit) && Distinct(h'.q.waiting) && h'.accepted == h.accepted && h'.withdrawn == h.withdrawn + {m}
      && (forall g :: g in h'.q.waiting <==> g in h.q.waiting && g.rec != m)
  {
    hide Inv, HWithdraw;
    var hook := s.recs[m].hook;
    Instances(s, t, m, c, 0);
    Alive(s, t, c);
    QueuedIsMine(s, hook, c);
    WithdrawFacts(s.chans[c].h, hook, s.limit);
    WaitingFacts(HWithdraw(s.chans[c].h, hook.rcvid));
  }

  lemma WithdrawQueuedLocal(s: State, s': State, t: nat, m: nat, c: nat)
    requires Inv(s) && CanWithdrawQueued(s, t) && s' == DoWithdrawQueued(s, t) && m == PcOf(s, t).rec && c == PcOf(s, t).chan
    ensures Local(s, s', t, m, c, 0) && |ChanHolders(s'.threads, c)| == |ChanHolders(s.threads, c)|
  {
    hide Inv, Local, Ok, HWithdraw, Distinct;
    NoNull(s);
    Instances(s, t, m, 0, 0);
    WithdrawnHistory(s, t, m, c);
    QueueStep(s, s', t, m, c, HWithdraw(s.chans[c].h, s.recs[m].hook.rcvid), s'.recs[m], Releasing(c, m));
  }

  lemma WithdrawQueuedTouched(s: State, s': State, t: nat, m: nat, c: nat)
    requires Inv(s) && CanWithdrawQueued(s, t) && s' == DoWithdrawQueued(s, t) && m == PcOf(s, t).rec && c == PcOf(s, t).chan
    ensures t in s'.threads && ThreadOk(s', t) && m in s'.recs && RecOk(s', m)
  {
    hide Inv, Ok, HWithdraw, Distinct;
    NoNull(s);
    Instances(s, t, m, c, 0);
    WithdrawnHistory(s, t, m, c);
    hide Queued, ChanOk;
  }

  lemma WithdrawQueuedChan(s: State, s': State, t: nat, m: nat, c: nat)
    requires Inv(s) && CanWithdrawQueued(s, t) && s' == DoWithdrawQueued(s, t) && m == PcOf(s, t).rec && c == PcOf(s, t).chan
    ensures c in s'.chans && ChanOk(s', c)
  {
    hide Inv, Local, Ok, HWithdraw, Distinct, ThreadOk;
    NoNull(s);
    Instances(s, t, m, c, 0);
    WithdrawnHistory(s, t, m, c);
    hide Queued;
    WithdrawQueuedLocal(s, s', t, m, c);
  }

  lemma KeepWithdrawQueued(s: State, s': State, t: nat)
    requires Inv(s) && CanWithdrawQueued(s, t) && s' == DoWithdrawQueued(s, t)
    ensures Inv(s')
  {
    hide Inv, Local, ThreadOk, RecOk, ChanOk, ProcOk, HWithdraw;
    var m := PcOf(s, t).rec;
    var c := PcOf(s, t).chan;
    NoNull(s);
    WithdrawQueuedLocal(s, s', t, m, c);
    WithdrawQueuedTouched(s, s', t, m, c);
    WithdrawQueuedChan(s, s', t, m, c);
    Frame(s, s', t, m, c, 0);
  }

  lemma KeepMissQueued(s: State, s': State, t: nat)
    requires Inv(s) && CanMissQueued(s, t) && s' == DoMissQueued(s, t)
    ensures Inv(s')
  {
    hide Inv, Local, ThreadOk, RecOk, ChanOk, ProcOk;
    NoNull(s);
    var m := PcOf(s, t).rec;
    MissQueuedTouched(s, s', t, m);
    OneIsLocal(s, s', t, m, 0, 0);
    Frame(s, s', t, m, 0, 0);
  }

  lemma MissQueuedTouched(s: State, s': State, t: nat, m: nat)
    requires Inv(s) && CanMissQueued(s, t) && s' == DoMissQueued(s, t) && m == PcOf(s, t).rec
    ensures t in s'.threads && ThreadOk(s', t) && (m in s.recs ==> RecOk(s, m)) && (m in s'.recs ==> RecOk(s', m))
  {
    hide Inv;
    NoNull(s);
    Instances(s, t, m, 0, 0);
  }

  lemma FindReceiverLocal(s: State, s': State, t: nat, x: nat, m: nat)
    requires Inv(s) && CanFindReceiver(s, t, x) && s' == DoFindReceiver(s, t, x) && m == PcOf(s, t).rec
    ensures Local(s, s', t, m, 0, x) && |EntryHolders(s'.threads, x)| == |EntryHolders(s.threads, x)| + 1
  {
    hide Inv, Local;
    NoNull(s);
    Instances(s, t, m, 0, 0);
    OneIsLocal(s, s', t, m, 0, x);
  }

  lemma FindReceiverTouched(s: State, s': State, t: nat, x: nat, m: nat)
    requires Inv(s) && CanFindReceiver(s, t, x) && s' == DoFindReceiver(s, t, x) && m == PcOf(s, t).rec
    ensures t in s'.threads && ThreadOk(s', t) && m in s'.recs && RecOk(s', m)
  {
    hide Inv;
    NoNull(s);
    Instances(s, t, m, 0, x);
  }

  lemma FindReceiverProc(s: State, s': State, t: nat, x: nat, m: nat)
    requires Inv(s) && CanFindReceiver(s, t, x) && s' == DoFindReceiver(s, t, x) && m == PcOf(s, t).rec
    ensures x in s'.procs && ProcOk(s', x)
  {
    hide Inv, Local;
    NoNull(s);
    Instances(s, t, m, 0, x);
    FindReceiverLocal(s, s', t, x, m);
  }

  lemma KeepFindReceiver(s: State, s': State, t: nat, x: nat)
    requires Inv(s) && CanFindReceiver(s, t, x) && s' == DoFindReceiver(s, t, x)
    ensures Inv(s')
  {
    hide Inv, Local, ThreadOk, RecOk, ChanOk, ProcOk;
    var m := PcOf(s, t).rec;
    NoNull(s);
    FindReceiverLocal(s, s', t, x, m);
    FindReceiverTouched(s, s', t, x, m);
    FindReceiverProc(s, s', t, x, m);
    Frame(s, s', t, m, 0, x);
  }

  lemma LeaveNoReceiverLocal(s: State, s': State, t: nat, m: nat)
    requires Inv(s) && CanLeaveNoReceiver(s, t) && s' == DoLeaveNoReceiver(s, t) && m == PcOf(s, t).rec
    ensures Local(s, s', t, m, 0, 0)
  {
    hide Inv, Local, NoProcess;
    NoNull(s);
    Instances(s, t, m, 0, 0);
    OneIsLocal(s, s', t, m, 0, 0);
  }

  lemma LeaveNoReceiverTouched(s: State, s': State, t: nat, m: nat)
    requires Inv(s) && CanLeaveNoReceiver(s, t) && s' == DoLeaveNoReceiver(s, t) && m == PcOf(s, t).rec
    ensures t in s'.threads && ThreadOk(s', t) && m in s'.recs && RecOk(s', m)
  {
    hide Inv, NoProcess;
    NoNull(s);
    Instances(s, t, m, 0, 0);
  }

  lemma KeepLeaveNoReceiver(s: State, s': State, t: nat)
    requires Inv(s) && CanLeaveNoReceiver(s, t) && s' == DoLeaveNoReceiver(s, t)
    ensures Inv(s')
  {
    hide Inv, Local, ThreadOk, RecOk, ChanOk, ProcOk, NoProcess;
    var m := PcOf(s, t).rec;
    NoNull(s);
    LeaveNoReceiverLocal(s, s', t, m);
    LeaveNoReceiverTouched(s, s', t, m);
    Frame(s, s', t, m, 0, 0);
  }

  lemma WithdrawPendingLocal(s: State, s': State, t: nat, m: nat, x: nat)
    requires Inv(s) && CanWithdrawPending(s, t) && s' == DoWithdrawPending(s, t) && m == PcOf(s, t).rec && x == PcOf(s, t).target
    ensures Local(s, s', t, m, 0, x) && |EntryHolders(s'.threads, x)| == |EntryHolders(s.threads, x)| - 1
  {
    hide Inv, Local, Distinct, RemoveAt, IndexOf;
    NoNull(s);
    Instances(s, t, m, 0, 0);
    PendingIsMine(s, x, s.recs[m].hook);
    OneIsLocal(s, s', t, m, 0, x);
  }

  lemma WithdrawPendingTouched(s: State, s': State, t: nat, m: nat, x: nat)
    requires Inv(s) && CanWithdrawPending(s, t) && s' == DoWithdrawPending(s, t) && m == PcOf(s, t).rec && x == PcOf(s, t).target
    ensures t in s'.threads && ThreadOk(s', t) && (m in s'.recs ==> RecOk(s', m))
  {
    hide Inv, Distinct, RemoveAt, IndexOf;
    NoNull(s);
    Instances(s, t, m, 0, x);
    PendingIsMine(s, x, s.recs[m].hook);
  }

  lemma WithdrawPendingProc(s: State, s': State, t: nat, m: nat, x: nat)
    requires Inv(s) && CanWithdrawPending(s, t) && s' == DoWithdrawPending(s, t) && m == PcOf(s, t).rec && x == PcOf(s, t).target
    ensures x in s'.procs && ProcOk(s', x)
  {
    hide Inv, Local, Distinct, RemoveAt, IndexOf;
    NoNull(s);
    Instances(s, t, m, 0, x);
    PendingIsMine(s, x, s.recs[m].hook);
    WithdrawPendingLocal(s, s', t, m, x);
  }

  lemma KeepWithdrawPending(s: State, s': State, t: nat)
    requires Inv(s) && CanWithdrawPending(s, t) && s' == DoWithdrawPending(s, t)
    ensures Inv(s')
  {
    hide Inv, Local, ThreadOk, RecOk, ChanOk, ProcOk, RemoveAt, IndexOf;
    var m := PcOf(s, t).rec;
    var x := PcOf(s, t).target;
    NoNull(s);
    WithdrawPendingLocal(s, s', t, m, x);
    WithdrawPendingTouched(s, s', t, m, x);
    WithdrawPendingProc(s, s', t, m, x);
    Frame(s, s', t, m, 0, x);
  }

  lemma LeaveOvertakenLocal(s: State, s': State, t: nat, m: nat, x: nat)
    requires Inv(s) && CanLeaveOvertaken(s, t) && s' == DoLeaveOvertaken(s, t) && m == PcOf(s, t).rec && x == PcOf(s, t).target
    ensures Local(s, s', t, m, 0, x) && |EntryHolders(s'.threads, x)| == |EntryHolders(s.threads, x)| - 1
  {
    hide Inv, Local, FoundPending;
    NoNull(s);
    Instances(s, t, m, 0, 0);
    OneIsLocal(s, s', t, m, 0, x);
  }

  lemma LeaveOvertakenTouched(s: State, s': State, t: nat, m: nat, x: nat)
    requires Inv(s) && CanLeaveOvertaken(s, t) && s' == DoLeaveOvertaken(s, t) && m == PcOf(s, t).rec && x == PcOf(s, t).target
    ensures t in s'.threads && ThreadOk(s', t) && (m in s'.recs ==> RecOk(s', m))
  {
    hide Inv, FoundPending;
    NoNull(s);
    Instances(s, t, m, 0, x);
  }

  lemma LeaveOvertakenProc(s: State, s': State, t: nat, m: nat, x: nat)
    requires Inv(s) && CanLeaveOvertaken(s, t) && s' == DoLeaveOvertaken(s, t) && m == PcOf(s, t).rec && x == PcOf(s, t).target
    ensures x in s'.procs && ProcOk(s', x)
  {
    hide Inv, Local, FoundPending;
    NoNull(s);
    Instances(s, t, m, 0, x);
    LeaveOvertakenLocal(s, s', t, m, x);
  }

  lemma KeepLeaveOvertaken(s: State, s': State, t: nat)
    requires Inv(s) && CanLeaveOvertaken(s, t) && s' == DoLeaveOvertaken(s, t)
    ensures Inv(s')
  {
    hide Inv, Local, ThreadOk, RecOk, ChanOk, ProcOk, FoundPending;
    var m := PcOf(s, t).rec;
    var x := PcOf(s, t).target;
    NoNull(s);
    LeaveOvertakenLocal(s, s', t, m, x);
    LeaveOvertakenTouched(s, s', t, m, x);
    LeaveOvertakenProc(s, s', t, m, x);
    Frame(s, s', t, m, 0, x);
  }

  // ----- Receiving and replying -----

  lemma KeepBeginReceive(s: State, s': State, t: nat, e: nat, c: nat)
    requires Inv(s) && CanBeginReceive(s, t, e, c) && s' == DoBeginReceive(s, t, e, c)
    ensures Inv(s')
  {
    hide Inv, Local;
    Instances(s, t, 0, c, e);
    OneIsLocal(s, s', t, 0, c, 0);
    NoNull(s);
    Frame(s, s', t, 0, c, 0);
  }

  /** A receiver that only moves on in its wait. */
  lemma KeepWaiting(s: State, s': State, t: nat, c: nat)
    requires Inv(s) && t in s.threads && t in s'.threads && s' == s.(threads := s.threads[t := s'.threads[t]])
    requires var pc, pc' := s.threads[t].pc, s'.threads[t].pc;
      && (pc == Arriving(c) || pc == Checking(c) || pc == Dozing(c) || pc == Dequeuing(c))
      && (pc' == Checking(c) || pc' == Dozing(c) || pc' == Dequeuing(c) || pc' == Releasing(c, 0))
    requires s'.threads[t].entry == s.threads[t].entry && s'.threads[t].poll == s.threads[t].poll
    ensures Inv(s')
  {
    hide Inv, Local;
    NoNull(s);
    Instances(s, t, 0, 0, 0);
    OneIsLocal(s, s', t, 0, 0, 0);
    Frame(s, s', t, 0, 0, 0);
  }

  /** Taking the first message changes a queue as it should. */
  lemma TakenHistory(s: State, t: nat, c: nat)
    requires Inv(s) && CanReceive(s, t) && c == PcOf(s, t).chan
    ensures !s.chans[c].closing && s.chans[c].h.q.waiting[0] in s.chans[c].h.q.waiting
    ensures var h, h' := s.chans[c].h, HTake(s.chans[c].h);
      && Ok(h', s.limit) && Distinct(h'.q.waiting) && h'.accepted == h.accepted && h'.withdrawn == h.withdrawn
      && (forall g :: g in h'.q.waiting <==> g in h.q.waiting && g.rec != h.q.waiting[0].rec)
  {
    hide Inv, Take;
    Instances(s, t, 0, c, 0);
    Alive(s, t, c);
    TakeFacts(s.chans[c].h, s.limit);
    WaitingFacts(HTake(s.chans[c].h));
  }

  lemma ReceiveLocal(s: State, s': State, t: nat, c: nat, m: nat)
    requires Inv(s) && CanReceive(s, t) && s' == DoReceive(s, t) && c == PcOf(s, t).chan && m == s.chans[c].h.q.waiting[0].rec
    ensures Local(s, s', t, m, c, 0) && |ChanHolders(s'.threads, c)| == |ChanHolders(s.threads, c)|
  {
    hide Inv, Local, Ok, Take;
    NoNull(s);
    Instances(s, t, m, 0, 0);
    Instances(s, t, m, c, 0);
    TakenHistory(s, t, c);
    QueueStep(s, s', t, m, c, HTake(s.chans[c].h), s'.recs[m], Received(c, m));
  }

  lemma ReceiveTouched(s: State, s': State, t: nat, c: nat, m: nat)
    requires Inv(s) && CanReceive(s, t) && s' == DoReceive(s, t) && c == PcOf(s, t).chan && m == s.chans[c].h.q.waiting[0].rec
    ensures t in s'.threads && ThreadOk(s', t) && m in s'.recs && RecOk(s', m)
  {
    hide Inv, Ok, Take;
    NoNull(s);
    Instances(s, t, m, c, 0);
    TakenHistory(s, t, c);
  }

  lemma ReceiveChan(s: State, s': State, t: nat, c: nat, m: nat)
    requires Inv(s) && CanReceive(s, t) && s' == DoReceive(s, t) && c == PcOf(s, t).chan && m == s.chans[c].h.q.waiting[0].rec
    ensures c in s'.chans && ChanOk(s', c)
  {
    hide Inv, Local, Ok, Take, ThreadOk;
    NoNull(s);
    Instances(s, t, m, c, 0);
    TakenHistory(s, t, c);
    ReceiveLocal(s, s', t, c, m);
  }

  lemma KeepReceive(s: State, s': State, t: nat)
    requires Inv(s) && CanReceive(s, t) && s' == DoReceive(s, t)
    ensures Inv(s')
  {
    hide Inv, Local, ThreadOk, RecOk, ChanOk, ProcOk;
    var c := PcOf(s, t).chan;
    var m := s.chans[c].h.q.waiting[0].rec;
    NoNull(s);
    ReceiveLocal(s, s', t, c, m);
    ReceiveTouched(s, s', t, c, m);
    ReceiveChan(s, s', t, c, m);
    Frame(s, s', t, m, c, 0);
  }

  lemma KeepFreeReceived(s: State, s': State, t: nat)
    requires Inv(s) && CanFreeReceived(s, t) && s' == DoFreeReceived(s, t)
    ensures Inv(s')
  {
    hide Inv, Local;
    NoNull(s);
    var m := PcOf(s, t).rec;
    Instances(s, t, m, 0, 0);
    OneIsLocal(s, s', t, m, 0, 0);
    Frame(s, s', t, m, 0, 0);
  }

  lemma PendLocal(s: State, s': State, t: nat, m: nat, e: nat)
    requires Inv(s) && CanPend(s, t) && s' == DoPend(s, t) && m == PcOf(s, t).rec && e == s.threads[t].entry
    ensures Local(s, s', t, m, 0, e) && |EntryHolders(s'.threads, e)| == |EntryHolders(s.threads, e)|
  {
    hide Inv, Local;
    NoNull(s);
    Instances(s, t, m, 0, 0);
    OneIsLocal(s, s', t, m, 0, e);
  }

  lemma PendTouched(s: State, s': State, t: nat, m: nat, e: nat)
    requires Inv(s) && CanPend(s, t) && s' == DoPend(s, t) && m == PcOf(s, t).rec && e == s.threads[t].entry
    ensures t in s'.threads && ThreadOk(s', t) && (m in s'.recs ==> RecOk(s', m))
  {
    hide Inv;
    NoNull(s);
    Instances(s, t, m, 0, e);
  }

  lemma PendProc(s: State, s': State, t: nat, m: nat, e: nat)
    requires Inv(s) && CanPend(s, t) && s' == DoPend(s, t) && m == PcOf(s, t).rec && e == s.threads[t].entry
    ensures e in s'.procs && ProcOk(s', e)
  {
    hide Inv, Local;
    NoNull(s);
    Instances(s, t, m, 0, e);
    PendLocal(s, s', t, m, e);
  }

  lemma KeepPend(s: State, s': State, t: nat)
    requires Inv(s) && CanPend(s, t) && s' == DoPend(s, t)
    ensures Inv(s')
  {
    hide Inv, Local, ThreadOk, RecOk, ChanOk, ProcOk;
    var m := PcOf(s, t).rec;
    var e := s.threads[t].entry;
    NoNull(s);
    PendLocal(s, s', t, m, e);
    PendTouched(s, s', t, m, e);
    PendProc(s, s', t, m, e);
    Frame(s, s', t, m, 0, e);
  }

  lemma KeepFailReceive(s: State, s': State, t: nat, err: int)
    requires Inv(s) && CanFailReceive(s, t, err) && s' == DoFailReceive(s, t, err)
    ensures Inv(s')
  {
    hide Inv, Local;
    NoNull(s);
    var m := PcOf(s, t).rec;
    Instances(s, t, m, 0, 0);
    OneIsLocal(s, s', t, m, 0, 0);
    Frame(s, s', t, m, 0, 0);
  }

  /** A reply takes one record off the pending list, which links no record twice. */
  lemma TakenPending(s: State, e: nat, rcvid: int, m: nat)
    requires Inv(s) && e in s.procs && FoundPending(s, e, rcvid) && m == s.procs[e].pending[IndexOf(s.procs[e].pending, rcvid)].rec
    ensures m in s.recs && s.recs[m].place == OnPending(e) && s.recs[m].hook in s.procs[e].pending
    ensures var list := Unpend(s, e, rcvid).procs[e].pending;
            Distinct(list) && (forall g :: g in list <==> g in s.procs[e].pending && g.rec != m)
  {
    hide Inv, RemoveAt;
    var list, i := s.procs[e].pending, IndexOf(s.procs[e].pending, rcvid);
    Instances(s, 0, 0, 0, e);
    assert list[i] in list;
    RemoveAtFacts(list, i);
  }

  lemma TakePendingLocal(s: State, s': State, t: nat, e: nat, rcvid: int, m: nat)
    requires Inv(s) && CanTakePending(s, t, e, rcvid) && s' == DoTakePending(s, t, e, rcvid) && m == s.procs[e].pending[IndexOf(s.procs[e].pending, rcvid)].rec
    ensures Local(s, s', t, m, 0, e) && |EntryHolders(s'.threads, e)| == |EntryHolders(s.threads, e)|
  {
    hide Inv, Local, Distinct, RemoveAt, IndexOf;
    NoNull(s);
    Instances(s, t, m, 0, 0);
    TakenPending(s, e, rcvid, m);
    OneIsLocal(s, s', t, m, 0, e);
  }

  lemma TakePendingTouched(s: State, s': State, t: nat, e: nat, rcvid: int, m: nat)
    requires Inv(s) && CanTakePending(s, t, e, rcvid) && s' == DoTakePending(s, t, e, rcvid) && m == s.procs[e].pending[IndexOf(s.procs[e].pending, rcvid)].rec
    ensures t in s'.threads && ThreadOk(s', t) && m in s'.recs && RecOk(s', m)
  {
    hide Inv, Distinct, RemoveAt, IndexOf;
    NoNull(s);
    Instances(s, t, m, 0, e);
    TakenPending(s, e, rcvid, m);
  }

  lemma TakePendingProc(s: State, s': State, t: nat, e: nat, rcvid: int, m: nat)
    requires Inv(s) && CanTakePending(s, t, e, rcvid) && s' == DoTakePending(s, t, e, rcvid) && m == s.procs[e].pending[IndexOf(s.procs[e].pending, rcvid)].rec
    ensures e in s'.procs && ProcOk(s', e)
  {
    hide Inv, Local, Distinct, RemoveAt, IndexOf;
    NoNull(s);
    Instances(s, t, m, 0, e);
    TakenPending(s, e, rcvid, m);
    TakePendingLocal(s, s', t, e, rcvid, m);
  }

  lemma KeepTakePending(s: State, s': State, t: nat, e: nat, rcvid: int)
    requires Inv(s) && CanTakePending(s, t, e, rcvid) && s' == DoTakePending(s, t, e, rcvid)
    ensures Inv(s')
  {
    hide Inv, Local, ThreadOk, RecOk, ChanOk, ProcOk, RemoveAt, IndexOf;
    var m := s.procs[e].pending[IndexOf(s.procs[e].pending, rcvid)].rec;
    NoNull(s);
    TakePendingLocal(s, s', t, e, rcvid, m);
    TakePendingTouched(s, s', t, e, rcvid, m);
    TakePendingProc(s, s', t, e, rcvid, m);
    Frame(s, s', t, m, 0, e);
  }

  lemma KeepFinish(s: State, s': State, t: nat, status: int)
    requires Inv(s) && CanFinish(s, t, status) && s' == DoFinish(s, t, status)
    ensures Inv(s')
  {
    hide Inv, Local;
    NoNull(s);
    var m := PcOf(s, t).rec;
    Instances(s, t, m, 0, 0);
    OneIsLocal(s, s', t, m, 0, 0);
    Frame(s, s', t, m, 0, 0);
  }

  /** Waking threads moves none of them. */
  predicate OnlyWakes(threads: map<nat, Thread>, threads': map<nat, Thread>) {
    && threads'.Keys == threads.Keys
    && (forall x :: x in threads ==>
          && threads'[x].pc == threads[x].pc && threads'[x].entry == threads[x].entry && threads'[x].poll == threads[x].poll
          && (threads[x].awake ==> threads'[x].awake))
  }

  lemma WakesCount(threads: map<nat, Thread>, threads': map<nat, Thread>)
    requires OnlyWakes(threads, threads')
    ensures forall c :: ChanHolders(threads', c) == ChanHolders(threads, c)
    ensures forall e :: EntryHolders(threads', e) == EntryHolders(threads, e)
  {
    forall c
      ensures ChanHolders(threads', c) == ChanHolders(threads, c)
    {}
    forall e
      ensures EntryHolders(threads', e) == EntryHolders(threads, e)
    {}
  }

  /** A wake-up keeps the invariant, whoever is woken. */
  lemma KeepWoken(s: State, s': State)
    requires Inv(s) && s' == s.(threads := s'.threads) && OnlyWakes(s.threads, s'.threads)
    ensures Inv(s')
  {
    NoNull(s);
    WakesCount(s.threads, s'.threads);
    Frame(s, s', 0, 0, 0, 0);
  }

  lemma KeepCalled(s: State, s': State, t: nat, m: nat, c: nat, pc: Pc)
    requires Inv(s) && t in s.threads && s' == SetPc(s, t, pc)
    requires || (s.threads[t].pc == Calling(m, c) && pc == Blocked(m, c))
             || (s.threads[t].pc == Refused(m, c) && pc == Ready(m, c))
             || (s.threads[t].pc == Sent(c) && pc == Releasing(c, 0) && m == 0)
    ensures Inv(s')
  {
    hide Inv, Local, ThreadOk, RecOk, ChanOk, ProcOk;
    NoNull(s);
    CalledTouched(s, s', t, m, c, pc);
    OneIsLocal(s, s', t, m, 0, 0);
    Frame(s, s', t, m, 0, 0);
  }

  lemma CalledTouched(s: State, s': State, t: nat, m: nat, c: nat, pc: Pc)
    requires Inv(s) && t in s.threads && s' == SetPc(s, t, pc)
    requires || (s.threads[t].pc == Calling(m, c) && pc == Blocked(m, c))
             || (s.threads[t].pc == Refused(m, c) && pc == Ready(m, c))
             || (s.threads[t].pc == Sent(c) && pc == Releasing(c, 0) && m == 0)
    ensures t in s'.threads && ThreadOk(s', t) && (m in s.recs ==> RecOk(s, m)) && (m in s'.recs ==> RecOk(s', m))
  {
    hide Inv;
    NoNull(s);
    Instances(s, t, m, 0, 0);
  }

  lemma KeepCall(s: State, s': State, t: nat)
    requires Inv(s) && CanCall(s, t) && s' == DoCall(s, t)
    ensures Inv(s')
  {
    hide Inv;
    var pc := s.threads[t].pc;
    var s1 := s.(threads := WakeQueue(s.threads, HeldChan(pc)));
    KeepWoken(s, s1);
    KeepCalled(s1, s', t, RecOf(pc), HeldChan(pc), s'.threads[t].pc);
  }

  lemma KeepWake(s: State, s': State, t: nat)
    requires Inv(s) && CanWake(s, t) && s' == DoWake(s, t)
    ensures Inv(s')
  {
    hide Inv, Local, ThreadOk, RecOk, ChanOk, ProcOk;
    var m := PcOf(s, t).done;
    var s1 := WakeUp(s, s.recs[m].hook.task);
    KeepWoken(s, s1);
    NoNull(s1);
    WakeTouched(s1, s', t, m);
    OneIsLocal(s1, s', t, m, 0, 0);
    Frame(s1, s', t, m, 0, 0);
  }

  lemma WakeTouched(s: State, s': State, t: nat, m: nat)
    requires Inv(s) && HasRec(s, t) && PcOf(s, t).Waking? && m == PcOf(s, t).done
    requires s.recs[m].hook.task in s.threads ==> s.threads[s.recs[m].hook.task].awake
    requires s' == SetPc(s, t, if PcOf(s, t).chan == 0 then Idle else Releasing(PcOf(s, t).chan, 0))
    ensures t in s'.threads && ThreadOk(s', t) && (m in s.recs ==> RecOk(s, m)) && (m in s'.recs ==> RecOk(s', m))
  {
    hide Inv;
    NoNull(s);
    Instances(s, t, m, 0, 0);
  }
}

/** What every step of the protocol keeps. */
module ProtocolInv {
  import opened Errno
  import opened ChannelQueue
  import opened Protocol

  function Bit(b: bool): int { if b then 1 else 0 }

  ghost function ChanHolders(threads: map<nat, Thread>, c: nat): set<nat> {
    set t | t in threads && HeldChan(threads[t].pc) == c
  }

  ghost function EntryHolders(threads: map<nat, Thread>, e: nat): set<nat> {
    set t | t in threads && HeldEntry(threads[t].pc) == e
  }

  /** The record left the hands of its sender: it was published, or freed. */
  predicate Published(r: Rec) {
    !r.place.AtSender? && !r.place.Discarded?
  }

  /** Receiver fields and connection agree, and the channel belongs to the named process. */
  ghost predicate Routed(s: State, r: Rec) {
    && r.receiverPid == r.via.pid
    && r.via.chid in s.chans && s.chans[r.via.chid].owner in s.procs
    && s.procs[s.chans[r.via.chid].owner].pid == r.via.pid
  }

  // ----- Threads -----

  ghost predicate PcOk(s: State, t: nat, pc: Pc, entry: nat) {
    match pc
    case Idle => true
    case Connecting(m) => m in s.recs && s.recs[m].place == AtSender(t) && s.recs[m].via.chid > 0
    case Finding(m, x) => m in s.recs && s.recs[m].place == AtSender(t) && s.recs[m].via.chid > 0
      && x in s.procs && s.procs[x].pid == s.recs[m].via.pid
    case Ready(m, c) => m in s.recs && s.recs[m].place == AtSender(t) && c > 0 && c == s.recs[m].via.chid && Routed(s, s.recs[m])
    case Armed(m, c) => m in s.recs && s.recs[m].place == AtSender(t) && c > 0 && c == s.recs[m].via.chid && Routed(s, s.recs[m])
      && s.recs[m].hook.task == t
    case Calling(m, c) => SenderOk(s, t, m, c)
    case Refused(m, c) => m in s.recs && s.recs[m].place == AtSender(t) && c > 0 && c == s.recs[m].via.chid && Routed(s, s.recs[m])
    case Sent(c) => c > 0
    case Blocked(m, c) => SenderOk(s, t, m, c)
    case Interrupted(m, c, rc) => SenderOk(s, t, m, c) && (rc == ETIMEDOUT || rc == ERESTARTSYS)
    case Missed(m, c, rc) => SenderOk(s, t, m, c) && (rc == ETIMEDOUT || rc == ERESTARTSYS) && !s.recs[m].place.InQueue?
    case Taking(m, c, rc, x) => SenderOk(s, t, m, c) && (rc == ETIMEDOUT || rc == ERESTARTSYS)
      && !s.recs[m].place.InQueue? && !s.recs[m].place.InHands?
      && x in s.procs && s.procs[x].pid == s.recs[m].receiverPid
    case Arriving(c) => ReceiverOk(s, c, entry)
    case Checking(c) => ReceiverOk(s, c, entry)
    case Dozing(c) => ReceiverOk(s, c, entry)
    case Dequeuing(c) => ReceiverOk(s, c, entry)
    case Received(c, m) => ReceiverOk(s, c, entry)
      && m in s.recs && s.recs[m].place == InHands(t) && s.recs[m].receiverChid == c
    case Replying(m) => m in s.recs && s.recs[m].place == WithReplier(t)
    case Waking(m, c) => m in s.recs && s.recs[m].place == Done(t)
    case Releasing(c, m) => c > 0 && (m != 0 ==>
      m in s.recs && s.recs[m].hook.task == t && s.recs[m].exit.Exit? && !s.recs[m].gone && Published(s.recs[m]) && s.recs[m].receiverChid == c)
  }

  /** The channel of a receiver belongs to its process. */
  ghost predicate ReceiverOk(s: State, c: nat, entry: nat) {
    c > 0 && c in s.chans && s.chans[c].owner == entry
  }

  /** A sender between publishing its record and coming back. */
  ghost predicate SenderOk(s: State, t: nat, m: nat, c: nat) {
    && m in s.recs && c > 0
    && s.recs[m].hook.task == t
    && s.recs[m].exit == NotYet
    && s.recs[m].receiverChid == c
    && Published(s.recs[m]) && !s.recs[m].place.Withdrawn?
  }

  ghost predicate ThreadOk(s: State, t: nat)
    requires t in s.threads
  {
    var th := s.threads[t];
    && t > 0
    && (!th.pc.Idle? ==> th.entry in s.procs && FileOpen(s.procs[th.entry], th.poll))
    && (HeldChan(th.pc) != 0 ==> HeldChan(th.pc) in s.chans)
    && PcOk(s, t, th.pc, th.entry)
  }

  // ----- Records -----

  /** This thread sleeps on this record, or is about to, and nobody has woken it. */
  predicate Asleep(s: State, task: nat, m: nat) {
    task in s.threads && (s.threads[task].pc.Blocked? || s.threads[task].pc.Calling?) && s.threads[task].pc.rec == m && !s.threads[task].awake
  }

  /** The place of a record, its tag and the list or thread it is at agree. */
  ghost predicate PlaceOk(s: State, m: nat, r: Rec) {
    match r.place
    case AtSender(t) => t in s.threads && Preparing(s.threads[t].pc, m) && r.tag == Initial && (r.Normal() ==> r.hook.task == t)
    case InQueue(c) => c == r.receiverChid && c in s.chans && r.hook in s.chans[c].h.q.waiting && r.tag == Initial
    case InHands(t) => t in s.threads && s.threads[t].pc == Received(r.receiverChid, m) && r.tag == Receiving
    case OnPending(e) => r.Normal() && e in s.procs && r.hook in s.procs[e].pending && r.tag == Pending
      && r.receiverChid in s.chans && s.chans[r.receiverChid].owner == e
    case WithReplier(t) => r.Normal() && t in s.threads && s.threads[t].pc == Replying(m) && r.tag == Pending
    case Done(k) => r.Normal() && r.Completed() && r.tag != Receiving
      && (Asleep(s, r.hook.task, m) && !r.timed ==> k in s.threads && s.threads[k].pc.Waking? && s.threads[k].pc.done == m)
    case Withdrawn => r.Normal() && (r.exit.Exit? && (r.exit.how.WithdrewQueued? || r.exit.how.WithdrewPending?))
      && (r.exit.rc == ETIMEDOUT || r.exit.rc == ERESTARTSYS)
    case Discarded => r.Normal()
    case Freed => !r.Normal()
  }

  ghost predicate RecOk(s: State, m: nat)
    requires m in s.recs
  {
    var r := s.recs[m];
    && m > 0 && r.hook.rec == m && r.hook.WellFormed() && r.hook.rcvid <= s.nextRcvid
    && (r.Normal() ==> r.hook.task in s.threads)
    && r.takes == Bit(r.place.WithReplier? || r.place.Done? || r.place.Withdrawn?)
    && r.frees == Bit(r.place.Freed?)
    && (Published(r) && !r.place.Freed? ==> Routed(s, r) && r.receiverChid == r.via.chid && r.receiverChid > 0)
    && (!r.place.Done? ==> r.status == 0 && !r.tag.Finished?)
    && (r.exit.Exit? ==> r.Normal() && Published(r))
    && (r.gone ==> r.exit.Exit?)
    && (r.place.Done? && r.tag.Initial? ==> r.exit.Exit?)
    && (r.Normal() && Published(r) && r.exit == NotYet ==> r.hook.task in s.threads && Inside(s.threads[r.hook.task].pc, m))
    && PlaceOk(s, m, r)
  }

  ghost predicate RcvidsUnique(s: State) {
    forall m, n :: m in s.recs && n in s.recs && s.recs[m].hook.rcvid == s.recs[n].hook.rcvid > 0 ==> m == n
  }

  // ----- Channels -----

  /** A teardown has cleaned this record up. */
  ghost predicate Dying(s: State, m: nat) {
    m in s.recs && (s.recs[m].place == Done(0) || s.recs[m].place == Freed)
  }

  ghost predicate ChanOk(s: State, c: nat)
    requires c in s.chans
  {
    var ch := s.chans[c];
    && 0 < c <= s.nextChid
    && ch.owner in s.procs
    && ch.refs == Bit(Listed(s, c)) + ch.leaked + |ChanHolders(s.threads, c)|
    && (ch.closing ==> ch.refs == 0)
    && (ch.freed ==> ch.closing && ch.dying == 0 && ch.h.q.waiting == [])
    && (!ch.closing ==> Ok(ch.h, s.limit))
    && Distinct(ch.h.q.waiting)
    && (ch.dying != 0 ==> ch.closing && Dying(s, ch.dying) && s.recs[ch.dying].receiverChid == c && (s.recs[ch.dying].Normal() ==> s.recs[ch.dying].exit.Exit?))
    && (forall h :: h in ch.h.q.waiting ==> h.rec in s.recs && s.recs[h.rec].hook == h && s.recs[h.rec].place == InQueue(c))
    && (forall h :: h in ch.h.accepted ==> h.rec in s.recs && s.recs[h.rec].hook == h)
    && (forall h :: h in ch.h.accepted ==> Published(s.recs[h.rec]) && s.recs[h.rec].receiverChid == c)
    && (forall m :: m in ch.h.withdrawn ==> m in s.recs && s.recs[m].place == Withdrawn)
  }

  // ----- Processes -----

  ghost predicate ProcOk(s: State, e: nat)
    requires e in s.procs
  {
    var p := s.procs[e];
    && e > 0
    && p.refs == Bit(!p.fd.Closed?) + p.polls + |EntryHolders(s.threads, e)|
    && (p.dead ==> p.refs == 0 && p.channels == {} && p.pending == [] && p.dying == 0)
    && (p.dying != 0 ==> p.refs == 0 && p.channels == {} && Dying(s, p.dying))
    && (forall c :: c in p.channels ==> c in s.chans && s.chans[c].owner == e)
    && (forall h :: h in p.pending ==> h.rec in s.recs && s.recs[h.rec].hook == h && s.recs[h.rec].place == OnPending(e))
    && Distinct(p.pending)
  }

  ghost predicate PidsUnique(s: State) {
    forall e, f :: e in s.procs && f in s.procs && s.procs[e].fd.Open? && s.procs[f].fd.Open? && s.procs[e].pid == s.procs[f].pid ==> e == f
  }

  ghost predicate Inv(s: State) {
    && (forall t :: t in s.threads ==> ThreadOk(s, t))
    && (forall m :: m in s.recs ==> RecOk(s, m))
    && (forall c :: c in s.chans ==> ChanOk(s, c))
    && (forall e :: e in s.procs ==> ProcOk(s, e))
    && RcvidsUnique(s)
    && PidsUnique(s)
  }

  // ----- Counting holders -----

  lemma Swapped(before: set<nat>, after: set<nat>, t: nat, b: bool)
    requires after == (before - {t}) + if b then {t} else {}
    ensures |after| == |before| - Bit(t in before) + Bit(b)
  {
    var rest := before - {t};
    assert t in before ==> before == rest + {t};
    assert t !in before ==> before == rest;
    assert after == if b then rest + {t} else rest;
  }

  /** Moving one thread changes the number of holders of a channel only if it drops or takes it. */
  lemma MoveChan(threads: map<nat, Thread>, t: nat, th: Thread, c: nat)
    ensures t in threads ==>
              |ChanHolders(threads[t := th], c)|
              == |ChanHolders(threads, c)| - Bit(HeldChan(threads[t].pc) == c) + Bit(HeldChan(th.pc) == c)
    ensures t !in threads ==>
              |ChanHolders(threads[t := th], c)| == |ChanHolders(threads, c)| + Bit(HeldChan(th.pc) == c)
  {
    var before, after := ChanHolders(threads, c), ChanHolders(threads[t := th], c);
    Swapped(before, after, t, HeldChan(th.pc) == c);
  }

  lemma MoveEntry(threads: map<nat, Thread>, t: nat, th: Thread, e: nat)
    ensures t in threads ==>
              |EntryHolders(threads[t := th], e)|
              == |EntryHolders(threads, e)| - Bit(HeldEntry(threads[t].pc) == e) + Bit(HeldEntry(th.pc) == e)
    ensures t !in threads ==>
              |EntryHolders(threads[t := th], e)| == |EntryHolders(threads, e)| + Bit(HeldEntry(th.pc) == e)
  {
    var before, after := EntryHolders(threads, e), EntryHolders(threads[t := th], e);
    Swapped(before, after, t, HeldEntry(th.pc) == e);
  }

  /** The counts of all channels and processes but the given ones stay. */
  ghost predicate SameCounts(threads: map<nat, Thread>, threads': map<nat, Thread>, c: nat, e: nat) {
    && (forall x | x > 0 && x != c :: |ChanHolders(threads', x)| == |ChanHolders(threads, x)|)
    && (forall x | x > 0 && x != e :: |EntryHolders(threads', x)| == |EntryHolders(threads, x)|)
  }

  lemma Move(threads: map<nat, Thread>, t: nat, th: Thread, c: nat, e: nat)
    requires t in threads
    requires HeldChan(threads[t].pc) == HeldChan(th.pc) || (HeldChan(threads[t].pc) in {0, c} && HeldChan(th.pc) in {0, c})
    requires HeldEntry(threads[t].pc) == HeldEntry(th.pc) || (HeldEntry(threads[t].pc) in {0, e} && HeldEntry(th.pc) in {0, e})
    ensures SameCounts(threads, threads[t := th], c, e)
    ensures |ChanHolders(threads[t := th], c)|
            == |ChanHolders(threads, c)| - Bit(HeldChan(threads[t].pc) == c) + Bit(HeldChan(th.pc) == c)
    ensures |EntryHolders(threads[t := th], e)|
            == |EntryHolders(threads, e)| - Bit(HeldEntry(threads[t].pc) == e) + Bit(HeldEntry(th.pc) == e)
  {
    forall x | x > 0 && x != c
      ensures |ChanHolders(threads[t := th], x)| == |ChanHolders(threads, x)|
    {
      MoveChan(threads, t, th, x);
    }
    forall x | x > 0 && x != e
      ensures |EntryHolders(threads[t := th], x)| == |EntryHolders(threads, x)|
    {
      MoveEntry(threads, t, th, x);
    }
    MoveChan(threads, t, th, c);
    MoveEntry(threads, t, th, e);
  }

  // ----- Framing -----

  /** What thread `t` may do to a record that others know. */
  predicate RecMove(t: nat, r: Rec, r': Rec) {
    && r'.hook == r.hook && r'.via == r.via && r'.timed == r.timed
    && (r.gone ==> r'.gone) && (r.hook.task != t ==> r'.gone == r.gone)
    && (r.place != AtSender(t) ==> r'.receiverPid == r.receiverPid && r'.receiverChid == r.receiverChid)
    && (r'.place == r.place || r.place == AtSender(t) || r.place == InHands(t) || r.place == WithReplier(t)
        || r.place.InQueue? || r.place.OnPending?)
    && (Published(r) ==> Published(r'))
    && (Published(r) && !r.place.InQueue? ==> !r'.place.InQueue?)
    && (Published(r) && !r.place.InQueue? && !r.place.InHands? ==> !r'.place.InHands?)
    && (r.exit.Exit? ==> r'.exit == r.exit)
    && (r.hook.task != t && r.exit == NotYet ==> r'.exit == NotYet && (r'.place.Withdrawn? ==> r.place.Withdrawn?))
  }

  ghost predicate ThreadsMove(s: State, s': State, t: nat, m: nat) {
    && (forall x :: x in s'.threads && x != t ==> x in s.threads)
    && (forall x :: x in s.threads ==> x in s'.threads)
    && (forall x :: x in s.threads && x != t ==>
          s'.threads[x].pc == s.threads[x].pc && s'.threads[x].entry == s.threads[x].entry && s'.threads[x].poll == s.threads[x].poll
          && (s.threads[x].awake ==> s'.threads[x].awake))
    && (t in s.threads ==> (RecOf(s.threads[t].pc) == 0 || RecOf(s.threads[t].pc) == m) && (RecOf(s'.threads[t].pc) == 0 || RecOf(s'.threads[t].pc) == m))
  }

  ghost predicate RecsMove(s: State, s': State, t: nat, m: nat) {
    && (forall x :: x in s.recs ==> x in s'.recs)
    && (forall x :: x in s'.recs && x != m ==> x in s.recs && s'.recs[x] == s.recs[x])
    && (m in s.recs ==> m in s'.recs && RecMove(t, s.recs[m], s'.recs[m]))
    && (m !in s.recs && m in s'.recs ==> s'.recs[m].hook.rcvid == 0 || s'.recs[m].hook.rcvid > s.nextRcvid)
    && s.nextRcvid <= s'.nextRcvid
  }

  ghost predicate ChansMove(s: State, s': State, m: nat, c: nat) {
    && (forall x :: x in s.chans ==> x in s'.chans)
    && (forall x :: x in s'.chans && x != c ==> x in s.chans && s'.chans[x] == s.chans[x])
    && (c in s.chans ==> c in s'.chans && s'.chans[c].owner == s.chans[c].owner)
    && (c in s.chans && c in s'.chans ==> forall h :: h in s.chans[c].h.q.waiting && h.rec != m ==> h in s'.chans[c].h.q.waiting)
    && (m in s.recs && m in s'.recs && s.recs[m].place.InQueue? && s'.recs[m].place != s.recs[m].place ==> s.recs[m].place == InQueue(c))
    && s.nextChid <= s'.nextChid && s'.limit == s.limit
  }

  ghost predicate ProcsMove(s: State, s': State, m: nat, c: nat, e: nat) {
    && (forall x :: x in s.procs ==> x in s'.procs)
    && (forall x :: x in s'.procs && x != e ==> x in s.procs && s'.procs[x] == s.procs[x])
    && (e in s.procs && e in s'.procs ==>
          && s'.procs[e].pid == s.procs[e].pid
          && (s'.procs[e].fd.Open? ==> s.procs[e].fd.Open?)
          && (forall x :: x in s.threads && s.threads[x].entry == e && !s.threads[x].pc.Idle? && FileOpen(s.procs[e], s.threads[x].poll) ==>
                FileOpen(s'.procs[e], s.threads[x].poll))
          && (forall h :: h in s.procs[e].pending && h.rec != m ==> h in s'.procs[e].pending)
          && (forall x :: x != c ==> (x in s'.procs[e].channels <==> x in s.procs[e].channels)))
    && (e !in s.procs && e in s'.procs ==> NoProcess(s, s'.procs[e].pid) && s'.procs[e].channels == {})
    && (m in s.recs && m in s'.recs && s.recs[m].place.OnPending? && s'.recs[m].place != s.recs[m].place ==> s.recs[m].place == OnPending(e))
  }

  /** A step that touches at most thread `t`, record `m`, channel `c` and process `e`. */
  ghost predicate Local(s: State, s': State, t: nat, m: nat, c: nat, e: nat) {
    && ThreadsMove(s, s', t, m)
    && RecsMove(s, s', t, m)
    && ProcsMove(s, s', m, c, e)
    && ChansMove(s, s', m, c)
    && SameCounts(s.threads, s'.threads, c, e)
  }

  // A step that assigns to one thread, one record, one channel and one process at most.

  ghost predicate OneThread(s: State, s': State, t: nat, m: nat, c: nat, e: nat) {
    && t in s.threads && t in s'.threads && s'.threads == s.threads[t := s'.threads[t]]
    && RecOf(s.threads[t].pc) in {0, m} && RecOf(s'.threads[t].pc) in {0, m}
    && (HeldChan(s.threads[t].pc) == HeldChan(s'.threads[t].pc) || (HeldChan(s.threads[t].pc) in {0, c} && HeldChan(s'.threads[t].pc) in {0, c}))
    && (HeldEntry(s.threads[t].pc) == HeldEntry(s'.threads[t].pc) || (HeldEntry(s.threads[t].pc) in {0, e} && HeldEntry(s'.threads[t].pc) in {0, e}))
  }

  predicate OneRec(s: State, s': State, t: nat, m: nat) {
    s'.nextRcvid == s.nextRcvid &&
    (s'.recs == s.recs || (m in s.recs && m in s'.recs && s'.recs == s.recs[m := s'.recs[m]] && RecMove(t, s.recs[m], s'.recs[m])))
  }

  /** A record leaves no queue but that of channel `c`, and no pending list but that of process `e`. */
  predicate Leaves(s: State, s': State, m: nat, c: nat, e: nat) {
    m in s.recs && m in s'.recs && s'.recs[m].place != s.recs[m].place ==>
      && (s.recs[m].place.InQueue? ==> s.recs[m].place == InQueue(c))
      && (s.recs[m].place.OnPending? ==> s.recs[m].place == OnPending(e))
  }

  ghost predicate OneChan(s: State, s': State, m: nat, c: nat) {
    s'.nextChid == s.nextChid && s'.limit == s.limit &&
    (s'.chans == s.chans ||
     (&& c in s.chans && c in s'.chans && s'.chans == s.chans[c := s'.chans[c]] && s'.chans[c].owner == s.chans[c].owner
      && forall h :: h in s.chans[c].h.q.waiting && h.rec != m ==> h in s'.chans[c].h.q.waiting))
  }

  ghost predicate OneProc(s: State, s': State, m: nat, e: nat) {
    s'.procs == s.procs ||
    (&& e in s.procs && e in s'.procs && s'.procs == s.procs[e := s'.procs[e]]
     && s'.procs[e].pid == s.procs[e].pid && s'.procs[e].fd == s.procs[e].fd && s'.procs[e].polls == s.procs[e].polls && s'.procs[e].channels == s.procs[e].channels
     && forall h :: h in s.procs[e].pending && h.rec != m ==> h in s'.procs[e].pending)
  }

  lemma OneIsLocal(s: State, s': State, t: nat, m: nat, c: nat, e: nat)
    requires OneThread(s, s', t, m, c, e) && OneRec(s, s', t, m) && OneChan(s, s', m, c) && OneProc(s, s', m, e)
    requires Leaves(s, s', m, c, e)
    requires m in s.recs ==> RecOk(s, m)
    ensures Local(s, s', t, m, c, e)
    ensures |ChanHolders(s'.threads, c)|
            == |ChanHolders(s.threads, c)| - Bit(HeldChan(s.threads[t].pc) == c) + Bit(HeldChan(s'.threads[t].pc) == c)
    ensures |EntryHolders(s'.threads, e)|
            == |EntryHolders(s.threads, e)| - Bit(HeldEntry(s.threads[t].pc) == e) + Bit(HeldEntry(s'.threads[t].pc) == e)
  {
    hide SameCounts, HeldChan, HeldEntry, ChanHolders, EntryHolders;
    Move(s.threads, t, s'.threads[t], c, e);
  }

  lemma NoneIsLocal(s: State, s': State, m: nat, c: nat, e: nat)
    requires s'.threads == s.threads && OneRec(s, s', 0, m) && OneChan(s, s', m, c) && OneProc(s, s', m, e)
    requires Leaves(s, s', m, c, e) && 0 !in s.threads
    requires m in s.recs ==> RecOk(s, m)
    ensures Local(s, s', 0, m, c, e)
  {
    hide ChanHolders, EntryHolders;
  }

  /** What a step of thread `t` leaves of the objects others refer to. */
  ghost predicate Carries(s: State, s': State, t: nat) {
    && (forall x :: x in s.recs ==> x in s'.recs && RecMove(t, s.recs[x], s'.recs[x]))
    && (forall x :: x in s.chans ==> x in s'.chans && s'.chans[x].owner == s.chans[x].owner)
    && (forall x :: x in s.procs ==> x in s'.procs && s'.procs[x].pid == s.procs[x].pid)
    && (forall x :: x in s.threads ==> x in s'.threads)
  }

  lemma LocalCarries(s: State, s': State, t: nat, m: nat, c: nat, e: nat)
    requires Local(s, s', t, m, c, e)
    ensures Carries(s, s', t)
  {
    hide SameCounts;
  }

  lemma FramePc(s: State, s': State, t: nat, x: nat)
    requires Carries(s, s', t)
    requires x in s.threads && x != t && ThreadOk(s, x)
    ensures PcOk(s', x, s.threads[x].pc, s.threads[x].entry)
  {
  }

  lemma FrameThread(s: State, s': State, t: nat, m: nat, c: nat, e: nat, x: nat)
    requires Local(s, s', t, m, c, e)
    requires x in s.threads && x != t && ThreadOk(s, x)
    ensures ThreadOk(s', x)
  {
    hide SameCounts, PcOk, RecsMove, Carries;
    LocalCarries(s, s', t, m, c, e);
    FramePc(s, s', t, x);
    var pc := s.threads[x].pc;
    if !pc.Idle? {
      assert FileOpen(s'.procs[s.threads[x].entry], s.threads[x].poll);
    }
  }

  lemma FrameListed(s: State, s': State, t: nat, m: nat, c: nat, e: nat, x: nat)
    requires Local(s, s', t, m, c, e)
    requires x in s.recs && x != m && RecOk(s, x) && x in s'.recs
    requires s.recs[x].place.InQueue? || s.recs[x].place.OnPending?
    ensures PlaceOk(s', x, s.recs[x])
  {
    hide SameCounts, Published, RecMove, ThreadsMove;
  }

  lemma FrameHeld(s: State, s': State, t: nat, m: nat, c: nat, e: nat, x: nat)
    requires Local(s, s', t, m, c, e)
    requires x in s.recs && x != m && RecOk(s, x) && x in s'.recs
    requires !s.recs[x].place.InQueue? && !s.recs[x].place.OnPending?
    ensures PlaceOk(s', x, s.recs[x])
  {
    hide SameCounts, Published, RecMove, ChansMove, ProcsMove, RecsMove;
  }

  lemma FramePlace(s: State, s': State, t: nat, m: nat, c: nat, e: nat, x: nat)
    requires Local(s, s', t, m, c, e)
    requires x in s.recs && x != m && RecOk(s, x)
    requires x in s'.recs
    ensures PlaceOk(s', x, s.recs[x])
  {
    hide Local, RecOk, PlaceOk;
    if s.recs[x].place.InQueue? || s.recs[x].place.OnPending? {
      FrameListed(s, s', t, m, c, e, x);
    } else {
      FrameHeld(s, s', t, m, c, e, x);
    }
  }

  lemma FrameRec(s: State, s': State, t: nat, m: nat, c: nat, e: nat, x: nat)
    requires Local(s, s', t, m, c, e)
    requires x in s.recs && x != m && RecOk(s, x)
    requires x in s'.recs
    ensures RecOk(s', x)
  {
    hide Local, Published, PlaceOk, Routed, Inside;
    FramePlace(s, s', t, m, c, e, x);
    FrameUntouched(s, s', t, m, c, e, x);
    if Routed(s, s.recs[x]) {
      FrameRouted(s, s', t, m, c, e, s.recs[x]);
    }
    if s.recs[x].hook.task in s.threads {
      FrameInside(s, s', t, m, c, e, x, s.recs[x].hook.task);
    }
  }

  lemma FrameUntouched(s: State, s': State, t: nat, m: nat, c: nat, e: nat, x: nat)
    requires Local(s, s', t, m, c, e) && x in s.recs && x != m
    ensures x in s'.recs && s'.recs[x] == s.recs[x] && s.nextRcvid <= s'.nextRcvid
  {
    hide ThreadsMove, ProcsMove, ChansMove, SameCounts, RecMove;
  }

  lemma FrameRouted(s: State, s': State, t: nat, m: nat, c: nat, e: nat, r: Rec)
    requires Local(s, s', t, m, c, e) && Routed(s, r)
    ensures Routed(s', r)
  {
    hide ThreadsMove, RecsMove, SameCounts;
  }

  /** A sender of an untouched record is still inside. */
  lemma FrameInside(s: State, s': State, t: nat, m: nat, c: nat, e: nat, x: nat, task: nat)
    requires Local(s, s', t, m, c, e) && x != m && x != 0 && task in s.threads
    ensures task in s'.threads && (Inside(s.threads[task].pc, x) ==> Inside(s'.threads[task].pc, x))
  {
    hide ProcsMove, ChansMove, RecsMove, SameCounts;
  }

  lemma FrameListing(s: State, s': State, t: nat, m: nat, c: nat, e: nat, x: nat)
    requires Local(s, s', t, m, c, e)
    requires x in s.chans && x != c && x in s'.chans && s.chans[x].owner in s.procs
    ensures Listed(s', x) == Listed(s, x) && s'.chans[x] == s.chans[x] && s'.limit == s.limit && s.nextChid <= s'.nextChid
    ensures s.chans[x].owner in s'.procs
    ensures x > 0 ==> |ChanHolders(s'.threads, x)| == |ChanHolders(s.threads, x)|
  {
    hide RecsMove, ThreadsMove;
  }

  lemma QueueStays(s: State, s': State, t: nat, m: nat, c: nat, e: nat, x: nat)
    requires Local(s, s', t, m, c, e) && x != c
    ensures forall n :: n in s.recs && s.recs[n].place == InQueue(x) ==> n in s'.recs && s'.recs[n].place == InQueue(x)
  {
    hide ThreadsMove, ProcsMove, SameCounts;
  }

  lemma ChanStays(s: State, s': State, t: nat, x: nat)
    requires Carries(s, s', t) && x in s.chans && x in s'.chans && ChanOk(s, x)
    requires s'.chans[x] == s.chans[x] && s'.limit == s.limit && s.nextChid <= s'.nextChid
    requires Listed(s', x) == Listed(s, x) && |ChanHolders(s'.threads, x)| == |ChanHolders(s.threads, x)|
    requires forall n :: n in s.recs && s.recs[n].place == InQueue(x) ==> n in s'.recs && s'.recs[n].place == InQueue(x)
    ensures ChanOk(s', x)
  {
    hide Ok, Distinct, Listed, ChanHolders;
  }

  lemma FrameChan(s: State, s': State, t: nat, m: nat, c: nat, e: nat, x: nat)
    requires Local(s, s', t, m, c, e)
    requires x in s.chans && x != c && ChanOk(s, x)
    requires x in s'.chans
    ensures ChanOk(s', x)
  {
    assert x > 0 && s.chans[x].owner in s.procs;
    hide Local, Carries, ChanOk, Listed, ChanHolders;
    FrameListing(s, s', t, m, c, e, x);
    LocalCarries(s, s', t, m, c, e);
    QueueStays(s, s', t, m, c, e, x);
    ChanStays(s, s', t, x);
  }

  lemma FrameProc(s: State, s': State, t: nat, m: nat, c: nat, e: nat, x: nat)
    requires Local(s, s', t, m, c, e)
    requires x in s.procs && x != e && ProcOk(s, x)
    requires x in s'.procs
    ensures ProcOk(s', x)
  {
  }

  /** The invariant of the objects a step touches. */
  lemma Instances(s: State, t: nat, m: nat, c: nat, e: nat)
    requires Inv(s)
    ensures t in s.threads ==> ThreadOk(s, t)
    ensures m in s.recs ==> RecOk(s, m)
    ensures c in s.chans ==> ChanOk(s, c)
    ensures e in s.procs ==> ProcOk(s, e)
  {
  }

  /** A local step keeps the invariant if it keeps it for what it touches. */
  lemma Frame(s: State, s': State, t: nat, m: nat, c: nat, e: nat)
    requires Inv(s)
    requires t in s'.threads ==> ThreadOk(s', t)
    requires m in s'.recs ==> RecOk(s', m)
    requires e in s'.procs ==> ProcOk(s', e)
    requires c in s'.chans ==> ChanOk(s', c)
    requires Local(s, s', t, m, c, e)
    ensures Inv(s')
  {
    forall x | x in s'.threads
      ensures ThreadOk(s', x)
    {
      if x != t { FrameThread(s, s', t, m, c, e, x); }
    }
    forall x | x in s'.recs
      ensures RecOk(s', x)
    {
      if x != m { FrameRec(s, s', t, m, c, e, x); }
    }
    forall x | x in s'.chans
      ensures ChanOk(s', x)
    {
      if x != c { FrameChan(s, s', t, m, c, e, x); }
    }
    forall x | x in s'.procs
      ensures ProcOk(s', x)
    {
      if x != e { FrameProc(s, s', t, m, c, e, x); }
    }
    FrameUnique(s, s', t, m, c, e);
  }

  lemma FrameUnique(s: State, s': State, t: nat, m: nat, c: nat, e: nat)
    requires Local(s, s', t, m, c, e) && RcvidsUnique(s) && PidsUnique(s)
    requires forall x :: x in s.recs ==> RecOk(s, x)
    ensures RcvidsUnique(s') && PidsUnique(s')
  {
    forall x, y | x in s'.recs && y in s'.recs && s'.recs[x].hook.rcvid == s'.recs[y].hook.rcvid > 0
      ensures x == y
    {
      assert x in s.recs ==> RecOk(s, x);
      assert y in s.recs ==> RecOk(s, y);
    }
    forall x, y | x in s'.procs && y in s'.procs && s'.procs[x].fd.Open? && s'.procs[y].fd.Open? && s'.procs[x].pid == s'.procs[y].pid
      ensures x == y
    {
      assert x in s.procs ==> Linked(s, x, s'.procs[x].pid);
      assert y in s.procs ==> Linked(s, y, s'.procs[y].pid);
    }
  }
}

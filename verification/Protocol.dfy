/**
  The message passing protocol of the driver as one state machine. A step is one lock section,
  one RCU read section or one reference count operation of one thread; steps of different
  threads interleave freely. Any number of processes, channels, threads and messages take part.
  Numbers are used up to renaming: threads, process entries, channels and records start at 1, 0 is the
  null pointer.
 */
module Protocol {
  import opened Errno
  import opened ChannelQueue
  import opened Connections

  /** QNX_STATE_* of a message record. */
  datatype Tag = Initial | Receiving | Pending | Finished

  /** History variable: where a record is. `Done` remembers the thread that set the status,
      0 when a teardown did. */
  datatype Place =
    | AtSender(thread: nat)
    | InQueue(chid: nat)
    | InHands(thread: nat)
    | OnPending(entry: nat)
    | WithReplier(thread: nat)
    | Done(setter: nat)
    | Withdrawn
    | Discarded
    | Freed

  /** How a blocked sender came back, and with which result. */
  datatype How = Woken | WithdrewQueued | WithdrewPending | NoReceiver | Overtaken
  datatype Exit = NotYet | Exit(how: How, rc: int)

  /** A message record. `via` is the connection it was sent through and `timed` says whether the
      sender gave a timeout; `takes` and `frees` count how often it was completed or withdrawn, and
      how often its memory was given back; `exit` is how its sender decided to
      return, and `gone` says that the sender is out, and with it the memory of the record. */
  datatype Rec = Rec(
    hook: Hook,
    via: Connection,
    timed: bool,
    receiverPid: nat,
    receiverChid: nat,
    tag: Tag,
    status: int,
    place: Place,
    takes: nat,
    frees: nat,
    exit: Exit,
    gone: bool
  ) {
    /** What a sender can read off its record: the status has been set for good. */
    predicate Completed() { tag.Finished? || status == ESRCH }

    predicate Normal() { hook.task != 0 }
  }

  /** `dying` is the record that the teardown has cleaned up and still has to unlink, 0 for none;
      `closing` says that the teardown has begun. */
  datatype Chan = Chan(owner: nat, refs: int, leaked: nat, dying: nat, closing: bool, freed: bool, h: History)

  /** The read-write file of a process: open, unlinked from the registry, reference dropped. */
  datatype Fd = Open | Unlinked | Closed

  datatype Proc = Proc(
    pid: nat,
    fd: Fd,
    polls: nat,
    refs: int,
    channels: set<nat>,
    pending: seq<Hook>,
    dying: nat,
    conns: map<nat, Connection>,
    dead: bool
  )

  /** Where a thread stands inside a handler. */
  datatype Pc =
    | Idle
    | Connecting(rec: nat)                                       // connection looked up
    | Finding(rec: nat, target: nat)                             // holds the target process
    | Ready(rec: nat, chan: nat)                                 // holds the channel
    | Armed(rec: nat, chan: nat)                                 // marked TASK_INTERRUPTIBLE
    | Calling(rec: nat, chan: nat)                               // record published, receivers to wake
    | Refused(rec: nat, chan: nat)                               // no-reply refused, receivers to wake
    | Sent(chan: nat)                                            // heap record published, receivers to wake
    | Blocked(rec: nat, chan: nat)                               // waits for the reply
    | Interrupted(rec: nat, chan: nat, rc: int)                  // timeout or signal
    | Missed(rec: nat, chan: nat, rc: int)                       // record not in the queue
    | Taking(rec: nat, chan: nat, rc: int, target: nat)          // holds the receiving process
    | Arriving(chan: nat)                                        // MsgReceive, before the wait
    | Checking(chan: nat)                                        // on the wait queue, marked sleeping
    | Dozing(chan: nat)                                          // gave up the processor
    | Dequeuing(chan: nat)                                       // the wait is over
    | Received(chan: nat, rec: nat)                              // record dequeued
    | Replying(rec: nat)                                         // record off the pending list
    | Waking(done: nat, chan: nat)                               // status set, wake-up to do
    | Releasing(chan: nat, rec: nat)                             // reference to drop, own record to give up

  /** `poll` says through which kind of file the thread enters handlers. */
  datatype Thread = Thread(entry: nat, poll: bool, pc: Pc, awake: bool)

  datatype State = State(
    procs: map<nat, Proc>,
    chans: map<nat, Chan>,
    recs: map<nat, Rec>,
    threads: map<nat, Thread>,
    nextRcvid: nat,
    nextChid: nat,
    limit: nat
  )

  function Start(limit: nat): State {
    State(map[], map[], map[], map[], 0, 0, limit)
  }

  // ----- What a thread holds -----

  /** The channel a thread holds a reference to, or 0. */
  function HeldChan(pc: Pc): nat {
    match pc
    case Ready(_, c) => c
    case Armed(_, c) => c
    case Calling(_, c) => c
    case Refused(_, c) => c
    case Sent(c) => c
    case Blocked(_, c) => c
    case Interrupted(_, c, _) => c
    case Missed(_, c, _) => c
    case Taking(_, c, _, _) => c
    case Arriving(c) => c
    case Checking(c) => c
    case Dozing(c) => c
    case Dequeuing(c) => c
    case Received(c, _) => c
    case Waking(_, c) => c
    case Releasing(c, _) => c
    case _ => 0
  }

  /** The process entry a thread took a reference to in `qnx_driver_data_find_process`, or 0. */
  function HeldEntry(pc: Pc): nat {
    match pc
    case Finding(_, x) => x
    case Taking(_, _, _, x) => x
    case _ => 0
  }

  /** The record a thread deals with, or 0. */
  function RecOf(pc: Pc): nat {
    match pc
    case Connecting(m) => m
    case Finding(m, _) => m
    case Ready(m, _) => m
    case Armed(m, _) => m
    case Calling(m, _) => m
    case Refused(m, _) => m
    case Blocked(m, _) => m
    case Interrupted(m, _, _) => m
    case Missed(m, _, _) => m
    case Taking(m, _, _, _) => m
    case Received(_, m) => m
    case Replying(m) => m
    case Waking(m, _) => m
    case Releasing(_, m) => m
    case _ => 0
  }

  /** A sender that published its record and has not come back. */
  predicate Inside(pc: Pc, m: nat) {
    (pc.Calling? || pc.Blocked? || pc.Interrupted? || pc.Missed? || pc.Taking?) && pc.rec == m
  }

  /** A sender that has not published its record yet. */
  predicate Preparing(pc: Pc, m: nat) {
    (pc.Connecting? || pc.Finding? || pc.Ready? || pc.Armed? || pc.Refused?) && pc.rec == m
  }

  predicate Linked(s: State, e: nat, pid: nat) {
    e in s.procs && s.procs[e].fd.Open? && s.procs[e].pid == pid
  }

  ghost predicate NoProcess(s: State, pid: nat) {
    forall e :: e in s.procs ==> !Linked(s, e, pid)
  }

  /** The channel is on the list of its process. */
  predicate Listed(s: State, c: nat) {
    c in s.chans && s.chans[c].owner in s.procs && c in s.procs[s.chans[c].owner].channels
  }

  // ----- Small updates -----

  function SetPc(s: State, t: nat, pc: Pc): State
    requires t in s.threads
  {
    s.(threads := s.threads[t := s.threads[t].(pc := pc)])
  }

  function SetRec(s: State, m: nat, r: Rec): State {
    s.(recs := s.recs[m := r])
  }

  function ChanRef(s: State, c: nat, d: int): State
    requires c in s.chans
  {
    s.(chans := s.chans[c := s.chans[c].(refs := s.chans[c].refs + d)])
  }

  function SetHistory(s: State, c: nat, h: History): State
    requires c in s.chans
  {
    s.(chans := s.chans[c := s.chans[c].(h := h)])
  }

  function ProcRef(s: State, e: nat, d: int): State
    requires e in s.procs
  {
    s.(procs := s.procs[e := s.procs[e].(refs := s.procs[e].refs + d)])
  }

  function SetPending(s: State, e: nat, pending: seq<Hook>): State
    requires e in s.procs
  {
    s.(procs := s.procs[e := s.procs[e].(pending := pending)])
  }

  /** A record given up before it was published: stack records vanish, heap records are freed. */
  function Drop(r: Rec): Rec {
    if r.Normal() then r.(place := Discarded) else r.(place := Freed, frees := r.frees + 1)
  }

  /** `qnx_internal_msgsend_cleanup_and_free`: a sender is told ESRCH, a heap record is freed. */
  function CleanUp(r: Rec): Rec {
    if r.Normal() then r.(status := ESRCH, place := Done(0), takes := r.takes + 1)
    else r.(place := Freed, frees := r.frees + 1)
  }

  function WakeUp(s: State, task: nat): State {
    if task in s.threads then s.(threads := s.threads[task := s.threads[task].(awake := true)]) else s
  }

  /** The thread is on the wait queue of this channel. */
  predicate WaitsOn(pc: Pc, c: nat) {
    (pc.Checking? || pc.Dozing?) && pc.chan == c
  }

  function WakeQueue(threads: map<nat, Thread>, c: nat): map<nat, Thread> {
    map t | t in threads :: if WaitsOn(threads[t].pc, c) then threads[t].(awake := true) else threads[t]
  }

  datatype Kind = NormalMessage(timed: bool) | NoReplyMessage | PulseMessage

  function PcOf(s: State, t: nat): Pc {
    if t in s.threads then s.threads[t].pc else Idle
  }

  /** Every file of a process serves all handlers, its read-write file and its poll files. */
  predicate FileOpen(p: Proc, poll: bool) {
    if poll then p.polls > 0 else p.fd.Open?
  }

  predicate InUse(s: State, e: nat) {
    e in s.procs && (s.procs[e].fd.Open? || s.procs[e].polls > 0)
  }

  /** A thread of the process may enter a handler. */
  predicate MayEnter(s: State, t: nat, e: nat) {
    t in s.threads && s.threads[t].pc.Idle? && e in s.procs && FileOpen(s.procs[e], s.threads[t].poll)
  }

  predicate HasRec(s: State, t: nat) {
    t in s.threads && RecOf(s.threads[t].pc) in s.recs
  }

  predicate HasChan(s: State, t: nat) {
    t in s.threads && HeldChan(s.threads[t].pc) in s.chans
  }

  /** The sender's search through the waiting list succeeds. */
  predicate Queued(s: State, t: nat)
    requires HasRec(s, t) && HasChan(s, t) && PcOf(s, t).Interrupted?
  {
    var q := s.chans[PcOf(s, t).chan].h.q;
    IndexOf(q.waiting, s.recs[PcOf(s, t).rec].hook.rcvid) < |q.waiting|
  }

  /** `qnx_process_entry_release_pending` would find a record. */
  predicate FoundPending(s: State, e: nat, rcvid: int)
    requires e in s.procs
  {
    IndexOf(s.procs[e].pending, rcvid) < |s.procs[e].pending|
  }

  /** Taking the first pending record with this rcvid off the list. */
  function Unpend(s: State, e: nat, rcvid: int): State
    requires e in s.procs && FoundPending(s, e, rcvid)
  {
    SetPending(s, e, RemoveAt(s.procs[e].pending, IndexOf(s.procs[e].pending, rcvid)))
  }

  // ----- Opening, closing and tearing down -----

  predicate CanSpawn(s: State, t: nat) {
    t > 0 && t !in s.threads
  }

  /** A thread appears. */
  function DoSpawn(s: State, t: nat): State
    requires CanSpawn(s, t)
  {
    s.(threads := s.threads[t := Thread(0, false, Idle, true)])
  }

  predicate CanUseFile(s: State, t: nat) {
    t in s.threads && s.threads[t].pc.Idle?
  }

  /** A thread turns to the other kind of file. */
  function DoUseFile(s: State, t: nat, poll: bool): State
    requires CanUseFile(s, t)
  {
    s.(threads := s.threads[t := s.threads[t].(poll := poll)])
  }

  ghost predicate CanOpenFile(s: State, e: nat, pid: nat) {
    e > 0 && e !in s.procs && NoProcess(s, pid)
  }

  /** `qnxcomm_open` for reading and writing: refused while the registry has an entry of this pid. */
  function DoOpenFile(s: State, e: nat, pid: nat): State
    requires CanOpenFile(s, e, pid)
  {
    s.(procs := s.procs[e := Proc(pid, Open, 0, 1, {}, [], 0, map[], false)])
  }

  predicate CanOpenPoll(s: State, e: nat) {
    e in s.procs && s.procs[e].fd.Open?
  }

  /** `qnxcomm_open` for polling: takes a reference to the entry. */
  function DoOpenPoll(s: State, e: nat): State
    requires CanOpenPoll(s, e)
  {
    var s1 := ProcRef(s, e, 1);
    s1.(procs := s1.procs[e := s1.procs[e].(polls := s.procs[e].polls + 1)])
  }

  ghost predicate CanClosePoll(s: State, e: nat) {
    && e in s.procs && s.procs[e].polls > 0
    && (s.procs[e].polls > 1 || forall t :: t in s.threads && s.threads[t].entry == e && s.threads[t].poll ==> s.threads[t].pc.Idle?)
  }

  /** `qnxcomm_close` of a poll file that no handler uses. */
  function DoClosePoll(s: State, e: nat): State
    requires CanClosePoll(s, e)
  {
    var s1 := ProcRef(s, e, -1);
    s1.(procs := s1.procs[e := s1.procs[e].(polls := s.procs[e].polls - 1)])
  }

  ghost predicate CanUnlink(s: State, e: nat) {
    && e in s.procs && s.procs[e].fd.Open?
    && forall t :: t in s.threads && s.threads[t].entry == e && !s.threads[t].poll ==> s.threads[t].pc.Idle?
  }

  /** First half of `qnxcomm_close`: the entry leaves the registry. No handler of the file is running then. */
  function DoUnlink(s: State, e: nat): State
    requires CanUnlink(s, e)
  {
    s.(procs := s.procs[e := s.procs[e].(fd := Unlinked)])
  }

  predicate CanClose(s: State, e: nat) {
    e in s.procs && s.procs[e].fd.Unlinked?
  }

  /** Second half of `qnxcomm_close`: the reference of the file is dropped. */
  function DoClose(s: State, e: nat): State
    requires CanClose(s, e)
  {
    var s1 := ProcRef(s, e, -1);
    s1.(procs := s1.procs[e := s1.procs[e].(fd := Closed)])
  }

  predicate CanCleanPending(s: State, e: nat) {
    && e in s.procs && s.procs[e].refs == 0 && s.procs[e].channels == {} && !s.procs[e].dead && s.procs[e].dying == 0
    && s.procs[e].pending != [] && s.procs[e].pending[0].rec in s.recs
  }

  /** One round of the pending loop of `qnx_process_entry_free`: the sender is told ESRCH and woken. */
  function DoCleanPending(s: State, e: nat): State
    requires CanCleanPending(s, e)
  {
    var m := s.procs[e].pending[0].rec;
    var s1 := WakeUp(SetRec(s, m, CleanUp(s.recs[m])), s.recs[m].hook.task);
    s1.(procs := s.procs[e := s.procs[e].(pending := s.procs[e].pending[1..], dying := m)])
  }

  predicate CanUnlinkPending(s: State, e: nat) {
    e in s.procs && s.procs[e].dying != 0
  }

  /** The `list_del` at the end of the round, after the wake-up: it still touches the record. */
  function DoUnlinkPending(s: State, e: nat): State
    requires CanUnlinkPending(s, e)
  {
    s.(procs := s.procs[e := s.procs[e].(dying := 0)])
  }

  predicate CanFreeProcess(s: State, e: nat) {
    && e in s.procs && s.procs[e].refs == 0 && s.procs[e].channels == {} && !s.procs[e].dead
    && s.procs[e].pending == [] && s.procs[e].dying == 0
  }

  /** The end of `qnx_process_entry_free`. */
  function DoFreeProcess(s: State, e: nat): State
    requires CanFreeProcess(s, e)
  {
    s.(procs := s.procs[e := s.procs[e].(dead := true)])
  }

  predicate CanCreateChannel(s: State, e: nat) {
    InUse(s, e)
  }

  /** `qnx_process_entry_add_channel`: channel ids are never reused. */
  function DoCreateChannel(s: State, e: nat): State
    requires CanCreateChannel(s, e)
  {
    var c := s.nextChid + 1;
    s.(procs := s.procs[e := s.procs[e].(channels := s.procs[e].channels + {c})],
       chans := s.chans[c := Chan(e, 1, 0, 0, false, false, NEW)],
       nextChid := c)
  }

  predicate CanUnlistChannel(s: State, e: nat, c: nat) {
    && e in s.procs && c in s.procs[e].channels && c in s.chans
    && (InUse(s, e) || s.procs[e].refs == 0)
  }

  /** ChannelDestroy, or one round of the channel loop of `qnx_process_entry_free`. */
  function DoUnlistChannel(s: State, e: nat, c: nat): State
    requires CanUnlistChannel(s, e, c)
  {
    var s1 := ChanRef(s, c, -1);
    s1.(procs := s.procs[e := s.procs[e].(channels := s.procs[e].channels - {c})])
  }

  predicate CanCleanQueued(s: State, c: nat) {
    && c in s.chans && s.chans[c].refs == 0 && !s.chans[c].freed && s.chans[c].dying == 0
    && s.chans[c].h.q.waiting != [] && s.chans[c].h.q.waiting[0].rec in s.recs
  }

  /** One round of the loop of `qnx_channel_free`, which `kref_put` calls when the count is zero:
      a heap record is freed, a sender is told ESRCH and woken. */
  function DoCleanQueued(s: State, c: nat): State
    requires CanCleanQueued(s, c)
  {
    var ch := s.chans[c];
    var m := ch.h.q.waiting[0].rec;
    var s1 := WakeUp(SetRec(s, m, CleanUp(s.recs[m])), s.recs[m].hook.task);
    s1.(chans := s.chans[c := ch.(dying := m, closing := true, h := ch.h.(q := ch.h.q.(waiting := ch.h.q.waiting[1..])))])
  }

  predicate CanUnlinkQueued(s: State, c: nat) {
    c in s.chans && s.chans[c].dying != 0
  }

  /** The `list_del` at the end of the round. */
  function DoUnlinkQueued(s: State, c: nat): State
    requires CanUnlinkQueued(s, c)
  {
    s.(chans := s.chans[c := s.chans[c].(dying := 0)])
  }

  predicate CanFreeChannel(s: State, c: nat) {
    && c in s.chans && s.chans[c].refs == 0 && !s.chans[c].freed && s.chans[c].dying == 0
    && s.chans[c].h.q.waiting == []
  }

  /** The end of `qnx_channel_free`. */
  function DoFreeChannel(s: State, c: nat): State
    requires CanFreeChannel(s, c)
  {
    s.(chans := s.chans[c := s.chans[c].(closing := true, freed := true)])
  }

  predicate CanLeak(s: State, c: nat) {
    Listed(s, c) && s.procs[s.chans[c].owner].refs > 0
  }

  /** A handler that finds a channel and returns without releasing it (poll, a failed MsgSendv). */
  function DoLeak(s: State, c: nat): State
    requires CanLeak(s, c)
  {
    var s1 := ChanRef(s, c, 1);
    s1.(chans := s1.chans[c := s1.chans[c].(leaked := s.chans[c].leaked + 1)])
  }

  predicate CanAttach(s: State, e: nat, coid: nat, conn: Connection) {
    InUse(s, e)
  }

  /** ConnectAttach; the check that the channel exists may be stale by now, so any pair may be stored. */
  function DoAttach(s: State, e: nat, coid: nat, conn: Connection): State
    requires CanAttach(s, e, coid, conn)
  {
    s.(procs := s.procs[e := s.procs[e].(conns := s.procs[e].conns[coid := conn])])
  }

  predicate CanDetach(s: State, e: nat, coid: nat) {
    InUse(s, e)
  }

  /** ConnectDetach. */
  function DoDetach(s: State, e: nat, coid: nat): State
    requires CanDetach(s, e, coid)
  {
    s.(procs := s.procs[e := s.procs[e].(conns := s.procs[e].conns - {coid})])
  }

  // ----- Sending -----

  predicate CanBeginSend(s: State, t: nat, e: nat, m: nat, kind: Kind, coid: nat) {
    && MayEnter(s, t, e) && m > 0 && m !in s.recs
    && coid in s.procs[e].conns && s.procs[e].conns[coid].chid > 0
  }

  /** Building the record, which draws a new rcvid unless it is a pulse, and reading the connection. */
  function DoBeginSend(s: State, t: nat, e: nat, m: nat, kind: Kind, coid: nat): State
    requires CanBeginSend(s, t, e, m, kind, coid)
  {
    var hook := match kind
      case NormalMessage(_) => Hook(m, s.nextRcvid + 1, t)
      case NoReplyMessage => Hook(m, s.nextRcvid + 1, 0)
      case PulseMessage => Hook(m, 0, 0);
    var r := Rec(hook, s.procs[e].conns[coid], kind.NormalMessage? && kind.timed, 0, 0, Initial, 0, AtSender(t), 0, 0, NotYet, false);
    s.(recs := s.recs[m := r],
       threads := s.threads[t := s.threads[t].(entry := e, pc := Connecting(m))],
       nextRcvid := if kind.PulseMessage? then s.nextRcvid else s.nextRcvid + 1)
  }

  predicate CanFindTarget(s: State, t: nat, x: nat) {
    HasRec(s, t) && PcOf(s, t).Connecting? && Linked(s, x, s.recs[PcOf(s, t).rec].via.pid)
  }

  /** `qnx_driver_data_find_process` succeeds and takes a reference. */
  function DoFindTarget(s: State, t: nat, x: nat): State
    requires CanFindTarget(s, t, x)
  {
    SetPc(ProcRef(s, x, 1), t, Finding(PcOf(s, t).rec, x))
  }

  ghost predicate CanNoTarget(s: State, t: nat) {
    HasRec(s, t) && PcOf(s, t).Connecting? && NoProcess(s, s.recs[PcOf(s, t).rec].via.pid)
  }

  /** `qnx_driver_data_find_process` fails: EBADF. */
  function DoNoTarget(s: State, t: nat): State
    requires CanNoTarget(s, t)
  {
    var m := PcOf(s, t).rec;
    SetPc(SetRec(s, m, Drop(s.recs[m])), t, Idle)
  }

  predicate CanFindChan(s: State, t: nat) {
    && HasRec(s, t) && PcOf(s, t).Finding? && PcOf(s, t).target in s.procs
    && s.recs[PcOf(s, t).rec].via.chid in s.procs[PcOf(s, t).target].channels
    && s.recs[PcOf(s, t).rec].via.chid in s.chans
  }

  /** `qnx_process_entry_find_channel` takes a reference to the channel; the process is released. */
  function DoFindChan(s: State, t: nat): State
    requires CanFindChan(s, t)
  {
    var Finding(m, x) := PcOf(s, t);
    var r := s.recs[m];
    SetPc(ChanRef(ProcRef(SetRec(s, m, r.(receiverPid := r.via.pid)), x, -1), r.via.chid, 1), t, Ready(m, r.via.chid))
  }

  predicate CanNoChan(s: State, t: nat) {
    && HasRec(s, t) && PcOf(s, t).Finding? && PcOf(s, t).target in s.procs
    && s.recs[PcOf(s, t).rec].via.chid !in s.procs[PcOf(s, t).target].channels
  }

  /** The process has no such channel: EBADF. */
  function DoNoChan(s: State, t: nat): State
    requires CanNoChan(s, t)
  {
    var Finding(m, x) := PcOf(s, t);
    SetPc(ProcRef(SetRec(s, m, Drop(s.recs[m])), x, -1), t, Idle)
  }

  predicate CanArm(s: State, t: nat) {
    HasRec(s, t) && PcOf(s, t).Ready? && s.recs[PcOf(s, t).rec].Normal()
  }

  /** `set_current_state(TASK_INTERRUPTIBLE)`, before the record is published. */
  function DoArm(s: State, t: nat): State
    requires CanArm(s, t)
  {
    var Ready(m, c) := PcOf(s, t);
    s.(threads := s.threads[t := s.threads[t].(pc := Armed(m, c), awake := false)])
  }

  predicate CanEnqueue(s: State, t: nat) {
    && HasRec(s, t) && HasChan(s, t)
    && (PcOf(s, t).Armed? || (PcOf(s, t).Ready? && !s.recs[PcOf(s, t).rec].Normal()))
  }

  /** The lock section of `qnx_channel_add_new_message`. A refused no-reply sender keeps its record. */
  function DoEnqueue(s: State, t: nat): State
    requires CanEnqueue(s, t)
  {
    var m, c := PcOf(s, t).rec, PcOf(s, t).chan;
    var r := s.recs[m].(receiverChid := c);
    var s1 := SetHistory(s, c, HAdd(s.chans[c].h, r.hook, s.limit));
    if Accepts(s.chans[c].h.q, r.hook, s.limit) then
      SetPc(SetRec(s1, m, r.(place := InQueue(c))), t, if r.Normal() then Calling(m, c) else Sent(c))
    else
      SetPc(SetRec(s1, m, r), t, Refused(m, c))
  }

  /** The thread is about to wake the receivers of this channel. */
  predicate Rings(pc: Pc, c: nat) {
    (pc.Calling? || pc.Refused? || pc.Sent?) && pc.chan == c
  }

  predicate CanCall(s: State, t: nat) {
    t in s.threads && Rings(s.threads[t].pc, HeldChan(s.threads[t].pc))
  }

  /** `wake_up(&chnl->waiting_queue)`, also after a refusal; the refused sender will try again. */
  function DoCall(s: State, t: nat): State
    requires CanCall(s, t)
  {
    var s1 := s.(threads := WakeQueue(s.threads, HeldChan(s.threads[t].pc)));
    match s.threads[t].pc
    case Calling(m, c) => SetPc(s1, t, Blocked(m, c))
    case Refused(m, c) => SetPc(s1, t, Ready(m, c))
    case Sent(c) => SetPc(s1, t, Releasing(c, 0))
  }

  predicate CanGiveUp(s: State, t: nat) {
    && HasRec(s, t) && PcOf(s, t).Ready? && s.recs[PcOf(s, t).rec].hook.NoReply()
    && s.recs[PcOf(s, t).rec].receiverChid != 0
  }

  /** A no-reply sender that was refused, which has named the channel in its record, and is stopped by a
      signal frees the record. */
  function DoGiveUp(s: State, t: nat): State
    requires CanGiveUp(s, t)
  {
    var Ready(m, c) := PcOf(s, t);
    SetPc(SetRec(s, m, Drop(s.recs[m])), t, Releasing(c, 0))
  }

  predicate CanRelease(s: State, t: nat) {
    HasChan(s, t) && PcOf(s, t).Releasing? && (PcOf(s, t).rec == 0 || PcOf(s, t).rec in s.recs)
  }

  /** `qnx_channel_release`; a sender that had blocked gives up its record, which lies on its stack. */
  function DoRelease(s: State, t: nat): State
    requires CanRelease(s, t)
  {
    var Releasing(c, m) := PcOf(s, t);
    var s1 := SetPc(ChanRef(s, c, -1), t, Idle);
    if m == 0 then s1 else SetRec(s1, m, s.recs[m].(gone := true))
  }

  // ----- A blocked sender coming back -----

  predicate CanLeaveWoken(s: State, t: nat) {
    HasRec(s, t) && PcOf(s, t).Blocked? && !s.recs[PcOf(s, t).rec].timed && s.threads[t].awake
  }

  /** `schedule` returned without a signal, which ends a wait without timeout only: the status is the result. */
  function DoLeaveWoken(s: State, t: nat): State
    requires CanLeaveWoken(s, t)
  {
    var Blocked(m, c) := PcOf(s, t);
    SetPc(SetRec(s, m, s.recs[m].(exit := Exit(Woken, s.recs[m].status))), t, Releasing(c, m))
  }

  predicate CanSleepOn(s: State, t: nat) {
    HasRec(s, t) && PcOf(s, t).Blocked? && s.recs[PcOf(s, t).rec].timed && s.threads[t].awake
  }

  /** `msleep_interruptible` goes back to sleep after a wake-up, whatever has happened. */
  function DoSleepOn(s: State, t: nat): State
    requires CanSleepOn(s, t)
  {
    s.(threads := s.threads[t := s.threads[t].(awake := false)])
  }

  predicate CanInterrupt(s: State, t: nat, rc: int) {
    HasRec(s, t) && PcOf(s, t).Blocked? && ((rc == ETIMEDOUT && s.recs[PcOf(s, t).rec].timed) || rc == ERESTARTSYS)
  }

  /** The timeout or a signal ends the sleep. */
  function DoInterrupt(s: State, t: nat, rc: int): State
    requires CanInterrupt(s, t, rc)
  {
    var Blocked(m, c) := PcOf(s, t);
    s.(threads := s.threads[t := s.threads[t].(pc := Interrupted(m, c, rc), awake := true)])
  }

  predicate CanWithdrawQueued(s: State, t: nat) {
    HasRec(s, t) && HasChan(s, t) && PcOf(s, t).Interrupted? && Queued(s, t)
  }

  /** `qnx_channel_remove_message` finds the record. */
  function DoWithdrawQueued(s: State, t: nat): State
    requires CanWithdrawQueued(s, t)
  {
    var Interrupted(m, c, rc) := PcOf(s, t);
    var r := s.recs[m];
    var s1 := SetHistory(s, c, HWithdraw(s.chans[c].h, r.hook.rcvid));
    SetPc(SetRec(s1, m, r.(place := Withdrawn, takes := r.takes + 1, exit := Exit(WithdrewQueued, rc))), t, Releasing(c, m))
  }

  predicate CanMissQueued(s: State, t: nat) {
    HasRec(s, t) && HasChan(s, t) && PcOf(s, t).Interrupted? && !Queued(s, t)
  }

  /** `qnx_channel_remove_message` does not find it. */
  function DoMissQueued(s: State, t: nat): State
    requires CanMissQueued(s, t)
  {
    var Interrupted(m, c, rc) := PcOf(s, t);
    SetPc(s, t, Missed(m, c, rc))
  }

  predicate CanFindReceiver(s: State, t: nat, x: nat) {
    && HasRec(s, t) && PcOf(s, t).Missed? && !s.recs[PcOf(s, t).rec].tag.Receiving?
    && Linked(s, x, s.recs[PcOf(s, t).rec].receiverPid)
  }

  /** The busy loop on RECEIVING ends and the receiving process is found. */
  function DoFindReceiver(s: State, t: nat, x: nat): State
    requires CanFindReceiver(s, t, x)
  {
    var Missed(m, c, rc) := PcOf(s, t);
    SetPc(ProcRef(s, x, 1), t, Taking(m, c, rc, x))
  }

  ghost predicate CanLeaveNoReceiver(s: State, t: nat) {
    && HasRec(s, t) && PcOf(s, t).Missed? && !s.recs[PcOf(s, t).rec].tag.Receiving?
    && NoProcess(s, s.recs[PcOf(s, t).rec].receiverPid)
  }

  /** The busy loop on RECEIVING ends and no process has the pid: the result stays the interruption code. */
  function DoLeaveNoReceiver(s: State, t: nat): State
    requires CanLeaveNoReceiver(s, t)
  {
    var Missed(m, c, rc) := PcOf(s, t);
    SetPc(SetRec(s, m, s.recs[m].(exit := Exit(NoReceiver, rc))), t, Releasing(c, m))
  }

  predicate CanWithdrawPending(s: State, t: nat) {
    && HasRec(s, t) && PcOf(s, t).Taking? && PcOf(s, t).target in s.procs
    && FoundPending(s, PcOf(s, t).target, s.recs[PcOf(s, t).rec].hook.rcvid)
  }

  /** `qnx_process_entry_release_pending` returns the record to its sender. */
  function DoWithdrawPending(s: State, t: nat): State
    requires CanWithdrawPending(s, t)
  {
    var Taking(m, c, rc, x) := PcOf(s, t);
    var r := s.recs[m];
    var s1 := ProcRef(Unpend(s, x, r.hook.rcvid), x, -1);
    SetPc(SetRec(s1, m, r.(place := Withdrawn, takes := r.takes + 1, exit := Exit(WithdrewPending, rc))), t, Releasing(c, m))
  }

  predicate CanLeaveOvertaken(s: State, t: nat) {
    && HasRec(s, t) && PcOf(s, t).Taking? && PcOf(s, t).target in s.procs
    && !FoundPending(s, PcOf(s, t).target, s.recs[PcOf(s, t).rec].hook.rcvid)
  }

  /** `qnx_process_entry_release_pending` does not find it: the sender returns the status as it is now. */
  function DoLeaveOvertaken(s: State, t: nat): State
    requires CanLeaveOvertaken(s, t)
  {
    var Taking(m, c, rc, x) := PcOf(s, t);
    var r := s.recs[m];
    SetPc(SetRec(ProcRef(s, x, -1), m, r.(exit := Exit(Overtaken, r.status))), t, Releasing(c, m))
  }

  // ----- Receiving and replying -----

  predicate CanBeginReceive(s: State, t: nat, e: nat, c: nat) {
    MayEnter(s, t, e) && c in s.procs[e].channels && c in s.chans
  }

  /** MsgReceive finds the channel of its own process. */
  function DoBeginReceive(s: State, t: nat, e: nat, c: nat): State
    requires CanBeginReceive(s, t, e, c)
  {
    var s1 := ChanRef(s, c, 1);
    s1.(threads := s.threads[t := s.threads[t].(entry := e, pc := Arriving(c))])
  }

  /** What a receiver waits for. */
  predicate Waiting(s: State, c: nat)
    requires c in s.chans
  {
    s.chans[c].h.q.numWaiting > 0
  }

  predicate CanSeeReady(s: State, t: nat) {
    HasChan(s, t) && (PcOf(s, t).Arriving? || PcOf(s, t).Checking?) && Waiting(s, PcOf(s, t).chan)
  }

  /** The wait ends because its condition holds. */
  function DoSeeReady(s: State, t: nat): State
    requires CanSeeReady(s, t)
  {
    s.(threads := s.threads[t := s.threads[t].(pc := Dequeuing(PcOf(s, t).chan), awake := true)])
  }

  predicate CanPrepare(s: State, t: nat) {
    HasChan(s, t) && ((PcOf(s, t).Arriving? && !Waiting(s, PcOf(s, t).chan)) || (PcOf(s, t).Dozing? && s.threads[t].awake))
  }

  /** The receiver joins the wait queue, or was woken, and marks itself sleeping before it looks again. */
  function DoPrepare(s: State, t: nat): State
    requires CanPrepare(s, t)
  {
    s.(threads := s.threads[t := s.threads[t].(pc := Checking(PcOf(s, t).chan), awake := false)])
  }

  predicate CanDoze(s: State, t: nat) {
    HasChan(s, t) && PcOf(s, t).Checking? && !Waiting(s, PcOf(s, t).chan)
  }

  /** It finds no message and calls the scheduler. */
  function DoDoze(s: State, t: nat): State
    requires CanDoze(s, t)
  {
    SetPc(s, t, Dozing(PcOf(s, t).chan))
  }

  predicate CanStopWaiting(s: State, t: nat) {
    HasChan(s, t) && (PcOf(s, t).Arriving? || PcOf(s, t).Checking? || PcOf(s, t).Dozing?)
  }

  /** The time is over, and the queue is looked at once more, or a signal ends MsgReceive. */
  function DoStopWaiting(s: State, t: nat, signal: bool): State
    requires CanStopWaiting(s, t)
  {
    var c := PcOf(s, t).chan;
    s.(threads := s.threads[t := s.threads[t].(pc := if signal then Releasing(c, 0) else Dequeuing(c), awake := true)])
  }

  predicate CanReceiveNone(s: State, t: nat) {
    HasChan(s, t) && PcOf(s, t).Dequeuing? && s.chans[PcOf(s, t).chan].h.q.waiting == []
  }

  /** The queue is empty: MsgReceive answers ETIMEDOUT. */
  function DoReceiveNone(s: State, t: nat): State
    requires CanReceiveNone(s, t)
  {
    SetPc(s, t, Releasing(PcOf(s, t).chan, 0))
  }

  predicate CanReceive(s: State, t: nat) {
    && HasChan(s, t) && PcOf(s, t).Dequeuing? && s.chans[PcOf(s, t).chan].h.q.waiting != []
    && s.chans[PcOf(s, t).chan].h.q.waiting[0].rec in s.recs
  }

  /** MsgReceive dequeues the first record. */
  function DoReceive(s: State, t: nat): State
    requires CanReceive(s, t)
  {
    var c := PcOf(s, t).chan;
    var m := s.chans[c].h.q.waiting[0].rec;
    var s1 := SetHistory(s, c, HTake(s.chans[c].h));
    SetPc(SetRec(s1, m, s.recs[m].(tag := Receiving, place := InHands(t))), t, Received(c, m))
  }

  predicate CanFreeReceived(s: State, t: nat) {
    HasRec(s, t) && PcOf(s, t).Received? && !s.recs[PcOf(s, t).rec].Normal()
  }

  /** A pulse or a no-reply message is freed once it is copied out. */
  function DoFreeReceived(s: State, t: nat): State
    requires CanFreeReceived(s, t)
  {
    var Received(c, m) := PcOf(s, t);
    SetPc(SetRec(s, m, Drop(s.recs[m])), t, Releasing(c, 0))
  }

  predicate CanPend(s: State, t: nat) {
    HasRec(s, t) && PcOf(s, t).Received? && s.recs[PcOf(s, t).rec].Normal() && s.threads[t].entry in s.procs
  }

  /** `qnx_process_entry_add_pending`. */
  function DoPend(s: State, t: nat): State
    requires CanPend(s, t)
  {
    var Received(c, m) := PcOf(s, t);
    var e := s.threads[t].entry;
    var s1 := SetPending(s, e, [s.recs[m].hook] + s.procs[e].pending);
    SetPc(SetRec(s1, m, s.recs[m].(tag := Pending, place := OnPending(e))), t, Releasing(c, 0))
  }

  predicate CanFailReceive(s: State, t: nat, err: int) {
    HasRec(s, t) && PcOf(s, t).Received? && s.recs[PcOf(s, t).rec].Normal() && err == EFAULT
  }

  /** The copy failed: the record is finished with the error. */
  function DoFailReceive(s: State, t: nat, err: int): State
    requires CanFailReceive(s, t, err)
  {
    var Received(c, m) := PcOf(s, t);
    var r := s.recs[m];
    SetPc(SetRec(s, m, r.(status := err, tag := Finished, place := Done(t), takes := r.takes + 1)), t,
          Waking(m, c))
  }

  predicate CanTakePending(s: State, t: nat, e: nat, rcvid: int) {
    && MayEnter(s, t, e) && FoundPending(s, e, rcvid)
    && s.procs[e].pending[IndexOf(s.procs[e].pending, rcvid)].rec in s.recs
  }

  /** MsgReply or MsgError takes a record off the pending list of its own process. */
  function DoTakePending(s: State, t: nat, e: nat, rcvid: int): State
    requires CanTakePending(s, t, e, rcvid)
  {
    var m := s.procs[e].pending[IndexOf(s.procs[e].pending, rcvid)].rec;
    var s1 := SetRec(Unpend(s, e, rcvid), m, s.recs[m].(place := WithReplier(t), takes := s.recs[m].takes + 1));
    s1.(threads := s.threads[t := s.threads[t].(entry := e, pc := Replying(m))])
  }

  predicate CanFinish(s: State, t: nat, status: int) {
    HasRec(s, t) && PcOf(s, t).Replying?
  }

  /** MsgReply or MsgError stores status and FINISHED. */
  function DoFinish(s: State, t: nat, status: int): State
    requires CanFinish(s, t, status)
  {
    var m := PcOf(s, t).rec;
    var r := s.recs[m];
    SetPc(SetRec(s, m, r.(status := status, tag := Finished, place := Done(t))), t, Waking(m, 0))
  }

  predicate CanWake(s: State, t: nat) {
    HasRec(s, t) && PcOf(s, t).Waking?
  }

  /** `wake_up_process`: the thread to wake is read from the record, after its status was stored. */
  function DoWake(s: State, t: nat): State
    requires CanWake(s, t)
  {
    var Waking(m, c) := PcOf(s, t);
    SetPc(WakeUp(s, s.recs[m].hook.task), t, if c == 0 then Idle else Releasing(c, 0))
  }

  // ----- Steps -----

  /** Opening, closing and tearing down: processes, channels and connections. */
  datatype EnvStep =
    | Spawn(t: nat)
    | UseFile(t: nat, poll: bool)
    | OpenFile(e: nat, pid: nat)
    | OpenPoll(e: nat)
    | ClosePoll(e: nat)
    | Unlink(e: nat)
    | Close(e: nat)
    | CleanPending(e: nat)
    | UnlinkPending(e: nat)
    | FreeProcess(e: nat)
    | CreateChannel(e: nat)
    | UnlistChannel(e: nat, c: nat)
    | CleanQueued(c: nat)
    | UnlinkQueued(c: nat)
    | FreeChannel(c: nat)
    | Leak(c: nat)
    | Attach(e: nat, coid: nat, conn: Connection)
    | Detach(e: nat, coid: nat)

  /** MsgSend, MsgSendNoReply and MsgSendPulse up to the published record. */
  datatype SendStep =
    | BeginSend(e: nat, m: nat, kind: Kind, coid: nat)
    | FindTarget(x: nat)
    | NoTarget
    | FindChan
    | NoChan
    | Arm
    | Enqueue
    | Call
    | GiveUp
    | Release

  /** A blocked sender coming back. */
  datatype LeaveStep =
    | LeaveWoken
    | SleepOn
    | Interrupt(rc: int)
    | WithdrawQueued
    | MissQueued
    | FindReceiver(x: nat)
    | LeaveNoReceiver
    | WithdrawPending
    | LeaveOvertaken

  /** MsgReceive, MsgReply and MsgError. */
  datatype ServeStep =
    | BeginReceive(e: nat, c: nat)
    | SeeReady
    | Prepare
    | Doze
    | StopWaiting(signal: bool)
    | ReceiveNone
    | Receive
    | FreeReceived
    | Pend
    | FailReceive(err: int)
    | TakePending(e: nat, rcvid: int)
    | Finish(status: int)
    | Wake

  datatype Step =
    | Env(env: EnvStep)
    | Send(t: nat, send: SendStep)
    | Leave(t: nat, leave: LeaveStep)
    | Serve(t: nat, serve: ServeStep)

  ghost predicate EnabledEnv(s: State, a: EnvStep) {
    match a
    case Spawn(t) => CanSpawn(s, t)
    case UseFile(t, _) => CanUseFile(s, t)
    case OpenFile(e, pid) => CanOpenFile(s, e, pid)
    case OpenPoll(e) => CanOpenPoll(s, e)
    case ClosePoll(e) => CanClosePoll(s, e)
    case Unlink(e) => CanUnlink(s, e)
    case Close(e) => CanClose(s, e)
    case CleanPending(e) => CanCleanPending(s, e)
    case UnlinkPending(e) => CanUnlinkPending(s, e)
    case FreeProcess(e) => CanFreeProcess(s, e)
    case CreateChannel(e) => CanCreateChannel(s, e)
    case UnlistChannel(e, c) => CanUnlistChannel(s, e, c)
    case CleanQueued(c) => CanCleanQueued(s, c)
    case UnlinkQueued(c) => CanUnlinkQueued(s, c)
    case FreeChannel(c) => CanFreeChannel(s, c)
    case Leak(c) => CanLeak(s, c)
    case Attach(e, coid, conn) => CanAttach(s, e, coid, conn)
    case Detach(e, coid) => CanDetach(s, e, coid)
  }

  ghost predicate EnabledSend(s: State, t: nat, a: SendStep) {
    match a
    case BeginSend(e, m, kind, coid) => CanBeginSend(s, t, e, m, kind, coid)
    case FindTarget(x) => CanFindTarget(s, t, x)
    case NoTarget => CanNoTarget(s, t)
    case FindChan => CanFindChan(s, t)
    case NoChan => CanNoChan(s, t)
    case Arm => CanArm(s, t)
    case Enqueue => CanEnqueue(s, t)
    case Call => CanCall(s, t)
    case GiveUp => CanGiveUp(s, t)
    case Release => CanRelease(s, t)
  }

  ghost predicate EnabledLeave(s: State, t: nat, a: LeaveStep) {
    match a
    case LeaveWoken => CanLeaveWoken(s, t)
    case SleepOn => CanSleepOn(s, t)
    case Interrupt(rc) => CanInterrupt(s, t, rc)
    case WithdrawQueued => CanWithdrawQueued(s, t)
    case MissQueued => CanMissQueued(s, t)
    case FindReceiver(x) => CanFindReceiver(s, t, x)
    case LeaveNoReceiver => CanLeaveNoReceiver(s, t)
    case WithdrawPending => CanWithdrawPending(s, t)
    case LeaveOvertaken => CanLeaveOvertaken(s, t)
  }

  ghost predicate EnabledServe(s: State, t: nat, a: ServeStep) {
    match a
    case BeginReceive(e, c) => CanBeginReceive(s, t, e, c)
    case SeeReady => CanSeeReady(s, t)
    case Prepare => CanPrepare(s, t)
    case Doze => CanDoze(s, t)
    case StopWaiting(_) => CanStopWaiting(s, t)
    case ReceiveNone => CanReceiveNone(s, t)
    case Receive => CanReceive(s, t)
    case FreeReceived => CanFreeReceived(s, t)
    case Pend => CanPend(s, t)
    case FailReceive(err) => CanFailReceive(s, t, err)
    case TakePending(e, rcvid) => CanTakePending(s, t, e, rcvid)
    case Finish(status) => CanFinish(s, t, status)
    case Wake => CanWake(s, t)
  }

  function ApplyEnv(s: State, a: EnvStep): State
    requires EnabledEnv(s, a)
  {
    match a
    case Spawn(t) => DoSpawn(s, t)
    case UseFile(t, poll) => DoUseFile(s, t, poll)
    case OpenFile(e, pid) => DoOpenFile(s, e, pid)
    case OpenPoll(e) => DoOpenPoll(s, e)
    case ClosePoll(e) => DoClosePoll(s, e)
    case Unlink(e) => DoUnlink(s, e)
    case Close(e) => DoClose(s, e)
    case CleanPending(e) => DoCleanPending(s, e)
    case UnlinkPending(e) => DoUnlinkPending(s, e)
    case FreeProcess(e) => DoFreeProcess(s, e)
    case CreateChannel(e) => DoCreateChannel(s, e)
    case UnlistChannel(e, c) => DoUnlistChannel(s, e, c)
    case CleanQueued(c) => DoCleanQueued(s, c)
    case UnlinkQueued(c) => DoUnlinkQueued(s, c)
    case FreeChannel(c) => DoFreeChannel(s, c)
    case Leak(c) => DoLeak(s, c)
    case Attach(e, coid, conn) => DoAttach(s, e, coid, conn)
    case Detach(e, coid) => DoDetach(s, e, coid)
  }

  function ApplySend(s: State, t: nat, a: SendStep): State
    requires EnabledSend(s, t, a)
  {
    match a
    case BeginSend(e, m, kind, coid) => DoBeginSend(s, t, e, m, kind, coid)
    case FindTarget(x) => DoFindTarget(s, t, x)
    case NoTarget => DoNoTarget(s, t)
    case FindChan => DoFindChan(s, t)
    case NoChan => DoNoChan(s, t)
    case Arm => DoArm(s, t)
    case Enqueue => DoEnqueue(s, t)
    case Call => DoCall(s, t)
    case GiveUp => DoGiveUp(s, t)
    case Release => DoRelease(s, t)
  }

  function ApplyLeave(s: State, t: nat, a: LeaveStep): State
    requires EnabledLeave(s, t, a)
  {
    match a
    case LeaveWoken => DoLeaveWoken(s, t)
    case SleepOn => DoSleepOn(s, t)
    case Interrupt(rc) => DoInterrupt(s, t, rc)
    case WithdrawQueued => DoWithdrawQueued(s, t)
    case MissQueued => DoMissQueued(s, t)
    case FindReceiver(x) => DoFindReceiver(s, t, x)
    case LeaveNoReceiver => DoLeaveNoReceiver(s, t)
    case WithdrawPending => DoWithdrawPending(s, t)
    case LeaveOvertaken => DoLeaveOvertaken(s, t)
  }

  function ApplyServe(s: State, t: nat, a: ServeStep): State
    requires EnabledServe(s, t, a)
  {
    match a
    case BeginReceive(e, c) => DoBeginReceive(s, t, e, c)
    case SeeReady => DoSeeReady(s, t)
    case Prepare => DoPrepare(s, t)
    case Doze => DoDoze(s, t)
    case StopWaiting(signal) => DoStopWaiting(s, t, signal)
    case ReceiveNone => DoReceiveNone(s, t)
    case Receive => DoReceive(s, t)
    case FreeReceived => DoFreeReceived(s, t)
    case Pend => DoPend(s, t)
    case FailReceive(err) => DoFailReceive(s, t, err)
    case TakePending(e, rcvid) => DoTakePending(s, t, e, rcvid)
    case Finish(status) => DoFinish(s, t, status)
    case Wake => DoWake(s, t)
  }

  ghost predicate Enabled(s: State, a: Step) {
    match a
    case Env(x) => EnabledEnv(s, x)
    case Send(t, x) => EnabledSend(s, t, x)
    case Leave(t, x) => EnabledLeave(s, t, x)
    case Serve(t, x) => EnabledServe(s, t, x)
  }

  function Apply(s: State, a: Step): State
    requires Enabled(s, a)
  {
    match a
    case Env(x) => ApplyEnv(s, x)
    case Send(t, x) => ApplySend(s, t, x)
    case Leave(t, x) => ApplyLeave(s, t, x)
    case Serve(t, x) => ApplyServe(s, t, x)
  }

  // ----- Runs -----

  /** A run of the driver: a start state and steps, each taken where it is enabled. */
  ghost predicate Run(states: seq<State>, steps: seq<Step>) {
    && |states| == |steps| + 1
    && states[0] == Start(states[0].limit)
    && forall i :: 0 <= i < |steps| ==> Enabled(states[i], steps[i]) && states[i + 1] == Apply(states[i], steps[i])
  }
}

/**
  The `waiting` list of a channel and its two cached counters (kernel/channel.c), together
  with the history that the laws about it speak of.
 */
module ChannelQueue {

  /** What a list node gives access to and what never changes once a record is initialised:
      the record itself, its receive id (0 for a pulse) and its sleeping thread (0 for none). */
  datatype Hook = Hook(rec: nat, rcvid: int, task: nat) {
    predicate NoReply() { rcvid > 0 && task == 0 }

    predicate WellFormed() { rcvid >= 0 && (rcvid == 0 ==> task == 0) }
  }

  datatype Queue = Queue(waiting: seq<Hook>, numWaiting: int, numNoreply: int)

  const EMPTY := Queue([], 0, 0)

  // ----- The three lock sections on a queue -----

  /** The test of `qnx_channel_add_new_message`: only no-reply messages can be refused. */
  predicate Accepts(q: Queue, h: Hook, limit: nat) {
    h.rcvid == 0 || h.task != 0 || q.numNoreply < limit
  }

  function Add(q: Queue, h: Hook, limit: nat): Queue {
    if h.rcvid == 0 || h.task != 0 then
      Queue(q.waiting + [h], q.numWaiting + 1, q.numNoreply)
    else if q.numNoreply < limit then
      Queue(q.waiting + [h], q.numWaiting + 1, q.numNoreply + 1)
    else
      q.(numWaiting := q.numWaiting + 1)
  }

  /** The dequeue inside `handle_msgreceive`. */
  function Take(q: Queue): Queue
    requires q.waiting != []
  {
    var h := q.waiting[0];
    Queue(q.waiting[1..], q.numWaiting - 1,
          if h.rcvid > 0 && h.task == 0 then q.numNoreply - 1 else q.numNoreply)
  }

  /** `qnx_channel_remove_message`; a queue without the rcvid is left alone. */
  function Withdraw(q: Queue, rcvid: int): Queue {
    var i := IndexOf(q.waiting, rcvid);
    if i == |q.waiting| then q
    else Queue(RemoveAt(q.waiting, i), q.numWaiting - 1, q.numNoreply)
  }

  // ----- Lists of hooks -----

  /** The position of the first node with this rcvid, or the length of the list. */
  function IndexOf(list: seq<Hook>, rcvid: int): (i: nat)
    ensures i <= |list|
    ensures i < |list| ==> list[i].rcvid == rcvid
    ensures forall j :: 0 <= j < i ==> list[j].rcvid != rcvid
  {
    if list == [] then 0
    else if list[0].rcvid == rcvid then 0
    else 1 + IndexOf(list[1..], rcvid)
  }

  function RemoveAt<T>(list: seq<T>, i: nat): seq<T>
    requires i < |list|
  {
    list[..i] + list[i + 1..]
  }

  /** No record is linked twice. */
  ghost predicate Distinct(list: seq<Hook>) {
    forall i, j :: 0 <= i < j < |list| ==> list[i].rec != list[j].rec
  }

  lemma RemoveAtFacts(list: seq<Hook>, i: nat)
    requires i < |list| && Distinct(list)
    ensures Distinct(RemoveAt(list, i))
    ensures forall h :: h in RemoveAt(list, i) <==> h in list && h != list[i]
    ensures forall h :: h in RemoveAt(list, i) ==> h.rec != list[i].rec
  {
    var r := RemoveAt(list, i);
    forall h | h in list && h != list[i]
      ensures h in r
    {
      var k :| 0 <= k < |list| && list[k] == h;
      assert h == r[if k < i then k else k - 1];
    }
  }

  function CountNoReply(list: seq<Hook>): nat {
    if list == [] then 0
    else CountNoReply(list[..|list| - 1]) + if list[|list| - 1].NoReply() then 1 else 0
  }

  lemma {:induction false} CountSplit(a: seq<Hook>, b: seq<Hook>)
    ensures CountNoReply(a + b) == CountNoReply(a) + CountNoReply(b)
    decreases |b|
  {
    if b == [] {
      assert a + b == a;
    } else {
      var c := b[..|b| - 1];
      assert (a + b)[..|a + b| - 1] == a + c;
      CountSplit(a, c);
    }
  }

  lemma {:induction false} CountRemoveAt(list: seq<Hook>, i: nat)
    requires i < |list|
    ensures CountNoReply(RemoveAt(list, i)) == CountNoReply(list) - if list[i].NoReply() then 1 else 0
  {
    var before, x, after := list[..i], [list[i]], list[i + 1..];
    assert CountNoReply(x) == if list[i].NoReply() then 1 else 0 by {
      assert x[..0] == [];
    }
    CountSplit(before, x + after);
    CountSplit(x, after);
    CountSplit(before, after);
    assert list == before + (x + after);
  }

  /** The positions of the no-reply messages. */
  ghost function NoReplies(list: seq<Hook>): set<nat> {
    set i: nat | i < |list| && list[i].NoReply()
  }

  lemma {:induction false} CountIsNumber(list: seq<Hook>)
    ensures CountNoReply(list) == |NoReplies(list)|
  {
    if list != [] {
      var front, last := list[..|list| - 1], |list| - 1;
      CountIsNumber(front);
      assert NoReplies(list) == NoReplies(front) + if list[last].NoReply() then {last} else {};
    }
  }

  // ----- Histories -----

  /** A queue with everything that ever happened to it: the hooks it accepted in order, the
      records withdrawn by their senders, the hooks it delivered in order, and the number of
      refused no-reply attempts. */
  datatype History = History(
    q: Queue,
    accepted: seq<Hook>,
    withdrawn: set<nat>,
    received: seq<Hook>,
    rejected: nat
  )

  const NEW := History(EMPTY, [], {}, [], 0)

  function HAdd(h: History, hook: Hook, limit: nat): History {
    if Accepts(h.q, hook, limit) then h.(q := Add(h.q, hook, limit), accepted := h.accepted + [hook])
    else h.(q := Add(h.q, hook, limit), rejected := h.rejected + 1)
  }

  function HTake(h: History): History
    requires h.q.waiting != []
  {
    h.(q := Take(h.q), received := h.received + [h.q.waiting[0]])
  }

  function HWithdraw(h: History, rcvid: int): History {
    var i := IndexOf(h.q.waiting, rcvid);
    if i == |h.q.waiting| then h
    else h.(q := Withdraw(h.q, rcvid), withdrawn := h.withdrawn + {h.q.waiting[i].rec})
  }

  /** The accepted hooks whose record was not withdrawn, in order. */
  function Kept(list: seq<Hook>, withdrawn: set<nat>): seq<Hook> {
    if list == [] then []
    else
      var last := list[|list| - 1];
      Kept(list[..|list| - 1], withdrawn) + if last.rec in withdrawn then [] else [last]
  }

  /** First in, first out: what was accepted and not withdrawn is what was received, followed
      by what still waits. */
  ghost predicate Fifo(h: History) {
    Kept(h.accepted, h.withdrawn) == h.received + h.q.waiting
  }

  /** The counters: every refused attempt stays in `num_waiting` for ever. */
  ghost predicate Counters(h: History, limit: nat) {
    && h.q.numWaiting == |h.q.waiting| + h.rejected
    && h.q.numNoreply == CountNoReply(h.q.waiting) <= limit
  }

  /** Records and positive rcvids are used once. */
  ghost predicate Unique(h: History) {
    && Distinct(h.accepted)
    && (forall i, j :: 0 <= i < j < |h.accepted| && h.accepted[i].rcvid == h.accepted[j].rcvid ==> h.accepted[i].rcvid == 0)
    && (forall g :: g in h.accepted ==> g.WellFormed())
  }

  ghost predicate Ok(h: History, limit: nat) {
    Fifo(h) && Counters(h, limit) && Unique(h)
  }

  /** What is kept is accepted, not withdrawn, and keeps its order. */
  lemma {:induction false} KeptFacts(list: seq<Hook>, withdrawn: set<nat>)
    requires Distinct(list)
    ensures forall h :: h in Kept(list, withdrawn) <==> h in list && h.rec !in withdrawn
    ensures Distinct(Kept(list, withdrawn))
  {
    if list != [] {
      var front := list[..|list| - 1];
      KeptFacts(front, withdrawn);
      assert list == front + [list[|list| - 1]];
    }
  }

  /** Where the waiting hooks come from: they were accepted, no record waits twice, and none of
      them was received before. */
  lemma WaitingFacts(h: History)
    requires Fifo(h) && Unique(h)
    ensures forall g :: g in h.q.waiting ==> g in h.accepted && g.rec !in h.withdrawn
    ensures Distinct(h.q.waiting)
    ensures forall i, j :: 0 <= i < |h.received| && 0 <= j < |h.q.waiting| ==> h.received[i].rec != h.q.waiting[j].rec
    ensures forall f, g :: f in h.q.waiting && g in h.q.waiting && f.rcvid == g.rcvid > 0 ==> f == g
  {
    var kept := h.received + h.q.waiting;
    KeptFacts(h.accepted, h.withdrawn);
    var n := |h.received|;
    forall g | g in h.q.waiting
      ensures g in kept
    {}
    forall i, j | 0 <= i < j < |h.q.waiting|
      ensures h.q.waiting[i].rec != h.q.waiting[j].rec
    {
      assert kept[n + i] == h.q.waiting[i] && kept[n + j] == h.q.waiting[j];
    }
    forall i, j | 0 <= i < |h.received| && 0 <= j < |h.q.waiting|
      ensures h.received[i].rec != h.q.waiting[j].rec
    {
      assert kept[i] == h.received[i] && kept[n + j] == h.q.waiting[j];
    }
  }

  /** Withdrawing one more record deletes it from what is kept. */
  lemma {:induction false} KeptWithdraw(list: seq<Hook>, withdrawn: set<nat>, before: seq<Hook>, x: Hook, after: seq<Hook>)
    requires Distinct(list)
    requires Kept(list, withdrawn) == before + [x] + after
    ensures Kept(list, withdrawn + {x.rec}) == before + after
    decreases |list|
  {
    hide Kept;
    KeptNothing(withdrawn);
    var front, last := list[..|list| - 1], list[|list| - 1];
    KeptStep(list, withdrawn);
    KeptStep(list, withdrawn + {x.rec});
    if last.rec in withdrawn {
      KeptWithdraw(front, withdrawn, before, x, after);
    } else if after == [] {
      LastOf(before, [x]);
      LastOf(Kept(front, withdrawn), [last]);
      KeptSame(front, withdrawn, x.rec);
    } else {
      var after' := after[..|after| - 1];
      LastOf(before + [x], after);
      LastOf(Kept(front, withdrawn), [last]);
      KeptWithdraw(front, withdrawn, before, x, after');
      KeptElsewhere(list, withdrawn, before, x, after');
      assert before + after == before + after' + [last];
    }
  }

  lemma KeptNothing(withdrawn: set<nat>)
    ensures Kept([], withdrawn) == []
  {
  }

  lemma KeptStep(list: seq<Hook>, withdrawn: set<nat>)
    requires list != []
    ensures var front, last := list[..|list| - 1], list[|list| - 1];
            Kept(list, withdrawn) == Kept(front, withdrawn) + if last.rec in withdrawn then [] else [last]
  {
  }

  lemma LastOf<T>(a: seq<T>, b: seq<T>)
    requires b != []
    ensures (a + b)[|a + b| - 1] == b[|b| - 1]
    ensures (a + b)[..|a + b| - 1] == a + b[..|b| - 1]
  {
  }

  /** The last node is not the one that leaves from further ahead. */
  lemma KeptElsewhere(list: seq<Hook>, withdrawn: set<nat>, before: seq<Hook>, x: Hook, after: seq<Hook>)
    requires list != [] && Distinct(list) && Kept(list[..|list| - 1], withdrawn) == before + [x] + after
    ensures list[|list| - 1].rec != x.rec
  {
    var front := list[..|list| - 1];
    KeptFacts(front, withdrawn);
    hide Kept;
    assert x == (before + [x] + after)[|before|];
    assert x in front;
  }

  lemma {:induction false} KeptSame(list: seq<Hook>, withdrawn: set<nat>, x: nat)
    requires forall h :: h in list ==> h.rec != x
    ensures Kept(list, withdrawn + {x}) == Kept(list, withdrawn)
  {
    if list != [] {
      KeptSame(list[..|list| - 1], withdrawn, x);
      assert list[|list| - 1] in list;
    }
  }

  // ----- Every lock section keeps the laws -----

  lemma NewOk(limit: nat)
    ensures Ok(NEW, limit)
  {
  }

  /** No accepted or withdrawn hook has the record or the rcvid of this one. */
  ghost predicate IsNew(h: History, hook: Hook) {
    && hook.WellFormed()
    && (forall g :: g in h.accepted ==> g.rec != hook.rec && (g.rcvid == hook.rcvid ==> g.rcvid == 0))
    && hook.rec !in h.withdrawn
  }

  lemma AcceptedFifo(h: History, hook: Hook, limit: nat)
    requires Fifo(h) && hook.rec !in h.withdrawn && Accepts(h.q, hook, limit)
    ensures Fifo(HAdd(h, hook, limit))
  {
    hide Kept;
    var h' := HAdd(h, hook, limit);
    assert h'.accepted[..|h'.accepted| - 1] == h.accepted;
    KeptStep(h'.accepted, h.withdrawn);
    assert h.received + (h.q.waiting + [hook]) == (h.received + h.q.waiting) + [hook];
  }

  lemma AcceptedCounters(h: History, hook: Hook, limit: nat)
    requires Counters(h, limit) && hook.WellFormed() && Accepts(h.q, hook, limit)
    ensures Counters(HAdd(h, hook, limit), limit)
  {
    var h' := HAdd(h, hook, limit);
    assert h'.q.waiting[..|h'.q.waiting| - 1] == h.q.waiting;
  }

  lemma AcceptedUnique(h: History, hook: Hook, limit: nat)
    requires Unique(h) && IsNew(h, hook) && Accepts(h.q, hook, limit)
    ensures Unique(HAdd(h, hook, limit))
  {
    hide Add, Accepts;
    assert HAdd(h, hook, limit).accepted == h.accepted + [hook];
  }

  lemma RefusedOk(h: History, hook: Hook, limit: nat)
    requires Ok(h, limit) && !Accepts(h.q, hook, limit)
    ensures Ok(HAdd(h, hook, limit), limit)
  {
    hide Kept, CountNoReply;
  }

  /** Holds for accepted and refused hooks, and for a refused hook tried again. */
  lemma AddOk(h: History, hook: Hook, limit: nat)
    requires Ok(h, limit) && hook.WellFormed()
    requires forall g :: g in h.accepted ==> g.rec != hook.rec && (g.rcvid == hook.rcvid ==> g.rcvid == 0)
    requires forall r :: r in h.withdrawn ==> r != hook.rec
    ensures Ok(HAdd(h, hook, limit), limit)
  {
    hide Fifo, Counters, Unique, Accepts, HAdd;
    if Accepts(h.q, hook, limit) {
      AcceptedFifo(h, hook, limit);
      AcceptedCounters(h, hook, limit);
      AcceptedUnique(h, hook, limit);
    } else {
      RefusedOk(h, hook, limit);
    }
  }

  /** A message is refused exactly when it is a no-reply message and as many of these wait already as
      the limit allows; any other goes to the end of the list. */
  lemma RefusedIffFull(h: History, hook: Hook, limit: nat)
    requires Counters(h, limit) && hook.WellFormed()
    ensures var h', full := HAdd(h, hook, limit), hook.NoReply() && |NoReplies(h.q.waiting)| >= limit;
            && h'.q.waiting == (if full then h.q.waiting else h.q.waiting + [hook])
            && h'.rejected == h.rejected + (if full then 1 else 0)
            && Accepts(h.q, hook, limit) == !full
  {
    CountIsNumber(h.q.waiting);
  }

  lemma TakeOk(h: History, limit: nat)
    requires Ok(h, limit) && h.q.waiting != []
    ensures Ok(HTake(h), limit)
  {
    var w := h.q.waiting;
    assert h.received + w == (h.received + [w[0]]) + w[1..];
    assert RemoveAt(w, 0) == w[1..];
    CountRemoveAt(w, 0);
  }

  /** Withdrawal never looks at the no-reply counter, which is right because the rcvid it looks
      for is never that of a no-reply message. */
  lemma WithdrawOk(h: History, rcvid: int, limit: nat)
    requires Ok(h, limit)
    requires forall g :: g in h.q.waiting && g.rcvid == rcvid ==> !g.NoReply()
    ensures Ok(HWithdraw(h, rcvid), limit)
  {
    var w := h.q.waiting;
    var i := IndexOf(w, rcvid);
    if i < |w| {
      assert h.received + w == (h.received + w[..i]) + [w[i]] + w[i + 1..];
      KeptWithdraw(h.accepted, h.withdrawn, h.received + w[..i], w[i], w[i + 1..]);
      assert h.received + RemoveAt(w, i) == (h.received + w[..i]) + w[i + 1..];
      CountRemoveAt(w, i);
      assert w[i] in w;
    }
  }

  /** The same, for a sender whose rcvid is its own: exactly its hook leaves. */
  lemma WithdrawFacts(h: History, hook: Hook, limit: nat)
    requires Ok(h, limit) && IndexOf(h.q.waiting, hook.rcvid) < |h.q.waiting|
    requires forall g :: g in h.q.waiting && g.rcvid == hook.rcvid ==> g == hook
    requires hook.task != 0
    ensures hook in h.q.waiting
    ensures var h' := HWithdraw(h, hook.rcvid);
            Ok(h', limit) && h'.accepted == h.accepted && h'.withdrawn == h.withdrawn + {hook.rec}
            && (forall g :: g in h'.q.waiting <==> g in h.q.waiting && g.rec != hook.rec)
  {
    var i := IndexOf(h.q.waiting, hook.rcvid);
    assert h.q.waiting[i] in h.q.waiting;
    WithdrawOk(h, hook.rcvid, limit);
    WaitingFacts(h);
    RemoveAtFacts(h.q.waiting, i);
  }

  /** The condition receivers and pollers wait for never misses a queued message, and it is
      exact if and only if no attempt was refused or a message does wait. */
  lemma WaitCondition(h: History, limit: nat)
    requires Counters(h, limit)
    ensures h.q.waiting != [] ==> h.q.numWaiting > 0
    ensures (h.q.numWaiting > 0 <==> h.q.waiting != []) <==> (h.rejected == 0 || h.q.waiting != [])
  {
  }
}

/** A process as the driver keeps it (kernel/process_entry.c), the registry of processes
    (kernel/driver_data.c), and the handlers that work on them (kernel/qnxcomm_driver.c). */
module ProcessObjects {
  import opened Errno
  import opened Connections
  import opened ChannelQueue
  import opened Iovec
  import opened Protocol
  import opened Msgsend
  import opened ChannelObject
  import opened ConnectionTableObject
  import Spec = ConnectionTable

  /** `sizeof(struct _pulse)`, where pointers have eight bytes. */
  const PULSE_SIZE := 24

  /** The position of the first such key, or the length of the list. */
  function Position(keys: seq<nat>, key: int): (i: nat)
    ensures i <= |keys|
    ensures i < |keys| ==> keys[i] == key
    ensures forall j :: 0 <= j < i ==> keys[j] != key
  {
    if keys == [] || keys[0] == key then 0 else 1 + Position(keys[1..], key)
  }

  function Chids(list: seq<Channel>): (keys: seq<nat>)
    ensures |keys| == |list| && forall i :: 0 <= i < |list| ==> keys[i] == list[i].chid
  {
    seq(|list|, i requires 0 <= i < |list| => list[i].chid)
  }

  function Pids(list: seq<ProcessEntry>): (keys: seq<nat>)
    ensures |keys| == |list| && forall i :: 0 <= i < |list| ==> keys[i] == list[i].pid
  {
    seq(|list|, i requires 0 <= i < |list| => list[i].pid)
  }

  /** What is left in the queue of a channel if the reference of the list is the last. */
  ghost function Leftover(c: Channel): seq<Hook>
    reads c
  {
    if c.refs == 1 then c.Queue().waiting else []
  }

  ghost function Leftovers(list: seq<Channel>): (parts: seq<seq<Hook>>)
    reads list
    ensures |parts| == |list|
    ensures forall i :: 0 <= i < |list| ==> parts[i] == Leftover(list[i])
  {
    seq(|list|, i requires 0 <= i < |list| reads list => Leftover(list[i]))
  }

  /** The channel has lost a reference, and with the last one its queue. */
  twostate predicate Dropped(c: Channel)
    reads c
  {
    c.refs == old(c.refs) - 1 && c.waiting == if c.refs == 0 then [] else old(c.waiting)
  }

  /** The records of senders that wait in the queue of a channel if the reference of the list is
      the last. */
  ghost function DoomedBy(c: Channel): set<Record>
    reads c
  {
    if c.refs == 1 then Senders(c.waiting) else {}
  }

  ghost function Doomed(list: seq<Channel>): (parts: seq<set<Record>>)
    reads list
    ensures |parts| == |list|
    ensures forall i :: 0 <= i < |list| ==> parts[i] == DoomedBy(list[i])
  {
    seq(|list|, i requires 0 <= i < |list| reads list => DoomedBy(list[i]))
  }

  function Union(parts: seq<set<Record>>): set<Record> {
    if parts == [] then {} else Union(parts[..|parts| - 1]) + parts[|parts| - 1]
  }

  lemma OneMoreIn(parts: seq<set<Record>>, i: nat)
    requires i < |parts|
    ensures Union(parts[..i + 1]) == Union(parts[..i]) + parts[i] && parts[i] <= Union(parts)
    decreases |parts| - i
  {
    assert parts[..i + 1][..i] == parts[..i];
    if i + 1 == |parts| {
      assert parts[..i + 1] == parts;
    } else {
      UnionGrows(parts, i + 1);
    }
  }

  lemma {:induction false} UnionGrows(parts: seq<set<Record>>, n: nat)
    requires n <= |parts|
    ensures Union(parts[..n]) <= Union(parts)
    decreases |parts| - n
  {
    if n == |parts| {
      assert parts[..n] == parts;
    } else {
      assert parts[..n + 1][..n] == parts[..n];
      UnionGrows(parts, n + 1);
    }
  }

  function Concat(parts: seq<seq<Hook>>): seq<Hook> {
    if parts == [] then [] else Concat(parts[..|parts| - 1]) + parts[|parts| - 1]
  }

  /** One more list is torn down. */
  lemma OneMore(parts: seq<seq<Hook>>, i: nat)
    requires i < |parts|
    ensures HeapRecs(Concat(parts[..i + 1])) == HeapRecs(Concat(parts[..i])) + HeapRecs(parts[i])
    ensures Sleepers(Concat(parts[..i + 1])) == Sleepers(Concat(parts[..i])) + Sleepers(parts[i])
  {
    assert parts[..i + 1][..i] == parts[..i];
    TornDownSplit(Concat(parts[..i]), parts[i]);
  }

  lemma {:induction false} TornDownSplit(a: seq<Hook>, b: seq<Hook>)
    ensures HeapRecs(a + b) == HeapRecs(a) + HeapRecs(b) && Sleepers(a + b) == Sleepers(a) + Sleepers(b)
    decreases |b|
  {
    if b == [] {
      assert a + b == a;
    } else {
      var c := b[..|b| - 1];
      assert (a + b)[..|a + b| - 1] == a + c;
      TornDownSplit(a, c);
    }
  }

  /** A normal message goes through an empty queue and leaves it as it was. */
  lemma AddTake(q: Queue, hook: Hook)
    requires q.waiting == [] && hook.rcvid > 0 && hook.task != 0
    ensures Accepts(q, hook, 0) && Add(q, hook, 0).waiting == [hook] && Take(Add(q, hook, 0)) == q
  {
  }

  lemma NothingTornDown()
    ensures Concat([]) == [] && HeapRecs([]) == [] && Sleepers([]) == [] && Union([]) == {}
  {
  }

  class ProcessEntry {
    const pid: nat
    const connections: ConnectionTable
    var refs: int
    var channels: seq<Channel>
    var pending: seq<Record>

    /** `qnx_process_entry_init`. */
    constructor (pid: nat, limit: nat, alloc: bool)
      requires limit >= Spec.INITIAL_SIZE
      ensures this.pid == pid && refs == 1 && channels == [] && pending == []
      ensures fresh(connections) && connections.Valid() && fresh(connections.Repr()) && Spec.Ok(connections.State(), limit)
      ensures Spec.View(connections.State()) == map[]
    {
      this.pid, refs, channels, pending := pid, 1, [], [];
      connections := new ConnectionTable(limit, alloc);
    }

    // ----- The pending list -----

    /** The position of a pending record. */
    function PendingAt(rcvid: int): nat
      reads this
    {
      IndexOf(Hooks(pending), rcvid)
    }

    /** `qnx_process_entry_add_pending`. */
    method AddPending(data: Record)
      modifies `pending, data`tag
      ensures pending == [data] + old(pending) && data.tag == Pending
    {
      pending := [data] + pending;
      data.tag := Pending;
    }

    /** `qnx_process_entry_release_pending`. */
    method ReleasePending(rcvid: int) returns (data: Record?)
      modifies `pending
      ensures data != null <==> old(PendingAt(rcvid)) < |old(pending)|
      ensures data == null ==> pending == old(pending)
      ensures data != null ==> data == old(pending)[old(PendingAt(rcvid))] && pending == RemoveAt(old(pending), old(PendingAt(rcvid)))
    {
      ghost var hooks := Hooks(pending);
      var i := 0;
      while i < |pending|
        invariant 0 <= i <= |pending| && pending == old(pending)
        invariant IndexOf(hooks, rcvid) == i + IndexOf(hooks[i..], rcvid)
      {
        if pending[i].hook.rcvid == rcvid {
          data := pending[i];
          pending := pending[..i] + pending[i + 1..];
          return data;
        }
        i := i + 1;
      }
      return null;
    }

    /** `handle_msgreply`. */
    method HandleMsgreply(rcvid: int, status: int, inn: Iov, user: array<byte>, alloc: bool) returns (rc: int, woken: seq<nat>)
      modifies `pending, pending
      ensures old(PendingAt(rcvid)) == |old(pending)| ==>
                rc == ESRCH && woken == [] && pending == old(pending) && forall r :: r in pending ==> unchanged(r)
      ensures old(PendingAt(rcvid)) < |old(pending)| ==>
                var data := old(pending)[old(PendingAt(rcvid))];
                var wanted := data.request.outPresent && data.request.outLen > 0 && inn.len > 0;
                && (rc == ENOMEM <==> wanted && !alloc)
                && (rc == EFAULT <==> wanted && alloc && !Mapped(user.Length, inn.base, inn.len))
                && (rc == 0 || rc == ENOMEM || rc == EFAULT)
                && (rc == 0 ==> data.status == status && data.reply == if wanted then Slice(user[..], inn.base, inn.len) else [])
                && (rc < 0 ==> data.status == rc && data.reply == [])
                && data.tag == Finished && woken == [data.hook.task]
                && pending == RemoveAt(old(pending), old(PendingAt(rcvid)))
                && forall r :: r in old(pending) && r != data ==> unchanged(r)
    {
      var data := ReleasePending(rcvid);
      if data == null {
        return ESRCH, [];
      }
      rc := StoreReply(data, status, inn, user, alloc);
      woken := [data.hook.task];
    }

    /** `handle_msgerror`. */
    method HandleMsgerror(rcvid: int, error: int) returns (rc: int, woken: seq<nat>)
      modifies `pending, pending
      ensures old(PendingAt(rcvid)) == |old(pending)| ==>
                rc == ESRCH && woken == [] && pending == old(pending) && forall r :: r in pending ==> unchanged(r)
      ensures old(PendingAt(rcvid)) < |old(pending)| ==>
                var data := old(pending)[old(PendingAt(rcvid))];
                && rc == 0 && data.reply == [] && data.status <= 0 && (data.status == error || data.status == -error)
                && data.tag == Finished && woken == [data.hook.task]
                && pending == RemoveAt(old(pending), old(PendingAt(rcvid)))
                && forall r :: r in old(pending) && r != data ==> unchanged(r)
    {
      var data := ReleasePending(rcvid);
      if data == null {
        return ESRCH, [];
      }
      rc := StoreError(data, error);
      woken := [data.hook.task];
    }

    /** The copy of `handle_msgread` from a record that was found: as many bytes as the message has from
        the offset on and the buffer has room for, or EFAULT exactly if these cannot be written. */
    method ReadFrom(data: Record, offset: int, out: Iov, user: array<byte>) returns (rc: int)
      modifies user
      ensures var bytes := data.request.bytes;
              if !(0 <= offset <= |bytes|) then rc == EINVAL && user[..] == old(user[..])
              else if rc >= 0 then
                && offset + rc <= |bytes| && rc <= out.len && (offset + rc == |bytes| || rc == out.len)
                && Mapped(user.Length, out.base, rc) && user[..] == Write(old(user[..]), out.base, bytes[offset..offset + rc])
              else
                rc == EFAULT && user[..] == old(user[..]) && !Mapped(user.Length, out.base, Min(|bytes| - offset, out.len))
    {
      hide Write;
      var bytes := data.request.bytes;
      if offset < 0 || offset > |bytes| {
        return EINVAL;
      }
      var n := Min(|bytes| - offset, out.len);
      if !Mapped(user.Length, out.base, n) {
        return EFAULT;
      }
      var buf := new byte[n](k requires 0 <= k < n => bytes[offset + k]);
      assert Slice(buf[..], 0, n) == bytes[offset..offset + n];
      Copy(user, out.base, buf, 0, n);
      return n;
    }

    /** `handle_msgread`. */
    method HandleMsgread(rcvid: int, offset: int, out: Iov, user: array<byte>) returns (rc: int)
      modifies user
      ensures PendingAt(rcvid) == |pending| ==> rc == ESRCH && user[..] == old(user[..])
      ensures PendingAt(rcvid) < |pending| ==>
                var bytes := pending[PendingAt(rcvid)].request.bytes;
                if !(0 <= offset <= |bytes|) then rc == EINVAL && user[..] == old(user[..])
                else if rc >= 0 then
                  && offset + rc <= |bytes| && rc <= out.len && (offset + rc == |bytes| || rc == out.len)
                  && Mapped(user.Length, out.base, rc) && user[..] == Write(old(user[..]), out.base, bytes[offset..offset + rc])
                else
                  rc == EFAULT && user[..] == old(user[..]) && !Mapped(user.Length, out.base, Min(|bytes| - offset, out.len))
    {
      hide Write;
      ghost var hooks := Hooks(pending);
      var i := 0;
      while i < |pending|
        invariant 0 <= i <= |pending| && user[..] == old(user[..])
        invariant IndexOf(hooks, rcvid) == i + IndexOf(hooks[i..], rcvid)
      {
        if pending[i].hook.rcvid == rcvid {
          rc := ReadFrom(pending[i], offset, out, user);
          return rc;
        }
        i := i + 1;
      }
      return ESRCH;
    }

    // ----- Channels -----

    /** All records in the queues of the process. */
    ghost function Waiting(): set<Record>
      reads `channels, channels`waiting
    {
      set c, r | c in channels && r in c.waiting :: r
    }

    lemma InWaiting(c: Channel)
      requires c in channels
      ensures forall r :: r in c.waiting ==> r in Waiting()
    {
    }

    function ChannelAt(chid: int): nat
      reads this
    {
      Position(Chids(channels), chid)
    }

    /** `qnx_process_entry_add_channel`: an id is drawn even if the process has too many. */
    method AddChannel(limit: nat, ids: IdCounter, alloc: bool) returns (rc: int)
      modifies `channels, ids
      ensures rc == if !alloc then ENOMEM else if |old(channels)| >= limit then EMFILE else ids.last
      ensures ids.last == old(ids.last) + if alloc then 1 else 0
      ensures if rc > 0 then
                && |channels| == |old(channels)| + 1 && channels[1..] == old(channels) && fresh(channels[0])
                && channels[0].chid == rc && channels[0].refs == 1 && channels[0].Queue() == EMPTY
              else channels == old(channels)
    {
      rc := ENOMEM;
      if alloc {
        var chnl := new Channel(ids);
        rc := chnl.chid;
        var num := 0;
        while num < |channels|
          invariant num <= |channels| && channels == old(channels)
        {
          num := num + 1;
        }
        if num < limit {
          channels := [chnl] + channels;
        } else {
          rc := EMFILE;
        }
      }
    }

    /** `qnx_process_entry_find_channel` takes a reference. */
    method FindChannel(chid: int) returns (chnl: Channel?)
      modifies channels`refs
      ensures chnl != null <==> ChannelAt(chid) < |channels|
      ensures chnl != null ==> chnl == channels[ChannelAt(chid)] && chnl.refs == old(chnl.refs) + 1
      ensures forall c :: c in channels && c != chnl ==> c.refs == old(c.refs)
    {
      var i := 0;
      while i < |channels|
        invariant 0 <= i <= |channels| && forall c :: c in channels ==> c.refs == old(c.refs)
        invariant Position(Chids(channels), chid) == i + Position(Chids(channels)[i..], chid)
      {
        if channels[i].chid == chid {
          chnl := channels[i];
          chnl.refs := chnl.refs + 1;
          return chnl;
        }
        i := i + 1;
      }
      return null;
    }

    /** `qnx_process_entry_is_channel_available`. */
    method IsChannelAvailable(chid: int) returns (available: bool)
      ensures available <==> ChannelAt(chid) < |channels|
    {
      var i := 0;
      while i < |channels|
        invariant 0 <= i <= |channels|
        invariant Position(Chids(channels), chid) == i + Position(Chids(channels)[i..], chid)
      {
        if channels[i].chid == chid {
          return true;
        }
        i := i + 1;
      }
      return false;
    }

    /** `qnx_process_entry_remove_channel`: the reference of the list is dropped. */
    method RemoveChannel(chid: int) returns (rc: int, freed: seq<nat>, woken: seq<nat>)
      modifies `channels, channels`refs, channels`waiting, Waiting()`status
      ensures old(ChannelAt(chid)) == |old(channels)| ==> rc == EINVAL && channels == old(channels) && freed == woken == []
      ensures old(ChannelAt(chid)) < |old(channels)| ==>
                var c := old(channels)[old(ChannelAt(chid))];
                && rc == 0 && channels == RemoveAt(old(channels), old(ChannelAt(chid)))
                && c.refs == old(c.refs) - 1
                && (c.refs != 0 ==> freed == woken == [] && c.Queue() == old(c.Queue()))
                && (c.refs == 0 ==> freed == HeapRecs(old(c.Queue()).waiting) && woken == Sleepers(old(c.Queue()).waiting))
                && (forall r :: r in old(DoomedBy(c)) ==> r.status == ESRCH)
                && forall d :: d in old(channels) && d != c ==> unchanged(d)
    {
      freed, woken := [], [];
      var i := 0;
      while i < |channels|
        invariant 0 <= i <= |channels| && channels == old(channels) && freed == woken == []
        invariant forall d :: d in channels ==> unchanged(d)
        invariant Position(Chids(channels), chid) == i + Position(Chids(channels)[i..], chid)
      {
        if channels[i].chid == chid {
          var chnl := channels[i];
          InWaiting(chnl);
          channels := channels[..i] + channels[i + 1..];
          freed, woken := chnl.Release();
          return 0, freed, woken;
        }
        i := i + 1;
      }
      return EINVAL, [], [];
    }

    // ----- Teardown -----

    /** The records that change when the process goes away: those of the senders it answers. */
    ghost function Orphans(): set<Record>
      reads `channels, `pending, channels
    {
      Union(Doomed(channels)) + Senders(pending)
    }

    /** One round of the first loop of `qnx_process_entry_free`. */
    method FreeChannel(c: Channel) returns (freed: seq<nat>, woken: seq<nat>)
      requires channels != [] && channels[0] == c
      modifies `channels, c`refs, c`waiting, DoomedBy(c)`status
      ensures channels == old(channels)[1..] && Dropped(c)
      ensures freed == HeapRecs(old(Leftover(c))) && woken == Sleepers(old(Leftover(c)))
      ensures forall r :: r in old(DoomedBy(c)) ==> r.status == ESRCH
    {
      channels := channels[1..];
      freed, woken := c.Release();
      NothingTornDown();
    }

    /** The first loop of `qnx_process_entry_free`. */
    method FreeChannels() returns (freed: seq<nat>, woken: seq<nat>)
      requires forall i, j :: 0 <= i < j < |channels| ==> channels[i] != channels[j]
      modifies `channels, channels`refs, channels`waiting, Union(Doomed(channels))`status
      ensures channels == []
      ensures freed == HeapRecs(Concat(old(Leftovers(channels)))) && woken == Sleepers(Concat(old(Leftovers(channels))))
      ensures forall c :: c in old(channels) ==> Dropped(c)
      ensures forall r :: r in old(Union(Doomed(channels))) ==> r.status == ESRCH
    {
      hide HeapRecs, Sleepers, Concat, Union, Leftover, Leftovers, Doomed, DoomedBy;
      freed, woken := [], [];
      ghost var list, parts := channels, Leftovers(channels);
      ghost var doomed, told := Doomed(channels), {};
      NothingTornDown();
      ghost var i := 0;
      while channels != []
        invariant 0 <= i <= |list| && channels == list[i..]
        invariant freed == HeapRecs(Concat(parts[..i])) && woken == Sleepers(Concat(parts[..i]))
        invariant forall j :: i <= j < |list| ==> unchanged(list[j])
        invariant forall j :: 0 <= j < i ==> Dropped(list[j])
        invariant told == Union(doomed[..i]) && forall r :: r in told ==> r.status == ESRCH
        decreases |channels|
      {
        var c := channels[0];
        assert c == list[i];
        assert doomed[i] == old(DoomedBy(c));
        OneMoreIn(doomed, i);
        told := told + doomed[i];
        var freed', woken' := FreeChannel(c);
        assert parts[i] == old(Leftover(c));
        OneMore(parts, i);
        freed, woken := freed + freed', woken + woken';
        i := i + 1;
      }
      assert parts[..i] == parts && doomed[..i] == doomed;
    }

    /** The second half of `qnx_process_entry_free`, the pending list and the connections; senders
        told ESRCH before stay so. */
    method FreeRest(ghost told: set<Record>, ghost limit: nat) returns (freed: seq<nat>, woken: seq<nat>, coids: seq<int>)
      requires connections.Valid() && Spec.Ok(connections.State(), limit)
      requires forall r :: r in told ==> r.status == ESRCH
      modifies `pending, Senders(pending)`status
      ensures pending == []
      ensures freed == HeapRecs(Hooks(old(pending))) && woken == Sleepers(Hooks(old(pending)))
      ensures forall r :: r in told ==> r.status == ESRCH
      ensures forall r :: r in old(Senders(pending)) ==> r.status == ESRCH
      ensures forall i :: i in coids <==> i in Spec.View(old(connections.State())) && i != old(connections.GetMax())
      ensures forall j, k :: 0 <= j < k < |coids| ==> coids[j] < coids[k]
    {
      hide Spec.Ok, Spec.View;
      freed, woken := CleanUpList(pending);
      pending := [];
      coids := connections.Destroy(limit);
    }

    /** `qnx_process_entry_free`; `coids` are the connections it frees. */
    method Free(ghost limit: nat) returns (freed: seq<nat>, woken: seq<nat>, coids: seq<int>)
      requires forall i, j :: 0 <= i < j < |channels| ==> channels[i] != channels[j]
      requires connections.Valid() && Spec.Ok(connections.State(), limit)
      modifies `channels, `pending, channels`refs, channels`waiting, Orphans()`status
      ensures channels == [] && pending == [] && refs == old(refs)
      ensures freed == HeapRecs(Concat(old(Leftovers(channels))) + Hooks(old(pending)))
      ensures woken == Sleepers(Concat(old(Leftovers(channels))) + Hooks(old(pending)))
      ensures forall c :: c in old(channels) ==> Dropped(c)
      ensures forall r :: r in old(Orphans()) ==> r.status == ESRCH
      ensures forall i :: i in coids <==> i in Spec.View(old(connections.State())) && i != old(connections.GetMax())
      ensures forall j, k :: 0 <= j < k < |coids| ==> coids[j] < coids[k]
    {
      hide HeapRecs, Sleepers, Concat, Spec.Ok, Spec.View;
      TornDownSplit(Concat(Leftovers(channels)), Hooks(pending));
      ghost var told, senders := Union(Doomed(channels)), Senders(pending);
      assert old(Orphans()) == told + senders;
      freed, woken := FreeChannels();
      var freed', woken', coids' := FreeRest(told, limit);
      freed, woken, coids := freed + freed', woken + woken', coids';
    }

    /** `qnx_process_entry_release`: the last reference frees the entry. */
    method Release(ghost limit: nat) returns (freed: seq<nat>, woken: seq<nat>, coids: seq<int>)
      requires forall i, j :: 0 <= i < j < |channels| ==> channels[i] != channels[j]
      requires connections.Valid() && Spec.Ok(connections.State(), limit)
      modifies `refs, `channels, `pending
      modifies (if refs == 1 then channels else [])`refs, (if refs == 1 then channels else [])`waiting
      modifies (if refs == 1 then Orphans() else {})`status
      ensures refs == old(refs) - 1
      ensures refs != 0 ==> freed == woken == [] && coids == []
      ensures refs != 0 ==> channels == old(channels) && pending == old(pending)
      ensures refs == 0 ==>
                && channels == [] && pending == []
                && freed == HeapRecs(Concat(old(Leftovers(channels))) + Hooks(old(pending)))
                && woken == Sleepers(Concat(old(Leftovers(channels))) + Hooks(old(pending)))
                && (forall r :: r in old(Orphans()) ==> r.status == ESRCH)
                && (forall i :: i in coids <==> i in Spec.View(old(connections.State())) && i != old(connections.GetMax()))
    {
      hide HeapRecs, Sleepers, Concat, Orphans, Spec.Ok, Spec.View;
      freed, woken, coids := [], [], [];
      refs := refs - 1;
      if refs == 0 {
        freed, woken, coids := Free(limit);
      }
    }

    /** `qnx_process_entry_release` when others hold references. */
    method Unref()
      requires refs > 1
      modifies `refs
      ensures refs == old(refs) - 1
    {
      refs := refs - 1;
    }

    // ----- Receiving -----

    /** What `handle_msgreceive` does with a message it has taken off a queue: the answer, and whether the
        message is freed, pending, or finished and answered. */
    method Deliver(data: Record, out: Iov, user: array<byte>, waited: int, pulseOk: bool, infoOk: bool)
        returns (rc: int, freed: seq<nat>, woken: seq<nat>)
      requires data.hook.WellFormed() && waited >= 0
      modifies `pending, data`tag, data`status, data`reply, user
      ensures rc == ReceiveResult(data, out, user.Length, waited, pulseOk, infoOk)
      ensures if data.hook.task == 0 then
                freed == [data.hook.rec] && woken == [] && pending == old(pending)
              else if rc > 0 then
                freed == [] && woken == [] && pending == [data] + old(pending) && data.tag == Pending
              else
                && freed == [] && woken == [data.hook.task] && pending == old(pending)
                && data.tag == Finished && data.status == rc && data.reply == []
      ensures data.hook.rcvid > 0 && Mapped(user.Length, out.base, |Prefix(data, out)|) ==>
                user[..] == Write(old(user[..]), out.base, Prefix(data, out))
      ensures data.hook.rcvid == 0 || !Mapped(user.Length, out.base, |Prefix(data, out)|) ==> user[..] == old(user[..])
    {
      freed, woken := [], [];
      rc := waited;
      if data.hook.rcvid == 0 {
        if out.len >= PULSE_SIZE {
          rc := if pulseOk then 0 else EFAULT;
        }
      } else {
        rc := ReceiveCopy(data, out, user);
      }
      if rc >= 0 && !infoOk {
        rc := EFAULT;
      }
      if data.hook.task == 0 {
        freed := [data.hook.rec];
      } else if rc > 0 {
        AddPending(data);
      } else {
        data.reply := [];
        data.status := rc;
        data.tag := Finished;
        woken := [data.hook.task];
      }
    }

    /** `handle_msgreceive`. `waited` is what the wait for a message answers: negative when a
        signal came, 0 when the time is over; `pulseOk` and `infoOk` say whether a pulse and the
        description of the message can be copied to the caller. */
    method HandleMsgreceive(chid: int, out: Iov, user: array<byte>, waited: int, pulseOk: bool, infoOk: bool)
        returns (rc: int, freed: seq<nat>, woken: seq<nat>)
      requires forall c :: c in channels ==> c.refs >= 1
      requires forall r :: r in Waiting() ==> r.hook.WellFormed()
      modifies `pending, channels, Waiting(), user
      ensures channels == old(channels) && forall c :: c in channels ==> c.refs == old(c.refs)
      ensures ChannelAt(chid) == |channels| ==> rc == EBADF && freed == woken == [] && pending == old(pending)
      ensures ChannelAt(chid) < |channels| ==>
                var c := channels[ChannelAt(chid)];
                if waited < 0 || old(c.waiting) == [] then
                  && rc == (if waited < 0 then ERESTARTSYS else ETIMEDOUT)
                  && freed == woken == [] && pending == old(pending) && c.Queue() == old(c.Queue())
                else
                  var data := old(c.waiting)[0];
                  var bytes := data.request.bytes[..Min(|data.request.bytes|, out.len)];
                  var pulseFits := data.hook.rcvid == 0 && out.len >= PULSE_SIZE;
                  && c.Queue() == Take(old(c.Queue()))
                  && (rc < 0 <==> !infoOk || (data.hook.rcvid > 0 && !Mapped(user.Length, out.base, |bytes|)) || (pulseFits && !pulseOk))
                  && (rc < 0 ==> rc == EFAULT)
                  && (rc == 0 <==> infoOk && data.hook.rcvid == 0 && if pulseFits then pulseOk else waited == 0)
                  && (rc > 0 ==> rc == if data.hook.rcvid > 0 then data.hook.rcvid else waited)
                  && (if data.hook.task == 0 then
                        freed == [data.hook.rec] && woken == [] && pending == old(pending)
                      else if rc > 0 then
                        freed == [] && woken == [] && pending == [data] + old(pending) && data.tag == Pending
                      else
                        && freed == [] && woken == [data.hook.task] && pending == old(pending)
                        && data.tag == Finished && data.status == rc && data.reply == [])
                  && user[..] == if data.hook.rcvid > 0 && Mapped(user.Length, out.base, |bytes|) then Write(old(user[..]), out.base, bytes)
                                 else old(user[..])
    {
      hide ReceiveResult, Write, HeapRecs, Sleepers;
      freed, woken := [], [];
      forall c | c in channels
        ensures forall r :: r in c.waiting ==> r in Waiting()
      {
        InWaiting(c);
      }
      var chnl := FindChannel(chid);
      if chnl == null {
        return EBADF, [], [];
      }
      if waited < 0 {
        rc := ERESTARTSYS;
      } else {
        var data := chnl.TakeFirst();
        if data == null {
          rc := ETIMEDOUT;
        } else {
          rc, freed, woken := Deliver(data, out, user, waited, pulseOk, infoOk);
        }
      }
      var _, _ := chnl.Release();
    }

    // ----- One exchange -----

    /** MsgReceive takes the only message off a queue, MsgReply finds it by its id; `alloc` says whether
        memory for the reply can be allocated. */
    method Serve(chnl: Channel, data: Record, server: array<byte>, room: Iov, reply: Iov, status: int, alloc: bool)
        returns (received: int, replied: int, woken: seq<nat>)
      requires ChannelAt(chnl.chid) < |channels| && channels[ChannelAt(chnl.chid)] == chnl && chnl.waiting == [data]
      requires forall c :: c in channels ==> c.refs >= 1
      requires forall r :: r in Waiting() ==> r.hook.WellFormed()
      requires data.hook.rcvid > 0 && data.hook.task != 0 && forall r :: r in pending ==> r.hook.rcvid < data.hook.rcvid
      requires Mapped(server.Length, room.base, room.len)
      modifies `pending, pending, channels, Waiting(), server
      ensures received == data.hook.rcvid && woken == [data.hook.task]
      ensures pending == old(pending) && channels == old(channels) && chnl.Queue() == Take(old(chnl.Queue()))
      ensures server[..] == Write(old(server[..]), room.base, Prefix(data, room))
      ensures var wanted := data.request.outPresent && data.request.outLen > 0 && reply.len > 0;
              if wanted && !(alloc && Mapped(server.Length, reply.base, reply.len)) then
                replied == (if alloc then EFAULT else ENOMEM) && data.status == replied && data.reply == []
              else
                && replied == 0 && data.status == status
                && data.reply == if wanted then Slice(server[..], reply.base, reply.len) else []
    {
      hide Write;
      ghost var others := pending;
      InWaiting(chnl);
      var freed, woken';
      received, freed, woken' := HandleMsgreceive(chnl.chid, room, server, 1, true, true);
      assert Hooks(pending)[0] == data.hook;
      assert PendingAt(received) == 0;
      replied, woken := HandleMsgreply(received, status, reply, server, alloc);
      assert RemoveAt([data] + others, 0) == others;
    }

    /** MsgSend up to the queued record. */
    method SendTo(chnl: Channel, client: array<byte>, inn: Iov, out: Iov, coid: nat, clientPid: nat, task: nat, addr: nat,
                  ids: IdCounter)
        returns (data: Record)
      requires chnl.waiting == [] && task != 0 && Mapped(client.Length, inn.base, inn.len)
      modifies chnl`waiting, chnl`numWaiting, chnl`numNoreply, ids
      ensures fresh(data) && ids.last == old(ids.last) + 1 && data.hook == Hook(addr, ids.last, task)
      ensures data.request == Request(coid, 0, Slice(client[..], inn.base, inn.len), out.base != 0, out.len)
      ensures chnl.waiting == [data] && Take(chnl.Queue()) == old(chnl.Queue())
      ensures forall r :: r in Waiting() ==> r in old(Waiting()) || r == data
    {
      var rc, data' := Init(client, coid, 0, inn, out, clientPid, task, addr, ids, true);
      data := data';
      AddTake(chnl.Queue(), data.hook);
      hide Add, Take, Accepts;
      var added := chnl.AddNewMessage(data, 0);
    }

    /** A MsgSend that nothing interrupts, with the MsgReceive and the MsgReply of this process that
        serve it: through the queue of the channel, the pending list and the lookup by receive id.
        `inn` and `out` lie in the memory of the client, `room` and `reply` in that of the server. A
        reply that fails is reported to both sides, whatever status the server wanted to give. */
    method Exchange(chnl: Channel, client: array<byte>, inn: Iov, out: Iov, server: array<byte>, room: Iov, reply: Iov,
                    status: int, coid: nat, clientPid: nat, task: nat, addr: nat, ids: IdCounter, alloc: bool)
        returns (sent: int, received: int, replied: int, woken: seq<nat>)
      requires ChannelAt(chnl.chid) < |channels| && channels[ChannelAt(chnl.chid)] == chnl && chnl.waiting == []
      requires forall c :: c in channels ==> c.refs >= 1
      requires forall r :: r in Waiting() ==> r.hook.WellFormed()
      requires forall r :: r in pending ==> r.hook.rcvid <= ids.last
      requires client != server && task != 0
      requires Mapped(client.Length, inn.base, inn.len) && Mapped(server.Length, room.base, room.len)
      modifies `pending, pending, channels, Waiting(), client, server, ids
      ensures received == ids.last == old(ids.last) + 1 && woken == [task]
      ensures pending == old(pending) && channels == old(channels) && chnl.Queue() == old(chnl.Queue())
      ensures var message := Slice(old(client[..]), inn.base, inn.len);
              server[..] == Write(old(server[..]), room.base, message[..Min(inn.len, room.len)])
      ensures var wanted, n := out.base != 0 && out.len > 0 && reply.len > 0, Min(out.len, reply.len);
              if wanted && !(alloc && Mapped(server.Length, reply.base, reply.len)) then
                replied == (if alloc then EFAULT else ENOMEM) && sent == replied && client[..] == old(client[..])
              else if wanted && status >= 0 then
                replied == 0 &&
                if Mapped(client.Length, out.base, n) then
                  sent == status && client[..] == Write(old(client[..]), out.base, Slice(server[..], reply.base, reply.len)[..n])
                else
                  sent == EFAULT && client[..] == old(client[..])
              else
                replied == 0 && sent == status && client[..] == old(client[..])
    {
      hide Write, HeapRecs, Sleepers, Take, Waiting;
      var data := SendTo(chnl, client, inn, out, coid, clientPid, task, addr, ids);
      received, replied, woken := Serve(chnl, data, server, room, reply, status, alloc);
      sent := CopyBack(data, data.status, out, client);
    }
  }

  // ----- The registry -----

  class DriverData {
    var processes: seq<ProcessEntry>

    constructor ()
      ensures processes == []
    {
      processes := [];
    }

    function ProcessAt(pid: int): nat
      reads this
    {
      Position(Pids(processes), pid)
    }

    /** `qnx_driver_data_add_process`. */
    method AddProcess(entry: ProcessEntry)
      modifies this
      ensures processes == [entry] + old(processes)
    {
      processes := [entry] + processes;
    }

    /** `qnx_driver_data_find_process` takes a reference. */
    method FindProcess(pid: int) returns (entry: ProcessEntry?)
      modifies processes`refs
      ensures entry != null <==> ProcessAt(pid) < |processes|
      ensures entry != null ==> entry == processes[ProcessAt(pid)] && entry.refs == old(entry.refs) + 1
      ensures forall e :: e in processes && e != entry ==> e.refs == old(e.refs)
    {
      var i := 0;
      while i < |processes|
        invariant 0 <= i <= |processes| && forall e :: e in processes ==> e.refs == old(e.refs)
        invariant Position(Pids(processes), pid) == i + Position(Pids(processes)[i..], pid)
      {
        if processes[i].pid == pid {
          entry := processes[i];
          entry.refs := entry.refs + 1;
          return entry;
        }
        i := i + 1;
      }
      return null;
    }

    /** `qnx_driver_data_is_process_available`. */
    method IsProcessAvailable(pid: int) returns (available: bool)
      ensures available <==> ProcessAt(pid) < |processes|
    {
      var i := 0;
      while i < |processes|
        invariant 0 <= i <= |processes|
        invariant Position(Pids(processes), pid) == i + Position(Pids(processes)[i..], pid)
      {
        if processes[i].pid == pid {
          return true;
        }
        i := i + 1;
      }
      return false;
    }

    /** `qnx_driver_data_remove`: the reference of the file is dropped by the caller. */
    method Remove(pid: int)
      modifies this
      ensures processes == if old(ProcessAt(pid)) < |old(processes)| then RemoveAt(old(processes), old(ProcessAt(pid))) else old(processes)
    {
      var i := 0;
      while i < |processes|
        invariant 0 <= i <= |processes| && processes == old(processes)
        invariant Position(Pids(processes), pid) == i + Position(Pids(processes)[i..], pid)
      {
        if processes[i].pid == pid {
          processes := processes[..i] + processes[i + 1..];
          return;
        }
        i := i + 1;
      }
    }

    ghost function AllChannels(): set<Channel>
      reads this, processes
    {
      set e, c | e in processes && c in e.channels :: c
    }

    lemma InAllChannels(e: ProcessEntry)
      requires e in processes
      ensures forall c :: c in e.channels ==> c in AllChannels()
    {
    }

    /** `qnx_process_entry_add_connection`: `entry` is the caller. */
    method AddConnection(entry: ProcessEntry, pid: nat, chid: nat, limit: nat, allocConn: bool, allocTable: bool) returns (rc: int)
      requires forall e :: e in processes ==> e.refs >= 1
      requires entry.connections.Valid() && Spec.Ok(entry.connections.State(), limit)
      modifies processes`refs, entry.connections.Repr()
      ensures forall e :: e in processes ==> e.refs == old(e.refs)
      ensures entry.connections.Valid() && Spec.Ok(entry.connections.State(), limit)
      ensures var table := old(entry.connections.State());
              (entry.connections.State(), rc)
              == if ProcessAt(pid) == |processes| || processes[ProcessAt(pid)].ChannelAt(chid) == |processes[ProcessAt(pid)].channels|
                 then (table, ESRCH)
                 else if !allocConn then (table, ENOMEM)
                 else Spec.Add(table, Connection(pid, chid), limit, allocTable)
    {
      hide Spec.Ok, Spec.Add, Position;
      var proc := FindProcess(pid);
      if proc == null {
        return ESRCH;
      }
      var available := proc.IsChannelAvailable(chid);
      if !available {
        rc := ESRCH;
      } else if !allocConn {
        rc := ENOMEM;
      } else {
        Spec.AddOk(entry.connections.State(), Connection(pid, chid), limit, allocTable);
        rc := entry.connections.Add(Connection(pid, chid), limit, allocTable);
      }
      proc.Unref();
    }

    /** `qnx_driver_data_find_channel`: a reference to the channel stays, none to the process. */
    method FindChannel(pid: int, chid: int) returns (chnl: Channel?)
      requires forall e :: e in processes ==> e.refs >= 1
      modifies processes`refs, AllChannels()`refs
      ensures forall e :: e in processes ==> e.refs == old(e.refs)
      ensures chnl != null <==> ProcessAt(pid) < |processes| && processes[ProcessAt(pid)].ChannelAt(chid) < |processes[ProcessAt(pid)].channels|
      ensures chnl != null ==> var e := processes[ProcessAt(pid)]; chnl == e.channels[e.ChannelAt(chid)] && chnl.refs == old(chnl.refs) + 1
      ensures forall e, c :: e in processes && c in e.channels && c != chnl ==> c.refs == old(c.refs)
    {
      chnl := null;
      forall e | e in processes
        ensures forall c :: c in e.channels ==> c in AllChannels()
      {
        InAllChannels(e);
      }
      var proc := FindProcess(pid);
      if proc != null {
        chnl := proc.FindChannel(chid);
        proc.Unref();
      }
    }
  }

  /** As much of a message as the receiver has room for. */
  function Prefix(data: Record, out: Iov): (bytes: seq<byte>)
    ensures |bytes| == Min(|data.request.bytes|, out.len)
  {
    data.request.bytes[..Min(|data.request.bytes|, out.len)]
  }

  /** What MsgReceive answers for the message it has dequeued: EFAULT exactly if a copy failed, 0 exactly
      for a pulse that was copied, or that had no room after a wait that answered 0. */
  function ReceiveResult(data: Record, out: Iov, size: nat, waited: int, pulseOk: bool, infoOk: bool): (rc: int)
    ensures data.hook.WellFormed() && waited >= 0 ==>
              var pulseFits := data.hook.rcvid == 0 && out.len >= PULSE_SIZE;
              && (rc < 0 <==> !infoOk || (data.hook.rcvid > 0 && !Mapped(size, out.base, |Prefix(data, out)|)) || (pulseFits && !pulseOk))
              && (rc < 0 ==> rc == EFAULT)
              && (rc == 0 <==> infoOk && data.hook.rcvid == 0 && if pulseFits then pulseOk else waited == 0)
              && (rc > 0 ==> rc == if data.hook.rcvid > 0 then data.hook.rcvid else waited)
  {
    if !infoOk then EFAULT
    else if data.hook.rcvid > 0 then (if Mapped(size, out.base, |Prefix(data, out)|) then data.hook.rcvid else EFAULT)
    else if out.len < PULSE_SIZE then waited
    else if pulseOk then 0 else EFAULT
  }

  /** A positive answer means that a message with this id was delivered, except for a pulse that
      does not fit into the buffer: then the answer is what the wait left behind. */
  lemma PositiveIsMessage(data: Record, out: Iov, size: nat, waited: int, pulseOk: bool, infoOk: bool)
    requires data.hook.WellFormed()
    ensures var rc := ReceiveResult(data, out, size, waited, pulseOk, infoOk);
            (rc > 0 ==> rc == data.hook.rcvid) <==> !(data.hook.rcvid == 0 && out.len < PULSE_SIZE && waited > 0 && infoOk)
    ensures var rc := ReceiveResult(data, out, size, waited, pulseOk, infoOk);
            data.hook.rcvid > 0 ==> (rc > 0 <==> infoOk && Mapped(size, out.base, |Prefix(data, out)|))
  {
  }
}

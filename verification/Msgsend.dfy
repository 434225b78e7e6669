/**
  Message records and the bytes they carry (kernel/internal_msgsend.c and the copying parts of
  kernel/qnxcomm_driver.c). `user` is the memory of the calling process.
 */
module Msgsend {
  import opened Errno
  import opened ChannelQueue
  import opened Iovec
  import opened Protocol

  /** The global counter of receive ids. */
  class IdCounter {
    var last: nat

    method Next() returns (id: nat)
      modifies this
      ensures id == last == old(last) + 1
    {
      last := last + 1;
      id := last;
    }
  }

  /** What a message asks for: the bytes sent and the room for the reply. */
  datatype Request = Request(coid: nat, timeout: int, bytes: seq<byte>, outPresent: bool, outLen: nat)

  class Record {
    const hook: Hook
    const senderPid: nat
    const request: Request
    var receiverPid: nat
    var receiverChid: nat
    var reply: seq<byte>
    var status: int
    var tag: Tag

    constructor (hook: Hook, senderPid: nat, request: Request)
      ensures this.hook == hook && this.senderPid == senderPid && this.request == request
      ensures receiverPid == 0 && receiverChid == 0 && reply == [] && status == 0 && tag == Initial
    {
      this.hook, this.senderPid, this.request := hook, senderPid, request;
      receiverPid, receiverChid, reply, status, tag := 0, 0, [], 0, Initial;
    }

    /** As it leaves a constructor. */
    predicate Fresh(pid: nat, request: Request)
      reads this
    {
      && senderPid == pid && this.request == request
      && receiverPid == 0 && receiverChid == 0 && reply == [] && status == 0 && tag == Initial
    }
  }

  // ----- Constructors -----

  /** `qnx_internal_msgsend_init`: MsgSend from one buffer. `addr` is the address of the record
      and `alloc` says whether the kernel buffer can be allocated. */
  method Init(user: array<byte>, coid: nat, timeout: int, inn: Iov, out: Iov, pid: nat, task: nat, addr: nat,
              ids: IdCounter, alloc: bool) returns (rc: int, data: Record?)
    modifies ids
    ensures rc == if !alloc then ENOMEM else if !Mapped(user.Length, inn.base, inn.len) then EFAULT else 0
    ensures rc == 0 <==> data != null
    ensures rc == 0 ==>
              && fresh(data) && ids.last == old(ids.last) + 1 && data.hook == Hook(addr, ids.last, task)
              && data.Fresh(pid, Request(coid, timeout, Slice(user[..], inn.base, inn.len), out.base != 0, out.len))
    ensures rc != 0 ==> ids.last == old(ids.last)
  {
    data := null;
    if !alloc {
      return ENOMEM, null;
    }
    if !Mapped(user.Length, inn.base, inn.len) {
      return EFAULT, null;
    }
    var buf := new byte[inn.len](_ => 0);
    Copy(buf, 0, user, inn.base, inn.len);
    var rcvid := ids.Next();
    assert buf[..] == Slice(user[..], inn.base, inn.len);
    data := new Record(Hook(addr, rcvid, task), pid, Request(coid, timeout, buf[..], out.base != 0, out.len));
    return 0, data;
  }

  /** `qnx_internal_msgsend_initv`: MsgSendv from segments, gathered into one buffer. */
  method InitV(user: array<byte>, coid: nat, timeout: int, inn: array<Iov>, out: array<Iov>, pid: nat, task: nat, addr: nat,
               ids: IdCounter, alloc: bool) returns (rc: int, data: Record?)
    requires inn as object != user
    modifies ids, inn
    ensures rc == if !alloc then ENOMEM
                  else if !Reachable(user.Length, old(inn[..]), Total(old(inn[..]))) then EFAULT else 0
    ensures rc == 0 <==> data != null
    ensures rc == 0 ==>
              && fresh(data) && ids.last == old(ids.last) + 1 && data.hook == Hook(addr, ids.last, task)
              && data.Fresh(pid, Request(coid, timeout, Gather(user[..], old(inn[..]), Total(old(inn[..]))),
                                         Total(old(out[..])) > 0, Total(old(out[..]))))
    ensures rc != 0 ==> ids.last == old(ids.last)
  {
    data := null;
    var inlen, outlen := Total(inn[..]), Total(out[..]);
    if !alloc {
      return ENOMEM, null;
    }
    var buf := new byte[inlen](_ => 0);
    rc := MemcpyFromIovec(buf, inn, user, inlen);
    if rc != 0 {
      return EFAULT, null;
    }
    var rcvid := ids.Next();
    assert buf[..] == buf[..inlen];
    data := new Record(Hook(addr, rcvid, task), pid, Request(coid, timeout, buf[..], outlen > 0, outlen));
    return 0, data;
  }

  /** `qnx_internal_msgsend_init_noreply`: unlike the vectored form it knows no size limit. */
  method InitNoReply(user: array<byte>, coid: nat, timeout: int, inn: Iov, out: Iov, pid: nat, addr: nat,
                     ids: IdCounter, alloc: bool) returns (rc: int, data: Record?)
    modifies ids
    ensures rc == if !alloc then ENOMEM else if !Mapped(user.Length, inn.base, inn.len) then EFAULT else 0
    ensures rc == 0 <==> data != null
    ensures rc == 0 ==>
              && fresh(data) && ids.last == old(ids.last) + 1 && data.hook == Hook(addr, ids.last, 0) && data.hook.NoReply()
              && data.Fresh(pid, Request(coid, timeout, Slice(user[..], inn.base, inn.len), out.base != 0, out.len))
    ensures rc != 0 ==> ids.last == old(ids.last)
  {
    rc, data := Init(user, coid, timeout, inn, out, pid, 0, addr, ids, alloc);
  }

  /** `qnx_internal_msgsend_init_noreplyv`: too long a message is refused before anything else. */
  method InitNoReplyV(user: array<byte>, coid: nat, timeout: int, inn: array<Iov>, pid: nat, addr: nat, maxSize: nat,
                      ids: IdCounter, alloc: bool) returns (rc: int, data: Record?)
    requires inn as object != user
    modifies ids, inn
    ensures rc == if Total(old(inn[..])) > maxSize then EINVAL else if !alloc then ENOMEM
                  else if !Reachable(user.Length, old(inn[..]), Total(old(inn[..]))) then EFAULT else 0
    ensures rc == 0 <==> data != null
    ensures rc == 0 ==>
              && fresh(data) && ids.last == old(ids.last) + 1 && data.hook == Hook(addr, ids.last, 0) && data.hook.NoReply()
              && data.Fresh(pid, Request(coid, timeout, Gather(user[..], old(inn[..]), Total(old(inn[..]))), false, 0))
    ensures rc != 0 ==> ids.last == old(ids.last)
  {
    data := null;
    var inlen := Total(inn[..]);
    if inlen > maxSize {
      return EINVAL, null;
    }
    if !alloc {
      return ENOMEM, null;
    }
    var buf := new byte[inlen](_ => 0);
    rc := MemcpyFromIovec(buf, inn, user, inlen);
    if rc != 0 {
      return EFAULT, null;
    }
    var rcvid := ids.Next();
    assert buf[..] == buf[..inlen];
    data := new Record(Hook(addr, rcvid, 0), pid, Request(coid, timeout, buf[..], false, 0));
    return 0, data;
  }

  // ----- Copying at the receiver -----

  /** The copy of `handle_msgreceive`: the message as far as the buffer goes. */
  method ReceiveCopy(data: Record, out: Iov, user: array<byte>) returns (rc: int)
    modifies user
    ensures var n := Min(|data.request.bytes|, out.len);
            && rc == (if Mapped(user.Length, out.base, n) then data.hook.rcvid else EFAULT)
            && (Mapped(user.Length, out.base, n) ==> user[..] == Write(old(user[..]), out.base, data.request.bytes[..n]))
            && (!Mapped(user.Length, out.base, n) ==> user[..] == old(user[..]))
  {
    var n := Min(|data.request.bytes|, out.len);
    if !Mapped(user.Length, out.base, n) {
      return EFAULT;
    }
    var bytes := data.request.bytes;
    var buf := new byte[n](i requires 0 <= i < n => bytes[i]);
    assert buf[..] == buf[..0 + n] == bytes[..n];
    Copy(user, out.base, buf, 0, n);
    return data.hook.rcvid;
  }

  // ----- The reply -----

  /** `handle_msgreply` after the record was found: it fails exactly when a reply that is wanted cannot
      be allocated or read, and then the failure is what the sender is told. */
  method StoreReply(data: Record, status: int, inn: Iov, user: array<byte>, alloc: bool) returns (rc: int)
    modifies data
    ensures var wanted := data.request.outPresent && data.request.outLen > 0 && inn.len > 0;
            && (rc == ENOMEM <==> wanted && !alloc)
            && (rc == EFAULT <==> wanted && alloc && !Mapped(user.Length, inn.base, inn.len))
            && (rc == 0 || rc == ENOMEM || rc == EFAULT)
            && (rc == 0 ==> data.status == status && data.reply == if wanted then Slice(user[..], inn.base, inn.len) else [])
    ensures rc < 0 ==> data.status == rc && data.reply == []
    ensures data.tag == Finished
    ensures data.receiverPid == old(data.receiverPid) && data.receiverChid == old(data.receiverChid)
  {
    rc := 0;
    if data.request.outPresent && data.request.outLen > 0 && inn.len > 0 {
      data.reply := [];
      if alloc {
        if Mapped(user.Length, inn.base, inn.len) {
          data.reply := user[inn.base..inn.base + inn.len];
        } else {
          rc := EFAULT;
        }
      } else {
        rc := ENOMEM;
      }
    } else {
      data.reply := [];
    }
    data.status := if rc < 0 then rc else status;
    data.tag := Finished;
  }

  /** `handle_msgerror`: the error always reaches the sender as a non-positive number. */
  method StoreError(data: Record, error: int) returns (rc: int)
    modifies data
    ensures rc == 0 && data.reply == [] && data.tag == Finished
    ensures data.status <= 0 && (data.status == error || data.status == -error)
    ensures data.receiverPid == old(data.receiverPid) && data.receiverChid == old(data.receiverChid)
  {
    data.reply := [];
    data.status := if error < 0 then error else -error;
    data.tag := Finished;
    return 0;
  }

  // ----- Teardown -----

  function Hooks(list: seq<Record>): (hooks: seq<Hook>)
    ensures |hooks| == |list| && forall i :: 0 <= i < |list| ==> hooks[i] == list[i].hook
  {
    seq(|list|, i requires 0 <= i < |list| => list[i].hook)
  }

  /** The addresses of the pulses and no-reply messages of a list, in order. */
  function HeapRecs(list: seq<Hook>): seq<nat> {
    if list == [] then []
    else HeapRecs(list[..|list| - 1]) + if list[|list| - 1].task == 0 then [list[|list| - 1].rec] else []
  }

  /** The threads that wait for an answer to a message of a list, in order. */
  function Sleepers(list: seq<Hook>): seq<nat> {
    if list == [] then []
    else Sleepers(list[..|list| - 1]) + if list[|list| - 1].task == 0 then [] else [list[|list| - 1].task]
  }

  /** The records of a list that belong to senders which wait for a reply. */
  ghost function Senders(list: seq<Record>): set<Record> {
    set r | r in list && r.hook.task != 0
  }

  /** The loops of `qnx_channel_free` and `qnx_process_entry_free` over the list they empty, with
      `qnx_internal_msgsend_cleanup_and_free` inside: what is freed, and who is woken. */
  method CleanUpList(list: seq<Record>) returns (freed: seq<nat>, woken: seq<nat>)
    modifies Senders(list)`status
    ensures freed == HeapRecs(Hooks(list)) && woken == Sleepers(Hooks(list))
    ensures forall r :: r in Senders(list) ==> r.status == ESRCH
  {
    freed, woken := [], [];
    for i := 0 to |list|
      invariant freed == HeapRecs(Hooks(list[..i])) && woken == Sleepers(Hooks(list[..i]))
      invariant forall r :: r in list[..i] && r.hook.task != 0 ==> r.status == ESRCH
    {
      var data := list[i];
      if data.hook.task == 0 {
        freed := freed + [data.hook.rec];
      } else {
        data.status := ESRCH;
        woken := woken + [data.hook.task];
      }
      assert list[..i + 1] == list[..i] + [data];
      assert Hooks(list[..i + 1])[..i] == Hooks(list[..i]);
    }
    assert list[..|list|] == list;
  }

  lemma {:induction false} HeapRecsOf(list: seq<Hook>, m: nat)
    requires forall h :: h in list ==> h.rec != m
    ensures multiset(HeapRecs(list))[m] == 0
  {
    if list != [] {
      assert list[|list| - 1] in list;
      HeapRecsOf(list[..|list| - 1], m);
    }
  }

  /** What the last hook adds to the two lists. */
  lemma LastTornDown(list: seq<Hook>, m: nat)
    requires list != []
    ensures var front, last := list[..|list| - 1], list[|list| - 1];
            && multiset(HeapRecs(list))[m] == multiset(HeapRecs(front))[m] + (if last.task == 0 && last.rec == m then 1 else 0)
            && (forall t :: t in Sleepers(list) <==> t in Sleepers(front) || (last.task != 0 && last.task == t))
            && |HeapRecs(list)| + |Sleepers(list)| == |HeapRecs(front)| + |Sleepers(front)| + 1
  {
  }

  /** Each heap record of a torn down list is freed exactly once, no other record is, every
      sender that waits is woken, and nobody is left out. */
  lemma {:induction false} TornDownOnce(list: seq<Hook>, i: nat)
    requires Distinct(list) && i < |list|
    ensures multiset(HeapRecs(list))[list[i].rec] == if list[i].task == 0 then 1 else 0
    ensures list[i].task != 0 ==> list[i].task in Sleepers(list)
    ensures |HeapRecs(list)| + |Sleepers(list)| == |list|
  {
    var front, last := list[..|list| - 1], list[|list| - 1];
    LastTornDown(list, list[i].rec);
    if front == [] {
      NobodyTornDown();
    } else {
      hide HeapRecs, Sleepers;
      TornDownOnce(front, if i < |front| then i else 0);
      if i == |front| {
        HeapRecsOf(front, last.rec);
      }
    }
  }

  lemma NobodyTornDown()
    ensures HeapRecs([]) == [] && Sleepers([]) == []
  {
  }

  // ----- Copying back at the sender -----

  /** The end of `handle_msgsend`: the reply goes to the front of the buffer, the rest stays. */
  method CopyBack(data: Record, rc: int, out: Iov, user: array<byte>) returns (res: int)
    requires data.request.outLen == out.len
    modifies user
    ensures var n := Min(out.len, |data.reply|);
            if rc >= 0 && data.reply != [] then
              if Mapped(user.Length, out.base, n) then res == rc && user[..] == Write(old(user[..]), out.base, data.reply[..n])
              else res == EFAULT && user[..] == old(user[..])
            else
              res == rc && user[..] == old(user[..])
  {
    res := rc;
    if rc >= 0 && |data.reply| > 0 {
      var n := Min(data.request.outLen, |data.reply|);
      if !Mapped(user.Length, out.base, n) {
        res := EFAULT;
      } else {
        var bytes := data.reply;
        var buf := new byte[n](i requires 0 <= i < n => bytes[i]);
        assert buf[..] == buf[..0 + n] == bytes[..n];
        Copy(user, out.base, buf, 0, n);
      }
    }
  }

  /** The end of `handle_msgsendv`: the reply is scattered over the segments. */
  method CopyBackV(data: Record, rc: int, out: array<Iov>, user: array<byte>) returns (res: int)
    requires out as object != user && data.request.outLen == Total(out[..])
    modifies user, out
    ensures var n := Min(Total(old(out[..])), |data.reply|);
            if rc >= 0 && data.reply != [] then
              res == (if Reachable(user.Length, old(out[..]), n) then rc else EFAULT)
              && (Reachable(user.Length, old(out[..]), n) ==> user[..] == Scatter(old(user[..]), old(out[..]), data.reply[..n]))
            else
              res == rc && user[..] == old(user[..])
  {
    res := rc;
    if rc >= 0 && |data.reply| > 0 {
      var n := Min(data.request.outLen, |data.reply|);
      var bytes := data.reply;
      var buf := new byte[n](i requires 0 <= i < n => bytes[i]);
      assert buf[..n] == bytes[..n];
      var failed := MemcpyToIovec(out, user, buf, n);
      if failed != 0 {
        res := EFAULT;
      }
    }
  }
}

/** What arrives where, from the sender's buffer to the receiver and back. */
module EndToEnd {
  import opened Iovec
  import opened Msgsend

  // ----- Segments against one buffer -----

  /** MsgSendv asks for the same as MsgSend of the concatenation, whatever the segments are: the
      records the two constructors build carry the same bytes, the same lengths and the same room
      for the reply. */
  method SameRequest(flat: array<byte>, base: nat, user: array<byte>, inn: array<Iov>, out: array<Iov>, flatOut: Iov,
                     coid: nat, timeout: int, pid: nat, task: nat, addr1: nat, addr2: nat, ids: IdCounter)
      returns (d1: Record, d2: Record)
    requires inn as object != user && inn as object != flat && AllMapped(user.Length, inn[..])
    requires Mapped(flat.Length, base, Total(inn[..])) && Slice(flat[..], base, Total(inn[..])) == Flat(user[..], inn[..])
    requires flatOut.len == Total(out[..]) && (flatOut.base != 0 <==> flatOut.len > 0) && out != inn
    modifies ids, inn
    ensures d1.request == d2.request && d1.senderPid == d2.senderPid && d1.tag == d2.tag
    ensures d1.request.bytes == old(Flat(user[..], inn[..])) && d1.request.outLen == Total(old(out[..]))
    ensures d1.hook.task == d2.hook.task && d1.hook.rcvid < d2.hook.rcvid
  {
    GatherIsPrefix(user[..], inn[..], Total(inn[..]));
    var rc1, r1 := Init(flat, coid, timeout, Iov(base, Total(inn[..])), flatOut, pid, task, addr1, ids, true);
    var rc2, r2 := InitV(user, coid, timeout, inn, out, pid, task, addr2, ids, true);
    return r1, r2;
  }

  lemma {:induction false} FlatFrame(mem: seq<byte>, mem': seq<byte>, iovs: seq<Iov>)
    requires |mem'| == |mem| && AllMapped(|mem|, iovs)
    requires forall a :: 0 <= a < |mem| && !Outside(iovs, a) ==> mem'[a] == mem[a]
    ensures Flat(mem', iovs) == Flat(mem, iovs)
  {
    if iovs != [] {
      var v := iovs[0];
      forall a | v.base <= a < v.base + v.len
        ensures mem'[a] == mem[a]
      {
        assert v in iovs;
      }
      forall a | 0 <= a < |mem| && !Outside(iovs[1..], a)
        ensures mem'[a] == mem[a]
      {
        assert !Outside(iovs, a);
      }
      FlatFrame(mem, mem', iovs[1..]);
      assert Slice(mem', v.base, v.len) == Slice(mem, v.base, v.len);
    }
  }

  /** One buffer ends as the reply followed by its old tail. */
  lemma FlatReply(mem: seq<byte>, base: nat, len: nat, data: seq<byte>)
    requires Mapped(|mem|, base, len) && |data| <= len
    ensures Slice(Write(mem, base, data), base, len) == data + Slice(mem, base, len)[|data|..]
    ensures forall a :: 0 <= a < |mem| && !(base <= a < base + |data|) ==> Write(mem, base, data)[a] == mem[a]
  {
  }

  /** Writing into segments that lie apart from `v` leaves `v` alone. */
  lemma OthersScatter(mem: seq<byte>, v: Iov, rest: seq<Iov>, data: seq<byte>)
    requires Mapped(|mem|, v.base, v.len) && Reachable(|mem|, rest, |data|)
    requires forall w :: w in rest ==> Apart(v, w)
    ensures Slice(Scatter(mem, rest, data), v.base, v.len) == Slice(mem, v.base, v.len)
  {
    hide Reachable, Scatter;
    var out := Scatter(mem, rest, data);
    forall a | v.base <= a < v.base + v.len
      ensures out[a] == mem[a]
    {
      ScatterFrame(mem, rest, data, a);
    }
  }

  /** Writing into `v` leaves segments that lie apart from it alone. */
  lemma RestUntouched(mem: seq<byte>, v: Iov, rest: seq<Iov>, data: seq<byte>)
    requires Mapped(|mem|, v.base, v.len) && AllMapped(|mem|, rest) && |data| <= v.len
    requires forall w :: w in rest ==> Apart(v, w)
    ensures Flat(Write(mem, v.base, data), rest) == Flat(mem, rest)
  {
    var mem' := Write(mem, v.base, data);
    forall a | 0 <= a < |mem| && !Outside(rest, a)
      ensures mem'[a] == mem[a]
    {
      var w :| w in rest && w.base <= a < w.base + w.len;
      assert Apart(v, w);
    }
    FlatFrame(mem, mem', rest);
  }

  /** Putting the pieces together: either the first segment is full, or nothing is left for the
      others. */
  lemma Assemble(seg: seq<byte>, rest: seq<byte>, data: seq<byte>, seg': seq<byte>, rest': seq<byte>)
    requires |data| <= |seg| + |rest|
    requires var n := Min(|seg|, |data|); seg' == data[..n] + seg[n..] && rest' == data[n..] + rest[|data| - n..]
    ensures seg' + rest' == data + (seg + rest)[|data|..]
  {
    var n := Min(|seg|, |data|);
    CutConcat(seg, rest, |data|);
    if n == |data| {
      assert data[..n] == data && data[n..] == [];
    } else {
      assert seg[n..] == [];
    }
  }

  /** One segment, given the result for the others. */
  lemma VectoredStep(mem: seq<byte>, v: Iov, others: seq<Iov>, data: seq<byte>, n: nat, mem': seq<byte>, out: seq<byte>)
    requires Mapped(|mem|, v.base, v.len) && AllMapped(|mem|, others) && |data| <= v.len + Total(others)
    requires forall w :: w in others ==> Apart(v, w)
    requires n == Min(v.len, |data|) && mem' == Write(mem, v.base, data[..n])
    requires Reachable(|mem|, others, |data| - n) && out == Scatter(mem', others, data[n..])
    requires Flat(out, others) == data[n..] + Flat(mem', others)[|data| - n..]
    ensures Slice(out, v.base, v.len) + Flat(out, others) == data + (Slice(mem, v.base, v.len) + Flat(mem, others))[|data|..]
  {
    hide Flat, Scatter, Reachable, Write, Total;
    OthersScatter(mem', v, others, data[n..]);
    RestUntouched(mem, v, others, data[..n]);
    FlatReply(mem, v.base, v.len, data[..n]);
    Assemble(Slice(mem, v.base, v.len), Flat(mem, others), data, Slice(out, v.base, v.len), Flat(out, others));
  }

  /** The first segment and the others, one by one. */
  lemma Peel(mem: seq<byte>, iovs: seq<Iov>, data: seq<byte>)
    requires iovs != [] && data != [] && Disjoint(iovs) && AllMapped(|mem|, iovs) && |data| <= Total(iovs)
    ensures var v, others, n := iovs[0], iovs[1..], Min(iovs[0].len, |data|);
            && Mapped(|mem|, v.base, v.len) && AllMapped(|mem|, others) && Disjoint(others)
            && (forall w :: w in others ==> Apart(v, w))
            && Total(iovs) == v.len + Total(others)
            && Reachable(|mem|, others, |data| - n) && Reachable(|mem|, iovs, |data|)
  {
    hide Flat, Gather, Reachable, Total, Disjoint, AllMapped;
    var v, others := iovs[0], iovs[1..];
    First(|mem|, iovs);
    DisjointFirst(iovs);
    GatherIsPrefix(mem, iovs, |data|);
    GatherIsPrefix(mem, others, |data| - Min(v.len, |data|));
  }

  lemma {:induction false} PeelScatter(mem: seq<byte>, iovs: seq<Iov>, data: seq<byte>)
    requires iovs != [] && data != [] && Reachable(|mem|, iovs, |data|) && Mapped(|mem|, iovs[0].base, iovs[0].len)
    requires Reachable(|mem|, iovs[1..], |data| - Min(iovs[0].len, |data|))
    ensures var n := Min(iovs[0].len, |data|);
            Scatter(mem, iovs, data) == Scatter(Write(mem, iovs[0].base, data[..n]), iovs[1..], data[n..])
  {
    hide Scatter, Reachable;
    ScatterRound(mem, iovs, data);
    var n := Min(iovs[0].len, |data|);
    WriteNothing(mem, iovs[0].base, data[..n]);
  }

  /** Disjoint segments end the same way: their concatenation is the reply followed by its old
      tail. */
  lemma {:induction false} VectoredReply(mem: seq<byte>, iovs: seq<Iov>, data: seq<byte>)
    requires Disjoint(iovs) && AllMapped(|mem|, iovs) && |data| <= Total(iovs)
    ensures Reachable(|mem|, iovs, |data|)
    ensures Flat(Scatter(mem, iovs, data), iovs) == data + Flat(mem, iovs)[|data|..]
    decreases |iovs|
  {
    hide Flat, Scatter, Reachable, Write, Total, Disjoint, AllMapped;
    NoTotal();
    if data == [] {
      NothingToScatter(mem, iovs);
    } else {
      var v, others, n := iovs[0], iovs[1..], Min(iovs[0].len, |data|);
      Peel(mem, iovs, data);
      PeelScatter(mem, iovs, data);
      var mem' := Write(mem, v.base, data[..n]);
      VectoredReply(mem', others, data[n..]);
      var out := Scatter(mem', others, data[n..]);
      assert iovs == [v] + others;
      FlatCons(mem, v, others);
      FlatCons(out, v, others);
      VectoredStep(mem, v, others, data, n, mem', out);
    }
  }

  lemma {:induction false} NothingToScatter(mem: seq<byte>, iovs: seq<Iov>)
    requires AllMapped(|mem|, iovs)
    ensures Reachable(|mem|, iovs, 0) && Scatter(mem, iovs, []) == mem
    ensures Flat(mem, iovs) == [] + Flat(mem, iovs)[0..]
  {
  }

  /** The reply to MsgSendv is the reply to MsgSend, cut at the boundaries of the segments: if
      one buffer held what the segments hold, it holds it again afterwards. */
  lemma VectoredMeansFlat(mem: seq<byte>, iovs: seq<Iov>, flat: seq<byte>, base: nat, data: seq<byte>)
    requires Disjoint(iovs) && AllMapped(|mem|, iovs) && |data| <= Total(iovs)
    requires Mapped(|flat|, base, Total(iovs)) && Slice(flat, base, Total(iovs)) == Flat(mem, iovs)
    ensures Reachable(|mem|, iovs, |data|)
    ensures Flat(Scatter(mem, iovs, data), iovs) == Slice(Write(flat, base, data), base, Total(iovs))
  {
    hide Scatter, Reachable, Disjoint, AllMapped, Flat, Total, Write;
    VectoredReply(mem, iovs, data);
    FlatReply(flat, base, Total(iovs), data);
  }

  // ----- MsgReceive and MsgRead -----

  /** How many bytes a MsgRead at this offset returns: as many as the message and the buffer have. */
  function ReadLen(len: nat, offset: nat, size: nat): (n: nat)
    requires offset <= len
    ensures offset + n <= len && n <= size && (offset + n == len || n == size)
  {
    Min(len - offset, size)
  }

  /** Where consecutive reads get to when each starts where the last one ended. */
  function ReadEnd(len: nat, offset: nat, sizes: seq<nat>): (end: nat)
    requires offset <= len
    ensures offset <= end <= len
    decreases |sizes|
  {
    if sizes == [] then offset else ReadEnd(len, offset + ReadLen(len, offset, sizes[0]), sizes[1..])
  }

  /** The bytes they return, one read after the other. */
  function ReadAll(bytes: seq<byte>, offset: nat, sizes: seq<nat>): seq<byte>
    requires offset <= |bytes|
    decreases |sizes|
  {
    if sizes == [] then []
    else
      var n := ReadLen(|bytes|, offset, sizes[0]);
      bytes[offset..offset + n] + ReadAll(bytes, offset + n, sizes[1..])
  }

  function Sum(sizes: seq<nat>): nat {
    if sizes == [] then 0 else sizes[0] + Sum(sizes[1..])
  }

  lemma {:induction false} ReadsGoFar(len: nat, offset: nat, sizes: seq<nat>)
    requires offset <= len
    ensures ReadEnd(len, offset, sizes) == Min(len, offset + Sum(sizes))
    decreases |sizes|
  {
    if sizes != [] {
      ReadsGoFar(len, offset + ReadLen(len, offset, sizes[0]), sizes[1..]);
    }
  }

  lemma Join(bytes: seq<byte>, from: nat, mid: nat, to: nat)
    requires from <= mid <= to <= |bytes|
    ensures bytes[from..mid] + bytes[mid..to] == bytes[from..to]
  {
  }

  /** Consecutive reads return the message without gap or overlap, as far as their buffers go all
      together. */
  lemma {:induction false} ReadsReassemble(bytes: seq<byte>, offset: nat, sizes: seq<nat>)
    requires offset <= |bytes|
    ensures ReadAll(bytes, offset, sizes) == bytes[offset..ReadEnd(|bytes|, offset, sizes)]
    ensures ReadEnd(|bytes|, offset, sizes) == Min(|bytes|, offset + Sum(sizes))
  {
    ReadsGoFar(|bytes|, offset, sizes);
    ReadsInOrder(bytes, offset, sizes);
  }

  lemma ReadFirst(bytes: seq<byte>, offset: nat, sizes: seq<nat>)
    requires offset <= |bytes| && sizes != []
    ensures var n := ReadLen(|bytes|, offset, sizes[0]);
            && ReadAll(bytes, offset, sizes) == bytes[offset..offset + n] + ReadAll(bytes, offset + n, sizes[1..])
            && ReadEnd(|bytes|, offset, sizes) == ReadEnd(|bytes|, offset + n, sizes[1..])
  {
  }

  lemma ReadNone(bytes: seq<byte>, offset: nat)
    requires offset <= |bytes|
    ensures ReadAll(bytes, offset, []) == bytes[offset..ReadEnd(|bytes|, offset, [])]
  {
  }

  lemma {:induction false} ReadsInOrder(bytes: seq<byte>, offset: nat, sizes: seq<nat>)
    requires offset <= |bytes|
    ensures ReadAll(bytes, offset, sizes) == bytes[offset..ReadEnd(|bytes|, offset, sizes)]
    decreases |sizes|
  {
    hide ReadAll, ReadEnd, ReadLen;
    if sizes == [] {
      ReadNone(bytes, offset);
    } else {
      var n := ReadLen(|bytes|, offset, sizes[0]);
      ReadFirst(bytes, offset, sizes);
      ReadsInOrder(bytes, offset + n, sizes[1..]);
      Join(bytes, offset, offset + n, ReadEnd(|bytes|, offset + n, sizes[1..]));
    }
  }

  lemma PrefixJoin(bytes: seq<byte>, n: nat, end: nat, tail: seq<byte>)
    requires n <= end <= |bytes| && tail == bytes[n..end]
    ensures bytes[..n] + tail == bytes[..end]
    ensures bytes[..n] + tail == bytes <==> end == |bytes|
  {
    if bytes[..n] + tail == bytes {
      assert |bytes[..n] + tail| == end;
    }
  }

  /** What a receiver has after MsgReceive and the reads after it. */
  function Got(bytes: seq<byte>, room: nat, sizes: seq<nat>): seq<byte> {
    bytes[..Min(|bytes|, room)] + ReadAll(bytes, Min(|bytes|, room), sizes)
  }

  lemma GotTo(bytes: seq<byte>, room: nat, sizes: seq<nat>, end: nat)
    requires end == ReadEnd(|bytes|, Min(|bytes|, room), sizes)
    ensures Got(bytes, room, sizes) == bytes[..end]
    ensures Got(bytes, room, sizes) == bytes <==> end == |bytes|
  {
    hide ReadAll, ReadEnd, Min;
    var n := Min(|bytes|, room);
    ReadsInOrder(bytes, n, sizes);
    PrefixJoin(bytes, n, end, ReadAll(bytes, n, sizes));
  }

  /** It is the message from its beginning, as many bytes as the buffers have room for all together;
      it is the whole message exactly when that is enough, and exactly when another read into a
      non-empty buffer would return 0. */
  lemma ReceiveThenRead(bytes: seq<byte>, room: nat, sizes: seq<nat>, size: nat)
    requires size > 0
    ensures Got(bytes, room, sizes) == bytes[..Min(|bytes|, room + Sum(sizes))]
    ensures Got(bytes, room, sizes) == bytes <==> room + Sum(sizes) >= |bytes|
    ensures ReadLen(|bytes|, ReadEnd(|bytes|, Min(|bytes|, room), sizes), size) == 0 <==> Got(bytes, room, sizes) == bytes
  {
    hide Got, ReadEnd, Sum;
    ReadsGoFar(|bytes|, Min(|bytes|, room), sizes);
    GotTo(bytes, room, sizes, ReadEnd(|bytes|, Min(|bytes|, room), sizes));
  }
}

/** A channel as the driver keeps it (kernel/channel.c): an object with a list of records, two
    counters and a reference count. */
module ChannelObject {
  import opened Errno
  import opened ChannelQueue
  import opened Protocol
  import opened Msgsend

  class Channel {
    const chid: nat
    var refs: int
    var waiting: seq<Record>
    var numWaiting: int
    var numNoreply: int

    /** The queue as a value. */
    function Queue(): ChannelQueue.Queue
      reads this
    {
      ChannelQueue.Queue(Hooks(waiting), numWaiting, numNoreply)
    }

    /** `qnx_channel_init`: an empty queue and a channel id that was never used. */
    constructor (ids: IdCounter)
      modifies ids
      ensures chid == ids.last == old(ids.last) + 1
      ensures refs == 1 && waiting == [] && Queue() == EMPTY
    {
      refs, waiting, numWaiting, numNoreply := 1, [], 0, 0;
      var id := ids.Next();
      chid := id;
    }

    /** `qnx_channel_add_new_message`. */
    method AddNewMessage(data: Record, limit: nat) returns (rc: int)
      modifies `waiting, `numWaiting, `numNoreply, data`receiverChid
      ensures data.receiverChid == chid
      ensures rc == if Accepts(old(Queue()), data.hook, limit) then 0 else -1
      ensures waiting == if rc == 0 then old(waiting) + [data] else old(waiting)
      ensures Queue() == Add(old(Queue()), data.hook, limit)
      ensures data.hook.WellFormed() && old(numNoreply) == |NoReplies(old(Hooks(waiting)))| ==>
                (rc == -1 <==> data.hook.NoReply() && |NoReplies(old(Hooks(waiting)))| >= limit)
    {
      rc := 0;
      data.receiverChid := chid;
      if data.hook.rcvid == 0 || data.hook.task != 0 {
        waiting := waiting + [data];
      } else {
        if numNoreply < limit {
          waiting := waiting + [data];
          numNoreply := numNoreply + 1;
        } else {
          rc := -1;
        }
      }
      numWaiting := numWaiting + 1;
    }

    /** `qnx_channel_remove_message`. */
    method RemoveMessage(rcvid: int) returns (rc: int)
      modifies `waiting, `numWaiting
      ensures rc == if IndexOf(old(Queue()).waiting, rcvid) < |old(waiting)| then 1 else 0
      ensures waiting == if rc == 1 then RemoveAt(old(waiting), IndexOf(old(Queue()).waiting, rcvid)) else old(waiting)
      ensures Queue() == Withdraw(old(Queue()), rcvid)
    {
      rc := 0;
      ghost var hooks := Hooks(waiting);
      var i := 0;
      while i < |waiting|
        invariant 0 <= i <= |waiting| && waiting == old(waiting) && numWaiting == old(numWaiting)
        invariant IndexOf(hooks, rcvid) == i + IndexOf(hooks[i..], rcvid)
      {
        if waiting[i].hook.rcvid == rcvid {
          waiting := waiting[..i] + waiting[i + 1..];
          numWaiting := numWaiting - 1;
          assert Hooks(waiting) == RemoveAt(hooks, i);
          return 1;
        }
        i := i + 1;
      }
    }

    /** What MsgReceive and poll wait for. */
    predicate Ready()
      reads this
    {
      numWaiting > 0
    }

    /** The lock section of `handle_msgreceive`. */
    method TakeFirst() returns (data: Record?)
      modifies `waiting, `numWaiting, `numNoreply, waiting`tag
      ensures data == null <==> old(waiting) == []
      ensures data == null ==> Queue() == old(Queue()) && waiting == []
      ensures data != null ==>
                && data == old(waiting)[0] && waiting == old(waiting)[1..] && data.tag == Receiving
                && Queue() == Take(old(Queue()))
                && forall r :: r in old(waiting) && r != data ==> r.tag == old(r.tag)
    {
      if waiting == [] {
        return null;
      }
      data := waiting[0];
      numWaiting := numWaiting - 1;
      if data.hook.rcvid > 0 && data.hook.task == 0 {
        numNoreply := numNoreply - 1;
      }
      waiting := waiting[1..];
      data.tag := Receiving;
      assert Hooks(waiting) == old(Hooks(waiting))[1..];
    }

    /** `qnx_channel_release`: the last reference tears the channel down. */
    method Release() returns (freed: seq<nat>, woken: seq<nat>)
      modifies `refs, `waiting, (if refs == 1 then Senders(waiting) else {})`status
      ensures refs == old(refs) - 1
      ensures refs != 0 ==> freed == [] && woken == [] && waiting == old(waiting)
      ensures refs == 0 ==>
                && waiting == [] && freed == HeapRecs(old(Queue()).waiting) && woken == Sleepers(old(Queue()).waiting)
                && forall r :: r in Senders(old(waiting)) ==> r.status == ESRCH
    {
      freed, woken := [], [];
      refs := refs - 1;
      if refs == 0 {
        freed, woken := CleanUpList(waiting);
        waiting := [];
      }
    }
  }
}

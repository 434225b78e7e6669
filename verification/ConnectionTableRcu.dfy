/**
  Retrieving a connection while other threads add and remove connections and grow the table
  (kernel/connection_table.c). Writers hold a lock; readers only enter a read section. Memory is
  explicit: arrays and connections are blocks that get freed, and the machine does not stop a
  reader from touching a freed one. A grace period waits for the read sections that had begun.
 */
module ConnectionTableRcu {
  import opened Connections
  import Spec = ConnectionTable

  /** An array of pointers to connections; 0 is the null pointer. */
  datatype Block = Block(slots: seq<nat>, freed: bool)

  /** A connection in memory. `remover` is the thread that unlinked it, 0 before. */
  datatype Object = Object(conn: Connection, remover: nat, freed: bool)

  /** The lock, and how far the thread that grows the table has come while it holds it. */
  datatype Lock =
    | Unlocked
    | Published(prev: nat)
    | Syncing(prev: nat, waits: set<nat>)
    | Storing

  /** A thread in `qnx_connection_table_remove` after it has given the lock back. */
  datatype Remover =
    | Unlinked(item: nat)
    | Waiting(item: nat, waits: set<nat>)
    | Finished

  /** One call of `qnx_connection_table_retrieve`. */
  datatype Phase =
    | Entered
    | HasBlock(block: nat)
    | HasObject(item: nat)
    | Result(slot: Slot)
    | Left(slot: Slot)

  /** `seen` is a history variable: what the table mapped the coid to at each instant of the call
      up to its result. */
  datatype Reader = Reader(coid: nat, phase: Phase, seen: set<Slot>) {
    predicate Active() { !phase.Left? }
  }

  datatype State = State(
    blocks: map<nat, Block>,
    objects: map<nat, Object>,
    table: nat,
    lock: Lock,
    readers: map<nat, Reader>,
    removers: map<nat, Remover>
  )

  function Start(capacity: nat): State {
    State(map[1 := Block(seq(capacity, _ => 0), false)], map[], 1, Unlocked, map[], map[])
  }

  /** What a pointer means. */
  function Deref(s: State, o: nat): Slot {
    if o != 0 && o in s.objects then Used(s.objects[o].conn) else Empty
  }

  /** What a block maps a coid to. */
  function InBlock(s: State, b: nat, coid: nat): Slot {
    if b in s.blocks && coid < |s.blocks[b].slots| then Deref(s, s.blocks[b].slots[coid]) else Empty
  }

  /** What the table maps a coid to. */
  function Lookup(s: State, coid: nat): Slot {
    InBlock(s, s.table, coid)
  }

  function ActiveReaders(s: State): set<nat> {
    set r | r in s.readers && s.readers[r].Active()
  }

  /** All of these read sections have ended. */
  predicate GraceOver(s: State, waits: set<nat>) {
    forall r :: r in waits ==> r in s.readers && !s.readers[r].Active()
  }

  datatype Step =
    // writers
    | AddInPlace(o: nat, conn: Connection, i: nat)
    | GrowPublish(b: nat)
    | GrowSync
    | GrowFree
    | GrowStore(o: nat, conn: Connection)
    | RemoveUnlink(w: nat, coid: nat)
    | RemoveSync(w: nat)
    | RemoveFree(w: nat)
    // readers
    | ReadBegin(r: nat, coid: nat)
    | ReadTable(r: nat)
    | ReadSlot(r: nat)
    | ReadObject(r: nat)
    | ReadEnd(r: nat)

  predicate FullTable(slots: seq<nat>) {
    forall i :: 1 <= i < |slots| ==> slots[i] != 0
  }

  predicate Enabled(s: State, a: Step) {
    s.table in s.blocks &&
    match a
    case AddInPlace(o, conn, i) =>
      && s.lock.Unlocked? && o > 0 && o !in s.objects
      && 1 <= i < |s.blocks[s.table].slots| && s.blocks[s.table].slots[i] == 0
      && FullTable(s.blocks[s.table].slots[..i])
    case GrowPublish(b) => s.lock.Unlocked? && FullTable(s.blocks[s.table].slots) && b > 0 && b !in s.blocks
    case GrowSync => s.lock.Published?
    case GrowFree => s.lock.Syncing? && GraceOver(s, s.lock.waits) && s.lock.prev in s.blocks
    case GrowStore(o, conn) => s.lock.Storing? && o > 0 && o !in s.objects
    case RemoveUnlink(w, coid) =>
      && s.lock.Unlocked? && w > 0 && w !in s.removers
      && coid < |s.blocks[s.table].slots| && s.blocks[s.table].slots[coid] != 0
      && s.blocks[s.table].slots[coid] in s.objects
    case RemoveSync(w) => w in s.removers && s.removers[w].Unlinked?
    case RemoveFree(w) =>
      && w in s.removers && s.removers[w].Waiting? && GraceOver(s, s.removers[w].waits)
      && s.removers[w].item in s.objects
    case ReadBegin(r, coid) => r !in s.readers
    case ReadTable(r) => r in s.readers && s.readers[r].phase.Entered?
    case ReadSlot(r) => r in s.readers && s.readers[r].phase.HasBlock? && s.readers[r].phase.block in s.blocks
    case ReadObject(r) => r in s.readers && s.readers[r].phase.HasObject? && s.readers[r].phase.item in s.objects
    case ReadEnd(r) => r in s.readers && s.readers[r].phase.Result?
  }

  function SetSlot(s: State, i: nat, o: nat): State
    requires s.table in s.blocks && i < |s.blocks[s.table].slots|
  {
    s.(blocks := s.blocks[s.table := s.blocks[s.table].(slots := s.blocks[s.table].slots[i := o])])
  }

  function SetPhase(s: State, r: nat, phase: Phase): State
    requires r in s.readers
  {
    s.(readers := s.readers[r := s.readers[r].(phase := phase)])
  }

  /** The memory and the threads after a step. */
  function Effect(s: State, a: Step): State
    requires Enabled(s, a)
  {
    match a
    case AddInPlace(o, conn, i) => SetSlot(s, i, o).(objects := s.objects[o := Object(conn, 0, false)])
    case GrowPublish(b) =>
      var slots := s.blocks[s.table].slots;
      s.(blocks := s.blocks[b := Block(slots + seq(|slots|, _ => 0), false)], table := b, lock := Published(s.table))
    case GrowSync => s.(lock := Syncing(s.lock.prev, ActiveReaders(s)))
    case GrowFree => s.(blocks := s.blocks[s.lock.prev := s.blocks[s.lock.prev].(freed := true)], lock := Storing)
    case GrowStore(o, conn) => s.(objects := s.objects[o := Object(conn, 0, false)], lock := Unlocked)
    case RemoveUnlink(w, coid) =>
      var o := s.blocks[s.table].slots[coid];
      SetSlot(s, coid, 0).(objects := s.objects[o := s.objects[o].(remover := w)], removers := s.removers[w := Unlinked(o)])
    case RemoveSync(w) => s.(removers := s.removers[w := Waiting(s.removers[w].item, ActiveReaders(s))])
    case RemoveFree(w) =>
      var o := s.removers[w].item;
      s.(objects := s.objects[o := s.objects[o].(freed := true)], removers := s.removers[w := Finished])
    case ReadBegin(r, coid) => s.(readers := s.readers[r := Reader(coid, Entered, {})])
    case ReadTable(r) => SetPhase(s, r, HasBlock(s.table))
    case ReadSlot(r) =>
      var slots, coid := s.blocks[s.readers[r].phase.block].slots, s.readers[r].coid;
      SetPhase(s, r, if coid < |slots| && slots[coid] != 0 then HasObject(slots[coid]) else Result(Empty))
    case ReadObject(r) => SetPhase(s, r, Result(Used(s.objects[s.readers[r].phase.item].conn)))
    case ReadEnd(r) => SetPhase(s, r, Left(s.readers[r].phase.slot))
  }

  /** Every call that is still looking notes what the table says now. */
  function Observe(s: State): State {
    s.(readers := map r | r in s.readers ::
         var rd := s.readers[r];
         if rd.phase.Result? || rd.phase.Left? then rd else rd.(seen := rd.seen + {Lookup(s, rd.coid)}))
  }

  function Next(s: State, a: Step): State
    requires Enabled(s, a)
  {
    Observe(Effect(s, a))
  }

  ghost predicate Run(states: seq<State>, steps: seq<Step>) {
    && |states| == |steps| + 1
    && (exists capacity :: states[0] == Start(capacity))
    && forall i :: 0 <= i < |steps| ==> Enabled(states[i], steps[i]) && states[i + 1] == Next(states[i], steps[i])
  }

  // ----- Invariant -----

  ghost predicate TableOk(s: State) {
    && s.table in s.blocks && s.table > 0 && !s.blocks[s.table].freed
    && (forall i :: 0 <= i < |s.blocks[s.table].slots| && s.blocks[s.table].slots[i] != 0 ==> Linked(s, s.blocks[s.table].slots[i]))
    && (forall i, j :: 0 <= i < j < |s.blocks[s.table].slots| && s.blocks[s.table].slots[i] != 0 ==>
          s.blocks[s.table].slots[i] != s.blocks[s.table].slots[j])
  }

  predicate Linked(s: State, o: nat) {
    o in s.objects && s.objects[o].remover == 0 && !s.objects[o].freed
  }

  /** While the table grows the old array is still there and agrees with the new one: the lock
      keeps every other writer out until the grace period is over. */
  ghost predicate LockOk(s: State) {
    s.lock.Published? || s.lock.Syncing? ==>
      && s.lock.prev in s.blocks && s.lock.prev != s.table && s.table in s.blocks
      && !s.blocks[s.lock.prev].freed
      && |s.blocks[s.lock.prev].slots| <= |s.blocks[s.table].slots|
      && (forall i :: 0 <= i < |s.blocks[s.lock.prev].slots| ==> s.blocks[s.lock.prev].slots[i] == s.blocks[s.table].slots[i])
      && (forall i :: |s.blocks[s.lock.prev].slots| <= i < |s.blocks[s.table].slots| ==> s.blocks[s.table].slots[i] == 0)
  }

  ghost predicate RemoverOk(s: State, w: nat)
    requires w in s.removers
  {
    w > 0 && (!s.removers[w].Finished? ==>
      && s.removers[w].item in s.objects && !s.objects[s.removers[w].item].freed
      && s.objects[s.removers[w].item].remover == w)
  }

  /** The array a reader holds is the table, or the old array of a growth that waits for it. */
  ghost predicate BlockSafe(s: State, r: nat, b: nat) {
    || b == s.table
    || (s.lock.Published? && b == s.lock.prev)
    || (s.lock.Syncing? && b == s.lock.prev && r in s.lock.waits)
  }

  /** The connection a reader holds is in the table, or its remover waits for the reader. */
  ghost predicate ObjectSafe(s: State, r: nat, o: nat) {
    o in s.objects && !s.objects[o].freed &&
    (s.objects[o].remover != 0 ==>
       var w := s.objects[o].remover;
       w in s.removers && (s.removers[w] == Unlinked(o)
                           || (s.removers[w].Waiting? && s.removers[w].item == o && r in s.removers[w].waits)))
  }

  ghost predicate ReaderOk(s: State, r: nat)
    requires r in s.readers
  {
    var rd := s.readers[r];
    match rd.phase
    case Entered => Lookup(s, rd.coid) in rd.seen
    case HasBlock(b) => Lookup(s, rd.coid) in rd.seen && BlockSafe(s, r, b) && InBlock(s, b, rd.coid) in rd.seen
    case HasObject(o) => Lookup(s, rd.coid) in rd.seen && o > 0 && ObjectSafe(s, r, o) && Used(s.objects[o].conn) in rd.seen
    case Result(slot) => slot in rd.seen
    case Left(slot) => slot in rd.seen
  }

  ghost predicate Inv(s: State) {
    && TableOk(s)
    && LockOk(s)
    && (forall w :: w in s.removers ==> RemoverOk(s, w))
    && (forall r :: r in s.readers ==> ReaderOk(s, r))
  }

  lemma StartOk(capacity: nat)
    ensures Inv(Start(capacity))
  {
  }

  lemma KeepTable(s: State, a: Step)
    requires Inv(s) && Enabled(s, a)
    ensures TableOk(Next(s, a))
  {
    hide ReaderOk;
  }

  lemma KeepLock(s: State, a: Step)
    requires Inv(s) && Enabled(s, a)
    ensures LockOk(Next(s, a))
  {
    hide ReaderOk, RemoverOk;
  }

  lemma KeepRemover(s: State, a: Step, w: nat)
    requires Inv(s) && Enabled(s, a) && w in Next(s, a).removers
    ensures RemoverOk(Next(s, a), w)
  {
    hide ReaderOk, LockOk;
  }

  predicate ReaderStep(a: Step) {
    a.ReadBegin? || a.ReadTable? || a.ReadSlot? || a.ReadObject? || a.ReadEnd?
  }

  lemma KeepReaderOnAdd(s: State, a: Step, r: nat)
    requires Inv(s) && Enabled(s, a) && a.AddInPlace? && r in Next(s, a).readers
    ensures ReaderOk(Next(s, a), r)
  {
    hide RemoverOk, LockOk;
    assert ReaderOk(s, r);
  }

  lemma KeepReaderOnStore(s: State, a: Step, r: nat)
    requires Inv(s) && Enabled(s, a) && a.GrowStore? && r in Next(s, a).readers
    ensures ReaderOk(Next(s, a), r)
  {
    hide RemoverOk;
    assert ReaderOk(s, r);
  }

  lemma KeepReaderOnPublish(s: State, a: Step, r: nat)
    requires Inv(s) && Enabled(s, a) && a.GrowPublish? && r in Next(s, a).readers
    ensures ReaderOk(Next(s, a), r)
  {
    hide RemoverOk;
    assert ReaderOk(s, r);
  }

  lemma KeepReaderOnGrow(s: State, a: Step, r: nat)
    requires Inv(s) && Enabled(s, a) && (a.GrowSync? || a.GrowFree?) && r in Next(s, a).readers
    ensures ReaderOk(Next(s, a), r)
  {
    hide RemoverOk;
    assert ReaderOk(s, r);
  }

  lemma KeepReaderOnUnlink(s: State, a: Step, r: nat)
    requires Inv(s) && Enabled(s, a) && a.RemoveUnlink? && r in Next(s, a).readers
    ensures ReaderOk(Next(s, a), r)
  {
    hide RemoverOk;
    assert ReaderOk(s, r);
  }

  lemma KeepReaderOnFree(s: State, a: Step, r: nat)
    requires Inv(s) && Enabled(s, a) && (a.RemoveSync? || a.RemoveFree?) && r in Next(s, a).readers
    ensures ReaderOk(Next(s, a), r)
  {
    hide LockOk;
    assert ReaderOk(s, r);
  }

  lemma KeepReaderOnWrite(s: State, a: Step, r: nat)
    requires Inv(s) && Enabled(s, a) && !ReaderStep(a) && r in Next(s, a).readers
    ensures ReaderOk(Next(s, a), r)
  {
    hide Inv, Enabled, Next, ReaderOk;
    match a
    case AddInPlace(_, _, _) => KeepReaderOnAdd(s, a, r);
    case GrowPublish(_) => KeepReaderOnPublish(s, a, r);
    case GrowSync => KeepReaderOnGrow(s, a, r);
    case GrowFree => KeepReaderOnGrow(s, a, r);
    case GrowStore(_, _) => KeepReaderOnStore(s, a, r);
    case RemoveUnlink(_, _) => KeepReaderOnUnlink(s, a, r);
    case RemoveSync(_) => KeepReaderOnFree(s, a, r);
    case RemoveFree(_) => KeepReaderOnFree(s, a, r);
  }

  lemma KeepReaderOnRead(s: State, a: Step, r: nat)
    requires Inv(s) && Enabled(s, a) && ReaderStep(a) && r in Next(s, a).readers
    ensures ReaderOk(Next(s, a), r)
  {
    if a.r == r {
      KeepOwn(s, a, r);
    } else {
      KeepOther(s, a, r);
    }
  }

  /** What a step of one reader does to everything but this reader. */
  lemma ReadFrame(s: State, a: Step, r: nat)
    requires Enabled(s, a) && ReaderStep(a) && a.r != r && r in Next(s, a).readers
    ensures var s' := Next(s, a);
            && s'.blocks == s.blocks && s'.objects == s.objects && s'.table == s.table && s'.lock == s.lock && s'.removers == s.removers
            && r in s.readers && s'.readers[r].coid == s.readers[r].coid && s'.readers[r].phase == s.readers[r].phase
            && s'.readers[r].seen >= s.readers[r].seen
  {
  }

  lemma SameReader(s: State, s': State, r: nat)
    requires r in s.readers && r in s'.readers && ReaderOk(s, r)
    requires s'.blocks == s.blocks && s'.objects == s.objects && s'.table == s.table && s'.lock == s.lock && s'.removers == s.removers
    requires s'.readers[r].coid == s.readers[r].coid && s'.readers[r].phase == s.readers[r].phase
    requires s'.readers[r].seen >= s.readers[r].seen
    ensures ReaderOk(s', r)
  {
  }

  lemma KeepOther(s: State, a: Step, r: nat)
    requires Inv(s) && Enabled(s, a) && ReaderStep(a) && a.r != r && r in Next(s, a).readers
    ensures ReaderOk(Next(s, a), r)
  {
    hide ReaderOk, TableOk, LockOk, RemoverOk, Enabled, Next;
    ReadFrame(s, a, r);
    SameReader(s, Next(s, a), r);
  }

  lemma KeepOwn(s: State, a: Step, r: nat)
    requires Inv(s) && Enabled(s, a) && ReaderStep(a) && a.r == r && r in Next(s, a).readers
    ensures ReaderOk(Next(s, a), r)
  {
    hide ReaderOk, Inv, Enabled, Next;
    if a.ReadBegin? {
      KeepBegin(s, a, r);
    } else if a.ReadTable? || a.ReadSlot? {
      KeepLooking(s, a, r);
    } else {
      KeepLeaving(s, a, r);
    }
  }

  lemma KeepBegin(s: State, a: Step, r: nat)
    requires Inv(s) && Enabled(s, a) && a.ReadBegin? && a.r == r && r in Next(s, a).readers
    ensures ReaderOk(Next(s, a), r)
  {
    hide RemoverOk, LockOk;
  }

  lemma KeepLooking(s: State, a: Step, r: nat)
    requires Inv(s) && Enabled(s, a) && (a.ReadTable? || a.ReadSlot?) && a.r == r && r in Next(s, a).readers
    ensures ReaderOk(Next(s, a), r)
  {
    hide RemoverOk;
    assert ReaderOk(s, r);
  }

  lemma KeepLeaving(s: State, a: Step, r: nat)
    requires Inv(s) && Enabled(s, a) && (a.ReadObject? || a.ReadEnd?) && a.r == r && r in Next(s, a).readers
    ensures ReaderOk(Next(s, a), r)
  {
    hide RemoverOk, LockOk, TableOk;
    assert ReaderOk(s, r);
  }

  lemma Keep(s: State, a: Step)
    requires Inv(s) && Enabled(s, a)
    ensures Inv(Next(s, a))
  {
    hide TableOk, LockOk, RemoverOk, ReaderOk, Enabled, Next;
    var s' := Next(s, a);
    KeepTable(s, a);
    KeepLock(s, a);
    forall w | w in s'.removers
      ensures RemoverOk(s', w)
    {
      KeepRemover(s, a, w);
    }
    forall r | r in s'.readers
      ensures ReaderOk(s', r)
    {
      if ReaderStep(a) {
        KeepReaderOnRead(s, a, r);
      } else {
        KeepReaderOnWrite(s, a, r);
      }
    }
  }

  lemma {:induction false} Reachable(states: seq<State>, steps: seq<Step>, i: nat)
    requires Run(states, steps) && i < |states|
    ensures Inv(states[i])
  {
    hide Inv, Enabled, Next;
    if i == 0 {
      var capacity :| states[0] == Start(capacity);
      StartOk(capacity);
    } else {
      Reachable(states, steps, i - 1);
      Keep(states[i - 1], steps[i - 1]);
    }
  }

  // ----- Memory safety -----

  /** No step of any run touches or frees memory that was freed before. */
  lemma NoFreedMemory(states: seq<State>, steps: seq<Step>, i: nat)
    requires Run(states, steps) && i < |steps|
    ensures match steps[i]
      case ReadSlot(r) => !states[i].blocks[states[i].readers[r].phase.block].freed
      case ReadObject(r) => !states[i].objects[states[i].readers[r].phase.item].freed
      case GrowFree => !states[i].blocks[states[i].lock.prev].freed
      case RemoveFree(w) => !states[i].objects[states[i].removers[w].item].freed
      case _ => !states[i].blocks[states[i].table].freed
  {
    var s := states[i];
    Reachable(states, steps, i);
    hide Run, Next;
    match steps[i]
    case ReadSlot(r) => assert ReaderOk(s, r);
    case ReadObject(r) => assert ReaderOk(s, r);
    case RemoveFree(w) => assert RemoverOk(s, w);
    case _ =>
  }

  /** Memory that nobody can reach any more is freed: an array that is not the table, unless the
      growth that replaced it still waits, and a connection that was unlinked, unless its remover
      still waits. No other connection is. */
  ghost predicate Reclaimed(s: State) {
    && (forall b :: b in s.blocks && b != s.table ==>
          s.blocks[b].freed || ((s.lock.Published? || s.lock.Syncing?) && b == s.lock.prev))
    && (forall o :: o in s.objects ==>
          if s.objects[o].remover == 0 then !s.objects[o].freed else s.objects[o].freed || Held(s, o))
  }

  predicate Held(s: State, o: nat)
    requires o in s.objects
  {
    var w := s.objects[o].remover;
    w in s.removers && (s.removers[w].Unlinked? || s.removers[w].Waiting?) && s.removers[w].item == o
  }

  lemma KeepReclaimed(s: State, a: Step)
    requires Inv(s) && Reclaimed(s) && Enabled(s, a)
    ensures Reclaimed(Next(s, a))
  {
    hide ReaderOk, LockOk, GraceOver;
    assert a.RemoveFree? ==> RemoverOk(s, a.w);
  }

  lemma {:induction false} NothingLeaks(states: seq<State>, steps: seq<Step>, i: nat)
    requires Run(states, steps) && i < |states|
    ensures Reclaimed(states[i])
  {
    hide Inv, Enabled, Next;
    if i > 0 {
      hide Reclaimed;
      NothingLeaks(states, steps, i - 1);
      Reachable(states, steps, i - 1);
      KeepReclaimed(states[i - 1], steps[i - 1]);
    }
  }

  // ----- Progress -----

  /** How many own steps are left of a call. */
  function StepsLeft(phase: Phase): nat {
    match phase
    case Entered => 4
    case HasBlock(_) => 3
    case HasObject(_) => 2
    case Result(_) => 1
    case Left(_) => 0
  }

  /** A reader never waits: it always has a step to take, each own step brings it closer to the end of
      its call, of four steps at most, and no other step does or undoes that. */
  lemma ReadersNeverWait(states: seq<State>, steps: seq<Step>, i: nat, r: nat)
    requires Run(states, steps) && i < |states| && r in states[i].readers
    ensures states[i].readers[r].Active() ==> exists a :: ReaderStep(a) && a.r == r && Enabled(states[i], a)
    ensures i < |steps| ==>
              r in states[i + 1].readers &&
              if ReaderStep(steps[i]) && steps[i].r == r then StepsLeft(states[i + 1].readers[r].phase) < StepsLeft(states[i].readers[r].phase)
              else states[i + 1].readers[r].phase == states[i].readers[r].phase
  {
    var s := states[i];
    Reachable(states, steps, i);
    hide Run;
    if s.readers[r].Active() {
      ReaderMoves(s, r);
    }
    if i < |steps| {
      ReaderSteps(s, steps[i], r);
    }
  }

  /** A writer waits for no reader but those whose call had begun when it started to wait: as soon as these
      have left it frees the memory, whoever reads by then. */
  lemma GraceEnds(states: seq<State>, steps: seq<Step>, i: nat)
    requires Run(states, steps) && i < |states|
    ensures var s := states[i];
            s.lock.Syncing? ==>
              && (forall r :: r in s.lock.waits ==> r in s.readers)
              && ((forall r :: r in s.lock.waits && r in s.readers ==> s.readers[r].phase.Left?) <==> Enabled(s, GrowFree))
    ensures var s := states[i];
            forall w :: w in s.removers && s.removers[w].Waiting? ==>
              && (forall r :: r in s.removers[w].waits ==> r in s.readers)
              && ((forall r :: r in s.removers[w].waits && r in s.readers ==> s.readers[r].phase.Left?) <==> Enabled(s, RemoveFree(w)))
  {
    hide Inv, Run, Waiters;
    WaitersKnown(states, steps, i);
    Reachable(states, steps, i);
    GraceEndsIn(states[i]);
  }

  /** Whoever is waited for is a reader. */
  ghost predicate Waiters(s: State) {
    && (s.lock.Syncing? ==> forall r :: r in s.lock.waits ==> r in s.readers)
    && (forall w :: w in s.removers && s.removers[w].Waiting? ==> forall r :: r in s.removers[w].waits ==> r in s.readers)
  }

  lemma KeepWaiters(s: State, a: Step)
    requires Waiters(s) && Enabled(s, a)
    ensures Waiters(Next(s, a))
  {
  }

  lemma {:induction false} WaitersKnown(states: seq<State>, steps: seq<Step>, i: nat)
    requires Run(states, steps) && i < |states|
    ensures Waiters(states[i])
  {
    hide Enabled, Next;
    if i > 0 {
      hide Waiters;
      WaitersKnown(states, steps, i - 1);
      KeepWaiters(states[i - 1], steps[i - 1]);
    }
  }

  lemma GraceEndsIn(s: State)
    requires Inv(s) && Waiters(s)
    ensures s.lock.Syncing? ==>
              && (forall r :: r in s.lock.waits ==> r in s.readers)
              && ((forall r :: r in s.lock.waits && r in s.readers ==> s.readers[r].phase.Left?) <==> Enabled(s, GrowFree))
    ensures forall w :: w in s.removers && s.removers[w].Waiting? ==>
              && (forall r :: r in s.removers[w].waits ==> r in s.readers)
              && ((forall r :: r in s.removers[w].waits && r in s.readers ==> s.readers[r].phase.Left?) <==> Enabled(s, RemoveFree(w)))
  {
    hide ReaderOk;
    forall w | w in s.removers && s.removers[w].Waiting?
      ensures s.removers[w].item in s.objects
    {
      assert RemoverOk(s, w);
    }
  }

  /** How many steps a growing writer still has to take before it gives the lock back. */
  function GrowthLeft(lock: Lock): nat {
    match lock
    case Unlocked => 0
    case Published(_) => 3
    case Syncing(_, _) => 2
    case Storing => 1
  }

  predicate Grows(a: Step) {
    a.GrowPublish? || a.GrowSync? || a.GrowFree? || a.GrowStore?
  }

  /** A growing writer gives the lock back after three more steps, which nobody else can take, undo or
      prevent: only the middle one waits, for readers. */
  lemma GrowthEnds(states: seq<State>, steps: seq<Step>, i: nat, o: nat, conn: Connection)
    requires Run(states, steps) && i < |states| && o > 0 && o !in states[i].objects
    ensures i < |steps| ==>
              GrowthLeft(states[i + 1].lock) == if steps[i].GrowPublish? then 3
                                                else GrowthLeft(states[i].lock) - if Grows(steps[i]) then 1 else 0
    ensures !states[i].lock.Unlocked? ==>
              forall a: Step :: a.AddInPlace? || a.GrowPublish? || a.RemoveUnlink? ==> !Enabled(states[i], a)
    ensures states[i].lock.Published? ==> Enabled(states[i], GrowSync)
    ensures states[i].lock.Storing? ==> Enabled(states[i], GrowStore(o, conn))
  {
    Reachable(states, steps, i);
    assert i < |steps| ==> Enabled(states[i], steps[i]) && states[i + 1] == Next(states[i], steps[i]);
  }

  /** What a growing add stored is in memory, but no slot of the table leads to it. */
  lemma GrowthLoses(s: State, o: nat, conn: Connection)
    requires Inv(s) && Enabled(s, GrowStore(o, conn))
    ensures var s' := Next(s, GrowStore(o, conn));
            && o in s'.objects && s'.objects[o] == Object(conn, 0, false) && s'.table in s'.blocks
            && o !in s'.blocks[s'.table].slots && TableView(s') == TableView(s)
  {
    hide ReaderOk, RemoverOk, LockOk;
  }

  lemma ReaderMoves(s: State, r: nat)
    requires Inv(s) && r in s.readers && s.readers[r].Active()
    ensures exists a :: ReaderStep(a) && a.r == r && Enabled(s, a)
  {
    hide RemoverOk;
    assert ReaderOk(s, r);
    var a := match s.readers[r].phase
      case Entered => ReadTable(r)
      case HasBlock(_) => ReadSlot(r)
      case HasObject(_) => ReadObject(r)
      case Result(_) => ReadEnd(r);
    assert ReaderStep(a) && a.r == r && Enabled(s, a);
  }

  lemma ReaderSteps(s: State, a: Step, r: nat)
    requires Enabled(s, a) && r in s.readers
    ensures r in Next(s, a).readers &&
              if ReaderStep(a) && a.r == r then StepsLeft(Next(s, a).readers[r].phase) < StepsLeft(s.readers[r].phase)
              else Next(s, a).readers[r].phase == s.readers[r].phase
  {
    if ReaderStep(a) && a.r != r {
      OtherReads(s, a, r);
    } else if !ReaderStep(a) {
      WritersLeaveReaders(s, a);
    }
  }

  lemma OtherReads(s: State, a: Step, r: nat)
    requires Enabled(s, a) && ReaderStep(a) && a.r != r && r in s.readers
    ensures r in Next(s, a).readers && Next(s, a).readers[r].phase == s.readers[r].phase
  {
  }

  lemma WritersLeaveReaders(s: State, a: Step)
    requires Enabled(s, a) && !ReaderStep(a)
    ensures forall r :: r in s.readers ==> r in Next(s, a).readers && Next(s, a).readers[r].phase == s.readers[r].phase
  {
  }

  // ----- Linearizability -----

  /** What a call has seen is what the table said at some instant since the call began. */
  lemma {:induction false} SeenIsHistory(states: seq<State>, steps: seq<Step>, i: nat, j: nat, r: nat, slot: Slot)
    requires Run(states, steps) && i < j < |states| && r !in states[i].readers
    requires r in states[j].readers && slot in states[j].readers[r].seen
    ensures exists k :: i < k <= j && r in states[k].readers && Lookup(states[k], states[j].readers[r].coid) == slot
    decreases j
  {
    hide Next, Enabled;
    var s, s' := states[j - 1], states[j];
    assert Enabled(s, steps[j - 1]) && s' == Next(s, steps[j - 1]);
    if Lookup(s', s'.readers[r].coid) != slot {
      SeenStep(s, steps[j - 1], r, slot);
      SeenIsHistory(states, steps, i, j - 1, r, slot);
    }
  }

  lemma SeenStep(s: State, a: Step, r: nat, slot: Slot)
    requires Enabled(s, a) && r in Next(s, a).readers && slot in Next(s, a).readers[r].seen
    requires Lookup(Next(s, a), Next(s, a).readers[r].coid) != slot
    ensures r in s.readers && slot in s.readers[r].seen && s.readers[r].coid == Next(s, a).readers[r].coid
  {
    assert forall c :: Lookup(Next(s, a), c) == Lookup(Effect(s, a), c);
  }

  /** Whatever the interleaving with add, remove and growth, a call answers what the table mapped
      the coid to at some instant between its begin and its end, or none if it was unmapped. */
  lemma Linearizable(states: seq<State>, steps: seq<Step>, i: nat, j: nat, r: nat)
    requires Run(states, steps) && i < j < |states| && r !in states[i].readers
    requires r in states[j].readers && (states[j].readers[r].phase.Result? || states[j].readers[r].phase.Left?)
    ensures exists k :: i < k <= j && r in states[k].readers
                        && Lookup(states[k], states[j].readers[r].coid) == states[j].readers[r].phase.slot
  {
    Reachable(states, steps, j);
    hide Run, Enabled, Next;
    assert ReaderOk(states[j], r);
    SeenIsHistory(states, steps, i, j, r, states[j].readers[r].phase.slot);
  }

  // ----- The lock sections are the sequential operations -----

  ghost function TableView(s: State): seq<Slot>
    requires s.table in s.blocks
  {
    seq(|s.blocks[s.table].slots|, i requires 0 <= i < |s.blocks[s.table].slots| => Deref(s, s.blocks[s.table].slots[i]))
  }

  /** Each write is the sequential operation on the slots, and every other step leaves them. */
  lemma AddRefines(s: State, o: nat, conn: Connection, i: nat)
    requires Inv(s) && Enabled(s, AddInPlace(o, conn, i))
    ensures i == Spec.FirstFree(TableView(s), 1)
    ensures TableView(Next(s, AddInPlace(o, conn, i))) == TableView(s)[i := Used(conn)]
  {
    hide ReaderOk, RemoverOk, LockOk;
    var slots, view := s.blocks[s.table].slots, TableView(s);
    forall j | 1 <= j < i
      ensures view[j].Used?
    {
      assert slots[j] == slots[..i][j];
    }
    assert view[i].Empty?;
  }

  lemma GrowRefines(s: State, b: nat)
    requires Inv(s) && Enabled(s, GrowPublish(b))
    ensures forall i :: 1 <= i < |TableView(s)| ==> TableView(s)[i].Used?
    ensures TableView(Next(s, GrowPublish(b))) == TableView(s) + seq(|TableView(s)|, _ => Empty)
  {
    hide ReaderOk, RemoverOk, LockOk;
  }

  lemma RemoveRefines(s: State, w: nat, coid: nat)
    requires Inv(s) && Enabled(s, RemoveUnlink(w, coid))
    ensures TableView(s)[coid].Used?
    ensures TableView(Next(s, RemoveUnlink(w, coid))) == TableView(s)[coid := Empty]
  {
    hide ReaderOk, RemoverOk, LockOk;
  }

  /** A writer that has the lock can always go on: add fills a slot in place if and only if one is
      free, and grows the table otherwise, and remove unlinks exactly what the table maps. */
  lemma WritersMove(s: State, o: nat, conn: Connection, b: nat, w: nat, coid: nat)
    requires Inv(s) && s.lock.Unlocked?
    requires o > 0 && o !in s.objects && b > 0 && b !in s.blocks && w > 0 && w !in s.removers
    ensures (exists i: nat :: Enabled(s, AddInPlace(o, conn, i))) <==> exists i :: 1 <= i < |TableView(s)| && TableView(s)[i].Empty?
    ensures Enabled(s, GrowPublish(b)) <==> forall i :: 1 <= i < |TableView(s)| ==> TableView(s)[i].Used?
    ensures Enabled(s, RemoveUnlink(w, coid)) <==> coid < |TableView(s)| && TableView(s)[coid].Used?
  {
    hide ReaderOk, RemoverOk, LockOk;
    var view, slots := TableView(s), s.blocks[s.table].slots;
    assert forall j :: 0 <= j < |slots| ==> (view[j].Used? <==> slots[j] != 0);
    if i: nat :| Enabled(s, AddInPlace(o, conn, i)) {
      assert view[i].Empty?;
    }
    if forall j :: 1 <= j < |view| ==> view[j].Used? {
      forall j | 1 <= j < |slots|
        ensures slots[j] != 0
      {
        assert view[j].Used?;
      }
    }
    if i :| 1 <= i < |view| && view[i].Empty? {
      var k := Spec.FirstFree(view, 1);
      assert k <= i;
      forall j | 1 <= j < k
        ensures slots[..k][j] != 0
      {
        assert view[j].Used?;
      }
      assert Enabled(s, AddInPlace(o, conn, k));
    }
  }

  lemma OthersKeep(s: State, a: Step)
    requires Inv(s) && Enabled(s, a) && !a.AddInPlace? && !a.GrowPublish? && !a.RemoveUnlink?
    ensures Next(s, a).table == s.table && Next(s, a).table in Next(s, a).blocks && TableView(Next(s, a)) == TableView(s)
  {
    hide ReaderOk, RemoverOk;
  }
}

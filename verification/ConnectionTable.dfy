/**
  The connection table of a process (kernel/connection_table.c): the lowest free slot is handed
  out, the table doubles when it is full, and `max` caches the highest slot in use.
 */
module ConnectionTable {
  import opened Connections
  import opened Errno

  const INITIAL_SIZE := 64

  // ----- The table as a value -----

  /** `slots` are the entries below the capacity. The array has one more entry, which growth
      writes to; `last` is that entry while `max` points at it and Empty otherwise. */
  datatype Table =
    | NoData
    | Data(max: int, slots: seq<Slot>, last: Slot)
  {
    function Capacity(): nat {
      if NoData? then 0 else |slots|
    }
  }

  /** The first free slot from index `i`, or the length of the sequence. */
  function FirstFree(slots: seq<Slot>, i: nat): (free: nat)
    requires i <= |slots|
    ensures i <= free <= |slots|
    ensures free < |slots| ==> slots[free] == Empty
    ensures forall j :: i <= j < free ==> slots[j].Used?
    decreases |slots| - i
  {
    if i == |slots| || slots[i].Empty? then i else FirstFree(slots, i + 1)
  }

  predicate HasFree(t: Table) {
    t.Data? && exists i :: 1 <= i < |t.slots| && t.slots[i] == Empty
  }

  function Max(a: int, b: int): int { if a > b then a else b }

  /** What the table is and what the caller is told after `qnx_connection_table_add`; `alloc`
      says whether the allocation of a bigger array succeeds. */
  function Add(t: Table, conn: Connection, limit: nat, alloc: bool): (Table, int) {
    if t.NoData? then
      (t, 0)
    else if 0 < |t.slots| && FirstFree(t.slots, 1) < |t.slots| then
      var i := FirstFree(t.slots, 1);
      (t.(slots := t.slots[i := Used(conn)], max := Max(t.max, i)), i)
    else if 2 * |t.slots| > limit then
      (t, EMFILE)
    else if !alloc then
      (t, ENOMEM)
    else
      var n := 2 * |t.slots|;
      (Data(n, t.slots + seq(|t.slots|, _ => Empty), Used(conn)), n)
  }

  /** The downward search for the next slot in use. Before slot 0 lies the field `max` itself,
      which is not zero then, so a search that finds no slot ends at -1. */
  function ScanDown(slots: seq<Slot>, k: int): (max: int)
    requires -1 <= k < |slots|
    ensures -1 <= max <= k
    ensures max >= 0 ==> slots[max].Used?
    ensures forall j :: max < j <= k ==> slots[j] == Empty
    decreases k + 1
  {
    if k == -1 || slots[k].Used? then k else ScanDown(slots, k - 1)
  }

  function Remove(t: Table, coid: int): (Table, int) {
    if t.NoData? || !(0 <= coid < |t.slots|) || t.slots[coid].Empty? then
      (t, EINVAL)
    else
      (t.(slots := t.slots[coid := Empty],
          max := if coid == t.max then ScanDown(t.slots, coid - 1) else t.max), 0)
  }

  function Lookup(t: Table, coid: int): Slot {
    if t.Data? && 0 <= coid < |t.slots| then t.slots[coid] else Empty
  }

  // ----- What every operation keeps -----

  function Pow2(k: nat): nat {
    if k == 0 then 1 else 2 * Pow2(k - 1)
  }

  /** `max` bounds the slots in use and names one of them whenever it is positive; slot 0 stays
      free; the capacity is 64 times a power of two within the limit. */
  ghost predicate Ok(t: Table, limit: nat) {
    t.Data? ==>
      && (exists k: nat :: |t.slots| == INITIAL_SIZE * Pow2(k))
      && 0 < |t.slots| <= limit
      && t.slots[0] == Empty
      && -1 <= t.max <= |t.slots|
      && (forall i :: 0 <= i < |t.slots| && t.slots[i].Used? ==> i <= t.max)
      && (0 < t.max < |t.slots| ==> t.slots[t.max].Used?)
      && (t.last.Used? <==> t.max == |t.slots|)
  }

  /** The connections a caller can reach, by coid. */
  ghost function View(t: Table): map<int, Connection> {
    if t.NoData? then map[]
    else map i | 0 <= i < |t.slots| && t.slots[i].Used? :: t.slots[i].conn
  }

  lemma AddOk(t: Table, conn: Connection, limit: nat, alloc: bool)
    requires Ok(t, limit)
    ensures Ok(Add(t, conn, limit, alloc).0, limit)
  {
    var t' := Add(t, conn, limit, alloc).0;
    if t.Data? && |t'.slots| != |t.slots| {
      var k: nat :| |t.slots| == INITIAL_SIZE * Pow2(k);
      assert |t'.slots| == INITIAL_SIZE * Pow2(k + 1);
    }
  }

  lemma RemoveOk(t: Table, coid: int, limit: nat)
    requires Ok(t, limit)
    ensures Ok(Remove(t, coid).0, limit)
  {
  }

  /** Setting the module parameter: what is no number, or would shrink the limit, is refused. */
  function SetLimit(limit: nat, parsed: bool, max: int): (nat, int) {
    if parsed && max > limit then (max, 0) else (limit, EINVAL)
  }

  /** No setting of the limit invalidates a table, and one is accepted exactly when it changes the
      limit. */
  lemma LimitGrows(t: Table, limit: nat, parsed: bool, max: int)
    requires Ok(t, limit)
    ensures Ok(t, SetLimit(limit, parsed, max).0)
    ensures SetLimit(limit, parsed, max).1 == 0 <==> SetLimit(limit, parsed, max).0 != limit
    ensures SetLimit(limit, parsed, max).0 >= limit
  {
  }

  // ----- The operations on the map of reachable connections -----

  /** With a free slot, add binds the least free coid from 1 and nothing else. */
  lemma AddBinds(t: Table, conn: Connection, limit: nat, alloc: bool)
    requires Ok(t, limit) && HasFree(t)
    ensures var (t', coid) := Add(t, conn, limit, alloc);
            && 1 <= coid < t.Capacity() && coid !in View(t)
            && (forall i :: 1 <= i < coid ==> i in View(t))
            && View(t') == View(t)[coid := conn]
            && t'.Capacity() == t.Capacity()
  {
    var i :| 1 <= i < |t.slots| && t.slots[i] == Empty;
    assert FirstFree(t.slots, 1) <= i;
  }

  /** Without one, nothing that can be reached changes. Growth doubles the capacity and keeps
      every coid; the new coid is the new capacity, where neither retrieve nor remove look. */
  lemma AddGrows(t: Table, conn: Connection, limit: nat, alloc: bool)
    requires Ok(t, limit) && !HasFree(t)
    ensures var (t', coid) := Add(t, conn, limit, alloc);
            && View(t') == View(t)
            && (coid > 0 <==> t.Data? && 2 * t.Capacity() <= limit && alloc)
            && (coid > 0 ==>
                  && t'.Capacity() == 2 * t.Capacity() == coid == t'.max
                  && Lookup(t', coid) == Empty && Remove(t', coid) == (t', EINVAL)
                  && (forall i :: 0 <= i < t.Capacity() ==> Lookup(t', i) == Lookup(t, i))
                  && (forall i :: t.Capacity() <= i < t'.Capacity() ==> Lookup(t', i) == Empty))
            && (coid <= 0 ==> t' == t)
  {
    assert View(Add(t, conn, limit, alloc).0) == View(t);
  }

  /** A coid that add returned leads to its connection if and only if there was a free slot
      before: the coid of a growing add is lost. */
  lemma AddUsable(t: Table, conn: Connection, limit: nat, alloc: bool)
    requires Ok(t, limit) && Add(t, conn, limit, alloc).1 > 0
    ensures Lookup(Add(t, conn, limit, alloc).0, Add(t, conn, limit, alloc).1) == Used(conn) <==> HasFree(t)
  {
    if HasFree(t) {
      AddBinds(t, conn, limit, alloc);
    } else {
      AddGrows(t, conn, limit, alloc);
    }
  }

  /** A full table of 64 slots: the 64th connection gets coid 128 and cannot be used. */
  lemma GrowthLosesConnection(conn: Connection)
    ensures var full := Data(63, [Empty] + seq(63, _ => Used(conn)), Empty);
            var (t', coid) := Add(full, conn, 256, true);
            Ok(full, 256) && coid == 128 && Lookup(t', coid) == Empty && Remove(t', coid).1 == EINVAL
  {
    var full := Data(63, [Empty] + seq(63, _ => Used(conn)), Empty);
    assert |full.slots| == INITIAL_SIZE * Pow2(0);
    AddGrows(full, conn, 256, true);
  }

  lemma RemoveUnbinds(t: Table, coid: int, limit: nat)
    requires Ok(t, limit)
    ensures Remove(t, coid).1 == 0 <==> coid in View(t)
    ensures View(Remove(t, coid).0) == View(t) - {coid}
    ensures Remove(t, coid).1 != 0 ==> Remove(t, coid).0 == t
  {
  }

  lemma LookupView(t: Table, coid: int)
    ensures coid in View(t) <==> Lookup(t, coid).Used?
    ensures coid in View(t) ==> View(t)[coid] == Lookup(t, coid).conn
  {
  }

  // ----- Whole runs against a finite map -----

  datatype Op =
    | AddOp(conn: Connection, alloc: bool)
    | RemoveOp(coid: int)
    | LookupOp(coid: int)
    | LimitOp(parsed: bool, max: int)

  datatype Reply = Code(rc: int) | Found(slot: Slot)

  /** A table and the limit that all tables share. */
  datatype Sys = Sys(t: Table, limit: nat)

  function Do(s: Sys, op: Op): (Sys, Reply) {
    match op
    case AddOp(conn, alloc) => var (t, rc) := Add(s.t, conn, s.limit, alloc); (s.(t := t), Code(rc))
    case RemoveOp(coid) => var (t, rc) := Remove(s.t, coid); (s.(t := t), Code(rc))
    case LookupOp(coid) => (s, Found(Lookup(s.t, coid)))
    case LimitOp(parsed, max) => var (limit, rc) := SetLimit(s.limit, parsed, max); (s.(limit := limit), Code(rc))
  }

  /** The reference: a finite map of coids, a capacity and a limit, without slots, `max` or searches. */
  datatype Ref = Ref(m: map<int, Connection>, capacity: nat, limit: nat)

  ghost predicate IsLeastFree(m: map<int, Connection>, n: int) {
    n >= 1 && n !in m && forall i :: 1 <= i < n ==> i in m
  }

  /** Whether the reference may answer `op` with `reply` and become `r'`. */
  ghost predicate RefStep(r: Ref, op: Op, r': Ref, reply: Reply) {
    match op
    case AddOp(conn, alloc) =>
      if r.capacity == 0 then
        r' == r && reply == Code(0)
      else if exists n :: IsLeastFree(r.m, n) && n < r.capacity then
        exists n :: IsLeastFree(r.m, n) && n < r.capacity && r' == r.(m := r.m[n := conn]) && reply == Code(n)
      else if 2 * r.capacity > r.limit then
        r' == r && reply == Code(EMFILE)
      else if !alloc then
        r' == r && reply == Code(ENOMEM)
      else
        r' == r.(capacity := 2 * r.capacity) && reply == Code(2 * r.capacity)
    case RemoveOp(coid) =>
      if coid in r.m then r' == r.(m := r.m - {coid}) && reply == Code(0)
      else r' == r && reply == Code(EINVAL)
    case LookupOp(coid) =>
      r' == r && reply == Found(if coid in r.m then Used(r.m[coid]) else Empty)
    case LimitOp(parsed, max) =>
      if parsed && max > r.limit then r' == r.(limit := max) && reply == Code(0)
      else r' == r && reply == Code(EINVAL)
  }

  ghost function Abs(s: Sys): Ref {
    Ref(View(s.t), s.t.Capacity(), s.limit)
  }

  lemma LeastFreeIsFree(t: Table, n: int)
    requires t.Data? && IsLeastFree(View(t), n)
    ensures n < t.Capacity() ==> HasFree(t)
  {
    if n < t.Capacity() {
      assert t.slots[n] == Empty;
    }
  }

  lemma AddStep(s: Sys, conn: Connection, alloc: bool)
    requires Ok(s.t, s.limit)
    ensures RefStep(Abs(s), AddOp(conn, alloc), Abs(Do(s, AddOp(conn, alloc)).0), Do(s, AddOp(conn, alloc)).1)
  {
    var t := s.t;
    if HasFree(t) {
      AddBinds(t, conn, s.limit, alloc);
      assert IsLeastFree(View(t), Add(t, conn, s.limit, alloc).1);
    } else {
      AddGrows(t, conn, s.limit, alloc);
      forall n | t.Data? && IsLeastFree(View(t), n)
        ensures n >= t.Capacity()
      {
        LeastFreeIsFree(t, n);
      }
    }
  }

  lemma StepRefines(s: Sys, op: Op)
    requires Ok(s.t, s.limit)
    ensures RefStep(Abs(s), op, Abs(Do(s, op).0), Do(s, op).1)
    ensures Ok(Do(s, op).0.t, Do(s, op).0.limit)
  {
    match op
    case AddOp(conn, alloc) =>
      AddStep(s, conn, alloc);
      AddOk(s.t, conn, s.limit, alloc);
    case RemoveOp(coid) =>
      RemoveOk(s.t, coid, s.limit);
      RemoveUnbinds(s.t, coid, s.limit);
    case LookupOp(coid) =>
      LookupView(s.t, coid);
    case LimitOp(parsed, max) =>
      LimitGrows(s.t, s.limit, parsed, max);
  }

  function Final(s: Sys, ops: seq<Op>): Sys {
    if ops == [] then s else Do(Final(s, ops[..|ops| - 1]), ops[|ops| - 1]).0
  }

  /** After any operations the table is sound and has answered the last one like the finite
      map. */
  lemma {:induction false} RunRefines(s: Sys, ops: seq<Op>)
    requires Ok(s.t, s.limit)
    ensures Ok(Final(s, ops).t, Final(s, ops).limit)
    ensures ops != [] ==>
              var before := Final(s, ops[..|ops| - 1]);
              RefStep(Abs(before), ops[|ops| - 1], Abs(Final(s, ops)), Do(before, ops[|ops| - 1]).1)
  {
    if ops != [] {
      RunRefines(s, ops[..|ops| - 1]);
      StepRefines(Final(s, ops[..|ops| - 1]), ops[|ops| - 1]);
    }
  }
}

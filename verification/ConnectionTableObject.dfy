/** The connection table as the driver keeps it: an object that owns an array and replaces it
    when it grows. */
module ConnectionTableObject {
  import opened Connections
  import opened Errno
  import Spec = ConnectionTable

  class TableData {
    const capacity: nat
    var max: int
    const conn: array<Slot>

    /** `kmalloc`: room for one slot more than the capacity, all of it uninitialised. */
    constructor (capacity: nat)
      ensures this.capacity == capacity && conn.Length == capacity + 1 && fresh(conn)
    {
      this.capacity := capacity;
      this.conn := new Slot[capacity + 1];
    }
  }

  class ConnectionTable {
    var data: TableData?

    ghost predicate Valid()
      reads this, data, if data == null then {} else {data.conn}
    {
      data != null ==> data.conn.Length == data.capacity + 1
    }

    /** The table as a value. */
    ghost function State(): Spec.Table
      reads this, data, if data == null then {} else {data.conn}
      requires Valid()
    {
      if data == null then Spec.NoData
      else Spec.Data(data.max, data.conn[..data.capacity], if data.max == data.capacity then data.conn[data.capacity] else Empty)
    }

    ghost function Repr(): set<object>
      reads this, data
    {
      {this} + (if data == null then {} else {data, data.conn})
    }

    function GetCapacity(): nat
      reads this, data
    {
      if data == null then 0 else data.capacity
    }

    function GetMax(): int
      reads this, data
    {
      if data == null then 0 else data.max
    }

    /** `qnx_connection_table_init`. */
    constructor (limit: nat, alloc: bool)
      requires limit >= Spec.INITIAL_SIZE
      ensures Valid() && fresh(Repr())
      ensures State() == if alloc then Spec.Data(0, seq(Spec.INITIAL_SIZE, _ => Empty), Empty) else Spec.NoData
      ensures Spec.Ok(State(), limit)
    {
      data := null;
      new;
      var rc := Reserve(Spec.INITIAL_SIZE, limit, alloc);
      assert Spec.INITIAL_SIZE == Spec.INITIAL_SIZE * Spec.Pow2(0);
      if alloc {
        assert State().slots == seq(Spec.INITIAL_SIZE, _ => Empty);
      }
    }

    /** `qnx_connection_table_reserve_unlocked`: answers the old capacity, and has replaced the
        array if that was too small. `max` of the new array is reset. */
    method Reserve(newsize: nat, limit: nat, alloc: bool) returns (rc: int)
      requires Valid()
      modifies this
      ensures Valid()
      ensures rc == if newsize > limit then EMFILE
                    else if newsize <= old(GetCapacity()) then old(GetCapacity())
                    else if !alloc then ENOMEM else old(GetCapacity())
      ensures newsize > limit || newsize <= old(GetCapacity()) || !alloc ==> data == old(data)
      ensures newsize <= limit && newsize > old(GetCapacity()) && alloc ==>
                && fresh(data) && fresh(data.conn) && data.capacity == newsize && data.max == 0
                && data.conn[..newsize] == (if old(data) == null then [] else old(data.conn[..data.capacity]))
                                           + seq(newsize - old(GetCapacity()), _ => Empty)
    {
      var oldsize := GetCapacity();
      if newsize > limit {
        return EMFILE;
      }
      if newsize <= oldsize {
        return oldsize;
      }
      var old_ := data;
      if !alloc {
        return ENOMEM;
      }
      var new_ := new TableData(newsize);
      if oldsize > 0 {
        forall i | 0 <= i < oldsize {
          new_.conn[i] := old_.conn[i];
        }
      }
      forall i | oldsize <= i < newsize {
        new_.conn[i] := Empty;
      }
      new_.max := 0;
      data := new_;
      assert data.conn[..oldsize] == if old(data) == null then [] else old(data.conn[..data.capacity]);
      assert data.conn[oldsize..newsize] == seq(newsize - oldsize, _ => Empty);
      assert data.conn[..newsize] == data.conn[..oldsize] + data.conn[oldsize..newsize];
      return oldsize;
    }

    /** `qnx_connection_table_add`. */
    method Add(conn: Connection, limit: nat, alloc: bool) returns (rc: int)
      requires Valid() && Spec.Ok(State(), limit)
      modifies Repr()
      ensures Valid() && fresh(Repr() - old(Repr()))
      ensures (State(), rc) == Spec.Add(old(State()), conn, limit, alloc)
    {
      rc := 0;
      ghost var before := State();
      var i := 1;
      while i < GetCapacity() && rc == 0
        invariant 1 <= i && (data != null ==> i <= data.capacity)
        invariant Valid() && data == old(data) && unchanged(this)
        invariant rc == 0 ==> State() == before && unchanged(Repr())
        invariant data != null && rc == 0 ==> Spec.FirstFree(before.slots, i) == Spec.FirstFree(before.slots, 1)
        invariant rc != 0 ==>
                    && data != null && rc == Spec.FirstFree(before.slots, 1) < data.capacity && data.max == before.max
                    && data.conn[..data.capacity] == before.slots[rc := Used(conn)]
                    && data.conn[data.capacity] == old(data.conn[data.capacity])
        decreases GetCapacity() - i, rc == 0
      {
        if data.conn[i].Empty? {
          data.conn[i] := Used(conn);
          rc := i;
        } else {
          i := i + 1;
        }
      }
      if rc == 0 {
        rc := Reserve(GetCapacity() * 2, limit, alloc);
        if rc > 0 {
          data.conn[data.capacity] := Used(conn);
          rc := data.capacity;
        }
      }
      if rc > GetMax() {
        data.max := rc;
      }
    }

    /** `qnx_connection_table_remove`. */
    method Remove(coid: int, ghost limit: nat) returns (rc: int)
      requires Valid() && Spec.Ok(State(), limit)
      modifies if data == null then {} else {data, data.conn}
      ensures Valid() && data == old(data)
      ensures (State(), rc) == Spec.Remove(old(State()), coid)
    {
      rc := EINVAL;
      ghost var before := State();
      if 0 <= coid < GetCapacity() {
        if data.conn[coid].Used? {
          if coid == data.max {
            var max := coid - 1;
            while max >= 0 && data.conn[max].Empty?
              invariant -1 <= max < coid && unchanged(data) && unchanged(data.conn)
              invariant Spec.ScanDown(before.slots, max) == Spec.ScanDown(before.slots, coid - 1)
            {
              max := max - 1;
            }
            data.max := max;
          }
          data.conn[coid] := Empty;
          rc := 0;
        }
      }
    }

    /** `qnx_connection_table_retrieve`. */
    method Retrieve(coid: int) returns (conn: Connection)
      requires Valid()
      ensures conn == match Spec.Lookup(State(), coid) case Used(c) => c case Empty => NO_CONNECTION
    {
      conn := NO_CONNECTION;
      if data != null && 0 <= coid < data.capacity && data.conn[coid].Used? {
        conn := data.conn[coid].conn;
      }
    }

    /** `qnx_connection_table_is_empty` sees connections exactly when there is one, reachable or
        lost by growth. */
    method IsEmpty(ghost limit: nat) returns (empty: bool)
      requires Valid() && Spec.Ok(State(), limit)
      ensures empty <==> Spec.View(State()) == map[] && (data != null ==> State().last == Empty)
    {
      empty := true;
      if data != null && data.max > 0 {
        empty := false;
        assert data.max < data.capacity ==> data.max in Spec.View(State());
      }
    }

    /** `qnx_connection_table_for_each` visits every connection once, in ascending order of coid,
        the one that growth lost last, and answers how many there are. */
    method ForEach(ghost limit: nat) returns (cnt: nat, visited: seq<(int, Connection)>)
      requires Valid() && Spec.Ok(State(), limit)
      ensures cnt == |visited|
      ensures forall i, j :: 0 <= i < j < |visited| ==> visited[i].0 < visited[j].0
      ensures forall coid, c :: (coid, c) in visited <==>
                Spec.Lookup(State(), coid) == Used(c) || (data != null && coid == data.capacity && State().last == Used(c))
    {
      cnt, visited := 0, [];
      if data != null {
        var i := 0;
        while i <= data.max
          invariant 0 <= i && (data.max >= 0 ==> i <= data.max + 1) && (data.max < 0 ==> i == 0)
          invariant cnt == |visited|
          invariant forall k :: 0 <= k < |visited| ==> 0 <= visited[k].0 < i && data.conn[visited[k].0] == Used(visited[k].1)
          invariant forall k, j :: 0 <= k < j < |visited| ==> visited[k].0 < visited[j].0
          invariant forall k :: 0 <= k < i && data.conn[k].Used? ==> (k, data.conn[k].conn) in visited
        {
          if data.conn[i].Used? {
            visited := visited + [(i, data.conn[i].conn)];
            cnt := cnt + 1;
          }
          i := i + 1;
        }
      }
    }

    /** `qnx_connection_table_destroy` frees every connection but the one `max` names, each once. */
    method Destroy(ghost limit: nat) returns (freed: seq<int>)
      requires Valid() && Spec.Ok(State(), limit)
      ensures forall i :: i in freed <==> i in Spec.View(State()) && i != GetMax()
      ensures forall j, k :: 0 <= j < k < |freed| ==> freed[j] < freed[k]
    {
      freed := [];
      var i := 0;
      while i < GetMax()
        invariant 0 <= i && (GetMax() >= 0 ==> i <= GetMax())
        invariant forall k :: 0 <= k < |freed| ==> freed[k] < i
        invariant forall j, k :: 0 <= j < k < |freed| ==> freed[j] < freed[k]
        invariant forall k :: k in freed <==> 0 <= k < i && data != null && k < data.capacity && data.conn[k].Used?
      {
        if data.conn[i].Used? {
          freed := freed + [i];
        }
        i := i + 1;
      }
    }
  }
}

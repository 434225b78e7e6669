/** The gather and scatter loops over user segments (kernel/compatibility.h). */
module Iovec {
  import opened Errno

  type byte = bv8

  /** A segment of user memory. */
  datatype Iov = Iov(base: nat, len: nat)

  function Min(a: nat, b: nat): nat { if a < b then a else b }

  /** `iov_length`. */
  function Total(iovs: seq<Iov>): nat {
    if iovs == [] then 0 else iovs[0].len + Total(iovs[1..])
  }

  /** The user may access these addresses: `copy_from_user` and `copy_to_user` succeed, as they do for no
      bytes from anywhere. */
  predicate Mapped(size: nat, base: nat, len: nat) {
    len == 0 || base + len <= size
  }

  /** The bytes at these addresses. */
  function Slice(mem: seq<byte>, base: nat, len: nat): (data: seq<byte>)
    requires Mapped(|mem|, base, len)
    ensures |data| == len
  {
    if len == 0 then [] else mem[base..base + len]
  }

  // ----- What the loops do, one segment at a time -----

  /** The first `len` bytes of the segments can be accessed. */
  predicate Reachable(size: nat, iovs: seq<Iov>, len: nat) {
    len == 0 || (iovs != [] &&
                 var n := Min(iovs[0].len, len);
                 Mapped(size, iovs[0].base, n) && Reachable(size, iovs[1..], len - n))
  }

  function Gather(mem: seq<byte>, iovs: seq<Iov>, len: nat): (data: seq<byte>)
    requires Reachable(|mem|, iovs, len)
    ensures |data| == len
  {
    if len == 0 then []
    else
      var n := Min(iovs[0].len, len);
      Slice(mem, iovs[0].base, n) + Gather(mem, iovs[1..], len - n)
  }

  function Write(mem: seq<byte>, base: nat, data: seq<byte>): (mem': seq<byte>)
    requires Mapped(|mem|, base, |data|)
    ensures |mem'| == |mem|
  {
    if data == [] then mem else mem[..base] + data + mem[base + |data|..]
  }

  function Scatter(mem: seq<byte>, iovs: seq<Iov>, data: seq<byte>): (mem': seq<byte>)
    requires Reachable(|mem|, iovs, |data|)
    ensures |mem'| == |mem|
    decreases |iovs|
  {
    if data == [] then mem
    else
      var n := Min(iovs[0].len, |data|);
      Scatter(Write(mem, iovs[0].base, data[..n]), iovs[1..], data[n..])
  }

  /** The segments after `len` bytes were moved. */
  function Advance(iovs: seq<Iov>, len: nat): (rest: seq<Iov>)
    ensures |rest| == |iovs|
  {
    if iovs == [] then []
    else
      var n := Min(iovs[0].len, len);
      [Iov(iovs[0].base + n, iovs[0].len - n)] + Advance(iovs[1..], len - n)
  }

  // ----- The loops -----

  /** One round of either loop. */
  lemma Round(size: nat, iovs: seq<Iov>, len: nat)
    requires iovs != [] && len > 0
    ensures var n := Min(iovs[0].len, len);
            && (Reachable(size, iovs, len) <==> Mapped(size, iovs[0].base, n) && Reachable(size, iovs[1..], len - n))
            && Advance(iovs, len) == [Iov(iovs[0].base + n, iovs[0].len - n)] + Advance(iovs[1..], len - n)
            && Total(iovs) == iovs[0].len + Total(iovs[1..])
  {
  }

  lemma GatherRound(mem: seq<byte>, iovs: seq<Iov>, len: nat)
    requires iovs != [] && len > 0 && Reachable(|mem|, iovs, len)
    ensures var n := Min(iovs[0].len, len);
            Gather(mem, iovs, len) == Slice(mem, iovs[0].base, n) + Gather(mem, iovs[1..], len - n)
  {
  }

  lemma ScatterRound(mem: seq<byte>, iovs: seq<Iov>, data: seq<byte>)
    requires iovs != [] && data != [] && Reachable(|mem|, iovs, |data|)
    ensures var n := Min(iovs[0].len, |data|);
            Scatter(mem, iovs, data)
            == Scatter(Write(mem, iovs[0].base, data[..n]), iovs[1..], data[n..])
  {
  }

  lemma {:induction false} AdvanceZero(iovs: seq<Iov>)
    ensures Advance(iovs, 0) == iovs
  {
    if iovs != [] {
      AdvanceZero(iovs[1..]);
    }
  }

  lemma End(mem: seq<byte>, iovs: seq<Iov>)
    ensures Advance(iovs, 0) == iovs && Reachable(|mem|, iovs, 0)
    ensures Gather(mem, iovs, 0) == [] && Scatter(mem, iovs, []) == mem
  {
    AdvanceZero(iovs);
  }

  lemma WriteNothing(mem: seq<byte>, base: nat, data: seq<byte>)
    requires Mapped(|mem|, base, |data|)
    ensures data == [] ==> Write(mem, base, data) == mem
  {
  }

  /** `copy_from_user` or `copy_to_user` between accessible addresses. */
  method Copy(to: array<byte>, k: nat, from: array<byte>, base: nat, len: nat)
    requires to != from && Mapped(to.Length, k, len) && Mapped(from.Length, base, len)
    modifies to
    ensures to[..] == Write(old(to[..]), k, Slice(from[..], base, len))
    ensures k + len <= to.Length ==> to[..k + len] == old(to[..k]) + Slice(from[..], base, len)
    ensures forall j :: k + len <= j < to.Length ==> to[j] == old(to[j])
  {
    if len == 0 {
      return;
    }
    forall j | k <= j < k + len {
      to[j] := from[base + (j - k)];
    }
    ghost var was, data := old(to[..]), from[base..base + len];
    assert to[k..k + len] == data;
    assert to[..k + len] == was[..k] + data;
    assert to[k + len..] == was[k + len..];
    assert to[..] == to[..k + len] + to[k + len..];
  }

  lemma NoTotal()
    ensures Total([]) == 0
  {
  }

  /** How far `memcpy_fromiovec` has come: `front` are the segments behind it, `got` the bytes. */
  ghost predicate Gathering(mem: seq<byte>, iovs: seq<Iov>, len: nat, front: seq<Iov>, todo: seq<Iov>, got: seq<byte>, left: nat) {
    && left <= Total(todo) && |got| + left == len
    && (Reachable(|mem|, iovs, len) <==> Reachable(|mem|, todo, left))
    && (Reachable(|mem|, iovs, len) ==> Gather(mem, iovs, len) == got + Gather(mem, todo, left))
    && Advance(iovs, len) == front + Advance(todo, left)
  }

  lemma {:induction false} GatheringRound(mem: seq<byte>, iovs: seq<Iov>, len: nat, front: seq<Iov>, todo: seq<Iov>, got: seq<byte>, left: nat)
    requires Gathering(mem, iovs, len, front, todo, got, left) && left > 0
    ensures todo != []
    ensures var v, n := todo[0], Min(todo[0].len, left);
            if Mapped(|mem|, v.base, n) then
              Gathering(mem, iovs, len, front + [Iov(v.base + n, v.len - n)], todo[1..], got + Slice(mem, v.base, n), left - n)
            else
              !Reachable(|mem|, iovs, len)
  {
    hide Gather, Reachable, Advance, Total;
    NoTotal();
    Round(|mem|, todo, left);
    if Reachable(|mem|, iovs, len) {
      GatherRound(mem, todo, left);
    }
  }

  /** `memcpy_fromiovec`: never goes past the last segment, moves exactly the first `len` bytes,
      empty segments included, and advances the segments over them. */
  method MemcpyFromIovec(kdata: array<byte>, iov: array<Iov>, user: array<byte>, len: nat) returns (rc: int)
    requires kdata != user && iov as object != kdata && iov as object != user
    requires len <= kdata.Length && len <= Total(iov[..])
    modifies kdata, iov
    ensures rc == if Reachable(user.Length, old(iov[..]), len) then 0 else EFAULT
    ensures rc == 0 <==> Accessible(user.Length, old(iov[..]), len)
    ensures rc == 0 ==> kdata[..len] == Gather(user[..], old(iov[..]), len)
    ensures rc == 0 ==> iov[..] == Advance(old(iov[..]), len)
    ensures kdata[len..] == old(kdata[len..])
  {
    hide Gathering, Gather, Reachable, Accessible, Addresses, Advance, Total, Slice, Write;
    ghost var iovs, mem := iov[..], user[..];
    var i: nat, left: nat, k: nat := 0, len, 0;
    ReachableByAddress(|mem|, iovs, len);
    GatheringBegins(mem, iovs, len);
    while left > 0
      invariant i <= iov.Length && k + left == len
      invariant forall j :: len <= j < kdata.Length ==> kdata[j] == old(kdata[j])
      invariant Gathering(mem, iovs, len, iov[..i], iov[i..], kdata[..k], left)
      decreases iov.Length - i
    {
      GatheringRound(mem, iovs, len, iov[..i], iov[i..], kdata[..k], left);
      var seg, copy := iov[i], Min(left, iov[i].len);
      ghost var front, todo, got := iov[..i], iov[i..], kdata[..k];
      if seg.len != 0 {
        if !Mapped(user.Length, seg.base, copy) {
          return EFAULT;
        }
        Copy(kdata, k, user, seg.base, copy);
        left := left - copy;
        k := k + copy;
        iov[i] := Iov(seg.base + copy, seg.len - copy);
      }
      assert kdata[..k] == got + Slice(mem, seg.base, copy);
      assert iov[..i + 1] == front + [Iov(seg.base + copy, seg.len - copy)];
      assert iov[i + 1..] == todo[1..];
      i := i + 1;
    }
    GatheringEnds(mem, iovs, len, iov[..i], iov[i..], kdata[..k]);
    assert iov[..] == iov[..i] + iov[i..];
    return 0;
  }

  lemma GatheringBegins(mem: seq<byte>, iovs: seq<Iov>, len: nat)
    requires len <= Total(iovs)
    ensures Gathering(mem, iovs, len, [], iovs, [], len)
  {
    hide Gather, Reachable, Advance, Total;
  }

  lemma GatheringEnds(mem: seq<byte>, iovs: seq<Iov>, len: nat, front: seq<Iov>, todo: seq<Iov>, got: seq<byte>)
    requires Gathering(mem, iovs, len, front, todo, got, 0)
    ensures Reachable(|mem|, iovs, len) && Gather(mem, iovs, len) == got && Advance(iovs, len) == front + todo
  {
    End(mem, todo);
  }

  lemma {:induction false} ScatterCons(mem: seq<byte>, iovs: seq<Iov>, data: seq<byte>)
    requires iovs != [] && data != [] && Reachable(|mem|, iovs, |data|)
    ensures var v, n := iovs[0], Min(iovs[0].len, |data|);
      && Mapped(|mem|, v.base, n) && Reachable(|mem|, iovs[1..], |data| - n)
      && Scatter(mem, iovs, data) == Scatter(Write(mem, v.base, data[..n]), iovs[1..], data[n..])
  {
    hide Scatter, Write;
    Round(|mem|, iovs, |data|);
    ScatterRound(mem, iovs, data);
    hide Reachable;
  }

  /** How far `memcpy_toiovec` has come; `now` is the memory. */
  ghost predicate Scattering(mem: seq<byte>, iovs: seq<Iov>, data: seq<byte>, now: seq<byte>, front: seq<Iov>, todo: seq<Iov>, rest: seq<byte>) {
    && |rest| <= Total(todo) && |now| == |mem|
    && (Reachable(|mem|, iovs, |data|) <==> Reachable(|mem|, todo, |rest|))
    && (Reachable(|mem|, iovs, |data|) ==> Scatter(mem, iovs, data) == Scatter(now, todo, rest))
    && Advance(iovs, |data|) == front + Advance(todo, |rest|)
  }

  lemma {:induction false} ScatteringRound(mem: seq<byte>, iovs: seq<Iov>, data: seq<byte>, now: seq<byte>, front: seq<Iov>,
                                           todo: seq<Iov>, rest: seq<byte>)
    requires Scattering(mem, iovs, data, now, front, todo, rest) && rest != []
    ensures todo != []
    ensures var v, n := todo[0], Min(todo[0].len, |rest|);
            if Mapped(|mem|, v.base, n) then
              Scattering(mem, iovs, data, Write(now, v.base, rest[..n]), front + [Iov(v.base + n, v.len - n)], todo[1..], rest[n..])
            else
              !Reachable(|mem|, iovs, |data|)
  {
    hide Scatter, Reachable, Advance, Total, Write;
    NoTotal();
    Round(|mem|, todo, |rest|);
    if Reachable(|mem|, iovs, |data|) {
      ScatterCons(now, todo, rest);
    }
  }

  /** `memcpy_toiovec`. */
  method MemcpyToIovec(iov: array<Iov>, user: array<byte>, kdata: array<byte>, len: nat) returns (rc: int)
    requires kdata != user && iov as object != kdata && iov as object != user
    requires len <= kdata.Length && len <= Total(iov[..])
    modifies user, iov
    ensures rc == if Reachable(user.Length, old(iov[..]), len) then 0 else EFAULT
    ensures rc == 0 <==> Accessible(user.Length, old(iov[..]), len)
    ensures rc == 0 ==> user[..] == Scatter(old(user[..]), old(iov[..]), kdata[..len])
    ensures rc == 0 ==> iov[..] == Advance(old(iov[..]), len)
  {
    hide Scattering, Scatter, Reachable, Accessible, Addresses, Advance, Total, Write;
    ghost var iovs, mem, data := iov[..], user[..], kdata[..len];
    var i: nat, left: nat, k: nat := 0, len, 0;
    ReachableByAddress(|mem|, iovs, len);
    ScatteringBegins(mem, iovs, data);
    assert data == kdata[0..len];
    while left > 0
      invariant i <= iov.Length && k + left == len && kdata[..len] == data
      invariant Scattering(mem, iovs, data, user[..], iov[..i], iov[i..], kdata[k..len])
      decreases iov.Length - i
    {
      ghost var now, front, todo, rest := user[..], iov[..i], iov[i..], kdata[k..len];
      ScatteringRound(mem, iovs, data, now, front, todo, rest);
      var seg, copy := iov[i], Min(iov[i].len, left);
      if seg.len != 0 {
        if !Mapped(user.Length, seg.base, copy) {
          return EFAULT;
        }
        Copy(user, seg.base, kdata, k, copy);
        left := left - copy;
        assert rest[..copy] == Slice(kdata[..], k, copy);
        k := k + copy;
        iov[i] := Iov(seg.base + copy, seg.len - copy);
      }
      WriteNothing(now, seg.base, rest[..copy]);
      assert user[..] == Write(now, seg.base, rest[..copy]);
      assert kdata[k..len] == rest[copy..];
      assert iov[..i + 1] == front + [Iov(seg.base + copy, seg.len - copy)];
      assert iov[i + 1..] == todo[1..];
      i := i + 1;
    }
    assert kdata[k..len] == [];
    ScatteringEnds(mem, iovs, data, user[..], iov[..i], iov[i..]);
    assert iov[..] == iov[..i] + iov[i..];
    return 0;
  }

  lemma ScatteringBegins(mem: seq<byte>, iovs: seq<Iov>, data: seq<byte>)
    requires |data| <= Total(iovs)
    ensures Scattering(mem, iovs, data, mem, [], iovs, data)
  {
    hide Scatter, Reachable, Advance, Total;
  }

  lemma ScatteringEnds(mem: seq<byte>, iovs: seq<Iov>, data: seq<byte>, now: seq<byte>, front: seq<Iov>, todo: seq<Iov>)
    requires Scattering(mem, iovs, data, now, front, todo, [])
    ensures Reachable(|mem|, iovs, |data|) && Scatter(mem, iovs, data) == now && Advance(iovs, |data|) == front + todo
  {
    End(now, todo);
  }

  // ----- What the loops mean -----

  /** All segments, whole, one after the other. */
  ghost predicate AllMapped(size: nat, iovs: seq<Iov>) {
    forall v :: v in iovs ==> Mapped(size, v.base, v.len)
  }

  ghost function Flat(mem: seq<byte>, iovs: seq<Iov>): (data: seq<byte>)
    requires AllMapped(|mem|, iovs)
    ensures |data| == Total(iovs)
  {
    if iovs == [] then [] else Slice(mem, iovs[0].base, iovs[0].len) + Flat(mem, iovs[1..])
  }

  /** Cutting a concatenation at `len`, which lies in or after the first part. */
  lemma CutConcat<T>(a: seq<T>, b: seq<T>, len: nat)
    requires len <= |a| + |b|
    ensures var n := Min(|a|, len);
            (a + b)[..len] == a[..n] + b[..len - n] && (a + b)[len..] == a[n..] + b[len - n..]
  {
    if len <= |a| {
      assert (a + b)[..len] == a[..len] && b[..0] == [];
      assert (a + b)[len..] == a[len..] + b && b[0..] == b;
    } else {
      var k := len - |a|;
      assert a[..|a|] == a && a[|a|..] == [];
      assert (a + b)[..len] == a + b[..k];
      assert (a + b)[len..] == b[k..];
    }
  }

  lemma First(size: nat, iovs: seq<Iov>)
    requires iovs != [] && AllMapped(size, iovs)
    ensures Mapped(size, iovs[0].base, iovs[0].len) && AllMapped(size, iovs[1..])
    ensures Total(iovs) == iovs[0].len + Total(iovs[1..])
  {
    assert iovs[0] in iovs;
  }

  lemma {:induction false} FlatCons(mem: seq<byte>, v: Iov, rest: seq<Iov>)
    requires AllMapped(|mem|, rest) && Mapped(|mem|, v.base, v.len)
    ensures AllMapped(|mem|, [v] + rest) && Total([v] + rest) == v.len + Total(rest)
    ensures Flat(mem, [v] + rest) == Slice(mem, v.base, v.len) + Flat(mem, rest)
  {
    assert ([v] + rest)[1..] == rest;
  }

  lemma GatherNothing(mem: seq<byte>, iovs: seq<Iov>)
    requires AllMapped(|mem|, iovs)
    ensures Reachable(|mem|, iovs, 0) && Gather(mem, iovs, 0) == Flat(mem, iovs)[..0]
  {
  }

  // ----- Address by address -----

  /** All addresses the segments name, in order. */
  ghost function Addresses(iovs: seq<Iov>): (addrs: seq<nat>)
    ensures |addrs| == Total(iovs)
  {
    if iovs == [] then [] else seq(iovs[0].len, k requires 0 <= k => iovs[0].base + k) + Addresses(iovs[1..])
  }

  /** The user may access the first `len` addresses of the segments. */
  ghost predicate Accessible(size: nat, iovs: seq<Iov>, len: nat)
    requires len <= Total(iovs)
  {
    forall k :: 0 <= k < len ==> Addresses(iovs)[k] < size
  }

  lemma AddressesRound(iovs: seq<Iov>, k: nat)
    requires iovs != [] && k < Total(iovs)
    ensures Total(iovs) == iovs[0].len + Total(iovs[1..])
    ensures Addresses(iovs)[k] == if k < iovs[0].len then iovs[0].base + k else Addresses(iovs[1..])[k - iovs[0].len]
  {
  }

  lemma AccessibleFirst(size: nat, iovs: seq<Iov>, len: nat)
    requires iovs != [] && len <= Total(iovs) && Accessible(size, iovs, len)
    ensures var n := Min(iovs[0].len, len);
            len - n <= Total(iovs[1..]) && Mapped(size, iovs[0].base, n) && Accessible(size, iovs[1..], len - n)
  {
    hide Addresses, Total;
    var v, others, n := iovs[0], iovs[1..], Min(iovs[0].len, len);
    if len > 0 {
      AddressesRound(iovs, len - 1);
    } else {
      assert n == 0;
    }
    if n > 0 {
      AddressesRound(iovs, n - 1);
      assert Addresses(iovs)[n - 1] < size;
    }
    forall k | 0 <= k < len - n
      ensures Addresses(others)[k] < size
    {
      AddressesRound(iovs, v.len + k);
      assert Addresses(iovs)[v.len + k] < size;
    }
  }

  lemma AccessibleAll(size: nat, iovs: seq<Iov>, len: nat)
    requires iovs != [] && len <= Total(iovs) && len - Min(iovs[0].len, len) <= Total(iovs[1..])
    requires Mapped(size, iovs[0].base, Min(iovs[0].len, len)) && Accessible(size, iovs[1..], len - Min(iovs[0].len, len))
    ensures Accessible(size, iovs, len)
  {
    hide Addresses, Total;
    forall k | 0 <= k < len
      ensures Addresses(iovs)[k] < size
    {
      AddressesRound(iovs, k);
      if k >= iovs[0].len {
        assert Addresses(iovs[1..])[k - iovs[0].len] < size;
      }
    }
  }

  /** The loops succeed exactly when each address they need is accessible, whatever lies behind the
      last byte. */
  lemma {:induction false} ReachableByAddress(size: nat, iovs: seq<Iov>, len: nat)
    requires len <= Total(iovs)
    ensures Reachable(size, iovs, len) <==> Accessible(size, iovs, len)
    decreases |iovs|
  {
    if len > 0 {
      NoTotal();
      hide Reachable, Accessible, Total;
      Round(size, iovs, len);
      ReachableByAddress(size, iovs[1..], len - Min(iovs[0].len, len));
      if Accessible(size, iovs, len) {
        AccessibleFirst(size, iovs, len);
      } else if Reachable(size, iovs, len) {
        AccessibleAll(size, iovs, len);
      }
    }
  }

  /** And the bytes gathered are those at these addresses. */
  lemma {:induction false} GatherByAddress(mem: seq<byte>, iovs: seq<Iov>, len: nat, k: nat)
    requires k < len <= Total(iovs) && Reachable(|mem|, iovs, len)
    ensures Addresses(iovs)[k] < |mem| && Gather(mem, iovs, len)[k] == mem[Addresses(iovs)[k]]
    decreases |iovs|
  {
    NoTotal();
    hide Reachable, Gather, Addresses, Total;
    var n := Min(iovs[0].len, len);
    Round(|mem|, iovs, len);
    GatherRound(mem, iovs, len);
    AddressesRound(iovs, k);
    if k >= n {
      GatherByAddress(mem, iovs[1..], len - n, k - n);
    }
  }

  /** Gathering takes a prefix of the concatenation. */
  lemma {:induction false} GatherIsPrefix(mem: seq<byte>, iovs: seq<Iov>, len: nat)
    requires AllMapped(|mem|, iovs) && len <= Total(iovs)
    ensures Reachable(|mem|, iovs, len) && Gather(mem, iovs, len) == Flat(mem, iovs)[..len]
    decreases |iovs|
  {
    hide Gather, Reachable, Flat, Total, AllMapped;
    NoTotal();
    if len == 0 {
      GatherNothing(mem, iovs);
    } else {
      var v, others, n := iovs[0], iovs[1..], Min(iovs[0].len, len);
      First(|mem|, iovs);
      GatherIsPrefix(mem, others, len - n);
      Round(|mem|, iovs, len);
      GatherRound(mem, iovs, len);
      assert iovs == [v] + others;
      FlatCons(mem, v, others);
      CutConcat(Slice(mem, v.base, v.len), Flat(mem, others), len);
      assert Slice(mem, v.base, n) == Slice(mem, v.base, v.len)[..n];
    }
  }

  lemma {:induction false} AdvanceMapped(size: nat, iovs: seq<Iov>, len: nat)
    requires AllMapped(size, iovs)
    ensures AllMapped(size, Advance(iovs, len))
    ensures len <= Total(iovs) ==> Total(Advance(iovs, len)) == Total(iovs) - len
    decreases |iovs|
  {
    if iovs != [] {
      var n := Min(iovs[0].len, len);
      assert iovs[0] in iovs;
      AdvanceMapped(size, iovs[1..], len - n);
      assert Advance(iovs, len)[1..] == Advance(iovs[1..], len - n);
    }
  }

  /** Advancing leaves the rest of it. */
  lemma {:induction false} AdvanceIsSuffix(mem: seq<byte>, iovs: seq<Iov>, len: nat)
    requires AllMapped(|mem|, iovs) && len <= Total(iovs)
    ensures AllMapped(|mem|, Advance(iovs, len)) && Flat(mem, Advance(iovs, len)) == Flat(mem, iovs)[len..]
    decreases |iovs|
  {
    hide Reachable, Advance, Total, Flat, AllMapped;
    AdvanceMapped(|mem|, iovs, len);
    if iovs == [] {
      AdvanceNothing(mem, len);
    } else {
      First(|mem|, iovs);
      AdvanceIsSuffix(mem, iovs[1..], len - Min(iovs[0].len, len));
      AdvanceStep(mem, iovs[0], iovs[1..], iovs, len);
    }
  }

  lemma {:induction false} AdvanceStep(mem: seq<byte>, v: Iov, others: seq<Iov>, iovs: seq<Iov>, len: nat)
    requires iovs != [] && v == iovs[0] && others == iovs[1..] && AllMapped(|mem|, iovs) && len <= Total(iovs)
    requires var rest := Advance(others, len - Min(v.len, len));
             AllMapped(|mem|, rest) && AllMapped(|mem|, others) && Flat(mem, rest) == Flat(mem, others)[len - Min(v.len, len)..]
    ensures AllMapped(|mem|, Advance(iovs, len)) && Flat(mem, Advance(iovs, len)) == Flat(mem, iovs)[len..]
  {
    hide Advance, Total, Flat, Reachable, AllMapped;
    var n := Min(v.len, len);
    var head, rest := Iov(v.base + n, v.len - n), Advance(others, len - n);
    First(|mem|, iovs);
    AdvanceCons(iovs, len);
    FlatCons(mem, head, rest);
    assert iovs == [v] + others;
    FlatCons(mem, v, others);
    CutFirst(mem, v, Flat(mem, others), len);
  }

  lemma AdvanceNothing(mem: seq<byte>, len: nat)
    ensures Advance([], len) == [] && Total([]) == 0 && AllMapped(|mem|, []) && Flat(mem, []) == []
  {
  }

  lemma AdvanceCons(iovs: seq<Iov>, len: nat)
    requires iovs != []
    ensures var n := Min(iovs[0].len, len);
            Advance(iovs, len) == [Iov(iovs[0].base + n, iovs[0].len - n)] + Advance(iovs[1..], len - n)
  {
  }

  lemma SliceDrop(mem: seq<byte>, base: nat, len: nat, n: nat)
    requires Mapped(|mem|, base, len) && n <= len
    ensures Slice(mem, base, len)[n..] == Slice(mem, base + n, len - n)
  {
  }

  lemma CutFirst(mem: seq<byte>, v: Iov, rest: seq<byte>, len: nat)
    requires Mapped(|mem|, v.base, v.len) && len <= v.len + |rest|
    ensures var n := Min(v.len, len);
            (Slice(mem, v.base, v.len) + rest)[len..] == Slice(mem, v.base + n, v.len - n) + rest[len - n..]
  {
    hide Slice, Mapped;
    var n := Min(v.len, len);
    CutConcat(Slice(mem, v.base, v.len), rest, len);
    SliceDrop(mem, v.base, v.len, n);
  }

  predicate Apart(v: Iov, w: Iov) {
    v.base + v.len <= w.base || w.base + w.len <= v.base
  }

  ghost predicate Disjoint(iovs: seq<Iov>) {
    forall i, j :: 0 <= i < j < |iovs| ==> Apart(iovs[i], iovs[j])
  }

  /** An address that no segment covers. */
  ghost predicate Outside(iovs: seq<Iov>, a: nat) {
    forall v :: v in iovs ==> a < v.base || v.base + v.len <= a
  }

  /** Scattering writes nowhere but into the segments. */
  lemma {:induction false} ScatterFrame(mem: seq<byte>, iovs: seq<Iov>, data: seq<byte>, a: nat)
    requires Reachable(|mem|, iovs, |data|) && a < |mem| && Outside(iovs, a)
    ensures Scatter(mem, iovs, data)[a] == mem[a]
    decreases |iovs|
  {
    if data != [] {
      var n := Min(iovs[0].len, |data|);
      var mem' := Write(mem, iovs[0].base, data[..n]);
      assert iovs[0] in iovs;
      ScatterFrame(mem', iovs[1..], data[n..], a);
    }
  }

  lemma DisjointFirst(iovs: seq<Iov>)
    requires iovs != [] && Disjoint(iovs)
    ensures Disjoint(iovs[1..]) && forall w :: w in iovs[1..] ==> Apart(iovs[0], w)
  {
  }

  /** The first segment keeps what was written to it. */
  lemma ScatterFirst(mem: seq<byte>, v: Iov, others: seq<Iov>, data: seq<byte>, rest: seq<byte>)
    requires |data| <= v.len && Mapped(|mem|, v.base, |data|) && Reachable(|mem|, others, |rest|)
    requires forall w :: w in others ==> Apart(v, w)
    ensures Slice(Scatter(Write(mem, v.base, data), others, rest), v.base, |data|) == data
  {
    hide Scatter, Reachable;
    var mem' := Write(mem, v.base, data);
    var out := Scatter(mem', others, rest);
    forall a | v.base <= a < v.base + |data|
      ensures out[a] == mem'[a]
    {
      ScatterFrame(mem', others, rest, a);
    }
    assert Slice(mem', v.base, |data|) == data;
  }

  /** One segment, given the result for the others. */
  lemma {:induction false} ScatterGatherStep(out: seq<byte>, iovs: seq<Iov>, data: seq<byte>)
    requires iovs != [] && data != [] && Reachable(|out|, iovs, |data|)
    requires Reachable(|out|, iovs[1..], |data| - Min(iovs[0].len, |data|))
    requires var v, n := iovs[0], Min(iovs[0].len, |data|);
      && Mapped(|out|, v.base, n) && Slice(out, v.base, n) == data[..n]
      && Gather(out, iovs[1..], |data| - n) == data[n..]
    ensures Gather(out, iovs, |data|) == data
  {
    hide Gather, Reachable, Mapped;
    GatherRound(out, iovs, |data|);
    var n := Min(iovs[0].len, |data|);
    assert data == data[..n] + data[n..];
  }

  /** Over disjoint segments, gathering what was scattered gives it back. */
  lemma {:induction false} ScatterGather(mem: seq<byte>, iovs: seq<Iov>, data: seq<byte>)
    requires Disjoint(iovs) && Reachable(|mem|, iovs, |data|)
    ensures Gather(Scatter(mem, iovs, data), iovs, |data|) == data
    decreases |iovs|
  {
    hide Gather, Scatter, Reachable, Disjoint, Write, Mapped;
    if data != [] {
      ReachableNonEmpty(|mem|, iovs, |data|);
      var v, others, n := iovs[0], iovs[1..], Min(iovs[0].len, |data|);
      ScatterCons(mem, iovs, data);
      DisjointFirst(iovs);
      ScatterGather(Write(mem, v.base, data[..n]), others, data[n..]);
      if n > 0 {
        ScatterFirst(mem, v, others, data[..n], data[n..]);
      }
      ScatterGatherStep(Scatter(mem, iovs, data), iovs, data);
    }
  }

  lemma ReachableNonEmpty(size: nat, iovs: seq<Iov>, len: nat)
    requires len > 0 && Reachable(size, iovs, len)
    ensures iovs != []
  {
  }

  /** A reply scattered over disjoint segments is the reply cut at their boundaries: the first
      |data| bytes of their concatenation. */
  lemma ScatterIsCut(mem: seq<byte>, iovs: seq<Iov>, data: seq<byte>)
    requires Disjoint(iovs) && AllMapped(|mem|, iovs) && |data| <= Total(iovs)
    ensures Reachable(|mem|, iovs, |data|)
    ensures Flat(Scatter(mem, iovs, data), iovs)[..|data|] == data
  {
    GatherIsPrefix(mem, iovs, |data|);
    ScatterGather(mem, iovs, data);
    GatherIsPrefix(Scatter(mem, iovs, data), iovs, |data|);
  }
}

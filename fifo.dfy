/** The bounded history lists both engines keep per probe, and the
    x-coordinates under which a history is plotted. */
module Fifo {

  /** Capacity of every history list. */
  const Capacity: nat := 200

  /** The newest `Capacity` entries of s, oldest first. */
  function Newest(s: seq<real>): (r: seq<real>)
    ensures |r| <= Capacity && |r| <= |s|
    ensures |s| <= Capacity ==> r == s
    ensures |s| > Capacity ==> |r| == Capacity
  {
    if |s| <= Capacity then s else s[|s| - Capacity..]
  }

  /** One history update: append while below capacity, else drop entry 0 and append. */
  function Push(h: seq<real>, v: real): (r: seq<real>)
    ensures |h| <= Capacity ==> r == Newest(h + [v])
    ensures |h| <= Capacity ==> |r| <= Capacity && r[|r| - 1] == v
  {
    if |h| < Capacity then h + [v] else h[1..] + [v]
  }

  /** A run of updates, in order. */
  function PushAll(h: seq<real>, vs: seq<real>): seq<real>
    decreases |vs|
  {
    if vs == [] then h else PushAll(Push(h, vs[0]), vs[1..])
  }

  /** However many values arrive, the list holds the last `Capacity` of them, in order. */
  lemma {:induction false} PushAllKeepsNewest(h: seq<real>, vs: seq<real>)
    requires |h| <= Capacity
    ensures PushAll(h, vs) == Newest(h + vs)
    decreases |vs|
  {
    if vs == [] {
      assert h + vs == h;
    } else {
      var u, t := h + [vs[0]], vs[1..];
      var h' := Push(h, vs[0]);
      assert h' == Newest(u);
      PushAllKeepsNewest(h', t);
      NewestOfNewest(u, t);
      assert h + vs == u + t;
      assert PushAll(h, vs) == PushAll(h', t);
    }
  }

  /** Truncating before appending more does not change the newest window. */
  lemma NewestOfNewest(s: seq<real>, t: seq<real>)
    ensures Newest(Newest(s) + t) == Newest(s + t)
  {
    var a, b := Newest(Newest(s) + t), Newest(s + t);
    assert |a| == |b|;
    forall k | 0 <= k < |a| ensures a[k] == b[k] {
      var n := Newest(s);
      var i := |n + t| - |a| + k;
      if i < |n| {
        assert a[k] == n[i] == s[|s| - |n| + i];
      }
    }
  }

  /** After 201 values the list is full and the first value has been evicted. */
  lemma OverflowEvictsFirst(vs: seq<real>)
    requires |vs| == Capacity + 1
    ensures |PushAll([], vs)| == Capacity && PushAll([], vs)[0] == vs[1]
  {
    PushAllKeepsNewest([], vs);
    assert [] + vs == vs;
  }

  /** The plotted x-coordinate of history entry i out of count: ((i + 1) / count) / 2. */
  function PlotX(i: nat, count: nat): (x: real)
    requires i < count
    ensures 0.0 < x <= 0.5
    ensures x == 0.5 <==> i == count - 1
  {
    ((i as real + 1.0) / count as real) / 2.0
  }

  /** The plotted x-coordinates increase strictly along the list. */
  lemma PlotXIncreasing(i: nat, j: nat, count: nat)
    requires i < j < count
    ensures PlotX(i, count) < PlotX(j, count)
  {
    var c := count as real;
    var a, b := i as real + 1.0, j as real + 1.0;
    assert b / c - a / c == (b - a) / c;
    assert (b - a) / c > 0.0;
  }
}

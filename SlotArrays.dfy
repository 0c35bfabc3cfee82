/** One fixed-capacity, append-only slot array with its counter: the building
    block that the scene registry repeats for scene objects, each shape kind
    and each surface kind. Slots below the counter are registered records;
    slots at or above it still hold the fill record the array was created
    with. */
module SlotArrays {
  import opened Wrappers

  /** What one slot array looks like from outside: its counter and the whole
      array, registered prefix and unused tail alike. */
  datatype SlotView<T> = SlotView(count: nat, items: seq<T>)

  /** The counter never passes the capacity, which is the array's length. */
  predicate WellFormed<T>(v: SlotView<T>)
  {
    v.count <= |v.items|
  }

  /** The registered records, in registration order. */
  function Contents<T>(v: SlotView<T>): seq<T>
    requires WellFormed(v)
  {
    v.items[..v.count]
  }

  /** Every slot at or above the counter holds `fill`. */
  ghost predicate TailIs<T>(v: SlotView<T>, fill: T)
  {
    forall i :: v.count <= i < |v.items| ==> v.items[i] == fill
  }

  /** A freshly created slot array: `capacity` copies of `fill`, counter 0. */
  function Fresh<T>(capacity: nat, fill: T): (v: SlotView<T>)
    ensures WellFormed(v) && |v.items| == capacity
    ensures Contents(v) == []
    ensures TailIs(v, fill)
  {
    SlotView(0, seq(capacity, _ => fill))
  }

  /** The index an add hands out: the old counter while there is room,
      nothing once the array is full. */
  function NextIndex<T>(v: SlotView<T>): (r: Option<nat>)
    ensures r.Some? <==> v.count < |v.items|
    ensures r.Some? ==> r.value == v.count
  {
    if v.count >= |v.items| then None else Some(v.count)
  }

  /** The state after an add of `x`: while there is room the registered
      records grow by exactly `x` at the end; a full array is left as it was.
      The capacity never changes, and no slot above the new counter is
      touched. */
  function Added<T>(v: SlotView<T>, x: T): (w: SlotView<T>)
    requires WellFormed(v)
    ensures WellFormed(w) && |w.items| == |v.items|
    ensures w.count == if v.count < |v.items| then v.count + 1 else v.count
    ensures Contents(w) == if v.count < |v.items| then Contents(v) + [x] else Contents(v)
    ensures forall j :: w.count <= j < |w.items| ==> w.items[j] == v.items[j]
  {
    if v.count >= |v.items| then v
    else
      var w := SlotView(v.count + 1, v.items[v.count := x]);
      assert Contents(w) == Contents(v) + [x];
      w
  }

  /** The state after replacing registered record `i` wholesale: the counter
      and every other slot are unchanged. */
  function Replaced<T>(v: SlotView<T>, i: nat, x: T): (w: SlotView<T>)
    requires WellFormed(v) && i < v.count
    ensures WellFormed(w) && w.count == v.count && |w.items| == |v.items|
    ensures Contents(w) == Contents(v)[i := x]
    ensures forall j :: w.count <= j < |w.items| ==> w.items[j] == v.items[j]
  {
    SlotView(v.count, v.items[i := x])
  }

  function Min(a: int, b: int): int
  {
    if a <= b then a else b
  }

  /** A run of adds, one per element of `xs`, in order: the final state and
      the index (or nothing) each add returned. */
  function AddAll<T>(v: SlotView<T>, xs: seq<T>): (r: (SlotView<T>, seq<Option<nat>>))
    requires WellFormed(v)
    ensures WellFormed(r.0) && |r.0.items| == |v.items|
    ensures |r.1| == |xs|
    decreases |xs|
  {
    if xs == [] then (v, [])
    else
      var (w, rs) := AddAll(Added(v, xs[0]), xs[1..]);
      (w, [NextIndex(v)] + rs)
  }

  /** A run of adds hands out consecutive indices from the old counter, in
      call order and with no gaps, until the capacity is reached, and nothing
      after that. */
  lemma {:induction false} AddAllIndices<T>(v: SlotView<T>, xs: seq<T>)
    requires WellFormed(v)
    ensures forall i :: 0 <= i < |xs| ==>
              AddAll(v, xs).1[i] == if v.count + i < |v.items| then Some(v.count + i) else None
    decreases |xs|
  {
    if xs != [] {
      var u := Added(v, xs[0]);
      AddAllIndices(u, xs[1..]);
      assert AddAll(v, xs).1 == [NextIndex(v)] + AddAll(u, xs[1..]).1;
    }
  }

  /** After a run of adds the counter has grown by the number of adds that
      found room. */
  lemma {:induction false} AddAllCount<T>(v: SlotView<T>, xs: seq<T>)
    requires WellFormed(v)
    ensures AddAll(v, xs).0.count == Min(v.count + |xs|, |v.items|)
    decreases |xs|
  {
    if xs != [] {
      AddAllCount(Added(v, xs[0]), xs[1..]);
    }
  }

  /** The records of the adds that found room are appended in call order. */
  lemma {:induction false} AddAllContents<T>(v: SlotView<T>, xs: seq<T>)
    requires WellFormed(v)
    ensures Contents(AddAll(v, xs).0) == Contents(v) + xs[..Min(|xs|, |v.items| - v.count)]
    decreases |xs|
  {
    if xs == [] {
      assert xs[..0] == [];
    } else {
      var u := Added(v, xs[0]);
      AddAllContents(u, xs[1..]);
      assert AddAll(v, xs).0 == AddAll(u, xs[1..]).0;
      if v.count < |v.items| {
        var k := Min(|xs| - 1, |v.items| - v.count - 1);
        AppendAssociative(Contents(v), [xs[0]], xs[1..][..k]);
        HeadThenPrefix(xs, k);
      } else {
        assert xs[..0] == [];
      }
    }
  }

  /** A slot array whose counter is 0 has no registered records. */
  lemma EmptyContents<T>(v: SlotView<T>)
    requires WellFormed(v) && v.count == 0
    ensures Contents(v) == []
  {
  }

  lemma AppendAssociative<T>(a: seq<T>, b: seq<T>, c: seq<T>)
    ensures a + b + c == a + (b + c)
  {
  }

  lemma HeadThenPrefix<T>(xs: seq<T>, k: nat)
    requires k < |xs|
    ensures [xs[0]] + xs[1..][..k] == xs[..k + 1]
  {
  }

  /** The slots above the final counter keep what they held. */
  lemma {:induction false} AddAllTail<T>(v: SlotView<T>, xs: seq<T>)
    requires WellFormed(v)
    ensures forall j :: AddAll(v, xs).0.count <= j < |v.items| ==> AddAll(v, xs).0.items[j] == v.items[j]
    decreases |xs|
  {
    if xs != [] {
      var u := Added(v, xs[0]);
      AddAllTail(u, xs[1..]);
      AddAllCount(u, xs[1..]);
    }
  }

  /** Registering `xs` one by one into a fresh array: the i-th add returns
      index i while i is below the capacity and nothing from then on, and
      afterwards the counter equals the number of successful adds. */
  lemma RegistrationOrder<T>(capacity: nat, fill: T, xs: seq<T>)
    ensures forall i :: 0 <= i < |xs| ==>
              AddAll(Fresh(capacity, fill), xs).1[i] == if i < capacity then Some(i) else None
    ensures AddAll(Fresh(capacity, fill), xs).0.count == Min(|xs|, capacity)
    ensures Contents(AddAll(Fresh(capacity, fill), xs).0) == xs[..Min(|xs|, capacity)]
  {
    var v := Fresh(capacity, fill);
    AddAllIndices(v, xs);
    AddAllCount(v, xs);
    AddAllContents(v, xs);
    assert Contents(AddAll(v, xs).0) == [] + xs[..Min(|xs|, capacity)];
  }

  /** Once `capacity` adds have succeeded the array is full: the next add
      returns nothing and changes nothing. */
  lemma FullAfterCapacityAdds<T>(capacity: nat, fill: T, xs: seq<T>, y: T)
    requires |xs| == capacity
    ensures NextIndex(AddAll(Fresh(capacity, fill), xs).0) == None
    ensures Added(AddAll(Fresh(capacity, fill), xs).0, y) == AddAll(Fresh(capacity, fill), xs).0
  {
    AddAllCount(Fresh(capacity, fill), xs);
  }

  /** A slot array in place: the counter `count` and the array `arr` of
      length `capacity`, created full of `fill`. */
  class Slots<T> {
    const capacity: nat
    const fill: T
    const arr: array<T>
    var count: nat

    ghost predicate Valid()
      reads this, arr
    {
      arr.Length == capacity && count <= capacity &&
      forall i :: count <= i < capacity ==> arr[i] == fill
    }

    /** The current counter and array contents. */
    function View(): (v: SlotView<T>)
      reads this, arr
      requires Valid()
      ensures WellFormed(v) && |v.items| == capacity
    {
      SlotView(count, arr[..])
    }

    constructor (capacity: nat, fill: T)
      ensures Valid() && fresh(arr)
      ensures this.capacity == capacity && this.fill == fill
      ensures count == 0
    {
      this.capacity := capacity;
      this.fill := fill;
      arr := new T[capacity](_ => fill);
      count := 0;
      new;
      assert arr[..] == seq(capacity, _ => fill);
    }

    /** Appends `x` at slot `count` and returns the old counter, or returns
      nothing and changes nothing when the array is full. */
    method Add(x: T) returns (r: Option<nat>)
      requires Valid()
      modifies this, arr
      ensures Valid()
      ensures r == NextIndex(old(View()))
      ensures View() == Added(old(View()), x)
    {
      if count >= capacity {
        return None;
      }
      arr[count] := x;
      r := Some(count);
      count := count + 1;
    }

    /** Overwrites registered slot `i` with `x`. */
    method Replace(i: nat, x: T)
      requires Valid() && i < count
      modifies arr
      ensures Valid()
      ensures View() == Replaced(old(View()), i, x)
    {
      arr[i] := x;
    }
  }
}

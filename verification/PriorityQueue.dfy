/** The agent queue: a slice of agents kept as an indexed heap by Go's container/heap.
    The ghost parameter `w` of a method is the weight of every queued agent, the number of
    its clients, which the method only reads. */
module PriorityQueues {
  import opened Agents
  import HeapSpec

  class PriorityQueue {
    var items: seq<Agent>
    /** Every agent that has ever been queued, and the ones about to be. */
    ghost var pool: set<Agent>

    /** Every queued agent knows its own slot. */
    ghost predicate Indexed()
      reads this, pool`index
    {
      forall k :: 0 <= k < |items| ==> items[k] in pool && items[k].index == k
    }

    ghost predicate WeighedBy(w: map<Agent, nat>)
      reads this, items`clients
    {
      forall k :: 0 <= k < |items| ==> items[k] in w && w[items[k]] == |items[k].clients|
    }

    constructor ()
      ensures items == [] && pool == {} && Indexed()
    {
      items := [];
      pool := {};
    }

    // ---------- heap.Interface ----------

    predicate Less(i: nat, j: nat)
      requires i < |items| && j < |items|
      reads this, items`clients
    {
      |items[i].clients| < |items[j].clients|
    }

    method Swap(i: nat, j: nat, ghost w: map<Agent, nat>)
      requires i < |items| && j < |items| && Indexed() && WeighedBy(w)
      modifies this`items, pool`index
      ensures items == HeapSpec.Swap(old(items), i, j) && Indexed() && WeighedBy(w)
    {
      items := items[i := items[j]][j := items[i]];
      items[i].index := i;
      items[j].index := j;
    }

    method Push(a: Agent)
      requires Indexed() && a !in items && a in pool
      modifies this`items, pool`index
      ensures items == old(items) + [a] && Indexed()
    {
      a.index := |items|;
      items := items + [a];
    }

    /** Takes the last slot, whatever it holds. */
    method Pop() returns (a: Agent)
      requires Indexed() && 0 < |items|
      modifies this`items, pool`index
      ensures a == old(items)[|old(items)| - 1] && a.index == -1
      ensures items == old(items)[..|old(items)| - 1] && Indexed()
    {
      var n := |items|;
      a := items[n - 1];
      a.index := -1;
      items := items[..n - 1];
    }

    // ---------- package heap ----------

    /** heap.up */
    method Up(j0: nat, ghost w: map<Agent, nat>)
      requires j0 < |items| && Indexed() && WeighedBy(w)
      modifies this`items, pool`index
      ensures items == HeapSpec.Up(old(items), w, j0) && Indexed() && WeighedBy(w)
    {
      var j: nat := j0;
      while true
        invariant j < |items| && Indexed() && WeighedBy(w)
        invariant HeapSpec.Up(items, w, j) == HeapSpec.Up(old(items), w, j0)
        decreases j
      {
        var i: nat := if j == 0 then 0 else (j - 1) / 2;
        if i == j || !Less(j, i) {
          break;
        }
        Swap(i, j, w);
        j := i;
      }
    }

    /** The choice heap.down makes between the children of slot i: the right one exactly if it
        serves fewer clients than the left one. */
    method PickChild(i: nat, n: nat, ghost w: map<Agent, nat>) returns (j: nat)
      requires 2 * i + 1 < n <= |items| && WeighedBy(w)
      ensures HeapSpec.Weighed(items[..n], w) && j == HeapSpec.LightChild(items[..n], w, i)
      ensures j == 2 * i + 1 || (j == 2 * i + 2 && 2 * i + 2 < n)
      ensures j == 2 * i + 1 <==> 2 * i + 2 < n ==> |items[2 * i + 1].clients| <= |items[2 * i + 2].clients|
    {
      j := 2 * i + 1;
      if j + 1 < n && Less(j + 1, j) {
        j := j + 1;
      }
    }

    /** heap.down on the first n slots */
    method Down(i0: nat, n: nat, ghost w: map<Agent, nat>) returns (moved: bool)
      requires i0 < n <= |items| && Indexed() && WeighedBy(w)
      modifies this`items, pool`index
      ensures |items| == |old(items)| && items[n..] == old(items)[n..] && Indexed() && WeighedBy(w)
      ensures items[..n] == HeapSpec.Down(old(items)[..n], w, i0)
      ensures moved == HeapSpec.Sinks(old(items)[..n], w, i0)
    {
      var i: nat := i0;
      while 2 * i + 1 < n
        invariant i0 <= i < n && |items| == |old(items)| && Indexed() && WeighedBy(w)
        invariant items[n..] == old(items)[n..]
        invariant HeapSpec.Down(items[..n], w, i) == HeapSpec.Down(old(items)[..n], w, i0)
        invariant if i == i0 then items == old(items) else HeapSpec.Sinks(old(items)[..n], w, i0)
        decreases n - i
      {
        var j := PickChild(i, n, w);
        if !Less(j, i) {
          break;
        }
        HeapSpec.SwapFront(items, n, i, j);
        Swap(i, j, w);
        i := j;
      }
      moved := i > i0;
    }

    /** heap.Push */
    method HeapPush(a: Agent, ghost w: map<Agent, nat>)
      requires Indexed() && a !in items && a in pool
      requires WeighedBy(w) && a in w && w[a] == |a.clients|
      modifies this`items, pool`index
      ensures items == HeapSpec.Push(old(items), w, a) && Indexed()
    {
      Push(a);
      Up(|items| - 1, w);
    }

    /** heap.Pop */
    method HeapPop(ghost w: map<Agent, nat>) returns (a: Agent)
      requires Indexed() && WeighedBy(w) && 0 < |items|
      modifies this`items, pool`index
      ensures a == old(items)[0] && a.index == -1
      ensures items == HeapSpec.PopRoot(old(items), w) && Indexed()
    {
      var n: nat := |items| - 1;
      ghost var q := items;
      Swap(0, n, w);
      assert items[..n] == HeapSpec.MoveLast(q, 0) && items[n] == q[0];
      if 0 < n {
        var moved := Down(0, n, w);
      }
      assert items[..n] == HeapSpec.PopRoot(q, w) && items[n] == q[0];
      a := Pop();
    }

    /** The tail of heap.Remove: down, and up if nothing moved. */
    method Sift(i: nat, n: nat, ghost w: map<Agent, nat>)
      requires i < n <= |items| && Indexed() && WeighedBy(w)
      modifies this`items, pool`index
      ensures |items| == |old(items)| && items[n..] == old(items)[n..] && Indexed()
      ensures items[..n] == HeapSpec.Sifted(old(items)[..n], w, i)
    {
      ghost var q := items;
      var moved := Down(i, n, w);
      if !moved {
        assert items == items[..n] + items[n..] && q == q[..n] + q[n..];
        HeapSpec.UpFront(q, n, w, i);
        Up(i, w);
      }
    }

    /** heap.Remove */
    method HeapRemove(i: int, ghost w: map<Agent, nat>) returns (a: Agent)
      requires Indexed() && WeighedBy(w) && 0 <= i < |items|
      modifies this`items, pool`index
      ensures a == old(items)[i] && a.index == -1
      ensures items == HeapSpec.Remove(old(items), w, i) && Indexed()
    {
      var n: nat := |items| - 1;
      ghost var q := items;
      if n != i {
        Swap(i, n, w);
        assert items[..n] == HeapSpec.MoveLast(q, i) && items[n] == q[i];
        Sift(i, n, w);
      }
      assert items[..n] == HeapSpec.Remove(q, w, i) && items[n] == q[i];
      a := Pop();
    }

    /** Takes one agent out, found by its own index. */
    method Remove(a: Agent, ghost w: map<Agent, nat>)
      requires Indexed() && WeighedBy(w) && a in items
      modifies this`items, pool`index
      ensures 0 <= old(a.index) < |old(items)| && old(items)[old(a.index)] == a && a.index == -1
      ensures items == HeapSpec.Remove(old(items), w, old(a.index)) && Indexed()
    {
      var r := HeapRemove(a.index, w);
    }
  }
}

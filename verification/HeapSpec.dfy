/** The algorithms of Go's container/heap, as functions on the slots of a heap.
    A slot holds an item; `w` gives every item its weight, the number the heap is
    ordered by. The priority queue's methods are proved equal to these functions. */
module HeapSpec {

  function Parent(j: nat): nat {
    if j == 0 then 0 else (j - 1) / 2
  }

  ghost predicate Weighed<A>(q: seq<A>, w: map<A, nat>) {
    forall k :: 0 <= k < |q| ==> q[k] in w
  }

  ghost predicate Distinct<A>(q: seq<A>) {
    forall i, j :: 0 <= i < j < |q| ==> q[i] != q[j]
  }

  /** Slot j is no lighter than its parent. */
  ghost predicate EdgeOk<A>(q: seq<A>, w: map<A, nat>, j: nat)
    requires Weighed(q, w) && j < |q|
  {
    w[q[Parent(j)]] <= w[q[j]]
  }

  ghost predicate Ordered<A>(q: seq<A>, w: map<A, nat>)
    requires Weighed(q, w)
  {
    forall j :: 0 <= j < |q| ==> EdgeOk(q, w, j)
  }

  ghost function Swap<A>(q: seq<A>, i: nat, j: nat): seq<A>
    requires i < |q| && j < |q|
  {
    q[i := q[j]][j := q[i]]
  }

  /** heap.up: the item in slot j climbs while it is lighter than its parent. */
  ghost function Up<A>(q: seq<A>, w: map<A, nat>, j: nat): seq<A>
    requires Weighed(q, w) && j < |q|
    decreases j
  {
    if EdgeOk(q, w, j) then q else Up(Swap(q, Parent(j), j), w, Parent(j))
  }

  /** The lighter child of slot i, the left one on a tie. */
  ghost function LightChild<A>(q: seq<A>, w: map<A, nat>, i: nat): nat
    requires Weighed(q, w) && 2 * i + 1 < |q|
  {
    if 2 * i + 2 < |q| && w[q[2 * i + 2]] < w[q[2 * i + 1]] then 2 * i + 2 else 2 * i + 1
  }

  /** heap.down has to move the item in slot i. */
  ghost predicate Sinks<A>(q: seq<A>, w: map<A, nat>, i: nat)
    requires Weighed(q, w) && i < |q|
  {
    2 * i + 1 < |q| && w[q[LightChild(q, w, i)]] < w[q[i]]
  }

  /** heap.down: the item in slot i sinks below its lighter child while that is lighter. */
  ghost function Down<A>(q: seq<A>, w: map<A, nat>, i: nat): seq<A>
    requires Weighed(q, w) && i < |q|
    decreases |q| - i
  {
    if Sinks(q, w, i) then Down(Swap(q, i, LightChild(q, w, i)), w, LightChild(q, w, i)) else q
  }

  /** The item in slot i sinks, or climbs when it did not sink. */
  ghost function Sifted<A>(q: seq<A>, w: map<A, nat>, i: nat): seq<A>
    requires Weighed(q, w) && i < |q|
  {
    if Sinks(q, w, i) then Down(q, w, i) else Up(q, w, i)
  }

  /** heap.Push */
  ghost function Push<A>(q: seq<A>, w: map<A, nat>, a: A): seq<A>
    requires Weighed(q, w) && a in w
  {
    Up(q + [a], w, |q|)
  }

  /** The slots heap.Remove sifts: the last item moved into slot i, the end cut off. */
  ghost function MoveLast<A>(q: seq<A>, i: nat): (r: seq<A>)
    requires i < |q|
    ensures |r| == |q| - 1
    ensures forall k :: 0 <= k < |r| ==> r[k] == if k == i then q[|q| - 1] else q[k]
  {
    Swap(q, i, |q| - 1)[..|q| - 1]
  }

  /** The slots heap.Remove leaves behind: the last item takes slot i, then sinks or climbs. */
  ghost function Remove<A>(q: seq<A>, w: map<A, nat>, i: nat): seq<A>
    requires Weighed(q, w) && i < |q|
  {
    var n := |q| - 1;
    if i == n then q[..n]
    else
      Sifted(MoveLast(q, i), w, i)
  }

  /** The slots heap.Pop leaves behind; the item it returns is q[0]. */
  ghost function PopRoot<A>(q: seq<A>, w: map<A, nat>): seq<A>
    requires Weighed(q, w) && 0 < |q|
  {
    if |q| == 1 then [] else Down(MoveLast(q, 0), w, 0)
  }

  // ---------- Which way an item sinks ----------

  ghost predicate IsChild(k: nat, i: nat, n: nat) {
    k < n && (k == 2 * i + 1 || k == 2 * i + 2)
  }

  /** The child an item may sink to is a lightest one, and of two equal ones the left one. */
  lemma LightChildIff<A>(q: seq<A>, w: map<A, nat>, i: nat, k: nat)
    requires Weighed(q, w) && 2 * i + 1 < |q|
    ensures k == LightChild(q, w, i) <==>
      && IsChild(k, i, |q|)
      && forall c: nat :: IsChild(c, i, |q|) && c != k ==> w[q[k]] < w[q[c]] || (w[q[k]] == w[q[c]] && k < c)
  {
    assert IsChild(2 * i + 1, i, |q|);
    assert 2 * i + 2 < |q| ==> IsChild(2 * i + 2, i, |q|);
  }

  /** An item sinks exactly if some child is strictly lighter. */
  lemma SinksIff<A>(q: seq<A>, w: map<A, nat>, i: nat)
    requires Weighed(q, w) && i < |q|
    ensures Sinks(q, w, i) <==> exists c: nat :: IsChild(c, i, |q|) && w[q[c]] < w[q[i]]
  {
    if 2 * i + 1 < |q| { assert IsChild(LightChild(q, w, i), i, |q|); }
  }

  /** Otherwise it stays where it is, also above children that are as heavy. */
  lemma {:induction false} DownLightStays<A>(q: seq<A>, w: map<A, nat>, i: nat)
    requires Weighed(q, w) && i < |q|
    requires forall c: nat :: IsChild(c, i, |q|) ==> w[q[i]] <= w[q[c]]
    ensures Down(q, w, i) == q
  {
    SinksIff(q, w, i);
  }

  // ---------- The same items, in other slots ----------

  ghost predicate SameItems<A>(q: seq<A>, r: seq<A>) {
    |q| == |r| && multiset(q) == multiset(r) && (Distinct(q) ==> Distinct(r))
  }

  lemma SwapSameItems<A>(q: seq<A>, i: nat, j: nat)
    requires i < |q| && j < |q|
    ensures SameItems(q, Swap(q, i, j))
  {
  }

  lemma SwapFront<A>(q: seq<A>, n: nat, i: nat, j: nat)
    requires i < n && j < n && n <= |q|
    ensures Swap(q, i, j)[..n] == Swap(q[..n], i, j) && Swap(q, i, j)[n..] == q[n..]
  {
  }

  lemma SameItemsIn<A>(q: seq<A>, r: seq<A>)
    requires SameItems(q, r)
    ensures forall a :: a in q <==> a in r
  {
    forall a
      ensures a in q <==> a in r
    {
      assert a in multiset(q) <==> a in multiset(r);
    }
  }

  lemma {:induction false} UpSameItems<A>(q: seq<A>, w: map<A, nat>, j: nat)
    requires Weighed(q, w) && j < |q|
    ensures SameItems(q, Up(q, w, j))
    decreases j
  {
    if !EdgeOk(q, w, j) {
      SwapSameItems(q, Parent(j), j);
      UpSameItems(Swap(q, Parent(j), j), w, Parent(j));
    }
  }

  /** heap.up looks at no slot after the one it starts from. */
  lemma {:induction false} UpFront<A>(q: seq<A>, n: nat, w: map<A, nat>, j: nat)
    requires Weighed(q, w) && j < n <= |q|
    ensures |Up(q, w, j)| == |q| && Up(q, w, j)[..n] == Up(q[..n], w, j) && Up(q, w, j)[n..] == q[n..]
    decreases j
  {
    if !EdgeOk(q, w, j) {
      SwapFront(q, n, Parent(j), j);
      UpFront(Swap(q, Parent(j), j), n, w, Parent(j));
    }
  }

  lemma {:induction false} DownSameItems<A>(q: seq<A>, w: map<A, nat>, i: nat)
    requires Weighed(q, w) && i < |q|
    ensures SameItems(q, Down(q, w, i))
    decreases |q| - i
  {
    if Sinks(q, w, i) {
      var c := LightChild(q, w, i);
      SwapSameItems(q, i, c);
      DownSameItems(Swap(q, i, c), w, c);
    }
  }

  // ---------- Heap order ----------

  /** Only the edge above slot j may be out of order, and j's children are no lighter
      than j's parent: what heap.up needs. */
  ghost predicate UpReady<A>(q: seq<A>, w: map<A, nat>, j: nat)
    requires Weighed(q, w) && j < |q|
  {
    && (forall k :: 0 <= k < |q| && k != j ==> EdgeOk(q, w, k))
    && (forall k :: 0 <= k < |q| && k != 0 && Parent(k) == j ==> w[q[Parent(j)]] <= w[q[k]])
  }

  /** Only the edges below slot i may be out of order: what heap.down needs. */
  ghost predicate DownReady<A>(q: seq<A>, w: map<A, nat>, i: nat)
    requires Weighed(q, w) && i < |q|
  {
    && (forall k :: 0 <= k < |q| && (k == 0 || Parent(k) != i) ==> EdgeOk(q, w, k))
    && (forall k :: 0 <= k < |q| && k != 0 && Parent(k) == i ==> w[q[Parent(i)]] <= w[q[k]])
  }

  /** The item in slot i has any weight at all; the rest is ordered around it. */
  ghost predicate OrderedAround<A>(q: seq<A>, w: map<A, nat>, i: nat)
    requires Weighed(q, w) && i < |q|
  {
    && (forall k :: 0 <= k < |q| && k != i && (k == 0 || Parent(k) != i) ==> EdgeOk(q, w, k))
    && (forall k :: 0 <= k < |q| && k != 0 && Parent(k) == i ==> i == 0 || w[q[Parent(i)]] <= w[q[k]])
  }

  lemma {:induction false} UpOrders<A>(q: seq<A>, w: map<A, nat>, j: nat)
    requires Weighed(q, w) && j < |q| && UpReady(q, w, j)
    ensures Weighed(Up(q, w, j), w) && Ordered(Up(q, w, j), w)
    decreases j
  {
    if !EdgeOk(q, w, j) {
      var p := Parent(j);
      var r := Swap(q, p, j);
      forall k | 0 <= k < |r| && k != p
        ensures EdgeOk(r, w, k)
      {
        assert EdgeOk(q, w, p) || p == j;
        if k != j { assert EdgeOk(q, w, k); }
      }
      forall k | 0 <= k < |r| && k != 0 && Parent(k) == p
        ensures w[r[Parent(p)]] <= w[r[k]]
      {
        assert EdgeOk(q, w, p);
        if k != j { assert EdgeOk(q, w, k); }
      }
      UpOrders(r, w, p);
    }
  }

  lemma SinkStep<A>(q: seq<A>, w: map<A, nat>, i: nat)
    requires Weighed(q, w) && i < |q| && OrderedAround(q, w, i) && Sinks(q, w, i)
    ensures DownReady(Swap(q, i, LightChild(q, w, i)), w, LightChild(q, w, i))
  {
    var c := LightChild(q, w, i);
    var r := Swap(q, i, c);
    assert Parent(c) == i && c != 0;
    forall k | 0 <= k < |r| && (k == 0 || Parent(k) != c)
      ensures EdgeOk(r, w, k)
    {
      if k == i {
      } else if k != 0 && Parent(k) == i {
        assert k == 2 * i + 1 || k == 2 * i + 2;
      } else {
        assert EdgeOk(q, w, k);
      }
    }
    forall k | 0 <= k < |r| && k != 0 && Parent(k) == c
      ensures w[r[Parent(c)]] <= w[r[k]]
    {
      assert k != i && Parent(k) != i;
      assert EdgeOk(q, w, k);
    }
  }

  lemma {:induction false} DownOrders<A>(q: seq<A>, w: map<A, nat>, i: nat)
    requires Weighed(q, w) && i < |q| && DownReady(q, w, i)
    ensures Weighed(Down(q, w, i), w) && Ordered(Down(q, w, i), w)
    decreases |q| - i
  {
    if Sinks(q, w, i) {
      SinkStep(q, w, i);
      DownOrders(Swap(q, i, LightChild(q, w, i)), w, LightChild(q, w, i));
    } else {
      forall k | 0 <= k < |q|
        ensures EdgeOk(q, w, k)
      {
        if k != 0 && Parent(k) == i {
          assert k == 2 * i + 1 || k == 2 * i + 2;
        }
      }
    }
  }

  lemma PushIsHeap<A>(q: seq<A>, w: map<A, nat>, a: A)
    requires Weighed(q, w) && a in w && Ordered(q, w)
    ensures Weighed(Push(q, w, a), w) && Ordered(Push(q, w, a), w)
    ensures SameItems(q + [a], Push(q, w, a))
  {
    var r := q + [a];
    forall k | 0 <= k < |q|
      ensures EdgeOk(r, w, k)
    {
      assert EdgeOk(q, w, k);
    }
    UpOrders(r, w, |q|);
    UpSameItems(r, w, |q|);
  }

  /** An item no lighter than its parent stays where it was appended. */
  lemma PushHeavyStays<A>(q: seq<A>, w: map<A, nat>, a: A)
    requires Weighed(q, w) && a in w
    requires q != [] ==> w[q[Parent(|q|)]] <= w[a]
    ensures Push(q, w, a) == q + [a]
  {
    assert EdgeOk(q + [a], w, |q|);
  }

  lemma {:induction false} UpToRoot<A>(q: seq<A>, w: map<A, nat>, j: nat)
    requires Weighed(q, w) && j < |q|
    requires forall k :: 0 <= k < |q| && k != j ==> w[q[j]] < w[q[k]]
    ensures |Up(q, w, j)| == |q| && Up(q, w, j)[0] == q[j]
    decreases j
  {
    if j != 0 {
      assert !EdgeOk(q, w, j);
      UpToRoot(Swap(q, Parent(j), j), w, Parent(j));
    }
  }

  /** An item lighter than every other one becomes the root. */
  lemma PushLightestIsRoot<A>(q: seq<A>, w: map<A, nat>, a: A)
    requires Weighed(q, w) && a in w
    requires forall k :: 0 <= k < |q| ==> w[a] < w[q[k]]
    ensures |Push(q, w, a)| == |q| + 1 && Push(q, w, a)[0] == a
  {
    UpToRoot(q + [a], w, |q|);
  }

  lemma MoveLastItems<A>(q: seq<A>, i: nat)
    requires i < |q|
    ensures multiset(MoveLast(q, i)) == multiset(q) - multiset{q[i]}
    ensures Distinct(q) ==> Distinct(MoveLast(q, i))
  {
    SwapSameItems(q, i, |q| - 1);
    assert Swap(q, i, |q| - 1) == MoveLast(q, i) + [q[i]];
  }

  lemma MoveLastOrderedAround<A>(q: seq<A>, w: map<A, nat>, i: nat)
    requires Weighed(q, w) && i < |q| - 1 && OrderedAround(q, w, i)
    ensures Weighed(MoveLast(q, i), w) && OrderedAround(MoveLast(q, i), w, i)
  {
    var r := MoveLast(q, i);
    forall k | 0 <= k < |r| && k != i && (k == 0 || Parent(k) != i)
      ensures EdgeOk(r, w, k)
    {
      assert EdgeOk(q, w, k);
    }
    forall k | 0 <= k < |r| && k != 0 && Parent(k) == i
      ensures i == 0 || w[r[Parent(i)]] <= w[r[k]]
    {
      assert r[k] == q[k] && (i == 0 || r[Parent(i)] == q[Parent(i)]);
    }
  }

  lemma SiftOrders<A>(r: seq<A>, w: map<A, nat>, i: nat)
    requires Weighed(r, w) && i < |r| && OrderedAround(r, w, i)
    ensures var s := Sifted(r, w, i);
            SameItems(r, s) && Weighed(s, w) && Ordered(s, w)
  {
    if Sinks(r, w, i) {
      SinkStep(r, w, i);
      DownOrders(Swap(r, i, LightChild(r, w, i)), w, LightChild(r, w, i));
      DownSameItems(r, w, i);
    } else {
      forall k | 0 <= k < |r| && k != i
        ensures EdgeOk(r, w, k)
      {
        if k != 0 && Parent(k) == i {
          assert k == 2 * i + 1 || k == 2 * i + 2;
        }
      }
      UpOrders(r, w, i);
      UpSameItems(r, w, i);
    }
  }

  /** Whatever happened to the weight of the item in slot i, heap.Remove takes exactly that
      item out and leaves a heap of the others. */
  lemma RemoveIsHeap<A>(q: seq<A>, w: map<A, nat>, i: nat)
    requires Weighed(q, w) && i < |q| && OrderedAround(q, w, i)
    ensures Weighed(Remove(q, w, i), w) && Ordered(Remove(q, w, i), w)
    ensures |Remove(q, w, i)| == |q| - 1
    ensures multiset(Remove(q, w, i)) == multiset(q) - multiset{q[i]}
    ensures Distinct(q) ==> Distinct(Remove(q, w, i))
  {
    var n := |q| - 1;
    if i == n {
      assert q == q[..n] + [q[n]];
      forall k | 0 <= k < n
        ensures EdgeOk(q[..n], w, k)
      {
        assert EdgeOk(q, w, k);
      }
    } else {
      MoveLastItems(q, i);
      MoveLastOrderedAround(q, w, i);
      SiftOrders(MoveLast(q, i), w, i);
    }
  }

  lemma {:induction false} RootIsLightest<A>(q: seq<A>, w: map<A, nat>, k: nat)
    requires Weighed(q, w) && Ordered(q, w) && k < |q|
    ensures w[q[0]] <= w[q[k]]
    decreases k
  {
    if k != 0 {
      assert EdgeOk(q, w, k);
      RootIsLightest(q, w, Parent(k));
    }
  }

  /** heap.Pop takes out the root and leaves a heap of the others. */
  lemma PopRootIsHeap<A>(q: seq<A>, w: map<A, nat>)
    requires Weighed(q, w) && 0 < |q| && Ordered(q, w)
    ensures Weighed(PopRoot(q, w), w) && Ordered(PopRoot(q, w), w)
    ensures |PopRoot(q, w)| == |q| - 1
    ensures multiset(PopRoot(q, w)) == multiset(q) - multiset{q[0]}
    ensures Distinct(q) ==> Distinct(PopRoot(q, w))
  {
    assert OrderedAround(q, w, 0) by {
      forall k | 0 <= k < |q|
        ensures EdgeOk(q, w, k)
      {
      }
    }
    RemoveIsHeap(q, w, 0);
    if |q| == 1 {
      assert Remove(q, w, 0) == [];
    } else if !Sinks(MoveLast(q, 0), w, 0) {
      assert EdgeOk(MoveLast(q, 0), w, 0);
    }
  }
}

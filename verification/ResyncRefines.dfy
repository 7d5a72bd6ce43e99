/** A batch that is handled with nothing in between: the timed steps of the loop then do what the
    methods of the queue do. */
module ResyncRefines {
  import opened Resync
  import opened ResyncRuns

  lemma {:induction false} RunMore(s: State, ls: seq<Label>, l: Label)
    ensures Run(s, ls + [l]) == if Can(Run(s, ls), l) then Do(Run(s, ls), l) else Run(s, ls)
  {
    assert (ls + [l])[..|ls|] == ls;
  }

  /** Rotating hands out the whole queue, empties it and sets the next time. */
  lemma RotateIsCode(s: State)
    requires Can(s, Rotate)
    ensures var u := Do(s, Rotate);
      && u.pending == map[] && u.nextResync == s.now + 14_400_000_000_000
      && (if s.pending == map[] then u.batches == s.batches && u.phase.Waiting?
          else u.phase.Rotated? && u.batches == s.batches + [s.pending])
  {
  }

  /** Logged out, the batch is dropped; and after the last ghost the loop waits again. Neither
      touches a LastSync. */
  lemma EndsAreCode(s: State, result: Contact)
    ensures Can(s, Begin(false)) ==>
      var u := Do(s, Begin(false));
      u.phase.Waiting? && u.lastSync == s.lastSync && u.refreshes == s.refreshes && Last(u.reports).dropped
    ensures Can(s, Fetch(result)) && s.phase.next == |Last(s.reports).ghosts| ==>
      Do(s, Fetch(result)) == s.(phase := Waiting)
  {
  }

  // ---------- The first loop ----------

  function Checks(ks: seq<string>): seq<Label> {
    seq(|ks|, i requires 0 <= i < |ks| => Check(ks[i]))
  }

  /** The item of the last batch was among those looked at, and was due. */
  predicate Found(s: State, ks: seq<string>, item: Item) {
    && s.batches != [] && Key(item) in ks && Key(item) in Last(s.batches)
    && Last(s.batches)[Key(item)].item == item && !Recent(s.lastSync, item, s.now)
  }

  /** From s to u the keys ks were looked at, and nothing else happened. */
  ghost predicate Looked(s: State, u: State, ks: seq<string>) {
    && s.phase.Sorting? && u.phase.Sorting? && s.reports != [] && |u.reports| == |s.reports|
    && u.batches == s.batches && u.lastSync == s.lastSync && u.now == s.now
    && (forall k :: k in u.phase.todo <==> k in s.phase.todo && k !in ks)
    && (forall item :: Sorted(Last(u.reports), item) <==> Sorted(Last(s.reports), item) || Found(s, ks, item))
  }

  ghost predicate Keyed(s: State) {
    s.batches != [] && forall k :: k in Last(s.batches) ==> k == Key(Last(s.batches)[k].item)
  }

  lemma LookedMore(s: State, u: State, ks: seq<string>, key: string)
    requires Looked(s, u, ks) && Keyed(s) && Can(u, Check(key))
    ensures Looked(s, DoCheck(u, key), ks + [key])
  {
    var item, w := Last(u.batches)[key].item, DoCheck(u, key);
    OtherKeys(item);
    forall other
      ensures Sorted(Last(w.reports), other) <==> Sorted(Last(s.reports), other) || Found(s, ks + [key], other)
    {
      assert Key(other) in ks + [key] <==> Key(other) in ks || Key(other) == key;
      assert Sorted(Last(w.reports), other) <==>
             Sorted(Last(u.reports), other) || (other == item && !Recent(u.lastSync, item, u.now));
    }
  }

  lemma {:induction false} ChecksLook(s: State, ks: seq<string>)
    requires s.phase.Sorting? && s.reports != [] && Keyed(s) && NoDuplicates(ks)
    requires forall k :: k in ks ==> k in s.phase.todo && k in Last(s.batches)
    ensures Looked(s, Run(s, Checks(ks)), ks)
    decreases |ks|
  {
    if ks == [] {
      assert Checks(ks) == [];
    } else {
      var n := |ks| - 1;
      var front, key := ks[..n], ks[n];
      assert ks == front + [key] && key !in front;
      assert Checks(ks) == Checks(front) + [Check(key)];
      ChecksLook(s, front);
      RunMore(s, Checks(front), Check(key));
      assert !Run(s, Checks(front)).phase.Crashed?;
      LookedMore(s, Run(s, Checks(front)), front, key);
    }
  }

  /** Looking once at every key of a batch, in any order, lists the ghosts and the portals that
      SortBatch lists. */
  lemma SortIsCode(s: State, ks: seq<string>)
    requires Tickets(s) && Reports(s) && s.phase.Rotated?
    requires NoDuplicates(ks) && forall k :: k in ks <==> k in Last(s.batches)
    ensures s.batches != []
    ensures var u := Run(Do(s, Begin(true)), Checks(ks));
      var due := item => Due(Items(Last(s.batches)), s.lastSync, _ => s.now, item);
      && u.phase == Sorting({}) && u.reports != []
      && (forall id :: id in Last(u.reports).ghosts <==> due(Ghost(id)))
      && (forall id :: id in Last(u.reports).portals <==> due(Portal(id)))
  {
    BatchKeyed(s, |s.batches| - 1);
    var b := Do(s, Begin(true));
    ChecksLook(b, ks);
    var u := Run(b, Checks(ks));
    assert Last(b.reports) == Report(false, [], [], {});
    forall item
      ensures Sorted(Last(u.reports), item) <==> Due(Items(Last(s.batches)), s.lastSync, _ => s.now, item)
    {
      assert Sorted(Last(u.reports), item) <==> Found(b, ks, item);
    }
    assert forall id :: Sorted(Last(u.reports), Ghost(id)) <==> id in Last(u.reports).ghosts;
    assert forall id :: Sorted(Last(u.reports), Portal(id)) <==> id in Last(u.reports).portals;
    assert u.phase.todo == {};
  }

  // ---------- The last loop ----------

  function Fetches(ghosts: seq<string>, fetched: string -> Contact): seq<Label> {
    seq(|ghosts|, i requires 0 <= i < |ghosts| => Fetch(fetched(ghosts[i])))
  }

  ghost predicate AllSafe(ghosts: seq<string>, fetched: string -> Contact) {
    forall id :: id in ghosts ==> !fetched(id).Fatal?
  }

  /** From s to u these ghosts were fetched, and nothing else happened. */
  ghost predicate FetchedAll(s: State, u: State, ghosts: seq<string>, fetched: string -> Contact) {
    && u.reports == s.reports && u.now == s.now
    && (if AllSafe(ghosts, fetched) then
          && u.phase == Fetching(|ghosts|)
          && forall item :: LastOf(u.lastSync, item) ==
                            Updated(s.lastSync, item, IsFetched(ghosts, fetched, item), _ => s.now)
        else u.phase.Crashed?)
  }

  lemma FetchedMore(s: State, u: State, ghosts: seq<string>, id: string, fetched: string -> Contact)
    requires FetchedAll(s, u, ghosts, fetched) && s.reports != []
    requires ghosts + [id] <= Last(s.reports).ghosts
    ensures FetchedAll(s, if Can(u, Fetch(fetched(id))) then Do(u, Fetch(fetched(id))) else u, ghosts + [id], fetched)
  {
    OneMore(ghosts, id, fetched);
    SafeMore(ghosts, id, fetched);
    assert Last(s.reports).ghosts[|ghosts|] == id;
  }

  /** Fetching ghost after ghost sets the times that DoGhostResync sets, and crashes exactly if
      one of the contacts is fatal. */
  lemma {:induction false} FetchIsCode(s: State, k: nat, fetched: string -> Contact)
    requires s.phase == Fetching(0) && s.reports != [] && k <= |Last(s.reports).ghosts|
    ensures var ghosts := Last(s.reports).ghosts[..k]; FetchedAll(s, Run(s, Fetches(ghosts, fetched)), ghosts, fetched)
    decreases k
  {
    var all := Last(s.reports).ghosts;
    if k == 0 {
      assert Fetches(all[..0], fetched) == [];
    } else {
      var front, id := all[..k - 1], all[k - 1];
      assert all[..k] == front + [id];
      assert Fetches(all[..k], fetched) == Fetches(front, fetched) + [Fetch(fetched(id))];
      FetchIsCode(s, k - 1, fetched);
      RunMore(s, Fetches(front, fetched), Fetch(fetched(id)));
      FetchedMore(s, Run(s, Fetches(front, fetched)), front, id, fetched);
    }
  }

  lemma SafeMore(ghosts: seq<string>, id: string, fetched: string -> Contact)
    ensures AllSafe(ghosts + [id], fetched) <==> AllSafe(ghosts, fetched) && !fetched(id).Fatal?
  {
    assert id in ghosts + [id];
    assert forall other :: other in ghosts + [id] <==> other in ghosts || other == id;
  }
}

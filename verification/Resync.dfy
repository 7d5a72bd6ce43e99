/** The background resync queue of chatinfo.go. Times are nanoseconds. */
module Resync {
  import opened Wrappers

  const SECOND: int := 1_000_000_000
  const MIN_INTERVAL: int := 7 * 24 * 3600 * SECOND
  const LOOP_INTERVAL: int := 4 * 3600 * SECOND

  datatype Item = Ghost(id: string) | Portal(id: string)

  /** The zero time of a ghost that was never synced is before everything. */
  predicate Recent(lastSync: map<Item, int>, item: Item, now: int) {
    item in lastSync && lastSync[item] + MIN_INTERVAL > now
  }

  function Key(item: Item): string {
    match item
    case Ghost(id) => "u\U{1}" + id
    case Portal(id) => "g\U{1}" + id
  }

  lemma KeyInjective(a: Item, b: Item)
    requires Key(a) == Key(b)
    ensures a == b
  {
    assert Key(a)[0] == Key(b)[0];
    assert Key(a)[2..] == a.id && Key(b)[2..] == b.id;
  }

  predicate WellKeyed(q: map<string, Item>) {
    forall k :: k in q ==> k == Key(q[k])
  }

  predicate NoDuplicates(ids: seq<string>) {
    forall i, j :: 0 <= i < j < |ids| ==> ids[i] != ids[j]
  }

  /** The item is in the batch, and when it was looked at it had never been synced or at least
      seven days had gone since. */
  predicate Due(q: map<string, Item>, lastSync: map<Item, int>, checked: string -> int, item: Item) {
    && Key(item) in q && q[Key(item)] == item
    && (item in lastSync ==> checked(Key(item)) - lastSync[item] >= 604_800_000_000_000)
  }

  /** Recent means synced less than seven days ago. */
  lemma RecentIff(lastSync: map<Item, int>, item: Item, now: int)
    ensures Recent(lastSync, item, now) <==> item in lastSync && now < lastSync[item] + 604_800_000_000_000
  {
  }

  /** What a background GetUserInfo and the conversion of its contact come to. It is fatal if
      the call panics, if it returns nil without an error, or if the avatar of the contact does
      not parse as a URL: what is nil then is dereferenced. */
  datatype Contact = Fetched | NotFetched | Fatal

  class ResyncQueue {
    var queue: map<string, Item>
    var nextResync: int
    var lastSync: map<Item, int>   // the LastSync of ghost and portal metadata

    constructor (nextResync: int, lastSync: map<Item, int>)
      ensures queue == map[] && this.nextResync == nextResync && this.lastSync == lastSync
    {
      queue := map[];
      this.nextResync := nextResync;
      this.lastSync := lastSync;
    }

    /** EnqueueGhostResync; the first enqueued entry of a key stays. */
    method EnqueueGhost(id: string, now: int)
      requires WellKeyed(queue)
      modifies this`queue
      ensures WellKeyed(queue)
      ensures queue ==
        if Ghost(id) in lastSync && now < lastSync[Ghost(id)] + 604_800_000_000_000 then old(queue)
        else old(queue)["u\U{1}" + id := Ghost(id)]
    {
      if Recent(lastSync, Ghost(id), now) {
        return;
      }
      var uid := Key(Ghost(id));
      if uid !in queue {
        queue := queue[uid := Ghost(id)];
      } else {
        KeyInjective(queue[uid], Ghost(id));
      }
    }

    /** EnqueuePortalResync, for groups only. */
    method EnqueuePortal(id: string, isGroup: bool, now: int)
      requires WellKeyed(queue)
      modifies this`queue
      ensures WellKeyed(queue)
      ensures queue ==
        if !isGroup || (Portal(id) in lastSync && now < lastSync[Portal(id)] + 604_800_000_000_000) then old(queue)
        else old(queue)["g\U{1}" + id := Portal(id)]
    {
      if !isGroup || Recent(lastSync, Portal(id), now) {
        return;
      }
      var uid := Key(Portal(id));
      if uid !in queue {
        queue := queue[uid := Portal(id)];
      } else {
        KeyInjective(queue[uid], Portal(id));
      }
    }

    /** rotateResyncQueue */
    method Rotate(now: int) returns (batch: map<string, Item>)
      modifies this`queue, this`nextResync
      ensures batch == old(queue) && queue == map[] && nextResync == now + 14_400_000_000_000
    {
      nextResync := now + LOOP_INTERVAL;
      if |queue| == 0 {
        return map[];
      }
      batch := queue;
      queue := map[];
    }

    /** The first loop of doGhostResync; it ranges over the batch in any order and reads the
        clock for every item. */
    method SortBatch(batch: map<string, Item>, checked: string -> int)
      returns (ghosts: seq<string>, portals: seq<string>)
      requires WellKeyed(batch)
      ensures NoDuplicates(ghosts) && NoDuplicates(portals)
      ensures forall id :: id in ghosts <==> Due(batch, lastSync, checked, Ghost(id))
      ensures forall id :: id in portals <==> Due(batch, lastSync, checked, Portal(id))
    {
      ghosts, portals := [], [];
      var todo := batch.Keys;
      while todo != {}
        invariant todo <= batch.Keys && NoDuplicates(ghosts) && NoDuplicates(portals)
        invariant forall id :: id in ghosts <==> Key(Ghost(id)) !in todo && Due(batch, lastSync, checked, Ghost(id))
        invariant forall id :: id in portals <==> Key(Portal(id)) !in todo && Due(batch, lastSync, checked, Portal(id))
        decreases |todo|
      {
        var uid :| uid in todo;
        var item := batch[uid];
        OtherKeys(item);
        todo := todo - {uid};
        if !Recent(lastSync, item, checked(uid)) {
          match item
          case Ghost(id) => ghosts := ghosts + [id];
          case Portal(id) => portals := portals + [id];
        }
      }
    }

    /** doGhostResync. `fetched` is what comes of the GetUserInfo calls, `clock` when the ghost's
        UpdateInfo runs its ExtraUpdates. A fatal one ends everything. */
    method DoGhostResync(batch: map<string, Item>, loggedIn: bool, checked: string -> int,
                         fetched: string -> Contact, clock: string -> int)
      returns (queued: seq<string>, crashed: bool)
      requires WellKeyed(batch)
      modifies this`lastSync
      ensures !loggedIn ==> queued == [] && lastSync == old(lastSync) && !crashed
      ensures loggedIn ==> NoDuplicates(queued)
      ensures loggedIn ==> forall id :: id in queued <==> Due(batch, old(lastSync), checked, Portal(id))
      ensures loggedIn ==>
        (crashed <==> exists id :: Due(batch, old(lastSync), checked, Ghost(id)) && fetched(id).Fatal?)
      ensures loggedIn && !crashed ==>
        forall item :: LastOf(lastSync, item) ==
                       Updated(old(lastSync), item, RefreshedItem(batch, old(lastSync), checked, fetched, item), clock)
      ensures loggedIn && crashed ==>
        forall item :: LastOf(lastSync, item) != LastOf(old(lastSync), item) ==>
                       && RefreshedItem(batch, old(lastSync), checked, fetched, item)
                       && LastOf(lastSync, item) == Some(clock(item.id))
    {
      crashed := false;
      if !loggedIn {
        return [], false;
      }
      ghost var was := lastSync;
      var ghosts;
      ghosts, queued := SortBatch(batch, checked);
      for k := 0 to |ghosts|
        invariant !crashed && forall i :: 0 <= i < k ==> !fetched(ghosts[i]).Fatal?
        invariant forall item ::
          LastOf(lastSync, item) == Updated(was, item, IsFetched(ghosts[..k], fetched, item), clock)
      {
        assert ghosts[..k + 1] == ghosts[..k] + [ghosts[k]];
        OneMore(ghosts[..k], ghosts[k], fetched);
        if fetched(ghosts[k]).Fatal? {
          assert ghosts[k] in ghosts;
          return queued, true;
        }
        if fetched(ghosts[k]).Fetched? {
          lastSync := lastSync[Ghost(ghosts[k]) := clock(ghosts[k])];
        }
      }
      assert ghosts[..|ghosts|] == ghosts;
    }
  }

  function LastOf(lastSync: map<Item, int>, item: Item): Option<int> {
    if item in lastSync then Some(lastSync[item]) else None
  }

  function Updated(was: map<Item, int>, item: Item, refreshed: bool, clock: string -> int): Option<int> {
    if refreshed then Some(clock(item.id)) else LastOf(was, item)
  }

  predicate IsFetched(ghosts: seq<string>, fetched: string -> Contact, item: Item) {
    item.Ghost? && item.id in ghosts && fetched(item.id).Fetched?
  }

  lemma OneMore(ghosts: seq<string>, id: string, fetched: string -> Contact)
    ensures forall item :: IsFetched(ghosts + [id], fetched, item) <==>
                           IsFetched(ghosts, fetched, item) || (item == Ghost(id) && fetched(id).Fetched?)
  {
    assert forall other :: other in ghosts + [id] <==> other in ghosts || other == id;
  }

  /** The item is a ghost that was due and could be fetched. */
  predicate RefreshedItem(q: map<string, Item>, lastSync: map<Item, int>, checked: string -> int,
                          fetched: string -> Contact, item: Item) {
    item.Ghost? && Due(q, lastSync, checked, item) && fetched(item.id).Fetched?
  }

  lemma OtherKeys(item: Item)
    ensures forall other :: other != item ==> Key(other) != Key(item)
  {
    forall other | other != item
      ensures Key(other) != Key(item)
    {
      if Key(other) == Key(item) { KeyInjective(other, item); }
    }
  }
}

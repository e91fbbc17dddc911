/** One tick of the download manager: which downloads it stops, which it starts, and how many at once. */
module Downloads {

  /** A batch and the app's ordinal in it. */
  type Key = (string, nat)

  /** An app that still needs its images. */
  datatype Item = Item(key: Key, paused: bool)

  ghost predicate Once(queue: seq<Item>) {
    forall i, j :: 0 <= i < j < |queue| ==> queue[i].key != queue[j].key
  }

  predicate Wants(queue: seq<Item>, key: Key) { exists x <- queue :: x.key == key && !x.paused }

  predicate SameBatch(x: Item, y: Item) { x.key.0 == y.key.0 }

  function InBatch(keys: set<Key>, batch: string): set<Key> { set k <- keys | k.0 == batch }

  lemma OneMoreIn(keys: set<Key>, key: Key, batch: string)
    requires key !in keys
    ensures |InBatch(keys + {key}, batch)| == |InBatch(keys, batch)| + if key.0 == batch then 1 else 0
  {
    assert InBatch(keys + {key}, batch) == InBatch(keys, batch) + if key.0 == batch then {key} else {};
  }

  class Manager {
    /** The downloads with a thread, and whether each was asked to stop. */
    var active: map<Key, bool>

    constructor ()
      ensures active == map[]
    {
      active := map[];
    }

    /** Threads that ended are forgotten; those no longer wanted are asked to stop. */
    method Sweep(queue: seq<Item>, alive: set<Key>)
      modifies this
      ensures active.Keys == old(active).Keys * alive
      ensures forall k <- active :: active[k] == (old(active)[k] || !Wants(queue, k))
    {
      active := map k <- active | k in alive :: active[k] || !Wants(queue, k);
    }

    /**
     * Starts waiting apps in the owner's order while their batch has room. What
     * is started is wanted and within its batch's limit; what is left waiting
     * had no room; and nobody is passed over for a later app of the same batch.
     */
    method Tick(queue: seq<Item>, limits: map<string, nat>, alive: set<Key>)
      requires Once(queue) && forall x <- queue :: x.key.0 in limits
      modifies this
      ensures forall k <- old(active) :: k in alive ==>
        k in active && active[k] == (old(active)[k] || !exists x <- queue :: x.key == k && !x.paused)
      ensures forall k <- active :: (k in old(active) && k in alive) || (!active[k] && exists x <- queue :: x.key == k && !x.paused)
      ensures Allotted(queue, |queue|, limits, old(active).Keys * alive, active.Keys)
    {
      Sweep(queue, alive);
      ghost var kept := active;
      var i := 0;
      while i < |queue|
        invariant 0 <= i <= |queue|
        invariant kept.Keys <= active.Keys && forall k <- active :: active[k] == if k in kept then kept[k] else false
        invariant Allotted(queue, i, limits, kept.Keys, active.Keys)
      {
        var x := queue[i];
        ghost var before := active.Keys;
        if x.key !in active && !x.paused && |InBatch(active.Keys, x.key.0)| < limits[x.key.0] {
          active := active[x.key := false];
          assert active.Keys == before + {x.key};
          Started(queue, i, limits, kept.Keys, before);
        } else {
          LeftAlone(queue, i, limits, kept.Keys, before);
        }
        hide Allotted;
        i := i + 1;
      }
    }
  }

  /**
   * Of the first apps in the queue: what was started is wanted and its batch
   * within its limit; what was left waiting had no room; and whenever one was
   * started, so was every earlier one of its batch that is not paused.
   */
  ghost predicate Allotted(queue: seq<Item>, n: nat, limits: map<string, nat>, kept: set<Key>, keys: set<Key>)
    requires n <= |queue| && forall x <- queue :: x.key.0 in limits
  {
    && (forall k <- keys :: k in kept || exists i :: 0 <= i < n && queue[i].key == k && !queue[i].paused)
    && (forall k <- keys :: k !in kept && k.0 in limits ==> |InBatch(keys, k.0)| <= limits[k.0])
    && (forall i :: 0 <= i < n && !queue[i].paused && queue[i].key !in keys ==>
          |InBatch(keys, queue[i].key.0)| >= limits[queue[i].key.0])
    && (forall i, j :: 0 <= i < j < n && SameBatch(queue[i], queue[j]) && !queue[i].paused ==>
          queue[j].key in kept || queue[j].key !in keys || queue[i].key in keys)
  }

  lemma Started(queue: seq<Item>, n: nat, limits: map<string, nat>, kept: set<Key>, keys: set<Key>)
    requires n < |queue| && Once(queue) && (forall x <- queue :: x.key.0 in limits) && Allotted(queue, n, limits, kept, keys)
    requires !queue[n].paused && queue[n].key !in keys && |InBatch(keys, queue[n].key.0)| < limits[queue[n].key.0]
    ensures Allotted(queue, n + 1, limits, kept, keys + {queue[n].key})
  {
    var key := queue[n].key;
    forall batch ensures |InBatch(keys + {key}, batch)| == |InBatch(keys, batch)| + if key.0 == batch then 1 else 0 {
      OneMoreIn(keys, key, batch);
    }
    hide InBatch;
  }

  lemma LeftAlone(queue: seq<Item>, n: nat, limits: map<string, nat>, kept: set<Key>, keys: set<Key>)
    requires n < |queue| && Once(queue) && (forall x <- queue :: x.key.0 in limits) && Allotted(queue, n, limits, kept, keys)
    requires queue[n].paused || queue[n].key in keys || |InBatch(keys, queue[n].key.0)| >= limits[queue[n].key.0]
    ensures Allotted(queue, n + 1, limits, kept, keys)
  {
  }
}

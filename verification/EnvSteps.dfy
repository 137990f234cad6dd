// The environment's events keep the invariant.
module EnvSteps {
  import opened Text
  import opened Generation
  import opened ApiTypes
  import opened Protocol
  import opened Invariants
  import opened Preservation
  import NpSteps

  /** No entry and no program point changed, and works changed at most in what agents report. */
  ghost predicate Untouched(s: State, t: State) {
    t.clusterStatuses == s.clusterStatuses && t.poolStatuses == s.poolStatuses
    && t.pl == s.pl && t.vr == s.vr && t.hc == s.hc && t.nvr == s.nvr && t.np == s.np
    && t.works.Keys == s.works.Keys && forall k :: k in s.works ==> t.works[k].work == s.works[k].work
  }

  lemma UntouchedCluster(s: State, t: State, cid: string)
    requires Inv(s) && Grows(s, t) && Untouched(s, t)
    ensures PlInv(t, cid) && VrInv(t, cid) && HcInv(t, cid)
  {
    hide HcName, RecordInv, PlInv, VrInv, HcInv, Inv, Rows, Placed, Find, Grows;
    ClusterPart(s, cid);
    SameRows(s, t, cid);
    assert SameWorks(s, t, HcName(cid));
    assert SameRow(s, t, cid, PLACEMENT) && SameRow(s, t, cid, VERSION_RESOLUTION) && SameRow(s, t, cid, HC);
    hide SameRow, SameWorks;
    PlFrame(s, t, cid);
    VrFrame(s, t, cid);
    HcFrame(s, t, cid);
  }

  lemma UntouchedPool(s: State, t: State, key: PoolKey)
    requires Inv(s) && Grows(s, t) && Untouched(s, t)
    ensures NvrInv(t, key)
    ensures (key in t.pools ==> key in s.pools) ==> NpInv(t, key)
  {
    hide NpName, PoolRecordInv, NvrInv, NpInv, Inv, PoolRows, Placed, Find, Grows;
    PoolPart(s, key);
    SamePoolRows(s, t, key);
    assert SameWorks(s, t, NpName(key.1));
    hide SameWorks;
    NvrFrame(s, t, key);
    if key in t.pools ==> key in s.pools {
      NpFrame(s, t, key);
    }
  }

  lemma UntouchedOwned(s: State, t: State)
    requires OwnedInv(s) && Grows(s, t) && Untouched(s, t)
    ensures OwnedInv(t)
  {
    hide HcName, NpName, Placed;
    OwnedFrame(s, t);
  }

  /** After an event that adds no node pool only the records have to be looked at. */
  lemma UntouchedKeeps(s: State, t: State)
    requires Inv(s) && Grows(s, t) && Untouched(s, t) && t.pools.Keys == s.pools.Keys
    requires forall cid :: RecordInv(t, cid)
    requires forall key :: PoolRecordInv(t, key)
    ensures Inv(t)
  {
    hide Inv, RecordInv, PlInv, VrInv, HcInv, PoolRecordInv, NvrInv, NpInv, OwnedInv, Grows, Untouched;
    forall cid ensures PlInv(t, cid) && VrInv(t, cid) && HcInv(t, cid) { UntouchedCluster(s, t, cid); }
    forall key ensures NvrInv(t, key) && NpInv(t, key) {
      assert key in t.pools ==> key in s.pools;
      UntouchedPool(s, t, key);
    }
    OwnedPart(s);
    UntouchedOwned(s, t);
    InvOf(t);
  }

  /** What an event leaves alone, whichever it is. */
  lemma EventTouches(s: State, e: Event)
    ensures Untouched(s, Happen(s, e))
  {
    ReportsKnown(s, e);
    hide Allowed;
  }

  lemma ReportsKnown(s: State, e: Event)
    ensures Allowed(s, e) && e.Report? ==> e.work in s.works
  {
  }

  lemma Recorded(s: State)
    requires Inv(s)
    ensures forall cid :: RecordInv(s, cid)
    ensures forall key :: PoolRecordInv(s, key)
  {
    hide RecordInv, PlInv, VrInv, HcInv, PoolRecordInv, NvrInv, NpInv, OwnedInv;
  }

  lemma ClusterRecorded(s: State, e: Event, cid: string)
    requires RecordInv(s, cid)
    ensures RecordInv(Happen(s, e), cid)
  {
    hide IsInt64;
  }

  lemma PoolRecorded(s: State, e: Event, key: PoolKey)
    requires forall k :: PoolRecordInv(s, k)
    ensures PoolRecordInv(Happen(s, e), key)
  {
    hide IsInt64;
    assert PoolRecordInv(s, key);
  }

  lemma EventRecords(s: State, e: Event)
    requires forall cid :: RecordInv(s, cid)
    requires forall key :: PoolRecordInv(s, key)
    ensures forall cid :: RecordInv(Happen(s, e), cid)
    ensures forall key :: PoolRecordInv(Happen(s, e), key)
  {
    hide RecordInv, PoolRecordInv, Happen;
    forall cid { ClusterRecorded(s, e, cid); }
    forall key { PoolRecorded(s, e, key); }
  }

  /** Nothing recorded is ever taken back. */
  lemma ClusterGrows(s: State, e: Event, cid: string)
    requires RecordInv(s, cid) && cid in s.clusters && Allowed(s, e)
    ensures var t := Happen(s, e);
            && cid in t.clusters && s.clusters[cid].current <= t.clusters[cid].current
            && forall g :: g in s.clusters[cid].history ==>
              g in t.clusters[cid].history && t.clusters[cid].history[g] == s.clusters[cid].history[g]
  {
    hide SameIdentity;
    AllowedCluster(s, e);
    hide Allowed, IsInt64;
    if e.EditCluster? && e.cid == cid {
      assert e.c.generation !in s.clusters[cid].history;
    }
  }

  lemma AllowedCluster(s: State, e: Event)
    requires Allowed(s, e)
    ensures e.CreateCluster? ==> e.cid !in s.clusters
    ensures e.EditCluster? || e.SetConditions? || e.DeleteCluster? ==> e.cid in s.clusters
    ensures e.EditCluster? ==> e.c.generation > s.clusters[e.cid].current
  {
  }

  lemma ReleasesGrow(s: State, e: Event)
    requires Allowed(s, e)
    ensures var t := Happen(s, e);
            forall k :: k in s.releases ==> k in t.releases && t.releases[k] == s.releases[k]
  {
    PublishesNew(s, e);
    hide Allowed, IsInt64;
  }

  lemma PublishesNew(s: State, e: Event)
    requires Allowed(s, e)
    ensures e.Publish? ==> (e.channel, e.version) !in s.releases
  {
  }

  lemma PoolGrows(s: State, e: Event, key: PoolKey)
    requires PoolRecordInv(s, key) && key in s.pools && Allowed(s, e)
    ensures var t := Happen(s, e);
            && key in t.pools && s.pools[key].current <= t.pools[key].current
            && forall g :: g in s.pools[key].history ==>
              g in t.pools[key].history && t.pools[key].history[g] == s.pools[key].history[g]
  {
    AllowedPool(s, e);
    hide Allowed, IsInt64;
    if e.EditPool? && e.key == key {
      assert e.n.generation !in s.pools[key].history;
    }
  }

  lemma AllowedPool(s: State, e: Event)
    requires Allowed(s, e)
    ensures e.CreatePool? ==> e.key !in s.pools
    ensures e.EditPool? || e.DeletePool? ==> e.key in s.pools
    ensures e.EditPool? ==> e.n.generation > s.pools[e.key].current
  {
  }

  lemma EventGrows(s: State, e: Event)
    requires forall cid :: RecordInv(s, cid)
    requires forall key :: PoolRecordInv(s, key)
    ensures Grows(s, Happen(s, e))
  {
    var t := Happen(s, e);
    if !Allowed(s, e) {
      assert t == s;
      return;
    }
    hide Happen, RecordInv, PoolRecordInv;
    ReleasesGrow(s, e);
    forall cid | cid in s.clusters && Allowed(s, e) { ClusterGrows(s, e, cid); }
    forall key | key in s.pools { PoolGrows(s, e, key); }
    EventTouches(s, e);
    forall cid ensures Placed(t, cid) == Placed(s, cid) { SameRows(s, t, cid); }
    hide Placed;
  }

  /** A work under a node pool's name belongs to a known node pool, so a new one has none. */
  lemma NewPoolHasNoWorks(s: State, key: PoolKey, n: NodePool)
    requires OwnedInv(s) && Allowed(s, CreatePool(key, n))
    ensures forall m :: (m, NpName(key.1)) !in s.works
  {
    hide HcName, NpName;
    NamesApart();
    forall m ensures (m, NpName(key.1)) !in s.works {
      assert (m, NpName(key.1)).1 == NpName(key.1);
    }
  }

  /** An unknown node pool has no entry and no process at work. */
  lemma NewPoolIsQuiet(s: State, key: PoolKey)
    requires NpInv(s, key) && key !in s.pools
    ensures Find(PoolRows(s, key), NODE_POOL).None? && NpOf(s, key).NpIdle?
  {
    hide NpInv, Find, PoolRows;
    NpSteps.NpNeedsPool(s, key);
    NpSteps.NpParts(s, key);
    RowNeedsPool(s, key);
  }

  lemma RowNeedsPool(s: State, key: PoolKey)
    requires NpRowInv(s, key) && key !in s.pools
    ensures Find(PoolRows(s, key), NODE_POOL).None?
  {
    hide Find, PoolRows, HcThere, Placed, NpName, GetGeneration;
  }

  lemma CreatePoolIs(s: State, key: PoolKey, n: NodePool)
    requires Allowed(s, CreatePool(key, n))
    ensures var t := Happen(s, CreatePool(key, n));
            key !in s.pools && t.works == s.works && PoolRows(t, key) == PoolRows(s, key)
            && NpOf(t, key) == NpOf(s, key)
  {
    hide IsInt64;
  }

  lemma NewPoolInv(s: State, key: PoolKey, n: NodePool)
    requires Inv(s) && Allowed(s, CreatePool(key, n))
    ensures NpInv(Happen(s, CreatePool(key, n)), key)
  {
    hide Inv, PoolRecordInv, NvrInv, NpInv, OwnedInv, NpName, Find, PoolRows, Allowed, Happen;
    PoolPart(s, key);
    OwnedPart(s);
    CreatePoolIs(s, key, n);
    NewPoolHasNoWorks(s, key, n);
    NewPoolIsQuiet(s, key);
    NewPoolIs(Happen(s, CreatePool(key, n)), key);
  }

  lemma NewPoolIs(t: State, key: PoolKey)
    requires forall m :: (m, NpName(key.1)) !in t.works
    requires Find(PoolRows(t, key), NODE_POOL).None? && NpOf(t, key).NpIdle?
    ensures NpInv(t, key)
  {
    hide NpName, HcName, Find, PoolRows, NpContent, HcThere;
  }

  lemma CreatePoolKeeps(s: State, key: PoolKey, n: NodePool)
    requires Inv(s) && Allowed(s, CreatePool(key, n))
    ensures Inv(Happen(s, CreatePool(key, n)))
  {
    hide Inv, RecordInv, PlInv, VrInv, HcInv, PoolRecordInv, NvrInv, NpInv, OwnedInv, Grows, Untouched, Allowed;
    var e := CreatePool(key, n);
    var t := Happen(s, e);
    Recorded(s);
    EventRecords(s, e);
    EventGrows(s, e);
    EventTouches(s, e);
    NewPoolInv(s, key, n);
    assert t.pools.Keys == s.pools.Keys + {key};
    forall cid ensures PlInv(t, cid) && VrInv(t, cid) && HcInv(t, cid) { UntouchedCluster(s, t, cid); }
    forall k ensures NvrInv(t, k) && NpInv(t, k) {
      if k != key { assert k in t.pools ==> k in s.pools; }
      UntouchedPool(s, t, k);
    }
    OwnedPart(s);
    UntouchedOwned(s, t);
    InvOf(t);
  }

  lemma EventKeeps(s: State, e: Event)
    requires Inv(s)
    ensures Inv(Happen(s, e)) && Grows(s, Happen(s, e))
  {
    hide Inv, RecordInv, PoolRecordInv, Grows, Untouched, IsInt64;
    Recorded(s);
    EventRecords(s, e);
    EventGrows(s, e);
    EventTouches(s, e);
    if Allowed(s, e) && e.CreatePool? {
      CreatePoolKeeps(s, e.key, e.n);
    } else {
      assert Happen(s, e).pools.Keys == s.pools.Keys;
      UntouchedKeeps(s, Happen(s, e));
    }
  }
}

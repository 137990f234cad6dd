// Each process's steps keep the invariant.
module ProcessSteps {
  import opened Wrappers
  import opened ApiTypes
  import opened Release
  import opened Protocol
  import opened Invariants
  import opened Preservation

  lemma AdaptersDistinct()
    ensures PLACEMENT != VERSION_RESOLUTION && PLACEMENT != HC && VERSION_RESOLUTION != HC && NODE_POOL != NODE_POOL_VR
  {
    assert |PLACEMENT| == 17 && |VERSION_RESOLUTION| == 26 && |HC| == 10 && |NODE_POOL| == 16 && |NODE_POOL_VR| == 19;
  }

  /** Landing a status PUT changes one adapter's entry of one cluster. */
  lemma RowLands(s: State, t: State, cid: string, entry: AdapterStatus)
    requires t.clusterStatuses == PutRow(s, cid, entry)
    ensures Find(Rows(t, cid), entry.adapter) == Some(entry)
    ensures forall a :: a != entry.adapter ==> SameRow(s, t, cid, a)
    ensures forall d :: d != cid ==> Rows(t, d) == Rows(s, d)
  {
    forall a ensures Find(Rows(t, cid), a) == if a == entry.adapter then Some(entry) else Find(Rows(s, cid), a) {
      FindAfterPut(Rows(s, cid), entry, a);
    }
  }

  lemma PoolRowLands(s: State, t: State, key: PoolKey, entry: AdapterStatus)
    requires t.poolStatuses == PutPoolRow(s, key, entry)
    ensures Find(PoolRows(t, key), entry.adapter) == Some(entry)
    ensures forall a :: a != entry.adapter ==> SamePoolRow(s, t, key, a)
    ensures forall d :: d != key ==> PoolRows(t, d) == PoolRows(s, d)
  {
    forall a
      ensures Find(PoolRows(t, key), a) == if a == entry.adapter then Some(entry) else Find(PoolRows(s, key), a)
    {
      FindAfterPut(PoolRows(s, key), entry, a);
    }
  }

  // ---- Placement ----

  /** A placement step touches only its own process and, when a PUT lands, its own entry. */
  lemma PlTouches(s: State, cid: string, m: Move)
    requires PlInv(s, cid)
    ensures var t := PlNext(s, cid, m);
            && OnlyCluster(s, t, cid) && t.works == s.works && VrOf(t, cid) == VrOf(s, cid)
            && HcOf(t, cid) == HcOf(s, cid)
            && SameRow(s, t, cid, VERSION_RESOLUTION) && SameRow(s, t, cid, HC)
  {
    var t := PlNext(s, cid, m);
    AdaptersDistinct();
    hide HcName, Find, PutStatus, Rows, Placed, PlTarget;
    if PlOf(s, cid).PlPut? && m.Land? {
      RowLands(s, t, cid, PlOf(s, cid).entry);
    }
    forall d { KeepRows(s, t, d); }
  }

  lemma KeepRows(s: State, t: State, d: string)
    ensures t.clusterStatuses == s.clusterStatuses ==> Rows(t, d) == Rows(s, d) && Placed(t, d) == Placed(s, d)
  {
  }

  lemma KeepPoolRows(s: State, t: State, d: PoolKey)
    ensures t.poolStatuses == s.poolStatuses ==> PoolRows(t, d) == PoolRows(s, d)
  {
  }

  /** A ready placement is final: no placement step changes one. */
  lemma PlOwn(s: State, cid: string, m: Move)
    requires PlInv(s, cid)
    ensures var t := PlNext(s, cid, m);
            PlInv(t, cid) && (Placed(s, cid).Some? ==> Placed(t, cid) == Placed(s, cid))
  {
    var t := PlNext(s, cid, m);
    hide Find, Found, IsReconciled, PutStatus, Current, Rows, ReadPlacement;
    if PlOf(s, cid).PlPut? && m.Land? {
      RowLands(s, t, cid, PlOf(s, cid).entry);
    } else {
      KeepRows(s, t, cid);
    }
  }

  lemma PlKeeps(s: State, cid: string, m: Move)
    requires Inv(s)
    ensures Inv(PlNext(s, cid, m)) && Grows(s, PlNext(s, cid, m))
  {
    var t := PlNext(s, cid, m);
    assert PlInv(s, cid) && VrInv(s, cid) && HcInv(s, cid);
    PlTouches(s, cid, m);
    PlOwn(s, cid, m);
    hide Inv, PlInv, VrInv, HcInv, HcName, Find, PlNext, Placed, Rows;
    forall d | d != cid { PlacedFollowsRows(s, t, d); }
    ProcessGrows(s, t);
    hide Grows;
    VrFrame(s, t, cid);
    HcFrame(s, t, cid);
    ClusterStep(s, t, cid);
  }

  lemma PlacedFollowsRows(s: State, t: State, d: string)
    ensures SameRow(s, t, d, PLACEMENT) ==> Placed(t, d) == Placed(s, d)
    ensures Rows(t, d) == Rows(s, d) ==> Placed(t, d) == Placed(s, d)
  {
  }

  // ---- Version resolution ----

  lemma VrTouches(s: State, cid: string, m: Move)
    requires VrInv(s, cid)
    ensures var t := VrNext(s, cid, m);
            && OnlyCluster(s, t, cid) && t.works == s.works && PlOf(t, cid) == PlOf(s, cid)
            && HcOf(t, cid) == HcOf(s, cid)
            && SameRow(s, t, cid, PLACEMENT) && SameRow(s, t, cid, HC)
  {
    var t := VrNext(s, cid, m);
    AdaptersDistinct();
    hide HcName, Find, PutStatus, Rows, Placed, VrTarget, Canonical;
    if VrOf(s, cid).VrPut? && m.Land? {
      RowLands(s, t, cid, VrOf(s, cid).entry);
    }
    forall d { KeepRows(s, t, d); }
  }

  /** Whatever a version process writes is the one resolution of the version it read. */
  lemma VrOwn(s: State, cid: string, m: Move)
    requires VrInv(s, cid)
    ensures VrInv(VrNext(s, cid, m), cid)
  {
    var t := VrNext(s, cid, m);
    hide Find, Found, IsReconciled, PutStatus, Current, Rows, ReadVersion, BuildChannel;
    if VrOf(s, cid).VrPut? && m.Land? {
      RowLands(s, t, cid, VrOf(s, cid).entry);
    } else {
      KeepRows(s, t, cid);
    }
  }

  lemma VrKeeps(s: State, cid: string, m: Move)
    requires Inv(s)
    ensures Inv(VrNext(s, cid, m)) && Grows(s, VrNext(s, cid, m))
  {
    var t := VrNext(s, cid, m);
    assert PlInv(s, cid) && VrInv(s, cid) && HcInv(s, cid);
    VrTouches(s, cid, m);
    VrOwn(s, cid, m);
    hide Inv, PlInv, VrInv, HcInv, HcName, Find, VrNext, Placed, Rows;
    forall d { PlacedFollowsRows(s, t, d); }
    ProcessGrows(s, t);
    hide Grows;
    PlFrame(s, t, cid);
    HcFrame(s, t, cid);
    ClusterStep(s, t, cid);
  }

  // ---- Node pool version resolution ----

  lemma NvrTouches(s: State, key: PoolKey, m: Move)
    requires NvrInv(s, key)
    ensures var t := NvrNext(s, key, m);
            OnlyPool(s, t, key) && t.works == s.works && NpOf(t, key) == NpOf(s, key)
            && SamePoolRow(s, t, key, NODE_POOL)
  {
    var t := NvrNext(s, key, m);
    AdaptersDistinct();
    hide NpName, Find, PutStatus, PoolRows, NvrTarget, Canonical, BuildNodePoolChannel;
    if NvrOf(s, key).NvrPut? && m.Land? {
      PoolRowLands(s, t, key, NvrOf(s, key).entry);
    }
    forall d { KeepPoolRows(s, t, d); }
  }

  lemma NvrOwn(s: State, key: PoolKey, m: Move)
    requires NvrInv(s, key)
    ensures NvrInv(NvrNext(s, key, m), key)
  {
    if m.Land? { NvrOwnLand(s, key); } else { NvrOwnRead(s, key, m); }
  }

  lemma NvrOwnLand(s: State, key: PoolKey)
    requires NvrInv(s, key)
    ensures NvrInv(NvrNext(s, key, Land), key)
  {
    hide Find, PoolFound, PutStatus, CurrentPool, PoolRows, ReadVersion, BuildChannel, BuildNodePoolChannel, Resolve,
      Consistent;
    var t := NvrNext(s, key, Land);
    if NvrOf(s, key).NvrPut? {
      PoolRowLands(s, t, key, NvrOf(s, key).entry);
    } else {
      KeepPoolRows(s, t, key);
    }
  }

  lemma NvrOwnRead(s: State, key: PoolKey, m: Move)
    requires NvrInv(s, key) && !m.Land?
    ensures NvrInv(NvrNext(s, key, m), key)
  {
    hide Find, PoolFound, PutStatus, CurrentPool, PoolRows, ReadVersion, BuildChannel, BuildNodePoolChannel;
    if NvrOf(s, key).NvrResolve? { NodePoolChannel(NvrOf(s, key).n.releaseVersion); }
    KeepPoolRows(s, NvrNext(s, key, m), key);
  }

  lemma NodePoolChannel(version: string)
    ensures BuildNodePoolChannel(version).Some? ==> BuildNodePoolChannel(version) == Some(BuildChannel(version))
  {
    hide ChannelName;
  }

  lemma NvrKeeps(s: State, key: PoolKey, m: Move)
    requires Inv(s)
    ensures Inv(NvrNext(s, key, m)) && Grows(s, NvrNext(s, key, m))
  {
    hide Inv, NvrInv, NpInv, PoolRecordInv, NpName, Find, NvrNext, Placed, Rows, PoolRows, Grows, SamePoolRow;
    var t := NvrNext(s, key, m);
    PoolPart(s, key);
    NvrTouches(s, key, m);
    NvrOwn(s, key, m);
    NvrGrows(s, t, key);
    NpUnmoved(s, t, key);
    PoolStep(s, t, key);
  }

  lemma NvrGrows(s: State, t: State, key: PoolKey)
    requires OnlyPool(s, t, key) && t.works == s.works
    ensures Grows(s, t)
  {
    hide Rows, Placed, PoolRows, NpName;
    forall d { SameRows(s, t, d); }
    ProcessGrows(s, t);
  }

  /** The nodepool process does not notice a step of the version process. */
  lemma NpUnmoved(s: State, t: State, key: PoolKey)
    requires NpInv(s, key) && Grows(s, t) && OnlyPool(s, t, key) && t.works == s.works
    requires NpOf(t, key) == NpOf(s, key) && SamePoolRow(s, t, key, NODE_POOL)
    ensures NpInv(t, key)
  {
    hide NpInv, Grows, SamePoolRow, Rows, PoolRows, Placed, NpName;
    NpFrame(s, t, key);
  }
}

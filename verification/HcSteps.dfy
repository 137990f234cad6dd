// The hc process's steps keep the invariant.
module HcSteps {
  import opened Wrappers
  import opened Text
  import opened Work
  import opened Generation
  import opened Documents
  import opened ApiTypes
  import opened Payloads
  import opened Release
  import opened Upsert
  import opened Protocol
  import opened Invariants
  import opened Preservation
  import opened ProcessSteps

  /** What a built work carries, once the snapshot it was built from is known to be sound. */
  lemma HcWorkFacts(s: State, cid: string, c: Cluster, p: PlacementData, work: ManifestWork)
    requires IsHcWork(s, cid, c, p, work) && IsInt64(c.generation)
    ensures WorkValid(work) && Gen(work) == c.generation && work.name == HcName(cid) && work.namespace == ""
  {
    HcBuilds(cid, c, ReleaseOf(s, c.spec.releaseVersion).value, p);
    hide HcBuild, HcName, GetGeneration, WorkValid, BuildChannel;
  }

  lemma SnapshotSound(s: State, cid: string, c: Cluster)
    requires RecordInv(s, cid) && Snapshot(s, cid, c)
    ensures IsInt64(c.generation) && c.id == cid && c.generation <= s.clusters[cid].current
  {
  }

  /** A stored hc work of the snapshot's own generation is the one the snapshot builds. */
  lemma HcSameGeneration(s: State, cid: string, c: Cluster, p: PlacementData, work: ManifestWork, w: ManifestWork)
    requires Snapshot(s, cid, c) && HcContent(s, cid, p, w) && IsHcWork(s, cid, c, p, work) && IsInt64(c.generation)
    requires Gen(w) == c.generation
    ensures w == Filed(work, p.managementCluster)
  {
    HcWorkFacts(s, cid, c, p, work);
    hide HcBuild, HcName, GetGeneration, WorkValid, BuildChannel;
  }

  /** Writing an hc work over nothing, or over an earlier one of the same cluster, leaves exactly it. */
  lemma HcWriteLeaves(s: State, cid: string, c: Cluster, p: PlacementData, work: ManifestWork, op: Operation)
    requires HcStoredInv(s, cid) && Snapshot(s, cid, c) && IsInt64(c.generation) && Placed(s, cid) == Some(p)
    requires IsHcWork(s, cid, c, p, work)
    requires CanWrite(s.works, HcKey(cid, p), op)
    ensures var after := WriteWork(s.works, HcKey(cid, p), work, op);
            HcKey(cid, p) in after && after[HcKey(cid, p)].work == Filed(work, p.managementCluster)
  {
    var key := HcKey(cid, p);
    var v := ReleaseOf(s, c.spec.releaseVersion).value;
    HcWorkFacts(s, cid, c, p, work);
    if key in s.works {
      var w := s.works[key].work;
      assert HcContent(s, cid, p, w);
      var d := s.clusters[cid].history[Gen(w)];
      HcPatchReplaces(cid, d, ReleaseOf(s, d.spec.releaseVersion).value, p, c, v, p, p.managementCluster);
      assert w == Filed(Unfiled(w), p.managementCluster);
    } else {
      HcPatchReplaces(cid, c, v, p, c, v, p, p.managementCluster);
    }
    hide HcBuild, HcName, GetGeneration, WorkValid, BuildChannel, Patched, Created;
  }

  /** The program points at which an hc process holds a built work. */
  predicate HasWork(pc: HcPc) {
    pc.HcLookup? || pc.HcWrite? || pc.HcReadBack? || pc.HcPut?
  }

  lemma HcHolds(s: State, cid: string)
    requires HcInv(s, cid) && RecordInv(s, cid) && HasWork(HcOf(s, cid))
    ensures var pc := HcOf(s, cid);
            HcBuilt(s, cid, pc.c, pc.p, pc.work) && IsInt64(pc.c.generation) && cid in s.clusters
            && pc.work.name == HcName(cid) && Gen(pc.work) == pc.c.generation && WorkValid(pc.work)
            && pc.work.namespace == ""
  {
    var pc := HcOf(s, cid);
    hide IsHcWork, HcName, GetGeneration, WorkValid, Placed, Rows, Find;
    SnapshotSound(s, cid, pc.c);
    HcWorkFacts(s, cid, pc.c, pc.p, pc.work);
  }

  lemma WritesOneKey(works: map<Key, Stored>, key: Key, work: ManifestWork, op: Operation)
    ensures var after := WriteWork(works, key, work, op);
            && works.Keys <= after.Keys <= works.Keys + {key}
            && forall k: Key :: k != key && k in works ==> after[k] == works[k]
  {
    hide Created, Patched;
  }

  lemma HcTouchesWorks(s: State, cid: string, m: Move)
    requires HcInv(s, cid) && RecordInv(s, cid)
    ensures var t := HcNext(s, cid, m);
            && s.works.Keys <= t.works.Keys && (t.works != s.works ==> cid in s.clusters)
            && forall k: Key :: k.1 != HcName(cid) ==>
              (k in s.works <==> k in t.works) && (k in s.works ==> t.works[k] == s.works[k])
  {
    hide HcName, PutRow, HcTarget, HcInv, RecordInv, WriteWork, HcHeld, IsHcWork, WorkValid, GetGeneration;
    var pc := HcOf(s, cid);
    if pc.HcWrite? {
      HcHolds(s, cid);
      WritesOneKey(s.works, HcKey(cid, pc.p), pc.work, pc.op);
    }
  }

  lemma HcTouchesRows(s: State, cid: string, m: Move)
    requires HcInv(s, cid)
    ensures var t := HcNext(s, cid, m);
            && SameRow(s, t, cid, PLACEMENT) && SameRow(s, t, cid, VERSION_RESOLUTION)
            && forall d :: d != cid ==> Rows(t, d) == Rows(s, d)
  {
    var t := HcNext(s, cid, m);
    AdaptersDistinct();
    hide HcName, Find, PutStatus, Rows, Placed, HcTarget, HcStoredInv, HcRowInv, HcBuilt, WriteWork;
    if HcOf(s, cid).HcPut? && m.Land? {
      RowLands(s, t, cid, HcOf(s, cid).entry);
    }
    forall d { KeepRows(s, t, d); }
  }

  /** An hc step touches only its own process, its own entry and its own work. */
  lemma HcTouches(s: State, cid: string, m: Move)
    requires HcInv(s, cid) && RecordInv(s, cid)
    ensures var t := HcNext(s, cid, m);
            && OnlyCluster(s, t, cid) && s.works.Keys <= t.works.Keys && (t.works != s.works ==> cid in s.clusters)
            && PlOf(t, cid) == PlOf(s, cid) && VrOf(t, cid) == VrOf(s, cid)
            && SameRow(s, t, cid, PLACEMENT) && SameRow(s, t, cid, VERSION_RESOLUTION)
  {
    hide HcName, Find, PutStatus, Rows, Placed, HcTarget, HcInv, RecordInv, WriteWork, PutRow, SameRow;
    HcTouchesWorks(s, cid, m);
    HcTouchesRows(s, cid, m);
  }

  lemma HcReadsCluster(s: State, cid: string)
    requires HcInv(s, cid) && RecordInv(s, cid) && Found(s, cid)
    ensures HcHeld(s, cid, Current(s, cid))
  {
    hide IsHcWork, HcName, GetGeneration, Placed, Rows, Find;
  }

  /** Behind the gate, the placement is final and the resolution canonical. */
  lemma HcPassesGate(s: State, cid: string, c: Cluster)
    requires HcHeld(s, cid, c) && VrInv(s, cid)
    ensures var pc := HcGated(s, cid, c);
            pc.HcIdle? || (pc.HcLookup? && pc.c == c && HcBuilt(s, cid, c, pc.p, pc.work))
  {
    hide HcBuild, HcHeld, Find, Rows, ReadPlacement, ReadVersion, BuildChannel;
  }

  /** The program text, point by point. */
  lemma HcReadIs(s: State, cid: string)
    ensures var pc, next := HcOf(s, cid), HcTarget(s, cid, Read);
            && (pc.HcIdle? ==>
                  next == if Found(s, cid) && !IsReconciled(s.clusters[cid].conditions) then HcStatuses(Current(s, cid))
                          else HcIdle)
            && (pc.HcStatuses? ==> next == HcGated(s, cid, pc.c))
            && (pc.HcLookup? ==>
                  var op := DecideWork(s, (pc.p.managementCluster, pc.work.name), pc.work);
                  next == if op == Skip then HcReadBack(pc.c, pc.p, pc.work)
                          else HcWrite(pc.c, pc.p, pc.work, op, false))
            && (pc.HcReadBack? ==>
                  var status := ReadStatus(s, (pc.p.managementCluster, pc.work.name));
                  next == HcPut(pc.c, pc.p, pc.work, HcEntry(pc.c.generation, status), false))
            && (pc.HcWrite? || pc.HcPut? ==> next == pc)
  {
    hide HcGated, DecideWork, CanWrite, Found, Current, IsReconciled, HcEntry, ReadStatus;
  }

  lemma HcTargetIs(s: State, cid: string, m: Move)
    ensures var pc, next := HcOf(s, cid), HcTarget(s, cid, m);
            && (m.Land? && pc.HcWrite? ==>
                  var landed := pc.landed || CanWrite(s.works, (pc.p.managementCluster, pc.work.name), pc.op);
                  next == HcWrite(pc.c, pc.p, pc.work, pc.op, landed))
            && (m.Land? && pc.HcPut? ==> next == HcPut(pc.c, pc.p, pc.work, pc.entry, true))
            && (m.Land? && !pc.HcWrite? && !pc.HcPut? ==> next == pc)
            && (m.Fail? ==> next == HcIdle)
            && (m.Select? || m.Graph? ==> next == pc)
            && (m.Return? ==>
                  next == if pc.HcWrite? && pc.landed then HcReadBack(pc.c, pc.p, pc.work)
                          else if pc.HcPut? && pc.landed then HcIdle else pc)
  {
    hide HcGated, DecideWork, CanWrite, Found, Current, IsReconciled, HcEntry, ReadStatus;
  }

  /** A skip leaves what a write would have left; anything else is a write that can be carried out. */
  lemma HcDecides(s: State, cid: string)
    requires HcInv(s, cid) && RecordInv(s, cid) && HcOf(s, cid).HcLookup?
    ensures var pc := HcOf(s, cid);
            var op := DecideWork(s, HcKey(cid, pc.p), pc.work);
            if op == Skip then HcApplied(s, cid, pc.c, pc.p, pc.work) else CanWrite(s.works, HcKey(cid, pc.p), op)
  {
    var pc := HcOf(s, cid);
    HcHolds(s, cid);
    var key := HcKey(cid, pc.p);
    if key in s.works && Gen(s.works[key].work) == Gen(pc.work) {
      HcSameGeneration(s, cid, pc.c, pc.p, pc.work, s.works[key].work);
    }
    hide IsHcWork, HcName, GetGeneration, WorkValid, Placed, Rows, Find;
  }

  // ---- The invariant after each kind of step ----

  /** Where a step that writes nothing takes the process, judged in the state it starts from. */
  lemma HcTargetOk(s: State, cid: string, m: Move)
    requires HcInv(s, cid) && RecordInv(s, cid) && VrInv(s, cid) && !m.Land?
    ensures HcPcOk(s, cid, HcTarget(s, cid, m))
  {
    HcTargetIs(s, cid, m);
    if m.Read? {
      HcReadOk(s, cid);
    } else {
      hide HcTarget, HcHeld, HcBuilt, HcName, HcStoredInv, HcRowInv, RecordInv, VrInv, CanWrite;
    }
  }

  lemma HcReadOk(s: State, cid: string)
    requires HcInv(s, cid) && RecordInv(s, cid) && VrInv(s, cid)
    ensures HcPcOk(s, cid, HcTarget(s, cid, Read))
  {
    var pc := HcOf(s, cid);
    HcReadIs(s, cid);
    hide HcTarget, HcHeld, HcBuilt, HcApplied, HcGated, Found, IsReconciled, HcEntry, ReadStatus, HcStoredInv, HcRowInv,
      RecordInv, VrInv, CanWrite, DecideWork, HcName;
    if pc.HcLookup? {
      HcHolds(s, cid);
      HcDecides(s, cid);
      AppliedIsBuilt(s, cid, pc.c, pc.p, pc.work);
    } else if pc.HcStatuses? {
      HcPassesGate(s, cid, pc.c);
    } else if pc.HcIdle? && Found(s, cid) {
      HcReadsCluster(s, cid);
    }
  }

  lemma AppliedIsBuilt(s: State, cid: string, c: Cluster, p: PlacementData, work: ManifestWork)
    ensures HcApplied(s, cid, c, p, work) ==> HcBuilt(s, cid, c, p, work)
  {
    hide HcBuilt;
  }

  /** Changing only the program point leaves every other fact as it was. */
  lemma HcMoves(s: State, t: State, cid: string)
    requires t == s.(hc := t.hc) && HcInv(s, cid) && HcPcOk(s, cid, HcOf(t, cid))
    ensures HcInv(t, cid)
  {
    KeepRows(s, t, cid);
    assert Grows(s, t) by {
      forall d { KeepRows(s, t, d); }
      ProcessGrows(s, t);
    }
    hide Grows, HcStoredInv, HcRowInv, HcPcOk, Rows, Placed;
    HcStoresFrame(s, t, cid);
    HcPcFrame(s, t, cid, HcOf(t, cid));
  }

  lemma HcOwnQuiet(s: State, cid: string, m: Move)
    requires HcInv(s, cid) && RecordInv(s, cid) && VrInv(s, cid) && !m.Land?
    ensures HcInv(HcNext(s, cid, m), cid)
  {
    HcTargetOk(s, cid, m);
    hide HcInv, HcPcOk, HcTarget;
    HcMoves(s, HcNext(s, cid, m), cid);
  }

  /** Exactly the built work is stored under the cluster's name, and nothing else is. */
  ghost predicate StoresExactly(s: State, t: State, cid: string, p: PlacementData, work: ManifestWork) {
    HcKey(cid, p) in t.works && t.works[HcKey(cid, p)].work == Filed(work, p.managementCluster)
    && forall m :: (m, HcName(cid)) in t.works ==> m == p.managementCluster
  }

  lemma HcWrittenStored(s: State, t: State, cid: string, c: Cluster, p: PlacementData, work: ManifestWork)
    requires Snapshot(s, cid, c) && Placed(s, cid) == Some(p) && IsHcWork(s, cid, c, p, work)
    requires Gen(work) == c.generation && work.namespace == ""
    requires SameObjects(s, t) && Placed(t, cid) == Placed(s, cid) && StoresExactly(s, t, cid, p, work)
    ensures HcStoredInv(t, cid)
  {
    hide IsHcWork, HcName, GetGeneration, Placed;
    ContentSame(s, t, cid);
    assert Unfiled(Filed(work, p.managementCluster)) == work;
  }

  lemma HcWrittenApplied(s: State, t: State, cid: string, c: Cluster, p: PlacementData, work: ManifestWork)
    requires HcBuilt(s, cid, c, p, work) && Gen(work) == c.generation
    requires SameObjects(s, t) && Rows(t, cid) == Rows(s, cid) && Placed(t, cid) == Placed(s, cid)
    requires StoresExactly(s, t, cid, p, work)
    ensures HcRowInv(t, cid) && HcApplied(t, cid, c, p, work)
  {
    hide IsHcWork, HcName, GetGeneration, Placed, Rows, Find;
    ContentSame(s, t, cid);
  }

  /** What landing an hc write does to the state. */
  lemma HcWriteEffect(s: State, cid: string)
    requires HcInv(s, cid) && RecordInv(s, cid) && HcOf(s, cid).HcWrite?
    ensures var t, pc := HcNext(s, cid, Land), HcOf(s, cid);
            && SameObjects(s, t) && t.clusterStatuses == s.clusterStatuses
            && t.works == WriteWork(s.works, HcKey(cid, pc.p), pc.work, pc.op)
            && HcOf(t, cid) == HcWrite(pc.c, pc.p, pc.work, pc.op, true)
  {
    hide HcInv, HcBuilt, HcName, WriteWork, RecordInv, HcTarget, WorkValid, GetGeneration;
    HcHolds(s, cid);
    HcWriteTarget(s, cid);
  }

  /** A write in flight either has landed or still can. */
  lemma HcWriteFacts(s: State, cid: string)
    requires HcInv(s, cid) && HcOf(s, cid).HcWrite?
    ensures var pc := HcOf(s, cid); pc.landed || CanWrite(s.works, HcKey(cid, pc.p), pc.op)
  {
    hide HcStoredInv, HcRowInv, HcBuilt, HcApplied, HcName, CanWrite;
  }

  lemma HcWriteTarget(s: State, cid: string)
    requires HcInv(s, cid) && RecordInv(s, cid) && HcOf(s, cid).HcWrite?
    ensures var pc := HcOf(s, cid); HcTarget(s, cid, Land) == HcWrite(pc.c, pc.p, pc.work, pc.op, true)
  {
    hide HcTarget, HcInv, HcBuilt, HcName, RecordInv, WorkValid, GetGeneration, CanWrite;
    HcHolds(s, cid);
    HcWriteFacts(s, cid);
    HcTargetIs(s, cid, Land);
  }

  lemma HcWriteStoresExactly(s: State, cid: string)
    requires HcInv(s, cid) && RecordInv(s, cid) && HcOf(s, cid).HcWrite?
    ensures StoresExactly(s, HcNext(s, cid, Land), cid, HcOf(s, cid).p, HcOf(s, cid).work)
  {
    hide HcNext, HcInv, HcHeld, IsHcWork, HcName, GetGeneration, WriteWork, WorkValid, Rows, Placed, RecordInv,
      HcRowInv, HcPcOk, CanWrite;
    var t, pc := HcNext(s, cid, Land), HcOf(s, cid);
    HcWriteEffect(s, cid);
    HcHolds(s, cid);
    HcWriteFacts(s, cid);
    HcParts(s, cid);
    WritesOneKey(s.works, HcKey(cid, pc.p), pc.work, pc.op);
    HcOneHome(s, cid, pc.p);
    if CanWrite(s.works, HcKey(cid, pc.p), pc.op) {
      HcHeldSnapshot(s, cid, pc.c);
      HcWriteLeaves(s, cid, pc.c, pc.p, pc.work, pc.op) by { hide HcStoredInv; }
    } else {
      HcLandedFacts(s, cid);
      assert WriteWork(s.works, HcKey(cid, pc.p), pc.work, pc.op) == s.works by {
        CannotWrite(s.works, HcKey(cid, pc.p), pc.work, pc.op);
      }
    }
  }

  lemma HcParts(s: State, cid: string)
    requires HcInv(s, cid)
    ensures HcStoredInv(s, cid) && HcRowInv(s, cid) && HcPcOk(s, cid, HcOf(s, cid))
  {
    hide HcStoredInv, HcRowInv, HcPcOk;
  }

  lemma HcOneHome(s: State, cid: string, p: PlacementData)
    requires HcStoredInv(s, cid) && Placed(s, cid) == Some(p)
    ensures forall m :: (m, HcName(cid)) in s.works ==> m == p.managementCluster
  {
    hide HcContent, HcName, Placed;
  }

  lemma HcHeldSnapshot(s: State, cid: string, c: Cluster)
    requires HcHeld(s, cid, c)
    ensures Snapshot(s, cid, c)
  {
    hide HcName, GetGeneration, Rows, Find;
  }

  lemma HcLandedFacts(s: State, cid: string)
    requires HcInv(s, cid) && HcOf(s, cid).HcWrite? && HcOf(s, cid).landed
    ensures var pc := HcOf(s, cid);
            var key := HcKey(cid, pc.p);
            key in s.works && s.works[key].work == Filed(pc.work, pc.p.managementCluster)
  {
    hide HcStoredInv, HcRowInv, HcBuilt, HcName;
  }

  lemma CannotWrite(works: map<Key, Stored>, key: Key, work: ManifestWork, op: Operation)
    requires !CanWrite(works, key, op)
    ensures WriteWork(works, key, work, op) == works
  {
  }

  lemma ContentSame(s: State, t: State, cid: string)
    requires t.clusters == s.clusters && t.releases == s.releases
    ensures forall c, p, work :: IsHcWork(t, cid, c, p, work) <==> IsHcWork(s, cid, c, p, work)
  {
    hide HcBuild, BuildChannel;
  }

  /** The write lands: the stored work is now exactly the one built, and nothing newer is stored or reported. */
  lemma HcOwnWrite(s: State, cid: string)
    requires HcInv(s, cid) && RecordInv(s, cid) && HcOf(s, cid).HcWrite?
    ensures HcInv(HcNext(s, cid, Land), cid)
  {
    hide HcNext, HcInv, HcName, StoresExactly, IsHcWork, Rows, Placed, RecordInv, WriteWork, GetGeneration, WorkValid,
      HcHeld, HcStoredInv, HcRowInv;
    var t, pc := HcNext(s, cid, Land), HcOf(s, cid);
    HcWriteEffect(s, cid);
    HcWriteStoresExactly(s, cid);
    HcHolds(s, cid);
    KeepRows(s, t, cid);
    HcHeldSnapshot(s, cid, pc.c);
    HcWrittenStored(s, t, cid, pc.c, pc.p, pc.work);
    HcWrittenApplied(s, t, cid, pc.c, pc.p, pc.work);
    HcInvOf(t, cid);
  }

  lemma HcInvOf(t: State, cid: string)
    requires HcStoredInv(t, cid) && HcRowInv(t, cid) && HcPcOk(t, cid, HcOf(t, cid))
    ensures HcInv(t, cid)
  {
    hide HcStoredInv, HcRowInv, HcPcOk;
  }

  /** The report lands: it names the generation of the work that is stored. */
  lemma HcOwnPut(s: State, cid: string)
    requires HcInv(s, cid) && RecordInv(s, cid) && HcOf(s, cid).HcPut?
    ensures HcInv(HcNext(s, cid, Land), cid)
  {
    hide HcInv, HcTarget, HcStoredInv, HcRowInv, HcBuilt, HcApplied, Rows, Find, PutRow, Placed, RecordInv,
      GetGeneration, WorkValid, HcName;
    var t, pc := HcNext(s, cid, Land), HcOf(s, cid);
    HcHolds(s, cid);
    HcParts(s, cid);
    HcTargetIs(s, cid, Land);
    RowLands(s, t, cid, pc.entry);
    AdaptersDistinct();
    PlacedFollowsRows(s, t, cid);
    HcReportedOk(s, t, cid, pc.c, pc.p, pc.work, pc.entry);
    HcInvOf(t, cid);
  }

  lemma HcReportedOk(s: State, t: State, cid: string, c: Cluster, p: PlacementData, work: ManifestWork,
          entry: AdapterStatus)
    requires HcStoredInv(s, cid) && HcApplied(s, cid, c, p, work) && Gen(work) == c.generation
    requires entry.observedGeneration == c.generation
    requires SameObjects(s, t) && t.works == s.works && Placed(t, cid) == Placed(s, cid)
    requires Find(Rows(t, cid), HC) == Some(entry)
    ensures HcStoredInv(t, cid) && HcRowInv(t, cid) && HcApplied(t, cid, c, p, work)
  {
    hide IsHcWork, HcName, GetGeneration, Placed, Rows, Find;
    ContentSame(s, t, cid);
  }

  lemma HcOwn(s: State, cid: string, m: Move)
    requires HcInv(s, cid) && RecordInv(s, cid) && VrInv(s, cid)
    ensures HcInv(HcNext(s, cid, m), cid)
  {
    if m.Land? && HcOf(s, cid).HcWrite? {
      HcOwnWrite(s, cid);
    } else if m.Land? && HcOf(s, cid).HcPut? {
      HcOwnPut(s, cid);
    } else if m.Land? {
      hide HcInv;
      HcLandsNothing(s, cid);
    } else {
      HcOwnQuiet(s, cid, m);
    }
  }

  lemma HcLandsNothing(s: State, cid: string)
    requires HcInv(s, cid) && !HcOf(s, cid).HcWrite? && !HcOf(s, cid).HcPut?
    ensures HcInv(HcNext(s, cid, Land), cid)
  {
    var t := HcNext(s, cid, Land);
    HcTargetIs(s, cid, Land);
    hide HcStoredInv, HcRowInv, HcPcOk, HcTarget;
    HcMoves(s, t, cid);
  }

  lemma HcKeeps(s: State, cid: string, m: Move)
    requires Inv(s)
    ensures Inv(HcNext(s, cid, m)) && Grows(s, HcNext(s, cid, m))
  {
    var t := HcNext(s, cid, m);
    assert RecordInv(s, cid) && PlInv(s, cid) && VrInv(s, cid) && HcInv(s, cid);
    HcTouches(s, cid, m);
    HcOwn(s, cid, m);
    hide Inv, RecordInv, PlInv, VrInv, HcInv, HcName, Find, HcNext, Placed, Rows;
    assert Grows(s, t) by {
      forall d { PlacedFollowsRows(s, t, d); }
      ProcessGrows(s, t);
    }
    hide Grows;
    PlFrame(s, t, cid);
    VrFrame(s, t, cid);
    ClusterStep(s, t, cid);
  }
}

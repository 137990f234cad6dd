// Whole reconciles that nobody interrupts and whose calls are all answered, as functions on the state.
module Whole {
  import opened Release
  import opened Protocol

  function PlWhole(s: State, cid: string, mc: string, domain: string): State {
    var asked := PlNext(s, cid, Read);
    if PlOf(asked, cid).PlIdle? then asked else PlFromGate(asked, cid, mc, domain)
  }

  function PlFromGate(s: State, cid: string, mc: string, domain: string): State {
    var gated := PlNext(s, cid, Read);
    if PlOf(gated, cid).PlIdle? then gated else PlFromPick(gated, cid, mc, domain)
  }

  function PlFromPick(s: State, cid: string, mc: string, domain: string): State {
    PlNext(PlNext(PlNext(s, cid, Select(mc, domain)), cid, Land), cid, Return)
  }

  function VrWhole(s: State, cid: string, nodes: seq<Node>): State {
    var asked := VrNext(s, cid, Read);
    if VrOf(asked, cid).VrIdle? then asked else VrFromGate(asked, cid, nodes)
  }

  function VrFromGate(s: State, cid: string, nodes: seq<Node>): State {
    var gated := VrNext(s, cid, Read);
    if VrOf(gated, cid).VrIdle? then gated else VrFromGraph(gated, cid, nodes)
  }

  function VrFromGraph(s: State, cid: string, nodes: seq<Node>): State {
    var found := VrNext(s, cid, Graph(nodes));
    if VrOf(found, cid).VrIdle? then found else VrNext(VrNext(found, cid, Land), cid, Return)
  }

  function NvrWhole(s: State, key: PoolKey, nodes: seq<Node>): State {
    var asked := NvrNext(s, key, Read);
    if NvrOf(asked, key).NvrIdle? then asked else NvrFromGate(asked, key, nodes)
  }

  function NvrFromGate(s: State, key: PoolKey, nodes: seq<Node>): State {
    var gated := NvrNext(s, key, Read);
    if NvrOf(gated, key).NvrIdle? then gated else NvrFromGraph(gated, key, nodes)
  }

  function NvrFromGraph(s: State, key: PoolKey, nodes: seq<Node>): State {
    var found := NvrNext(s, key, Graph(nodes));
    if NvrOf(found, key).NvrIdle? then found else NvrNext(NvrNext(found, key, Land), key, Return)
  }

  function HcWhole(s: State, cid: string): State {
    var asked := HcNext(s, cid, Read);
    if HcOf(asked, cid).HcIdle? then asked else HcFromGate(asked, cid)
  }

  function HcFromGate(s: State, cid: string): State {
    var gated := HcNext(s, cid, Read);
    if HcOf(gated, cid).HcIdle? then gated else HcApplyAndReport(gated, cid)
  }

  function HcApplyAndReport(s: State, cid: string): State {
    var looked := HcNext(s, cid, Read);
    var applied := if HcOf(looked, cid).HcWrite? then HcNext(HcNext(looked, cid, Land), cid, Return) else looked;
    HcNext(HcNext(HcNext(applied, cid, Read), cid, Land), cid, Return)
  }

  function NpWhole(s: State, key: PoolKey): State {
    var asked := NpNext(s, key, Read);
    if NpOf(asked, key).NpIdle? then asked else NpFromCluster(asked, key)
  }

  function NpFromCluster(s: State, key: PoolKey): State {
    var cluster := NpNext(s, key, Read);
    if NpOf(cluster, key).NpIdle? then cluster else NpFromGate(NpNext(cluster, key, Read), key)
  }

  function NpFromGate(s: State, key: PoolKey): State {
    var gated := NpNext(s, key, Read);
    if NpOf(gated, key).NpIdle? then gated else NpApplyAndReport(gated, key)
  }

  function NpApplyAndReport(s: State, key: PoolKey): State {
    var looked := NpNext(s, key, Read);
    var applied := if NpOf(looked, key).NpWrite? then NpNext(NpNext(looked, key, Land), key, Return) else looked;
    NpNext(NpNext(NpNext(applied, key, Read), key, Land), key, Return)
  }

  /** A page that fits the published releases fits them in any state that has the same. */
  lemma ConsistentStays(s: State, t: State, channel: string, nodes: seq<Node>)
    requires Consistent(s, channel, nodes) && t.releases == s.releases
    ensures Consistent(t, channel, nodes)
  {
  }

  // ---- What one step changes ----

  lemma PlStepIs(s: State, cid: string, m: Move)
    ensures var pc, t := PlOf(s, cid), PlNext(s, cid, m);
            && PlOf(t, cid) == PlTarget(s, cid, m) && Next(s, Pl(cid, m)) == t
            && t == s.(pl := t.pl,
                       clusterStatuses := if pc.PlPut? && m.Land? then PutRow(s, cid, pc.entry) else s.clusterStatuses)
  {
    hide PlTarget, PutRow;
  }

  lemma VrStepIs(s: State, cid: string, m: Move)
    ensures var pc, t := VrOf(s, cid), VrNext(s, cid, m);
            && VrOf(t, cid) == VrTarget(s, cid, m) && Next(s, Vr(cid, m)) == t
            && t == s.(vr := t.vr,
                       clusterStatuses := if pc.VrPut? && m.Land? then PutRow(s, cid, pc.entry) else s.clusterStatuses)
  {
    hide VrTarget, PutRow;
  }

  lemma NvrStepIs(s: State, key: PoolKey, m: Move)
    ensures var pc, t := NvrOf(s, key), NvrNext(s, key, m);
            && NvrOf(t, key) == NvrTarget(s, key, m) && Next(s, Nvr(key, m)) == t
            && t == s.(nvr := t.nvr,
                       poolStatuses := if pc.NvrPut? && m.Land? then PutPoolRow(s, key, pc.entry) else s.poolStatuses)
  {
    hide NvrTarget, PutPoolRow;
  }

  lemma HcStepIs(s: State, cid: string, m: Move)
    ensures var pc, t := HcOf(s, cid), HcNext(s, cid, m);
            && HcOf(t, cid) == HcTarget(s, cid, m) && Next(s, Hc(cid, m)) == t
            && t == s.(hc := t.hc,
                       works := if pc.HcWrite? && m.Land?
                                then WriteWork(s.works, (pc.p.managementCluster, pc.work.name), pc.work, pc.op)
                                  else s.works,
                       clusterStatuses := if pc.HcPut? && m.Land? then PutRow(s, cid, pc.entry) else s.clusterStatuses)
  {
    hide HcTarget, PutRow, WriteWork;
  }

  lemma NpStepIs(s: State, key: PoolKey, m: Move)
    ensures var pc, t := NpOf(s, key), NpNext(s, key, m);
            && NpOf(t, key) == NpTarget(s, key, m) && Next(s, Np(key, m)) == t
            && t == s.(np := t.np,
                       works := if pc.NpWrite? && m.Land?
                                then WriteWork(s.works, (pc.p.managementCluster, pc.work.name), pc.work, pc.op)
                                  else s.works,
                       poolStatuses := if pc.NpPut? && m.Land? then PutPoolRow(s, key, pc.entry) else s.poolStatuses)
  {
    hide NpTarget, PutPoolRow, WriteWork;
  }
}

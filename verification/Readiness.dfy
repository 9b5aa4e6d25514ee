/** Ready=True is never reported without cause: the answers that justify it are in the log of some pass. */
module Readiness {
  import opened Search
  import opened Tags
  import opened Machines
  import opened Protocol
  import opened Invariants
  import L = Lifecycle
  import PID = ProviderID

  // ---- evidence in the log of a pass

  /** The answer shows the server id of the machine with that status. */
  predicate Shows(k: Key, spec: Spec, x: Exchange, id: string, status: string) {
    || (x.call == Getting(id) && x.answer == Found(id, status))
    || (x.call.Finding? && x.answer.Listed?
        && var r := Scan(k.kind, x.answer.entries, Params(k, spec)); r.One? && r.entry.id == id && r.entry.status == status)
    || (x.call.Creating? && x.answer == Created(id, status))
  }

  predicate Sighted(k: Key, spec: Spec, log: seq<Exchange>, id: string, status: string) {
    exists i :: 0 <= i < |log| && Shows(k, spec, log[i], id, status)
  }

  /** The load balancer is active with the server among its members, or has just accepted it. */
  predicate Accepts(x: Exchange, lb: string, id: string) {
    || (x.call == LbGetting(lb, id) && x.answer.LbGot? && x.answer.active && id in x.answer.members)
    || (x.call == LbUpdating(lb, id) && x.answer.Done?)
  }

  predicate Joined(log: seq<Exchange>, lb: string, id: string) {
    exists i :: 0 <= i < |log| && Accepts(log[i], lb, id)
  }

  predicate Lists(x: Exchange, id: string, vpc: string) {
    x.call == VpcListing(id) && x.answer.VpcListed? && vpc in x.answer.vpcs
  }

  predicate Attached(log: seq<Exchange>, id: string, vpc: string) {
    exists i :: 0 <= i < |log| && Lists(log[i], id, vpc)
  }

  /** Everything that Ready=True asserts, as this pass has seen it. */
  predicate Evidence(k: Key, spec: Spec, p: Pass) {
    && p.facts.clusterReady && p.facts.bootstrap
    && p.sight.Saw? && ServerID(p.mem) == p.sight.id
    && Sighted(k, spec, p.log, p.sight.id, "active")
    && (spec.controlPlane ==> Joined(p.log, LoadBalancerID(k.kind, p.facts), p.sight.id))
    && (k.kind == BareMetal && spec.vpcID != "" ==> Attached(p.log, p.sight.id, spec.vpcID))
  }

  /** What the pass has gathered so far. */
  predicate Trail(k: Key, spec: Spec, p: Pass) {
    && (!p.mem.deleting && !p.call.Closing? ==> p.facts.clusterReady && p.facts.bootstrap)
    && (p.sight.Saw? ==> Sighted(k, spec, p.log, p.sight.id, p.sight.status))
    && (p.call.LbGetting? || p.call.LbUpdating? ==>
          && p.call.lb == LoadBalancerID(k.kind, p.facts)
          && (k.kind == BareMetal && spec.vpcID != "" ==> Attached(p.log, p.call.id, spec.vpcID)))
  }

  predicate IsTrue(m: Machine) {
    m.cond.Ready? && m.cond.status == True
  }

  lemma LogGrows(k: Key, spec: Spec, log: seq<Exchange>, x: Exchange)
    ensures forall id, status :: Sighted(k, spec, log, id, status) ==> Sighted(k, spec, log + [x], id, status)
    ensures forall id, vpc :: Attached(log, id, vpc) ==> Attached(log + [x], id, vpc)
    ensures forall id, status :: Shows(k, spec, x, id, status) ==> Sighted(k, spec, log + [x], id, status)
    ensures forall lb, id :: Accepts(x, lb, id) ==> Joined(log + [x], lb, id)
    ensures forall id, vpc :: Lists(x, id, vpc) ==> Attached(log + [x], id, vpc)
  {
    hide Shows, Accepts, Lists;
    var log' := log + [x];
    assert log'[|log|] == x;
    assert forall i :: 0 <= i < |log| ==> log'[i] == log[i];
  }

  /** The answers that tell the pass about a server. */
  lemma TrailTakesUp(cfg: Config, servers: map<string, Server>, k: Key, p: Pass, a: Answer)
    requires k in cfg.machines && PassOK(cfg, servers, k, p) && Trail(k, cfg.machines[k], p)
    requires p.call.Getting? || p.call.Finding? || p.call.Creating?
    requires p.call.Getting? && a.Found? ==> a.id == p.call.id
    requires var n := Next(k, cfg.machines[k], p, a).value; n.sight.Saw? ==> ServerID(n.mem) == n.sight.id
    ensures var n := Next(k, cfg.machines[k], p, a).value;
            Trail(k, cfg.machines[k], n) && (IsTrue(n.mem) ==> Kept(p, n) || Evidence(k, cfg.machines[k], n))
  {
    hide PID.ToResourceID, PID.FromResourceID, OwnedBy, Scan, Have, Sighted, Joined, Attached, LoadBalancerID;
    LogGrows(k, cfg.machines[k], p.log, Exchange(p.call, a));
  }

  /** The answers on the way from the server to Ready. */
  lemma TrailGoesOn(cfg: Config, servers: map<string, Server>, k: Key, p: Pass, a: Answer)
    requires k in cfg.machines && PassOK(cfg, servers, k, p) && Trail(k, cfg.machines[k], p)
    requires p.call.Patching? || p.call.VpcListing? || p.call.VpcAttaching? || p.call.LbGetting? || p.call.LbUpdating?
    ensures var n := Next(k, cfg.machines[k], p, a).value;
            Trail(k, cfg.machines[k], n) && (IsTrue(n.mem) ==> Kept(p, n) || Evidence(k, cfg.machines[k], n))
  {
    hide PID.ToResourceID, PID.FromResourceID, OwnedBy, Join, AfterVpcList, AfterVpcAttach, AfterLbGet, AfterLbUpdate,
         Sighted, Joined, Attached, LoadBalancerID;
    LogGrows(k, cfg.machines[k], p.log, Exchange(p.call, a));
  }

  lemma TrailDeletes(k: Key, spec: Spec, p: Pass, a: Answer)
    requires DeleteCall(p.call) && p.mem.deleting && p.sight.NoServer?
    ensures var n := Next(k, spec, p, a).value; Trail(k, spec, n) && (IsTrue(n.mem) ==> Kept(p, n))
  {
    hide PID.ToResourceID, Scan, AfterRelist, AfterLbRemoveGet;
  }

  lemma TrailStep(cfg: Config, s: State, k: Key, a: Answer)
    requires ConfigOK(cfg) && Inv(cfg, s) && Enabled(cfg, s, Answered(k, a)) && Trail(k, cfg.machines[k], s.passes[k])
    ensures var s' := Deliver(cfg, s, k, a);
            k in s'.passes ==> var p, n := s.passes[k], s'.passes[k];
              && Trail(k, cfg.machines[k], n) && (IsTrue(n.mem) ==> Kept(p, n) || Evidence(k, cfg.machines[k], n))
  {
    hide PID.ToResourceID, OwnedBy, WellMade, CallOK, AfterGet, AfterFind, AfterCreate, AfterVpcList, AfterVpcAttach, AfterLbGet,
         AfterLbUpdate, AfterLbRemoveGet, AfterRelist, Join, Trail, Evidence;
    var p := s.passes[k];
    assert PassOK(cfg, s.servers, k, p);
    NextOK(cfg, s, k, a);
    if p.call.Getting? || p.call.Finding? || p.call.Creating? {
      TrailTakesUp(cfg, s.servers, k, p, a);
    } else if DeleteCall(p.call) {
      TrailDeletes(k, cfg.machines[k], p, a);
    } else if !p.call.Closing? {
      TrailGoesOn(cfg, s.servers, k, p, a);
    }
  }

  // ---- over runs

  ghost predicate TrailInv(cfg: Config, s: State) {
    forall k :: k in s.passes ==> k in cfg.machines && Trail(k, cfg.machines[k], s.passes[k])
  }

  lemma StartTrail(k: Key, spec: Spec, m: Machine, f: Facts)
    ensures Trail(k, spec, Start(k, spec, m, f))
  {
    hide PID.ToResourceID, Sighted, Attached;
  }

  lemma TrailInvStep(cfg: Config, s: State, e: Event, s': State)
    requires ConfigOK(cfg) && Inv(cfg, s) && TrailInv(cfg, s) && Step(cfg, s, e, s')
    ensures TrailInv(cfg, s')
  {
    hide Start, Next, ServersAfter, StoredAfter, Trail, PassOK, MachineOK, ServersOK;
    forall k | k in s'.passes ensures k in cfg.machines && Trail(k, cfg.machines[k], s'.passes[k]) {
      if e.Begin? && e.k == k {
        StartTrail(k, cfg.machines[k], s.stored[k], e.facts);
      } else if e.Answered? && e.k == k {
        TrailStep(cfg, s, k, e.a);
      }
    }
  }

  lemma {:induction false} TrailAlong(cfg: Config, states: seq<State>, events: seq<Event>, i: nat)
    requires ConfigOK(cfg) && IsRun(cfg, states, events) && i < |states|
    ensures TrailInv(cfg, states[i])
  {
    if i > 0 {
      TrailAlong(cfg, states, events, i - 1);
      InvAlong(cfg, states, events, i - 1);
      assert events[i - 1] == events[i - 1];
      TrailInvStep(cfg, states[i - 1], events[i - 1], states[i]);
    }
  }

  /** In state j the pass of k holds the evidence for the server id. */
  ghost predicate EvidenceAt(cfg: Config, s: State, k: Key, id: string) {
    k in cfg.machines && k in s.passes && Evidence(k, cfg.machines[k], s.passes[k]) && s.passes[k].sight.id == id
  }

  /** The object of k in state i is the one that was there in state j. */
  ghost predicate NotMadeAnew(events: seq<Event>, j: nat, i: nat, k: Key)
    requires i <= |events|
  {
    forall m :: j <= m < i ==> events[m] != UserCreate(k)
  }

  ghost predicate Justified(cfg: Config, states: seq<State>, events: seq<Event>, i: nat, k: Key, id: string)
    requires i < |states| == |events| + 1
  {
    exists j: nat :: j <= i && EvidenceAt(cfg, states[j], k, id) && NotMadeAnew(events, j, i, k)
  }

  /** Every Ready=True, stored or in memory, is justified for the server that its object names. */
  ghost predicate AllJustified(cfg: Config, states: seq<State>, events: seq<Event>, i: nat)
    requires i < |states| == |events| + 1
  {
    && (forall k :: k in states[i].stored && IsTrue(states[i].stored[k]) ==> Justified(cfg, states, events, i, k, ServerID(states[i].stored[k])))
    && (forall k :: k in states[i].passes && IsTrue(states[i].passes[k].mem) ==> Justified(cfg, states, events, i, k, ServerID(states[i].passes[k].mem)))
  }

  lemma StartTrue(k: Key, spec: Spec, m: Machine, f: Facts)
    ensures var p := Start(k, spec, m, f); IsTrue(p.mem) ==> IsTrue(m) && ServerID(p.mem) == ServerID(m)
  {
    hide PID.ToResourceID;
  }

  /** Ready=True in a pass is fresh evidence, or was there before for the same server. */
  lemma PassTrue(cfg: Config, s: State, e: Event, s': State, k: Key)
    requires ConfigOK(cfg) && Inv(cfg, s) && TrailInv(cfg, s) && L.LifeInv(s) && Step(cfg, s, e, s')
    requires k in s'.passes && IsTrue(s'.passes[k].mem)
    ensures e != UserCreate(k)
    ensures var id := ServerID(s'.passes[k].mem);
            || EvidenceAt(cfg, s', k, id)
            || (k in s.passes && IsTrue(s.passes[k].mem) && ServerID(s.passes[k].mem) == id)
            || (k in s.stored && IsTrue(s.stored[k]) && ServerID(s.stored[k]) == id)
  {
    hide PID.ToResourceID, Start, Next, ServersAfter, StoredAfter, Trail, Evidence, MachineOK, ServersOK, PassOK, Waits, Fails, Succeeds;
    if e.Begin? && e.k == k {
      StartTrue(k, cfg.machines[k], s.stored[k], e.facts);
    } else if e.Answered? && e.k == k {
      AnsweredTrue(cfg, s, k, e.a);
    }
  }

  lemma AnsweredTrue(cfg: Config, s: State, k: Key, a: Answer)
    requires ConfigOK(cfg) && Inv(cfg, s) && TrailInv(cfg, s) && L.LifeInv(s) && Enabled(cfg, s, Answered(k, a))
    requires var s' := Deliver(cfg, s, k, a); k in s'.passes && IsTrue(s'.passes[k].mem)
    ensures var s' := Deliver(cfg, s, k, a);
            var id := ServerID(s'.passes[k].mem);
            || EvidenceAt(cfg, s', k, id)
            || (IsTrue(s.passes[k].mem) && ServerID(s.passes[k].mem) == id)
  {
    hide PID.ToResourceID, ServersAfter, StoredAfter, Trail, MachineOK, ServersOK, PassOK, AfterGet, AfterFind, AfterCreate,
         AfterVpcList, AfterVpcAttach, AfterLbGet, AfterLbUpdate, AfterLbRemoveGet, AfterRelist, Join, Sighted, Joined, Attached;
    TrailStep(cfg, s, k, a);
    assert L.PassLifeOK(k, s.passes[k]);
    L.PassLifeStep(cfg, s, k, a);
  }

  lemma StoredTrue(cfg: Config, s: State, e: Event, s': State, k: Key)
    requires Step(cfg, s, e, s') && k in s'.stored && IsTrue(s'.stored[k])
    ensures e != UserCreate(k)
    ensures var id := ServerID(s'.stored[k]);
            || (k in s.passes && IsTrue(s.passes[k].mem) && ServerID(s.passes[k].mem) == id)
            || (k in s.stored && IsTrue(s.stored[k]) && ServerID(s.stored[k]) == id)
  {
    hide PID.ToResourceID, Start, Next, ServersAfter;
  }

  lemma StillJustified(cfg: Config, states: seq<State>, events: seq<Event>, i: nat, k: Key, id: string)
    requires 0 < i < |states| == |events| + 1
    requires EvidenceAt(cfg, states[i], k, id) || (Justified(cfg, states, events, i - 1, k, id) && events[i - 1] != UserCreate(k))
    ensures Justified(cfg, states, events, i, k, id)
  {
    hide EvidenceAt;
    if EvidenceAt(cfg, states[i], k, id) {
      assert NotMadeAnew(events, i, i, k);
    } else {
      var j: nat :| j <= i - 1 && EvidenceAt(cfg, states[j], k, id) && NotMadeAnew(events, j, i - 1, k);
      assert NotMadeAnew(events, j, i, k);
    }
  }

  /**
   In every run: whenever Ready=True is stored, some pass over this very object had the cluster ready and the bootstrap data set, was
   shown the very server that the providerID names as active, and for a control plane machine had it accepted by the
   load balancer, and for bare metal had its requested VPC listed on it.
   */
  lemma {:induction false} ReadyIsJustified(cfg: Config, states: seq<State>, events: seq<Event>, i: nat)
    requires ConfigOK(cfg) && IsRun(cfg, states, events) && i < |states|
    ensures AllJustified(cfg, states, events, i)
  {
    hide Apply, Enabled, Inv, TrailInv, L.LifeInv, Justified, EvidenceAt, IsTrue, PID.ToResourceID;
    if i > 0 {
      ReadyIsJustified(cfg, states, events, i - 1);
      InvAlong(cfg, states, events, i - 1);
      TrailAlong(cfg, states, events, i - 1);
      L.LifeAlong(cfg, states, events, i - 1);
      var s, e, s' := states[i - 1], events[i - 1], states[i];
      forall k | k in s'.stored && IsTrue(s'.stored[k]) ensures Justified(cfg, states, events, i, k, ServerID(s'.stored[k])) {
        StoredTrue(cfg, s, e, s', k);
        StillJustified(cfg, states, events, i, k, ServerID(s'.stored[k]));
      }
      forall k | k in s'.passes && IsTrue(s'.passes[k].mem) ensures Justified(cfg, states, events, i, k, ServerID(s'.passes[k].mem)) {
        PassTrue(cfg, s, e, s', k);
        StillJustified(cfg, states, events, i, k, ServerID(s'.passes[k].mem));
      }
    }
  }

  // ---- instances join the load balancer only under a stored ID

  /** A VM pass that reads by ID or talks to the load balancer works with the ID as it is stored. */
  ghost predicate StoredIDInv(s: State) {
    forall k :: k in s.passes && k in s.stored && k.kind == VM && ByID(s.passes[k].call) ==>
                  s.stored[k].providerID == s.passes[k].mem.providerID
  }

  predicate ByID(c: Call) {
    c.Getting? || c.LbGetting? || c.LbUpdating?
  }

  lemma StartByID(k: Key, spec: Spec, m: Machine, f: Facts)
    ensures Start(k, spec, m, f).mem.providerID == m.providerID
  {
    hide PID.ToResourceID;
  }

  /** How a VM pass comes to such a call. */
  lemma NextByID(cfg: Config, servers: map<string, Server>, k: Key, p: Pass, a: Answer)
    requires k in cfg.machines && k.kind == VM && PassOK(cfg, servers, k, p)
    requires p.call.Getting? && a.Found? ==> a.id == p.call.id
    requires p.call.Creating? && a.Created? ==> a.id != ""
    requires p.call.Finding? && a.Listed? ==> forall i :: 0 <= i < |a.entries| ==> a.entries[i].id != ""
    requires var n := Next(k, cfg.machines[k], p, a); n.Some? && ByID(n.value.call)
    ensures Next(k, cfg.machines[k], p, a).value.mem.providerID == p.mem.providerID
    ensures ByID(p.call) || (p.call.Patching? && a.Done?)
  {
    hide PID.ToResourceID, PID.FromResourceID, OwnedBy, Join, Scan, AfterVpcList, AfterVpcAttach, AfterLbGet, AfterLbUpdate,
         AfterLbRemoveGet, AfterRelist;
    if p.call.Finding? && a.Listed? {
      var r := Scan(k.kind, a.entries, Params(k, cfg.machines[k]));
      if r.One? { ScanFromList(k.kind, a.entries, Params(k, cfg.machines[k])); }
    }
  }

  lemma ScanFromList(kind: Kind, entries: seq<Entry>, params: TagParams)
    requires Scan(kind, entries, params).One?
    ensures Scan(kind, entries, params).entry in entries
  {
    assert OwnedEntries(kind, entries, params)[0] in entries;
  }

  lemma StoredIDAnswered(cfg: Config, s: State, k: Key, a: Answer)
    requires ConfigOK(cfg) && Inv(cfg, s) && StoredIDInv(s) && Enabled(cfg, s, Answered(k, a)) && k.kind == VM
    requires var s' := Deliver(cfg, s, k, a); k in s'.passes && k in s'.stored && ByID(s'.passes[k].call)
    ensures var s' := Deliver(cfg, s, k, a); s'.stored[k].providerID == s'.passes[k].mem.providerID
  {
    hide PID.ToResourceID, Next, ServersAfter, OwnedBy, WellMade, CallOK, QueriedBy;
    var p := s.passes[k];
    assert PassOK(cfg, s.servers, k, p);
    if p.call.Finding? && a.Listed? {
      forall i | 0 <= i < |a.entries| ensures a.entries[i].id != "" { assert ShowsServer(s.servers, k.kind, a.entries[i]); }
    }
    NextByID(cfg, s.servers, k, p, a);
  }

  lemma StoredIDStep(cfg: Config, s: State, e: Event, s': State)
    requires ConfigOK(cfg) && Inv(cfg, s) && StoredIDInv(s) && Step(cfg, s, e, s')
    ensures StoredIDInv(s')
  {
    hide Start, Next, ServersAfter, PassOK, MachineOK, ServersOK;
    forall k | k in s'.passes && k in s'.stored && k.kind == VM && ByID(s'.passes[k].call)
      ensures s'.stored[k].providerID == s'.passes[k].mem.providerID
    {
      if e.Begin? && e.k == k {
        StartByID(k, cfg.machines[k], s.stored[k], e.facts);
      } else if e.Answered? && e.k == k {
        StoredIDAnswered(cfg, s, k, e.a);
      }
    }
  }

  /** In every run, while a VM pass talks to the load balancer about a server, that server's ID is already stored. */
  lemma {:induction false} IDStoredBeforeLoadBalancer(cfg: Config, states: seq<State>, events: seq<Event>, i: nat)
    requires ConfigOK(cfg) && IsRun(cfg, states, events) && i < |states|
    ensures StoredIDInv(states[i])
    ensures var s := states[i];
            forall k :: k in s.passes && k in s.stored && k.kind == VM && (s.passes[k].call.LbGetting? || s.passes[k].call.LbUpdating?) ==>
              ServerID(s.stored[k]) == s.passes[k].call.id
  {
    hide Apply, Enabled, PID.ToResourceID, OwnedBy, WellMade, MachineOK;
    InvAlong(cfg, states, events, i);
    if i > 0 {
      IDStoredBeforeLoadBalancer(cfg, states, events, i - 1);
      InvAlong(cfg, states, events, i - 1);
      assert events[i - 1] == events[i - 1];
      StoredIDStep(cfg, states[i - 1], events[i - 1], states[i]);
    }
    var s := states[i];
    forall k | k in s.passes && k in s.stored && k.kind == VM && (s.passes[k].call.LbGetting? || s.passes[k].call.LbUpdating?)
      ensures ServerID(s.stored[k]) == s.passes[k].call.id
    {
      assert PassOK(cfg, s.servers, k, s.passes[k]);
    }
  }
}

/** What a delete pass must have heard before it lets the finalizer go, and what it leaves alone. */
module Removals {
  import opened Options
  import opened Search
  import opened Machines
  import opened Protocol
  import opened Invariants
  import L = Lifecycle
  import R = Reports
  import PID = ProviderID
  import LB = LoadBalancers

  /** The server is out of the load balancer, as far as that goes: it is not there, not listed, alone, or taken out. */
  predicate Leaves(x: Exchange, lb: string, id: string) {
    || (x.call == LbRemoveGetting(lb, id) && x.answer.NotFound?)
    || (x.call == LbRemoveGetting(lb, id) && x.answer.LbGot? && (id !in x.answer.members || LB.Without(x.answer.members, id) == []))
    || (x.call == LbRemoveUpdating(lb, id) && x.answer.Done?)
  }

  predicate Left(log: seq<Exchange>, lb: string, id: string) {
    exists i :: 0 <= i < |log| && Leaves(log[i], lb, id)
  }

  predicate Deletes(x: Exchange, id: string) {
    x.call == Deleting(id) && (x.answer.Done? || x.answer.NotFound?)
  }

  /** The delete by ID succeeded, or was answered 404. */
  predicate Deleted(log: seq<Exchange>, id: string) {
    exists i :: 0 <= i < |log| && Deletes(log[i], id)
  }

  predicate ShowsNone(k: Key, spec: Spec, x: Exchange) {
    x.call.Relisting? && x.answer.Listed? && Scan(k.kind, x.answer.entries, Params(k, spec)).Nothing?
  }

  /** A listing has shown no server of the machine. */
  predicate NoneShown(k: Key, spec: Spec, log: seq<Exchange>) {
    exists i :: 0 <= i < |log| && ShowsNone(k, spec, log[i])
  }

  /** Bare metal of the control plane is to leave the load balancer that it knows of. */
  predicate MustLeave(k: Key, spec: Spec, p: Pass) {
    k.kind == BareMetal && spec.controlPlane && LoadBalancerID(BareMetal, p.facts) != "" && ServerID(p.mem) != ""
  }

  predicate LbDone(k: Key, spec: Spec, p: Pass) {
    MustLeave(k, spec, p) ==> Left(p.log, LoadBalancerID(BareMetal, p.facts), ServerID(p.mem))
  }

  predicate DeleteDone(p: Pass) {
    ServerID(p.mem) != "" ==> Deleted(p.log, ServerID(p.mem))
  }

  /** Everything that has to happen before the finalizer goes has happened in this pass. */
  predicate Cleared(k: Key, spec: Spec, p: Pass) {
    LbDone(k, spec, p) && DeleteDone(p) && NoneShown(k, spec, p.log)
  }

  /** Where a delete pass stands. */
  ghost predicate RemovalOK(k: Key, spec: Spec, p: Pass) {
    p.mem.deleting ==>
      && (!p.call.Closing? ==> !NoneShown(k, spec, p.log) && p.mem.finalizer)
      && (p.call.LbRemoveGetting? || p.call.LbRemoveUpdating? ==>
            p.call.lb == LoadBalancerID(BareMetal, p.facts) && p.call.id == ServerID(p.mem))
      && (p.call.Deleting? ==> LbDone(k, spec, p) && p.call.id == ServerID(p.mem))
      && (p.call.Relisting? ==> LbDone(k, spec, p) && DeleteDone(p))
      && (p.call.Closing? ==> (!p.mem.finalizer <==> Cleared(k, spec, p)))
  }

  lemma LogStep(k: Key, spec: Spec, log: seq<Exchange>, x: Exchange)
    ensures forall lb, id :: Left(log + [x], lb, id) <==> Left(log, lb, id) || Leaves(x, lb, id)
    ensures forall id :: Deleted(log + [x], id) <==> Deleted(log, id) || Deletes(x, id)
    ensures NoneShown(k, spec, log + [x]) <==> NoneShown(k, spec, log) || ShowsNone(k, spec, x)
  {
    hide Leaves, Deletes, ShowsNone;
    var more := log + [x];
    assert more[|log|] == x && forall i :: 0 <= i < |log| ==> more[i] == log[i];
  }

  lemma RemovalMoves(cfg: Config, servers: map<string, Server>, k: Key, p: Pass, a: Answer)
    requires k in cfg.machines && PassOK(cfg, servers, k, p) && RemovalOK(k, cfg.machines[k], p) && DeleteCall(p.call)
    ensures var n := Next(k, cfg.machines[k], p, a); n.Some? && RemovalOK(k, cfg.machines[k], n.value)
  {
    hide PID.ToResourceID, OwnedBy, Scan, LB.Without, LoadBalancerID, Left, Deleted, NoneShown, AfterGet, AfterFind, AfterCreate, AfterVpcList, AfterVpcAttach,
         AfterLbGet, AfterLbUpdate, Join;
    LogStep(k, cfg.machines[k], p.log, Exchange(p.call, a));
    if a.LbGot? && (p.call.LbRemoveGetting? || p.call.LbRemoveUpdating?) { LB.WithoutFacts(a.members, p.call.id); }
  }

  lemma RemovalStarts(k: Key, spec: Spec, m: Machine, f: Facts)
    requires m.deleting ==> m.finalizer
    ensures RemovalOK(k, spec, Start(k, spec, m, f))
  {
    hide PID.ToResourceID, LoadBalancerID, Scan;
  }

  ghost predicate RemovalInv(cfg: Config, s: State) {
    forall k :: k in s.passes ==> k in cfg.machines && RemovalOK(k, cfg.machines[k], s.passes[k])
  }

  lemma RemovalStep(cfg: Config, s: State, e: Event, s': State, k: Key)
    requires ConfigOK(cfg) && Inv(cfg, s) && L.LifeInv(s) && RemovalInv(cfg, s) && Step(cfg, s, e, s') && k in s'.passes
    ensures k in cfg.machines && RemovalOK(k, cfg.machines[k], s'.passes[k])
  {
    hide PID.ToResourceID, Start, Next, ServersAfter, StoredAfter, Allowed, MachineOK, ServersOK, CallOK, L.LifeInv, LbDone, Cleared, NoneShown, DeleteDone;
    if e.Begin? && e.k == k {
      RemovalStarts(k, cfg.machines[k], s.stored[k], e.facts);
    } else if e.Answered? && e.k == k {
      var p := s.passes[k];
      assert PassOK(cfg, s.servers, k, p) && RemovalOK(k, cfg.machines[k], p);
      if p.call.Closing? {
        ClosingIsLast(k, cfg.machines[k], p, e.a);
      } else if p.mem.deleting {
        RemovalMoves(cfg, s.servers, k, p, e.a);
      } else {
        R.StaysNormal(cfg, s, k, e.a);
      }
    }
  }

  lemma {:induction false} RemovalAlong(cfg: Config, states: seq<State>, events: seq<Event>, i: nat)
    requires ConfigOK(cfg) && IsRun(cfg, states, events) && i < |states|
    ensures RemovalInv(cfg, states[i])
  {
    hide Apply, Enabled, Inv, L.LifeInv, RemovalOK;
    if i > 0 {
      RemovalAlong(cfg, states, events, i - 1);
      InvAlong(cfg, states, events, i - 1);
      L.LifeAlong(cfg, states, events, i - 1);
      var s, e, s' := states[i - 1], events[i - 1], states[i];
      forall k | k in s'.passes ensures k in cfg.machines && RemovalOK(k, cfg.machines[k], s'.passes[k]) { RemovalStep(cfg, s, e, s', k); }
    }
  }

  /**
   In every run, when the Close of a delete pass takes effect: the object goes if and only if in this very pass the server
   left the load balancer (bare metal of a control plane), the delete by ID succeeded or was answered 404, and a
   listing showed no server of the machine. Otherwise it stays with its finalizer and ID, Ready and Provisioned as they
   were, and the condition that says it is being removed.
   */
  lemma ObjectGoesIff(cfg: Config, states: seq<State>, events: seq<Event>, i: nat, k: Key)
    requires ConfigOK(cfg) && IsRun(cfg, states, events) && i < |events|
    requires events[i].Answered? && events[i].k == k && Acted(events[i].a) && k in states[i].stored
    requires k in states[i].passes && states[i].passes[k].call.Closing? && states[i].passes[k].mem.deleting
    ensures k in cfg.machines
    ensures k !in states[i + 1].stored <==> Cleared(k, cfg.machines[k], states[i].passes[k])
    ensures k in states[i + 1].stored ==>
              var m, m' := states[i].stored[k], states[i + 1].stored[k];
              m'.finalizer && m'.deleting && m'.providerID == m.providerID && m'.ready == m.ready && m'.provisioned == m.provisioned
              && m'.cond == Ready(False, Machines.Removing)
  {
    hide PID.ToResourceID, Start, Next, ServersAfter, Allowed, Cleared, CallOK, MachineOK, ServersOK, L.Agrees, L.Reported, L.PassLifeOK, R.Stands;
    RemovalAlong(cfg, states, events, i);
    R.ReportAlong(cfg, states, events, i);
    InvAlong(cfg, states, events, i);
    L.LifeAlong(cfg, states, events, i);
    assert Step(cfg, states[i], events[i], states[i + 1]);
    assert PassOK(cfg, states[i].servers, k, states[i].passes[k]);
    assert R.PassStands(k, cfg.machines[k], states[i].stored[k], states[i].passes[k]);
  }
}

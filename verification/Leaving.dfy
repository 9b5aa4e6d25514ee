/**
 Who leaves the load balancer when a control plane machine is deleted: bare metal does, unless it is the last member;
 an instance never does.
 */
module Leaving {
  import opened Options
  import opened Search
  import opened Machines
  import opened Protocol
  import opened Invariants
  import opened Membership
  import R = Readiness
  import L = Lifecycle
  import O = Orphans
  import U = Uniqueness
  import PID = ProviderID
  import LB = LoadBalancers

  // ---- what the log of a delete pass says

  /** The answer shows a list that holds id and nothing else. */
  predicate Lone(x: Exchange, lb: string, id: string) {
    x.call == LbRemoveGetting(lb, id) && x.answer.LbGot? && id in x.answer.members && LB.Without(x.answer.members, id) == []
  }

  predicate LoneIn(log: seq<Exchange>, lb: string, id: string) {
    exists i :: 0 <= i < |log| && Lone(log[i], lb, id)
  }

  /** The load balancer was said not to exist. */
  predicate Missing(x: Exchange, lb: string, id: string) {
    x.call == LbRemoveGetting(lb, id) && x.answer.NotFound?
  }

  predicate MissingIn(log: seq<Exchange>, lb: string, id: string) {
    exists i :: 0 <= i < |log| && Missing(log[i], lb, id)
  }

  /** The load balancer and the server that a delete pass over a bare metal control plane machine is to part. */
  ghost predicate Parts(cfg: Config, k: Key, p: Pass, lb: string, id: string) {
    && k in cfg.machines && k.kind == BareMetal && cfg.machines[k].controlPlane && p.mem.deleting
    && lb == LoadBalancerID(BareMetal, p.facts) != "" && id == ServerID(p.mem) != ""
  }

  /** The pass has the load balancer behind it. */
  predicate Past(p: Pass) {
    p.call.Deleting? || p.call.Relisting? || p.call.DeletingOther? || (p.call.Closing? && !p.mem.finalizer)
  }

  /** Where a parting pass stands, and what it knows then; `member` says whether id is a member now. */
  ghost predicate PartingOK(p: Pass, lb: string, id: string, member: bool) {
    && (p.call.LbRemoveGetting? ==> p.call == LbRemoveGetting(lb, id) && p.log == [])
    && (p.call.LbRemoveUpdating? ==> p.call == LbRemoveUpdating(lb, id) && !LoneIn(p.log, lb, id))
    && (Past(p) ==> MissingIn(p.log, lb, id) || (LoneIn(p.log, lb, id) <==> member))
  }

  lemma LogGrows(log: seq<Exchange>, x: Exchange, lb: string, id: string)
    ensures LoneIn(log + [x], lb, id) <==> LoneIn(log, lb, id) || Lone(x, lb, id)
    ensures MissingIn(log + [x], lb, id) <==> MissingIn(log, lb, id) || Missing(x, lb, id)
  {
    hide Lone, Missing;
    var more := log + [x];
    assert more[|log|] == x && forall i :: 0 <= i < |log| ==> more[i] == log[i];
  }

  /** A parting pass begins with the load balancer. */
  lemma PartingStarts(cfg: Config, k: Key, m: Machine, f: Facts, lb: string, id: string, member: bool)
    requires k in cfg.machines && Parts(cfg, k, Start(k, cfg.machines[k], m, f), lb, id)
    ensures PartingOK(Start(k, cfg.machines[k], m, f), lb, id, member)
  {
    hide PID.ToResourceID;
  }

  /**
   One answer to a parting pass. `before` and `after` say whether id is a member: what the pass reads is true, and an
   update that takes effect leaves the list without id.
   */
  lemma PartingMoves(cfg: Config, servers: map<string, Server>, k: Key, p: Pass, a: Answer, lb: string, id: string, before: bool, after: bool)
    requires k in cfg.machines && PassOK(cfg, servers, k, p) && Parts(cfg, k, p, lb, id) && PartingOK(p, lb, id, before) && !p.call.Closing?
    requires p.call.LbRemoveGetting? && a.LbGot? ==> (before <==> id in a.members)
    requires if p.call.LbRemoveUpdating? && Acted(a) then !after else after == before
    ensures var n := Next(k, cfg.machines[k], p, a); n.Some? && Parts(cfg, k, n.value, lb, id) && PartingOK(n.value, lb, id, after)
  {
    hide PID.ToResourceID, OwnedBy, Scan, LB.Without, LoneIn, MissingIn, LoadBalancerID, AfterGet, AfterFind, AfterCreate, AfterVpcList, AfterVpcAttach,
         AfterLbGet, AfterLbUpdate, Join;
    LogGrows(p.log, Exchange(p.call, a), lb, id);
    EmptyLog(lb, id);
    if p.call.LbRemoveGetting? && a.LbGot? {
      LB.WithoutFacts(a.members, id);
    }
  }

  lemma EmptyLog(lb: string, id: string)
    ensures !LoneIn([], lb, id) && !MissingIn([], lb, id)
  {
  }

  // ---- nobody else touches the membership of a server

  /** The event does not answer an update by the pass of k. */
  predicate NotOwnUpdate(s: State, e: Event, k: Key) {
    e.Answered? && e.k == k && k in s.passes ==> !Updates(s.passes[k].call)
  }

  /** An update names a server that its machine owns. */
  lemma UpdateIsOwned(cfg: Config, s: State, k: Key)
    requires Inv(cfg, s) && k in s.passes && Updates(s.passes[k].call)
    ensures k in cfg.machines && s.passes[k].call.id in s.servers && OwnedBy(cfg, k, s.servers[s.passes[k].call.id])
    ensures WellMade(cfg, s.servers[s.passes[k].call.id])
  {
    hide PID.ToResourceID, OwnedBy, WellMade;
    assert PassOK(cfg, s.servers, k, s.passes[k]);
  }

  /** Whether the server of k is a member changes by no event of anybody else. */
  lemma MembershipFixed(cfg: Config, init: string -> seq<string>, states: seq<State>, events: seq<Event>, m: nat, k: Key, lb: string, id: string)
    requires ConfigOK(cfg) && U.Distinct(cfg) && m < |events| && |states| == |events| + 1 && Inv(cfg, states[m]) && SerialAt(init, states, events, m)
    requires k in cfg.machines && id in states[m].servers && OwnedBy(cfg, k, states[m].servers[id]) && NotOwnUpdate(states[m], events[m], k)
    ensures id in Members(init, states, events, m + 1, lb) <==> id in Members(init, states, events, m, lb)
  {
    hide LB.Without, OwnedBy, WellMade, Inv, U.Distinct;
    var s, e := states[m], events[m];
    var before := Members(init, states, events, m, lb);
    assert Members(init, states, events, m + 1, lb) == MembersAfter(s, e, lb, before);
    if Touches(s, e, lb) && Updates(s.passes[e.k].call) && Acted(e.a) {
      UpdateIsOwned(cfg, s, e.k);
      if s.passes[e.k].call.id == id {
        U.OwnedByMaker(cfg, k, s.servers[id]);
        U.OwnedByMaker(cfg, e.k, s.servers[id]);
      }
      LB.WithoutFacts(before, s.passes[e.k].call.id);
    }
  }

  // ---- over runs

  ghost predicate PartingAt(cfg: Config, init: string -> seq<string>, states: seq<State>, events: seq<Event>, i: nat, k: Key)
    requires i < |states| == |events| + 1
  {
    k in states[i].passes ==>
      forall lb, id :: Parts(cfg, k, states[i].passes[k], lb, id) ==>
        PartingOK(states[i].passes[k], lb, id, id in Members(init, states, events, i, lb))
  }

  lemma PartingAnswered(cfg: Config, init: string -> seq<string>, states: seq<State>, events: seq<Event>, m: nat, k: Key, a: Answer, lb: string, id: string)
    requires ConfigOK(cfg) && U.Distinct(cfg) && IsRun(cfg, states, events) && m < |events| && SerialAt(init, states, events, m) && Inv(cfg, states[m])
    requires events[m] == Answered(k, a) && k in states[m].passes && Parts(cfg, k, states[m].passes[k], lb, id) && !states[m].passes[k].call.Closing?
    requires PartingOK(states[m].passes[k], lb, id, id in Members(init, states, events, m, lb))
    ensures var n := Next(k, cfg.machines[k], states[m].passes[k], a);
            n.Some? && PartingOK(n.value, lb, id, id in Members(init, states, events, m + 1, lb))
  {
    hide Step, Next, PID.ToResourceID, OwnedBy, WellMade, LB.Without, LoneIn, MissingIn, CallOK, U.Distinct, LoadBalancerID;
    var s, p := states[m], states[m].passes[k];
    var before := Members(init, states, events, m, lb);
    assert PassOK(cfg, s.servers, k, p) && Members(init, states, events, m + 1, lb) == MembersAfter(s, events[m], lb, before);
    assert p.call.LbRemoveGetting? || p.call.LbRemoveUpdating? ==> Touches(s, events[m], lb);
    if p.call.LbRemoveUpdating? {
      LB.WithoutFacts(Read(p), id);
    } else {
      assert NotOwnUpdate(s, events[m], k) by { DeleteOnly(cfg, s, k); }
      MembershipFixed(cfg, init, states, events, m, k, lb, id);
    }
    PartingMoves(cfg, s.servers, k, p, a, lb, id, id in before, id in Members(init, states, events, m + 1, lb));
  }

  lemma DeleteOnly(cfg: Config, s: State, k: Key)
    requires Inv(cfg, s) && k in s.passes && s.passes[k].mem.deleting && !s.passes[k].call.LbRemoveUpdating?
    ensures !Updates(s.passes[k].call)
  {
    hide PID.ToResourceID, OwnedBy, WellMade, CallOK, MachineOK;
    assert PassOK(cfg, s.servers, k, s.passes[k]);
  }

  /** A parting pass was one before the answer, for the same load balancer and server. */
  lemma PartedBefore(cfg: Config, servers: map<string, Server>, k: Key, p: Pass, a: Answer, lb: string, id: string)
    requires k in cfg.machines && PassOK(cfg, servers, k, p)
    requires var n := Next(k, cfg.machines[k], p, a); n.Some? && Parts(cfg, k, n.value, lb, id)
    ensures Parts(cfg, k, p, lb, id)
  {
    hide PID.ToResourceID, PID.FromResourceID, OwnedBy, Scan, LB.Without, LoadBalancerID, CallOK, AfterGet, AfterFind, AfterCreate, AfterVpcList,
         AfterVpcAttach, AfterLbGet, AfterLbUpdate, AfterLbRemoveGet, Join;
  }

  lemma PartingServer(cfg: Config, s: State, k: Key, lb: string, id: string)
    requires Inv(cfg, s) && k in s.passes && Parts(cfg, k, s.passes[k], lb, id)
    ensures id in s.servers && OwnedBy(cfg, k, s.servers[id])
  {
    hide PID.ToResourceID, OwnedBy, WellMade, CallOK, LoadBalancerID;
    assert PassOK(cfg, s.servers, k, s.passes[k]);
  }

  lemma PartingStep(cfg: Config, init: string -> seq<string>, states: seq<State>, events: seq<Event>, m: nat, k: Key)
    requires ConfigOK(cfg) && U.Distinct(cfg) && IsRun(cfg, states, events) && m < |events| && SerialAt(init, states, events, m) && Inv(cfg, states[m])
    requires PartingAt(cfg, init, states, events, m, k)
    ensures PartingAt(cfg, init, states, events, m + 1, k)
  {
    hide Next, Start, ServersAfter, StoredAfter, Allowed, PassOK, MachineOK, ServersOK, Members, SerialAt, PartingOK, Parts, U.Distinct;
    var s, e, s' := states[m], events[m], states[m + 1];
    assert events[m] == events[m];
    if k in s'.passes {
      forall lb, id | Parts(cfg, k, s'.passes[k], lb, id)
        ensures PartingOK(s'.passes[k], lb, id, id in Members(init, states, events, m + 1, lb))
      {
        if e.Begin? && e.k == k {
          PartingStarts(cfg, k, s.stored[k], e.facts, lb, id, id in Members(init, states, events, m + 1, lb));
        } else if e.Answered? && e.k == k {
          PartedBefore(cfg, s.servers, k, s.passes[k], e.a, lb, id);
          if s.passes[k].call.Closing? { ClosingIsLast(k, cfg.machines[k], s.passes[k], e.a); }
          PartingAnswered(cfg, init, states, events, m, k, e.a, lb, id);
        } else {
          PartingServer(cfg, s, k, lb, id);
          PartsIn(cfg, k, s.passes[k], lb, id);
          MembershipFixed(cfg, init, states, events, m, k, lb, id);
        }
      }
    }
  }

  lemma PartsIn(cfg: Config, k: Key, p: Pass, lb: string, id: string)
    requires Parts(cfg, k, p, lb, id)
    ensures k in cfg.machines
  {
  }

  lemma {:induction false} PartingAlong(cfg: Config, init: string -> seq<string>, states: seq<State>, events: seq<Event>, i: nat, k: Key)
    requires ConfigOK(cfg) && U.Distinct(cfg) && IsRun(cfg, states, events) && Serial(init, states, events) && i < |states|
    ensures PartingAt(cfg, init, states, events, i, k)
  {
    hide Step, Inv, SerialAt, U.Distinct, Members, Parts, PartingOK;
    if i > 0 {
      PartingAlong(cfg, init, states, events, i - 1, k);
      InvAlong(cfg, states, events, i - 1);
      PartingStep(cfg, init, states, events, i - 1, k);
    }
  }

  /**
   In every serial run of distinct machines, at the step in which the stored finalizer of a bare metal control plane
   machine goes: its server is still a member of the load balancer if and only if the pass found it alone there, unless
   the load balancer was said not to exist.
   */
  lemma BareMetalLeaves(cfg: Config, init: string -> seq<string>, states: seq<State>, events: seq<Event>, i: nat, k: Key)
    requires ConfigOK(cfg) && U.Distinct(cfg) && IsRun(cfg, states, events) && Serial(init, states, events) && i < |events|
    requires O.Holds(states[i], k) && !O.Holds(states[i + 1], k)
    requires k in cfg.machines && k.kind == BareMetal && cfg.machines[k].controlPlane && ServerID(states[i].stored[k]) != ""
    ensures k in states[i].passes
    ensures var p, id := states[i].passes[k], ServerID(states[i].stored[k]);
            var lb := LoadBalancerID(BareMetal, p.facts);
            lb != "" ==> MissingIn(p.log, lb, id) || (id in Members(init, states, events, i + 1, lb) <==> LoneIn(p.log, lb, id))
  {
    hide Step, Inv, PID.ToResourceID, Serial, U.Distinct, LoneIn, MissingIn, LoadBalancerID, Members, O.NoLiveMadeBy;
    InvAlong(cfg, states, events, i);
    L.LifeAlong(cfg, states, events, i);
    O.DropAlong(cfg, states, events, i);
    assert Step(cfg, states[i], events[i], states[i + 1]);
    O.DropsOnlyAtClose(cfg, states[i], events[i], states[i + 1], k);
    O.StoredOrNoID(cfg, states[i], k);
    var p, id := states[i].passes[k], ServerID(states[i].stored[k]);
    var lb := LoadBalancerID(BareMetal, p.facts);
    StoredIsPassID(cfg, states[i], k);
    assert O.DropOK(states[i], k, p);
    if lb != "" {
      PartingAlong(cfg, init, states, events, i, k);
      assert Parts(cfg, k, p, lb, id);
      PartingServer(cfg, states[i], k, lb, id);
      SerialHere(init, states, events, i);
      MembershipFixed(cfg, init, states, events, i, k, lb, id);
    }
  }

  lemma SerialHere(init: string -> seq<string>, states: seq<State>, events: seq<Event>, i: nat)
    requires |states| == |events| + 1 && i < |events| && Serial(init, states, events)
    ensures SerialAt(init, states, events, i)
  {
    hide SerialAt;
  }

  lemma StoredIsPassID(cfg: Config, s: State, k: Key)
    requires L.LifeInv(s) && k in s.stored && k in s.passes && ServerID(s.stored[k]) != ""
    ensures ServerID(s.passes[k].mem) == ServerID(s.stored[k])
  {
    hide PID.ToResourceID, L.PassLifeOK, L.Reported, HasTerminalFailure;
    assert L.Agrees(k, s.stored[k], s.passes[k]);
  }

  /**
   The two kinds together. A control plane machine whose server was accepted by its load balancer, which is known to
   the pass that lets the finalizer go: the server is still a member afterwards if and only if it is an instance, or
   was the last member.
   */
  lemma MemberAfterDeletionIff(cfg: Config, init: string -> seq<string>, states: seq<State>, events: seq<Event>, j: nat, i: nat, k: Key)
    requires ConfigOK(cfg) && U.Distinct(cfg) && IsRun(cfg, states, events) && Serial(init, states, events) && j <= i < |events|
    requires O.Holds(states[i], k) && !O.Holds(states[i + 1], k) && k in states[i].passes
    requires k in cfg.machines && cfg.machines[k].controlPlane && R.EvidenceAt(cfg, states[j], k, ServerID(states[i].stored[k]))
    requires LoadBalancerID(k.kind, states[j].passes[k].facts) == LoadBalancerID(k.kind, states[i].passes[k].facts) != ""
    ensures var p, id := states[i].passes[k], ServerID(states[i].stored[k]);
            var lb := LoadBalancerID(k.kind, p.facts);
            !MissingIn(p.log, lb, id) ==>
              (id in Members(init, states, events, i + 1, lb) <==> k.kind == VM || LoneIn(p.log, lb, id))
  {
    hide Step, PID.ToResourceID, Serial, U.Distinct, LoneIn, MissingIn, LoadBalancerID, Members, R.Evidence;
    if k.kind == VM {
      InstanceNeverLeaves(cfg, init, states, events, j, i + 1, k, ServerID(states[i].stored[k]));
    } else {
      EvidenceNames(cfg, states, events, j, k, ServerID(states[i].stored[k]));
      BareMetalLeaves(cfg, init, states, events, i, k);
    }
  }

  lemma EvidenceNames(cfg: Config, states: seq<State>, events: seq<Event>, j: nat, k: Key, id: string)
    requires ConfigOK(cfg) && IsRun(cfg, states, events) && j < |states| && R.EvidenceAt(cfg, states[j], k, id)
    ensures id != ""
  {
    hide Step, PID.ToResourceID, WellMade, R.Evidence, PassOK, MachineOK;
    EvidenceKind(cfg, states, events, j, k, id);
    InvAlong(cfg, states, events, j);
  }
}

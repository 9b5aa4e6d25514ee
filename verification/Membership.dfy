/**
 Readiness and load balancer membership together, over runs: the member lists follow from the updates that took effect.
 The calls for one load balancer are taken to follow one another, so that no update is lost.
 */
module Membership {
  import opened Options
  import opened Search
  import opened Machines
  import opened Protocol
  import opened Invariants
  import R = Readiness
  import PID = ProviderID
  import LB = LoadBalancers

  /** The member list that the pass read last. */
  function Read(p: Pass): seq<string> {
    if p.log != [] && p.log[|p.log| - 1].answer.LbGot? then p.log[|p.log| - 1].answer.members else []
  }

  /** The members of lb after an event: an update that takes effect replaces the list by what the pass made of its reading. */
  function MembersAfter(s: State, e: Event, lb: string, members: seq<string>): seq<string> {
    if e.Answered? && e.k in s.passes && Acted(e.a) then
      var p := s.passes[e.k];
      match p.call
      case LbUpdating(l, id) => if l == lb then Read(p) + [id] else members
      case LbRemoveUpdating(l, id) => if l == lb then LB.Without(Read(p), id) else members
      case _ => members
    else members
  }

  /** The members of lb in the i-th state of a run. */
  ghost function Members(init: string -> seq<string>, states: seq<State>, events: seq<Event>, i: nat, lb: string): seq<string>
    requires i < |states| == |events| + 1
  {
    if i == 0 then init(lb) else MembersAfter(states[i - 1], events[i - 1], lb, Members(init, states, events, i - 1, lb))
  }

  /** The load balancer call of the answered pass, if it is one. */
  predicate Touches(s: State, e: Event, lb: string) {
    e.Answered? && e.k in s.passes && match s.passes[e.k].call
    case LbGetting(l, _) => l == lb
    case LbUpdating(l, _) => l == lb
    case LbRemoveGetting(l, _) => l == lb
    case LbRemoveUpdating(l, _) => l == lb
    case _ => false
  }

  /** Reads are true, and an update that takes effect finds the list as its pass has read it. */
  ghost predicate SerialAt(init: string -> seq<string>, states: seq<State>, events: seq<Event>, m: nat)
    requires m < |events| && |states| == |events| + 1
  {
    forall lb :: Touches(states[m], events[m], lb) ==>
      var members, p, a := Members(init, states, events, m, lb), states[m].passes[events[m].k], events[m].a;
      && (a.LbGot? ==> a.members == members)
      && (Updates(p.call) && Acted(a) ==> Read(p) == members)
  }

  predicate Updates(c: Call) {
    c.LbUpdating? || c.LbRemoveUpdating?
  }

  ghost predicate Serial(init: string -> seq<string>, states: seq<State>, events: seq<Event>)
    requires |states| == |events| + 1
  {
    forall m :: 0 <= m < |events| ==> SerialAt(init, states, events, m)
  }

  /** The event takes id out of lb. */
  predicate Removes(s: State, e: Event, lb: string, id: string) {
    e.Answered? && e.k in s.passes && Acted(e.a) && s.passes[e.k].call == LbRemoveUpdating(lb, id)
  }

  /** Some event from j on, and before i, takes id out of lb. */
  ghost predicate RemovedBetween(states: seq<State>, events: seq<Event>, j: nat, i: nat, lb: string, id: string)
    requires i < |states| == |events| + 1
  {
    exists m :: j <= m < i && Removes(states[m], events[m], lb, id)
  }

  /** An event drops no member but the one that it removes. */
  lemma MembersStay(init: string -> seq<string>, states: seq<State>, events: seq<Event>, m: nat, lb: string, id: string)
    requires m < |events| && |states| == |events| + 1 && SerialAt(init, states, events, m)
    requires id in Members(init, states, events, m, lb) && !Removes(states[m], events[m], lb, id)
    ensures id in Members(init, states, events, m + 1, lb)
  {
    hide LB.Without;
    var s, e := states[m], events[m];
    var before := Members(init, states, events, m, lb);
    assert Members(init, states, events, m + 1, lb) == MembersAfter(s, e, lb, before);
    if Touches(s, e, lb) && s.passes[e.k].call.LbRemoveUpdating? && Acted(e.a) {
      LB.WithoutFacts(before, s.passes[e.k].call.id);
    }
  }

  /** An answer that accepts a server finds or makes it a member. */
  lemma AcceptedIsMember(init: string -> seq<string>, states: seq<State>, events: seq<Event>, m: nat, lb: string, id: string)
    requires m < |events| && |states| == |events| + 1 && SerialAt(init, states, events, m)
    requires events[m].Answered? && events[m].k in states[m].passes
    requires R.Accepts(Exchange(states[m].passes[events[m].k].call, events[m].a), lb, id)
    ensures id in Members(init, states, events, m + 1, lb)
  {
    hide LB.Without;
    var s, e := states[m], events[m];
    var before := Members(init, states, events, m, lb);
    assert Members(init, states, events, m + 1, lb) == MembersAfter(s, e, lb, before);
    assert Touches(s, e, lb);
  }

  /** Where the log of a pass comes from. */
  lemma LogComesFrom(cfg: Config, s: State, e: Event, s': State, k: Key)
    requires Step(cfg, s, e, s') && k in s'.passes
    ensures s'.passes[k].log == []
            || (k in s.passes && s'.passes[k].log == s.passes[k].log)
            || (k in s.passes && e.Answered? && e.k == k && s'.passes[k].log == s.passes[k].log + [Exchange(s.passes[k].call, e.a)])
  {
    hide PID.ToResourceID, ServersAfter, StoredAfter, Scan, AfterGet, AfterFind, AfterCreate, AfterVpcList, AfterVpcAttach, AfterLbGet,
         AfterLbUpdate, AfterLbRemoveGet, Join, Allowed;
  }

  lemma JoinedBefore(log: seq<Exchange>, x: Exchange, lb: string, id: string)
    requires R.Joined(log + [x], lb, id)
    ensures R.Joined(log, lb, id) || R.Accepts(x, lb, id)
  {
    hide R.Accepts;
    var i :| 0 <= i < |log + [x]| && R.Accepts((log + [x])[i], lb, id);
    if i < |log| { assert R.Accepts(log[i], lb, id); }
  }

  /** The t-th event is the answer by which a pass of k has id accepted by lb. */
  ghost predicate AcceptsAt(states: seq<State>, events: seq<Event>, t: nat, k: Key, lb: string, id: string)
    requires t < |events| && |states| == |events| + 1
  {
    events[t].Answered? && events[t].k == k && k in states[t].passes && R.Accepts(Exchange(states[t].passes[k].call, events[t].a), lb, id)
  }

  /** What the log of a pass shows as accepted was accepted by an event of the run. */
  lemma {:induction false} AcceptedAt(cfg: Config, states: seq<State>, events: seq<Event>, i: nat, k: Key, lb: string, id: string) returns (t: nat)
    requires IsRun(cfg, states, events) && i < |states| && k in states[i].passes && R.Joined(states[i].passes[k].log, lb, id)
    ensures t < i && AcceptsAt(states, events, t, k, lb, id)
  {
    hide Step, R.Accepts;
    assert i > 0;
    var s, e, s' := states[i - 1], events[i - 1], states[i];
    LogComesFrom(cfg, s, e, s', k);
    if k in s.passes && R.Joined(s.passes[k].log, lb, id) {
      t := AcceptedAt(cfg, states, events, i - 1, k, lb, id);
    } else {
      JoinedBefore(s.passes[k].log, Exchange(s.passes[k].call, e.a), lb, id);
      t := i - 1;
    }
  }

  /** A member that no event removes stays one. */
  lemma {:induction false} MemberUntilRemoved(init: string -> seq<string>, states: seq<State>, events: seq<Event>, j: nat, i: nat, lb: string, id: string)
    requires |states| == |events| + 1 && Serial(init, states, events) && j <= i < |states|
    requires id in Members(init, states, events, j, lb) && !RemovedBetween(states, events, j, i, lb, id)
    ensures id in Members(init, states, events, i, lb)
    decreases i
  {
    hide Members, Removes, SerialAt;
    if j < i {
      assert !RemovedBetween(states, events, j, i - 1, lb, id) && !Removes(states[i - 1], events[i - 1], lb, id);
      MemberUntilRemoved(init, states, events, j, i - 1, lb, id);
      MembersStay(init, states, events, i - 1, lb, id);
    }
  }

  /** In every serial run, a server is a member from the event that accepts it until one that removes it. */
  lemma AcceptedUntilRemoved(init: string -> seq<string>, states: seq<State>, events: seq<Event>, t: nat, i: nat, k: Key, lb: string, id: string)
    requires |states| == |events| + 1 && Serial(init, states, events) && t < i < |states| && AcceptsAt(states, events, t, k, lb, id)
    requires !RemovedBetween(states, events, t + 1, i, lb, id)
    ensures id in Members(init, states, events, i, lb)
  {
    hide Members, RemovedBetween, R.Accepts, SerialAt;
    AcceptedIsMember(init, states, events, t, lb, id);
    MemberUntilRemoved(init, states, events, t + 1, i, lb, id);
  }

  /** The evidence of a control plane machine has an acceptance behind it. */
  lemma EvidenceHasAcceptance(cfg: Config, states: seq<State>, events: seq<Event>, j: nat, k: Key, id: string) returns (t: nat)
    requires IsRun(cfg, states, events) && j < |states| && R.EvidenceAt(cfg, states[j], k, id) && cfg.machines[k].controlPlane
    ensures t < j && AcceptsAt(states, events, t, k, LoadBalancerID(k.kind, states[j].passes[k].facts), id)
  {
    hide Step, R.Joined, R.Sighted, R.Attached, R.Accepts;
    t := AcceptedAt(cfg, states, events, j, k, LoadBalancerID(k.kind, states[j].passes[k].facts), id);
  }

  // ---- instances never leave

  /** What is taken out of a load balancer is a bare metal server. */
  lemma RemovedIsBareMetal(cfg: Config, states: seq<State>, events: seq<Event>, m: nat, lb: string, id: string)
    requires ConfigOK(cfg) && IsRun(cfg, states, events) && m < |events| && Removes(states[m], events[m], lb, id)
    ensures id in states[m].servers && states[m].servers[id].kind == BareMetal
  {
    hide Step, PID.ToResourceID, WellMade;
    InvAlong(cfg, states, events, m);
    assert PassOK(cfg, states[m].servers, events[m].k, states[m].passes[events[m].k]);
  }

  lemma {:induction false} KindStays(cfg: Config, states: seq<State>, events: seq<Event>, m: nat, i: nat, id: string)
    requires IsRun(cfg, states, events) && m <= i < |states| && id in states[m].servers
    ensures id in states[i].servers && states[i].servers[id].kind == states[m].servers[id].kind
    decreases i
  {
    hide Apply, Enabled;
    if m < i {
      KindStays(cfg, states, events, m, i - 1, id);
      assert events[i - 1] == events[i - 1];
      ServersEvolve(cfg, states[i - 1], events[i - 1], states[i]);
    }
  }

  lemma InstanceNotRemoved(cfg: Config, states: seq<State>, events: seq<Event>, j: nat, t: nat, i: nat, lb: string, id: string)
    requires ConfigOK(cfg) && IsRun(cfg, states, events) && j < |states| && i < |states|
    requires id in states[j].servers && states[j].servers[id].kind == VM
    ensures !RemovedBetween(states, events, t, i, lb, id)
  {
    hide Step, Removes;
    forall m | t <= m < i ensures !Removes(states[m], events[m], lb, id) {
      if Removes(states[m], events[m], lb, id) {
        RemovedIsBareMetal(cfg, states, events, m, lb, id);
        if m <= j { KindStays(cfg, states, events, m, j, id); } else { KindStays(cfg, states, events, j, m, id); }
      }
    }
  }

  lemma EvidenceKind(cfg: Config, states: seq<State>, events: seq<Event>, j: nat, k: Key, id: string)
    requires ConfigOK(cfg) && IsRun(cfg, states, events) && j < |states| && R.EvidenceAt(cfg, states[j], k, id)
    ensures id in states[j].servers && states[j].servers[id].kind == k.kind
  {
    hide Step, PID.ToResourceID, WellMade, R.Joined, R.Sighted, R.Attached, Owned;
    InvAlong(cfg, states, events, j);
    assert PassOK(cfg, states[j].servers, k, states[j].passes[k]);
  }

  /**
   In every run with serial load balancer calls, an instance of the control plane that was reported ready is a member
   of its load balancer from then on for good: nothing that happens takes it out again, its own deletion included.
   */
  lemma InstanceNeverLeaves(cfg: Config, init: string -> seq<string>, states: seq<State>, events: seq<Event>, j: nat, i: nat, k: Key, id: string)
    requires ConfigOK(cfg) && IsRun(cfg, states, events) && Serial(init, states, events) && j <= i < |states|
    requires R.EvidenceAt(cfg, states[j], k, id) && cfg.machines[k].controlPlane && k.kind == VM
    ensures id in Members(init, states, events, i, LoadBalancerID(VM, states[j].passes[k].facts))
  {
    hide Step, Members, R.Evidence, Serial, RemovedBetween, AcceptsAt;
    EvidenceKind(cfg, states, events, j, k, id);
    var lb := LoadBalancerID(VM, states[j].passes[k].facts);
    var t := EvidenceHasAcceptance(cfg, states, events, j, k, id);
    InstanceNotRemoved(cfg, states, events, j, t + 1, i, lb, id);
    AcceptedUntilRemoved(init, states, events, t, i, k, lb, id);
  }

  /**
   In every such run, a control plane machine that is stored as ready was accepted by its load balancer in a pass over
   this very object, and its server is a member unless it was removed since; for an instance without exception.
   */
  lemma ReadyIsMember(cfg: Config, init: string -> seq<string>, states: seq<State>, events: seq<Event>, i: nat, k: Key) returns (t: nat, j: nat)
    requires ConfigOK(cfg) && IsRun(cfg, states, events) && Serial(init, states, events) && i < |states|
    requires k in states[i].stored && R.IsTrue(states[i].stored[k]) && k in cfg.machines && cfg.machines[k].controlPlane
    ensures var id := ServerID(states[i].stored[k]);
            && t < j <= i && R.EvidenceAt(cfg, states[j], k, id) && R.NotMadeAnew(events, j, i, k)
            && var lb := LoadBalancerID(k.kind, states[j].passes[k].facts);
               && AcceptsAt(states, events, t, k, lb, id)
               && ((k.kind == BareMetal ==> !RemovedBetween(states, events, t + 1, i, lb, id)) ==> id in Members(init, states, events, i, lb))
  {
    hide Step, Members, R.Evidence, Serial, RemovedBetween, AcceptsAt, R.IsTrue, PID.ToResourceID;
    var id := ServerID(states[i].stored[k]);
    R.ReadyIsJustified(cfg, states, events, i);
    assert R.Justified(cfg, states, events, i, k, id);
    j :| 0 <= j <= i && R.EvidenceAt(cfg, states[j], k, id) && R.NotMadeAnew(events, j, i, k);
    var lb := LoadBalancerID(k.kind, states[j].passes[k].facts);
    t := EvidenceHasAcceptance(cfg, states, events, j, k, id);
    if k.kind == VM {
      InstanceNeverLeaves(cfg, init, states, events, j, i, k, id);
    } else if !RemovedBetween(states, events, t + 1, i, lb, id) {
      AcceptedUntilRemoved(init, states, events, t, i, k, lb, id);
    }
  }

  // ---- updates are sent only where they are needed

  /** The last answer to the pass is the reading that its update rests on. */
  ghost predicate Needed(p: Pass) {
    && (p.call.LbUpdating? ==>
          && p.log != [] && var x := p.log[|p.log| - 1];
             x.call == LbGetting(p.call.lb, p.call.id) && x.answer.LbGot? && x.answer.active && p.call.id !in x.answer.members)
    && (p.call.LbRemoveUpdating? ==>
          && p.log != [] && var x := p.log[|p.log| - 1];
             && x.call == LbRemoveGetting(p.call.lb, p.call.id) && x.answer.LbGot?
             && p.call.id in x.answer.members && exists y :: y in x.answer.members && y != p.call.id)
  }

  lemma NeededNext(k: Key, spec: Spec, p: Pass, a: Answer)
    ensures var n := Next(k, spec, p, a); n.Some? ==> Needed(n.value)
  {
    hide PID.ToResourceID, PID.FromResourceID, Scan, LB.Without, AfterGet, AfterFind, AfterCreate, AfterVpcList, AfterVpcAttach, AfterRelist, Join, Finish;
    if p.call.LbRemoveGetting? && a.LbGot? {
      LB.WithoutFacts(a.members, p.call.id);
      var r := LB.Without(a.members, p.call.id);
      if r != [] { assert r[0] in r; }
    }
    NoUpdateElse(k, spec, p.(log := p.log + [Exchange(p.call, a)]), a);
  }

  lemma NoUpdateElse(k: Key, spec: Spec, p: Pass, a: Answer)
    ensures p.call.Finding? ==> !Updates(AfterFind(k, spec, p, a).call)
    ensures p.call.Getting? ==> !Updates(AfterGet(k.kind, spec, p, a).call)
    ensures p.call.Creating? ==> !Updates(AfterCreate(k.kind, spec, p, a).call)
  {
    hide PID.ToResourceID, PID.FromResourceID, Scan, Have, Join;
  }

  lemma NeededStart(k: Key, spec: Spec, m: Machine, f: Facts)
    ensures Needed(Start(k, spec, m, f))
  {
    hide PID.ToResourceID;
  }

  /**
   In every run, a pass sends an update to a load balancer only right after reading its list: to add a server that an active
   load balancer does not list, or to remove one that it lists besides others.
   */
  lemma {:induction false} UpdatesAreNeeded(cfg: Config, states: seq<State>, events: seq<Event>, i: nat, k: Key)
    requires IsRun(cfg, states, events) && i < |states| && k in states[i].passes
    ensures Needed(states[i].passes[k])
  {
    hide Needed, Start, Next, ServersAfter, StoredAfter, Allowed;
    assert i > 0;
    var s, e := states[i - 1], events[i - 1];
    assert Step(cfg, s, e, states[i]);
    if e.Begin? && e.k == k {
      NeededStart(k, cfg.machines[k], s.stored[k], e.facts);
    } else if e.Answered? && e.k == k {
      NeededNext(k, cfg.machines[k], s.passes[k], e.a);
    } else {
      UpdatesAreNeeded(cfg, states, events, i - 1, k);
    }
  }

  predicate AsksLb(c: Call) {
    c.LbGetting? || c.LbUpdating? || c.LbRemoveGetting? || c.LbRemoveUpdating?
  }

  lemma AsksNext(k: Key, spec: Spec, p: Pass, a: Answer)
    requires AsksLb(p.call) ==> spec.controlPlane
    ensures var n := Next(k, spec, p, a); n.Some? && AsksLb(n.value.call) ==> spec.controlPlane
  {
    hide PID.ToResourceID, PID.FromResourceID, Scan, LB.Without, AfterRelist, Finish;
  }

  lemma AsksStart(k: Key, spec: Spec, m: Machine, f: Facts)
    ensures AsksLb(Start(k, spec, m, f).call) ==> spec.controlPlane
  {
    hide PID.ToResourceID;
  }

  /** In every run, only passes over control plane machines talk to a load balancer. */
  lemma {:induction false} OnlyControlPlanesAsk(cfg: Config, states: seq<State>, events: seq<Event>, i: nat, k: Key)
    requires IsRun(cfg, states, events) && i < |states| && k in states[i].passes && AsksLb(states[i].passes[k].call)
    ensures k in cfg.machines && cfg.machines[k].controlPlane
  {
    hide Start, Next, ServersAfter, StoredAfter, Allowed, AsksLb;
    assert i > 0;
    var s, e := states[i - 1], events[i - 1];
    assert Step(cfg, s, e, states[i]);
    if e.Begin? && e.k == k {
      AsksStart(k, cfg.machines[k], s.stored[k], e.facts);
    } else if e.Answered? && e.k == k {
      if AsksLb(s.passes[k].call) { OnlyControlPlanesAsk(cfg, states, events, i - 1, k); }
      AsksNext(k, cfg.machines[k], s.passes[k], e.a);
    } else {
      OnlyControlPlanesAsk(cfg, states, events, i - 1, k);
    }
  }

  /** In every serial run, no load balancer that began without duplicates ever lists a server twice. */
  lemma {:induction false} MembersNeverTwice(cfg: Config, init: string -> seq<string>, states: seq<State>, events: seq<Event>, i: nat, lb: string)
    requires IsRun(cfg, states, events) && Serial(init, states, events) && i < |states| && LB.NoDuplicates(init(lb))
    ensures LB.NoDuplicates(Members(init, states, events, i, lb))
  {
    hide Step, LB.Without, LB.NoDuplicates;
    if i > 0 {
      MembersNeverTwice(cfg, init, states, events, i - 1, lb);
      var s, e := states[i - 1], events[i - 1];
      var before := Members(init, states, events, i - 1, lb);
      assert SerialAt(init, states, events, i - 1);
      if Touches(s, e, lb) && Updates(s.passes[e.k].call) && Acted(e.a) {
        UpdatesAreNeeded(cfg, states, events, i - 1, e.k);
        LB.WithoutKeepsOrder(before, s.passes[e.k].call.id);
        OneMoreIsNoDuplicate(before, s.passes[e.k].call.id);
      }
    }
  }

  lemma OneMoreIsNoDuplicate(l: seq<string>, id: string)
    requires LB.NoDuplicates(l)
    ensures id !in l ==> LB.NoDuplicates(l + [id])
  {
  }
}

/**
 When an instance loses its Provisioned mark, although the field is documented to be final: exactly when a pass that has
 seen it in neither of the two expected statuses, and has got past the load balancer, closes.
 */
module Provisioning {
  import opened Options
  import opened Search
  import opened Machines
  import opened Protocol
  import opened Invariants
  import R = Readiness
  import L = Lifecycle
  import U = Uniqueness
  import PID = ProviderID

  predicate Unexpected(status: string) {
    status != "pending" && status != "active"
  }

  /** The load balancer has accepted the server of the pass. */
  predicate Admitted(log: seq<Exchange>, lb: string, sight: Sight) {
    sight.Saw? && R.Joined(log, lb, sight.id)
  }

  /** The pass came to the switch on the status with a status that is not expected. */
  predicate Verdict(spec: Spec, p: Pass) {
    p.sight.Saw? && Unexpected(p.sight.status) && (spec.controlPlane ==> Admitted(p.log, LoadBalancerID(VM, p.facts), p.sight))
  }

  /** The pass has no patch behind it and is not about to make one. */
  predicate NoPatch(p: Pass) {
    !p.call.Patching? && forall i :: 0 <= i < |p.log| ==> !p.log[i].call.Patching?
  }

  /** No load balancer has accepted anything yet. */
  ghost predicate NotJoined(log: seq<Exchange>) {
    forall lb, id :: !R.Joined(log, lb, id)
  }

  predicate VMTerminalIsLost(m: Machine) {
    HasTerminalFailure(VM, m) ==> !m.provisioned
  }

  predicate EarlyCall(c: Call) {
    c.Getting? || c.Finding? || c.Creating?
  }

  predicate LbCall(c: Call) {
    c.LbGetting? || c.LbUpdating?
  }

  /** What the log of an instance's pass says about its memory. */
  ghost predicate VerdictOK(spec: Spec, p: Pass) {
    && VMTerminalIsLost(p.mem)
    && (EarlyCall(p.call) || p.log == [] ==> p.sight.NoServer?)
    && (LbCall(p.call) ==> spec.controlPlane && p.call.lb == LoadBalancerID(VM, p.facts) && p.sight.Saw? && p.call.id == p.sight.id)
    && (!p.call.Closing? ==> NotJoined(p.log) && (p.mem.provisioned ==> NoPatch(p)))
    && (p.call.Closing? && !p.mem.deleting && p.log != [] && NoPatch(p) ==> (HasTerminalFailure(VM, p.mem) <==> Verdict(spec, p)))
  }

  // ---- one answer

  lemma LogStep(p: Pass, n: Pass, a: Answer)
    requires n.log == p.log + [Exchange(p.call, a)]
    ensures NoPatch(n) <==> !n.call.Patching? && NoPatch(p)
    ensures NotJoined(p.log) && !LbCall(p.call) ==> NotJoined(n.log)
    ensures NotJoined(p.log) ==> forall lb, id :: R.Joined(n.log, lb, id) <==> R.Accepts(Exchange(p.call, a), lb, id)
  {
    hide R.Accepts;
    var x := Exchange(p.call, a);
    assert n.log[|p.log|] == x && forall i :: 0 <= i < |p.log| ==> n.log[i] == p.log[i];
    if NoPatch(n) { assert forall i :: 0 <= i < |p.log| ==> p.log[i] == n.log[i]; }
    if NotJoined(p.log) {
      forall lb, id ensures R.Joined(n.log, lb, id) <==> R.Accepts(x, lb, id) {
        assert !R.Joined(p.log, lb, id);
      }
      if !LbCall(p.call) { NotAccepted(x); }
    }
  }

  lemma NotAccepted(x: Exchange)
    requires !LbCall(x.call)
    ensures forall lb, id :: !R.Accepts(x, lb, id)
  {
  }

  /** The answers that a pass may act on name servers by IDs that are not empty. */
  predicate NamesServers(p: Pass, a: Answer) {
    && (p.call.Getting? && a.Found? ==> a.id == p.call.id)
    && (p.call.Creating? && a.Created? ==> a.id != "")
    && (p.call.Finding? && a.Listed? ==> forall i :: 0 <= i < |a.entries| ==> a.entries[i].id != "")
  }

  /** What is to be shown of the next point of the pass. */
  ghost predicate Onward(spec: Spec, p: Pass, n: Pass) {
    VerdictOK(spec, n) && (ServerID(p.mem) != "" && NoPatch(p) ==> NoPatch(n))
  }

  lemma EarlyVerdict(cfg: Config, servers: map<string, Server>, k: Key, p: Pass, a: Answer)
    requires k in cfg.machines && k.kind == VM && PassOK(cfg, servers, k, p) && L.PassLifeOK(k, p) && VerdictOK(cfg.machines[k], p)
    requires NamesServers(p, a) && EarlyCall(p.call)
    ensures Onward(cfg.machines[k], p, Next(k, cfg.machines[k], p, a).value)
  {
    hide PID.ToResourceID, PID.FromResourceID, OwnedBy, Scan, NoPatch, NotJoined, R.Joined, LoadBalancerID;
    var n := Next(k, cfg.machines[k], p, a).value;
    LogStep(p, n, a);
    if p.call.Finding? && a.Listed? {
      var r := Scan(k.kind, a.entries, Params(k, cfg.machines[k]));
      if r.One? { R.ScanFromList(k.kind, a.entries, Params(k, cfg.machines[k])); }
    }
    NotYet(n.log);
  }

  lemma NotYet(log: seq<Exchange>)
    ensures NotJoined(log) ==> forall lb, sight :: !Admitted(log, lb, sight)
  {
    hide R.Joined;
  }

  lemma LateVerdict(cfg: Config, servers: map<string, Server>, k: Key, p: Pass, a: Answer)
    requires k in cfg.machines && k.kind == VM && PassOK(cfg, servers, k, p) && L.PassLifeOK(k, p) && VerdictOK(cfg.machines[k], p)
    requires LbCall(p.call) || p.call.Patching?
    ensures Onward(cfg.machines[k], p, Next(k, cfg.machines[k], p, a).value)
  {
    hide PID.ToResourceID, PID.FromResourceID, OwnedBy, NoPatch, NotJoined, R.Joined, LoadBalancerID;
    var n := Next(k, cfg.machines[k], p, a).value;
    LogStep(p, n, a);
    NotYet(n.log);
    StillNot(n.log);
    Patched(p);
  }

  lemma StillNot(log: seq<Exchange>)
    ensures (forall lb, id :: !R.Joined(log, lb, id)) ==> NotJoined(log)
  {
    hide R.Joined;
  }

  lemma Patched(p: Pass)
    ensures p.call.Patching? ==> !NoPatch(p)
  {
  }

  lemma DeleteVerdict(cfg: Config, servers: map<string, Server>, k: Key, p: Pass, a: Answer)
    requires k in cfg.machines && k.kind == VM && PassOK(cfg, servers, k, p) && VerdictOK(cfg.machines[k], p) && DeleteCall(p.call)
    ensures Onward(cfg.machines[k], p, Next(k, cfg.machines[k], p, a).value)
  {
    hide PID.ToResourceID, OwnedBy, Scan, NoPatch, NotJoined, AfterLbRemoveGet;
    var n := Next(k, cfg.machines[k], p, a).value;
    LogStep(p, n, a);
  }

  lemma NextVerdict(cfg: Config, s: State, k: Key, a: Answer)
    requires ConfigOK(cfg) && Inv(cfg, s) && L.LifeInv(s) && Enabled(cfg, s, Answered(k, a)) && k.kind == VM
    requires VerdictOK(cfg.machines[k], s.passes[k]) && !s.passes[k].call.Closing?
    ensures var n := Next(k, cfg.machines[k], s.passes[k], a); n.Some? && Onward(cfg.machines[k], s.passes[k], n.value)
  {
    hide PID.ToResourceID, OwnedBy, WellMade, CallOK, MachineOK, VerdictOK, QueriedBy, AfterGet, AfterFind, AfterCreate, AfterVpcList, AfterVpcAttach,
         AfterLbGet, AfterLbUpdate, AfterLbRemoveGet, AfterRelist, Join, Onward, L.Agrees, L.Reported;
    var p := s.passes[k];
    assert PassOK(cfg, s.servers, k, p) && L.PassLifeOK(k, p);
    if EarlyCall(p.call) {
      EarlyVerdict(cfg, s.servers, k, p, a);
    } else if DeleteCall(p.call) {
      DeleteVerdict(cfg, s.servers, k, p, a);
    } else {
      NoVpcForVM(cfg, s.servers, k, p);
      LateVerdict(cfg, s.servers, k, p, a);
    }
  }

  lemma NoVpcForVM(cfg: Config, servers: map<string, Server>, k: Key, p: Pass)
    requires k in cfg.machines && k.kind == VM && PassOK(cfg, servers, k, p)
    ensures !p.call.VpcListing? && !p.call.VpcAttaching?
  {
    hide PID.ToResourceID, OwnedBy;
  }

  // ---- over runs

  /** The pass of k and the stored object of k. */
  ghost predicate PairOK(m: Machine, p: Pass) {
    && (m.provisioned ==> NoPatch(p))
    && (p.log == [] ==> m.provisioned == p.mem.provisioned)
  }

  ghost predicate ProvInv(cfg: Config, s: State) {
    && (forall k :: k in s.stored && k.kind == VM ==> VMTerminalIsLost(s.stored[k]))
    && (forall k :: k in s.passes && k.kind == VM ==> k in cfg.machines && VerdictOK(cfg.machines[k], s.passes[k]))
    && (forall k :: k in s.passes && k in s.stored && k.kind == VM ==> PairOK(s.stored[k], s.passes[k]))
  }

  lemma StartVerdict(k: Key, spec: Spec, m: Machine, f: Facts)
    requires k.kind == VM && VMTerminalIsLost(m)
    ensures var p := Start(k, spec, m, f); VerdictOK(spec, p) && NoPatch(p) && p.log == [] && p.mem.provisioned == m.provisioned
  {
    hide PID.ToResourceID;
  }

  lemma StoredProvStep(cfg: Config, s: State, e: Event, s': State, k: Key)
    requires ProvInv(cfg, s) && Step(cfg, s, e, s') && k in s'.stored && k.kind == VM
    ensures VMTerminalIsLost(s'.stored[k])
  {
    hide PID.ToResourceID, Start, Next, ServersAfter, NoPatch, NotJoined, Verdict, PairOK;
    if e.Answered? && e.k == k { assert VerdictOK(cfg.machines[k], s.passes[k]); }
  }

  lemma PassProvStep(cfg: Config, s: State, e: Event, s': State, k: Key)
    requires ConfigOK(cfg) && Inv(cfg, s) && L.LifeInv(s) && ProvInv(cfg, s) && Step(cfg, s, e, s') && k in s'.passes && k.kind == VM
    ensures k in cfg.machines && VerdictOK(cfg.machines[k], s'.passes[k])
  {
    hide PID.ToResourceID, Start, Next, ServersAfter, StoredAfter, VerdictOK, PairOK, VMTerminalIsLost, Inv, L.LifeInv, Allowed;
    if e.Begin? && e.k == k {
      StartVerdict(k, cfg.machines[k], s.stored[k], e.facts);
    } else if e.Answered? && e.k == k {
      if s.passes[k].call.Closing? { ClosingIsLast(k, cfg.machines[k], s.passes[k], e.a); }
      else { NextVerdict(cfg, s, k, e.a); }
    }
  }

  lemma NextLog(k: Key, spec: Spec, p: Pass, a: Answer)
    ensures var n := Next(k, spec, p, a); n.Some? ==> n.value.log != []
  {
    hide PID.ToResourceID, Scan, AfterGet, AfterFind, AfterCreate, AfterVpcList, AfterVpcAttach, AfterLbGet, AfterLbUpdate, AfterLbRemoveGet, Join;
  }

  lemma PairAnswered(cfg: Config, s: State, k: Key, a: Answer)
    requires ConfigOK(cfg) && Inv(cfg, s) && L.LifeInv(s) && ProvInv(cfg, s) && Enabled(cfg, s, Answered(k, a)) && k.kind == VM
    requires var s' := Deliver(cfg, s, k, a); k in s'.passes && k in s'.stored
    ensures var s' := Deliver(cfg, s, k, a); PairOK(s'.stored[k], s'.passes[k])
  {
    hide PID.ToResourceID, Next, ServersAfter, NoPatch, NotJoined, Verdict, PassOK, MachineOK, ServersOK, L.PassLifeOK, HasTerminalFailure, Allowed;
    var p := s.passes[k];
    if p.call.Closing? {
      ClosingIsLast(k, cfg.machines[k], p, a);
    } else {
      assert VerdictOK(cfg.machines[k], p);
      NextVerdict(cfg, s, k, a);
      NextLog(k, cfg.machines[k], p, a);
      Patched(p);
      if k in s.stored { assert PairOK(s.stored[k], p) && L.Agrees(k, s.stored[k], p) && L.Reported(s.stored[k]); }
    }
  }

  lemma PairProvStep(cfg: Config, s: State, e: Event, s': State, k: Key)
    requires ConfigOK(cfg) && Inv(cfg, s) && L.LifeInv(s) && ProvInv(cfg, s) && Step(cfg, s, e, s') && k in s'.passes && k in s'.stored && k.kind == VM
    ensures PairOK(s'.stored[k], s'.passes[k])
  {
    hide PID.ToResourceID, Start, Next, ServersAfter, VerdictOK, Inv, L.LifeInv, NoPatch, HasTerminalFailure, Allowed;
    if e.Begin? && e.k == k {
      StartVerdict(k, cfg.machines[k], s.stored[k], e.facts);
    } else if e.Answered? && e.k == k {
      PairAnswered(cfg, s, k, e.a);
    }
  }

  lemma {:induction false} ProvAlong(cfg: Config, states: seq<State>, events: seq<Event>, i: nat)
    requires ConfigOK(cfg) && IsRun(cfg, states, events) && i < |states|
    ensures ProvInv(cfg, states[i])
  {
    hide Apply, Enabled, Inv, L.LifeInv, VerdictOK, PairOK, VMTerminalIsLost;
    if i > 0 {
      ProvAlong(cfg, states, events, i - 1);
      InvAlong(cfg, states, events, i - 1);
      L.LifeAlong(cfg, states, events, i - 1);
      var s, e, s' := states[i - 1], events[i - 1], states[i];
      forall k | k in s'.stored && k.kind == VM ensures VMTerminalIsLost(s'.stored[k]) { StoredProvStep(cfg, s, e, s', k); }
      forall k | k in s'.passes && k.kind == VM ensures k in cfg.machines && VerdictOK(cfg.machines[k], s'.passes[k]) {
        PassProvStep(cfg, s, e, s', k);
      }
      forall k | k in s'.passes && k in s'.stored && k.kind == VM ensures PairOK(s'.stored[k], s'.passes[k]) {
        PairProvStep(cfg, s, e, s', k);
      }
    }
  }

  /** The event is a Close that takes effect, of an instance's pass that came to the switch with an unexpected status. */
  ghost predicate ClosesOnVerdict(cfg: Config, s: State, e: Event, k: Key) {
    && k in cfg.machines && k.kind == VM && e.Answered? && e.k == k && Acted(e.a)
    && k in s.passes && s.passes[k].call.Closing? && Verdict(cfg.machines[k], s.passes[k])
  }

  /**
   In every run, a step clears a stored Provisioned if and only if it is the Close of a pass over an instance which has
   seen a status that is neither "pending" nor "active" and, on a control plane, got the server accepted by the load
   balancer. For bare metal no step does.
   */
  lemma ProvisionedIsLostIff(cfg: Config, states: seq<State>, events: seq<Event>, i: nat, k: Key)
    requires ConfigOK(cfg) && IsRun(cfg, states, events) && i < |events|
    requires k in states[i].stored && k in states[i + 1].stored && states[i].stored[k].provisioned
    ensures !states[i + 1].stored[k].provisioned <==> ClosesOnVerdict(cfg, states[i], events[i], k)
  {
    hide PID.ToResourceID, Start, Next, ServersAfter, L.Reported, NoPatch, NotJoined, Verdict, CallOK, MachineOK, ServersOK, HasTerminalFailure, Allowed;
    var s, e, s' := states[i], events[i], states[i + 1];
    InvAlong(cfg, states, events, i);
    L.LifeAlong(cfg, states, events, i);
    ProvAlong(cfg, states, events, i);
    assert events[i] == events[i];
    if e.Answered? && e.k == k {
      var p := s.passes[k];
      assert L.Agrees(k, s.stored[k], p) && PassOK(cfg, s.servers, k, p);
      RemovingIsNotTerminal(k.kind, p.mem);
      if k.kind == VM {
        assert VerdictOK(cfg.machines[k], p) && PairOK(s.stored[k], p);
        VerdictSaw(cfg.machines[k], p);
      }
    }
  }

  lemma RemovingIsNotTerminal(kind: Kind, m: Machine)
    ensures m.cond == Ready(False, Removing) ==> !HasTerminalFailure(kind, m)
  {
  }

  lemma VerdictSaw(spec: Spec, p: Pass)
    ensures Verdict(spec, p) ==> p.sight.Saw?
  {
  }

  // ---- and it happens to every instance

  const WITH_LB := Facts(true, true, "lb", "")

  /** The pass of k is on its way to the switch on the status, with the server "a" in hand. */
  ghost predicate AtSwitch(cfg: Config, s: State, k: Key, q: Pass, status: string) {
    && k in cfg.machines && k.kind == VM && k in s.passes && k in s.stored
    && s.passes[k] == Join(VM, cfg.machines[k], q, "a", status) && q.facts == WITH_LB && q.sight == Saw("a", status)
  }

  /** A load balancer that has the server already lets the pass come to the switch. */
  lemma ToSwitch(cfg: Config, s: State, k: Key, q: Pass, status: string) returns (s': State, q': Pass)
    requires Reachable(cfg, s) && AtSwitch(cfg, s, k, q, status)
    ensures Reachable(cfg, s') && s'.stored == s.stored && s'.servers == s.servers
    ensures k in s'.passes && q'.mem == q.mem && s'.passes[k] == Finish(VM, q', status)
  {
    hide IsRun;
    s', q' := s, q;
    if cfg.machines[k].controlPlane {
      var a := LbGot(true, ["a"]);
      ReachableStep(cfg, s, Answered(k, a));
      s' := Apply(cfg, s, Answered(k, a));
      q' := s.passes[k].(log := s.passes[k].log + [Exchange(s.passes[k].call, a)]);
    }
  }

  lemma LetterID()
    ensures PID.ToResourceID(PID.FromResourceID("a")) == "a" && PID.ToResourceID("") == ""
  {
    U.FreshLetter(map[], "a");
    PID.RoundTrip("a");
    NoID();
  }

  /** The first pass of a new machine creates its server and stores the ID. */
  lemma CreateAndPatch(cfg: Config, k: Key) returns (s: State, q: Pass)
    requires k in cfg.machines && k.kind == VM
    ensures Reachable(cfg, s) && AtSwitch(cfg, s, k, q, "active")
    ensures q.mem.finalizer && q.mem.providerID == PID.FromResourceID("a") && !s.stored[k].deleting && !q.mem.deleting
    ensures s.servers.Keys == {"a"}
  {
    hide IsRun, Reachable, PID.ToResourceID, PID.FromResourceID, Join, NewServer;
    InitReachable(cfg);
    ReachableStep(cfg, INIT, UserCreate(k));
    var s2 := U.BeginAndFindNothing(cfg, Apply(cfg, INIT, UserCreate(k)), k, WITH_LB);
    U.FreshLetter(s2.servers, "a");
    LetterID();
    ReachableStep(cfg, s2, Answered(k, Created("a", "active")));
    var s3 := Apply(cfg, s2, Answered(k, Created("a", "active")));
    assert s3.passes[k].call.Patching? && s3.passes[k].sight == Saw("a", "active");
    ReachableStep(cfg, s3, Answered(k, Done));
    s := Apply(cfg, s3, Answered(k, Done));
    q := s3.passes[k].(log := s3.passes[k].log + [Exchange(Patching, Done)]);
  }

  /** That pass ends with the machine provisioned. */
  lemma Provisioned(cfg: Config, k: Key) returns (s: State)
    requires k in cfg.machines && k.kind == VM
    ensures Reachable(cfg, s) && k in s.stored && k !in s.passes
    ensures s.stored[k].provisioned && s.stored[k].providerID == PID.FromResourceID("a") && !s.stored[k].deleting
    ensures s.stored[k].cond == Ready(True, Active) && s.servers.Keys == {"a"}
  {
    hide IsRun, Reachable, PID.ToResourceID, PID.FromResourceID, Join;
    var s1, q := CreateAndPatch(cfg, k);
    var s2, q' := ToSwitch(cfg, s1, k, q, "active");
    ReachableStep(cfg, s2, Answered(k, Done));
    s := Apply(cfg, s2, Answered(k, Done));
  }

  /**
   The documented promise fails for every instance of every configuration: it can be provisioned, be seen "stopped"
   by its next pass, and lose the mark in the Close of that pass.
   */
  lemma ProvisionedCanBeLost(cfg: Config, k: Key) returns (s: State, e: Event)
    requires k in cfg.machines && k.kind == VM
    ensures Reachable(cfg, s) && Enabled(cfg, s, e) && k in s.stored && s.stored[k].provisioned
    ensures k in Apply(cfg, s, e).stored && !Apply(cfg, s, e).stored[k].provisioned
  {
    hide IsRun, Reachable, PID.ToResourceID, PID.FromResourceID, Join;
    var s1 := Provisioned(cfg, k);
    LetterID();
    ReachableStep(cfg, s1, Begin(k, WITH_LB));
    var s2 := Apply(cfg, s1, Begin(k, WITH_LB));
    assert s2.passes[k].call == Getting("a");
    var a := Found("a", "stopped");
    ReachableStep(cfg, s2, Answered(k, a));
    var s3 := Apply(cfg, s2, Answered(k, a));
    var q := s2.passes[k].(log := s2.passes[k].log + [Exchange(Getting("a"), a)], sight := Saw("a", "stopped"));
    var q';
    s, q' := ToSwitch(cfg, s3, k, q, "stopped");
    e := Answered(k, Done);
  }
}

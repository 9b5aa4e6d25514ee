/** What a stored object never goes back on: its providerID, its terminal failure, and its Provisioned mark. */
module Lifecycle {
  import opened Search
  import opened Machines
  import opened Protocol
  import opened Invariants
  import PID = ProviderID

  /** What the object has reported so far names a server. */
  predicate Reported(m: Machine) {
    m.provisioned || (m.cond.Ready? && m.cond.status == True) ==> ServerID(m) != ""
  }

  /** The pass of k still agrees with the stored object on what must not be lost. */
  predicate Agrees(k: Key, m: Machine, p: Pass) {
    && (ServerID(m) != "" ==> p.mem.providerID == m.providerID)
    && (m.provisioned ==> p.mem.provisioned || (k.kind == VM && p.call.Closing? && HasTerminalFailure(k.kind, p.mem)))
    && (HasTerminalFailure(k.kind, m) && !p.mem.deleting ==> p.mem == m.(deleting := false) && p.call.Closing? && p.log == [])
  }

  predicate PassLifeOK(k: Key, p: Pass) {
    && Reported(p.mem)
    && (!p.call.Closing? && !p.mem.deleting ==> !HasTerminalFailure(k.kind, p.mem))
  }

  ghost predicate LifeInv(s: State) {
    && (forall k :: k in s.stored ==> Reported(s.stored[k]))
    && (forall k :: k in s.passes ==> PassLifeOK(k, s.passes[k]))
    && (forall k :: k in s.passes && k in s.stored ==> Agrees(k, s.stored[k], s.passes[k]) && (s.passes[k].mem.deleting ==> s.stored[k].deleting))
  }

  /** How one answer changes what the pass holds in memory. */
  ghost predicate MemoryStep(k: Key, p: Pass, n: Pass) {
    && (ServerID(p.mem) != "" ==> n.mem.providerID == p.mem.providerID)
    && n.mem.deleting == p.mem.deleting
    && (Kept(p, n) || Waits(k.kind, p, n) || Fails(k.kind, p, n) || (Succeeds(n) && n.sight.Saw?)
        || (k.kind == VM && p.call.Creating? && n.call.Closing? && n.mem.cond == Ready(False, CreationFailed) && !n.mem.provisioned))
  }

  lemma NextMemory(cfg: Config, servers: map<string, Server>, k: Key, p: Pass, a: Answer)
    requires k in cfg.machines && PassOK(cfg, servers, k, p) && !p.call.Closing?
    requires p.call.Getting? && a.Found? ==> a.id == p.call.id
    ensures MemoryStep(k, p, Next(k, cfg.machines[k], p, a).value)
  {
    hide PID.ToResourceID, PID.FromResourceID, OwnedBy, Scan, HasTerminalFailure, Join,
         AfterGet, AfterFind, AfterCreate, AfterVpcList, AfterVpcAttach, AfterLbGet, AfterLbUpdate, AfterLbRemoveGet, AfterRelist;
    PID.ParsedIsBuilt(p.mem.providerID);
  }

  lemma StartLife(k: Key, spec: Spec, m: Machine, f: Facts)
    requires Reported(m)
    ensures var p := Start(k, spec, m, f);
            && PassLifeOK(k, p) && p.mem.deleting == m.deleting && Agrees(k, m, p)
  {
    hide PID.ToResourceID;
  }

  lemma PassLifeStep(cfg: Config, s: State, k: Key, a: Answer)
    requires ConfigOK(cfg) && Inv(cfg, s) && LifeInv(s) && Enabled(cfg, s, Answered(k, a)) && !s.passes[k].call.Closing?
    ensures var s' := Deliver(cfg, s, k, a);
            && k in s'.passes && MemoryStep(k, s.passes[k], s'.passes[k]) && PassLifeOK(k, s'.passes[k])
            && PassOK(cfg, s.servers, k, s.passes[k])
  {
    hide PID.ToResourceID, OwnedBy, WellMade, CallOK, AfterGet, AfterFind, AfterCreate, AfterVpcList, AfterVpcAttach, AfterLbGet,
         AfterLbUpdate, AfterLbRemoveGet, AfterRelist, Join;
    var s' := Deliver(cfg, s, k, a);
    assert PassOK(cfg, s.servers, k, s.passes[k]);
    NextMemory(cfg, s.servers, k, s.passes[k], a);
    NextOK(cfg, s, k, a);
    ServersKeepOK(cfg, s, Answered(k, a), s');
  }

  // ---- preservation

  lemma StoredLifeStep(cfg: Config, s: State, e: Event, s': State, k: Key)
    requires Inv(cfg, s) && LifeInv(s) && Step(cfg, s, e, s') && k in s'.stored
    ensures Reported(s'.stored[k])
  {
    hide PID.ToResourceID, OwnedBy, WellMade, Start, Next, ServersAfter;
    if e.Answered? && e.k == k { assert PassLifeOK(k, s.passes[k]); }
    if e.UserCreate? && e.k == k { NoID(); }
  }

  lemma PassesLifeStep(cfg: Config, s: State, e: Event, s': State, k: Key)
    requires ConfigOK(cfg) && Inv(cfg, s) && LifeInv(s) && Step(cfg, s, e, s') && k in s'.passes
    ensures PassLifeOK(k, s'.passes[k])
  {
    hide PID.ToResourceID, Start, ServersAfter, StoredAfter, AfterGet, AfterFind, AfterCreate, AfterVpcList, AfterVpcAttach, AfterLbGet,
         AfterLbUpdate, AfterLbRemoveGet, AfterRelist, Join, HasTerminalFailure, PassOK;
    if e.Begin? && e.k == k {
      StartLife(k, cfg.machines[k], s.stored[k], e.facts);
    } else if e.Answered? && e.k == k {
      PassLifeStep(cfg, s, k, e.a);
    }
  }

  /** The step of the pass itself keeps the agreement, and a write makes it exact. */
  lemma AgreesStep(k: Key, m: Machine, p: Pass, n: Pass)
    requires Agrees(k, m, p) && PassLifeOK(k, p) && Reported(m) && MemoryStep(k, p, n) && !p.call.Closing?
    requires p.call.Creating? ==> ServerID(p.mem) == ""
    requires p.mem.deleting ==> m.deleting
    ensures Agrees(k, m, n)
  {
    hide PID.ToResourceID;
  }

  lemma AgreementStep(cfg: Config, s: State, e: Event, s': State, k: Key)
    requires ConfigOK(cfg) && Inv(cfg, s) && LifeInv(s) && Step(cfg, s, e, s') && k in s'.passes && k in s'.stored
    ensures Agrees(k, s'.stored[k], s'.passes[k]) && (s'.passes[k].mem.deleting ==> s'.stored[k].deleting)
  {
    hide PID.ToResourceID, Start, Next, ServersAfter, MemoryStep, OwnedBy, WellMade;
    if e.Begin? && e.k == k {
      StartLife(k, cfg.machines[k], s.stored[k], e.facts);
    } else if e.Answered? && e.k == k {
      AgreementAnswered(cfg, s, k, e.a);
    }
  }

  lemma AgreementAnswered(cfg: Config, s: State, k: Key, a: Answer)
    requires ConfigOK(cfg) && Inv(cfg, s) && LifeInv(s) && Enabled(cfg, s, Answered(k, a))
    requires k in Deliver(cfg, s, k, a).passes && k in Deliver(cfg, s, k, a).stored
    ensures var s' := Deliver(cfg, s, k, a);
            Agrees(k, s'.stored[k], s'.passes[k]) && (s'.passes[k].mem.deleting ==> s'.stored[k].deleting)
  {
    hide PID.ToResourceID, ServersAfter, OwnedBy, WellMade, AfterGet, AfterFind, AfterCreate, AfterVpcList, AfterVpcAttach, AfterLbGet,
         AfterLbUpdate, AfterLbRemoveGet, AfterRelist, Join;
    var s' := Deliver(cfg, s, k, a);
    var p := s.passes[k];
    PassLifeStep(cfg, s, k, a);
    if s'.stored[k] == s.stored[k] {
      AgreesStep(k, s.stored[k], p, s'.passes[k]);
    } else {
      var m := s'.stored[k];
      assert p.call.Patching? && m == p.mem.(deleting := s.stored[k].deleting);
      AgreesStep(k, m, p, s'.passes[k]);
    }
  }

  lemma LifeStep(cfg: Config, s: State, e: Event, s': State)
    requires ConfigOK(cfg) && Inv(cfg, s) && LifeInv(s) && Step(cfg, s, e, s')
    ensures LifeInv(s')
  {
    hide Step, Inv, Agrees, PassLifeOK, Reported;
    forall k | k in s'.stored ensures Reported(s'.stored[k]) { StoredLifeStep(cfg, s, e, s', k); }
    forall k | k in s'.passes ensures PassLifeOK(k, s'.passes[k]) { PassesLifeStep(cfg, s, e, s', k); }
    forall k | k in s'.passes && k in s'.stored
      ensures Agrees(k, s'.stored[k], s'.passes[k]) && (s'.passes[k].mem.deleting ==> s'.stored[k].deleting)
    {
      AgreementStep(cfg, s, e, s', k);
    }
  }

  lemma {:induction false} LifeAlong(cfg: Config, states: seq<State>, events: seq<Event>, i: nat)
    requires ConfigOK(cfg) && IsRun(cfg, states, events) && i < |states|
    ensures LifeInv(states[i])
  {
    hide Apply, Enabled, Inv, PID.ToResourceID;
    if i > 0 {
      LifeAlong(cfg, states, events, i - 1);
      InvAlong(cfg, states, events, i - 1);
      assert events[i - 1] == events[i - 1];
      LifeStep(cfg, states[i - 1], events[i - 1], states[i]);
    }
  }

  // ---- the providerID

  /** From i to j the object of k is never gone. */
  ghost predicate Stays(states: seq<State>, i: nat, j: nat, k: Key) {
    i <= j < |states| && forall m :: i <= m <= j ==> k in states[m].stored
  }

  lemma IDStep(cfg: Config, s: State, e: Event, s': State, k: Key)
    requires ConfigOK(cfg) && Inv(cfg, s) && LifeInv(s) && Step(cfg, s, e, s') && k in s.stored && k in s'.stored
    requires ServerID(s.stored[k]) != ""
    ensures s'.stored[k].providerID == s.stored[k].providerID
    ensures forall id :: id in s'.servers && id !in s.servers ==> s'.servers[id].maker != k
  {
    hide PID.ToResourceID, Start, Next, ServersAfter, OwnedBy, WellMade, HasTerminalFailure, Reported;
    ServersEvolve(cfg, s, e, s');
    if e.Answered? && e.k == k {
      assert Agrees(k, s.stored[k], s.passes[k]) && PassOK(cfg, s.servers, k, s.passes[k]);
    }
  }

  /**
   In every run, once a providerID that parses is stored it is never replaced and no further server is made for the
   machine, as long as the object exists, whatever the cloud answers.
   */
  lemma {:induction false} StoredIDIsFinal(cfg: Config, states: seq<State>, events: seq<Event>, i: nat, j: nat, k: Key)
    requires ConfigOK(cfg) && IsRun(cfg, states, events) && Stays(states, i, j, k)
    requires ServerID(states[i].stored[k]) != ""
    ensures states[j].stored[k].providerID == states[i].stored[k].providerID
    ensures forall id :: id in states[j].servers && states[j].servers[id].maker == k ==> id in states[i].servers
    decreases j
  {
    hide Apply, Enabled, Inv, LifeInv, PID.ToResourceID;
    if i < j {
      StoredIDIsFinal(cfg, states, events, i, j - 1, k);
      InvAlong(cfg, states, events, j - 1);
      LifeAlong(cfg, states, events, j - 1);
      assert events[j - 1] == events[j - 1];
      ServersEvolve(cfg, states[j - 1], events[j - 1], states[j]);
      IDStep(cfg, states[j - 1], events[j - 1], states[j], k);
    }
  }

  // ---- the terminal failure

  lemma TerminalStep(cfg: Config, s: State, e: Event, s': State, k: Key)
    requires ConfigOK(cfg) && Inv(cfg, s) && LifeInv(s) && Step(cfg, s, e, s') && k in s.stored && e != UserDelete(k)
    requires HasTerminalFailure(k.kind, s.stored[k]) && !s.stored[k].deleting
    ensures k in s'.stored && s'.stored[k] == s.stored[k]
  {
    hide PID.ToResourceID, Start, Next, ServersAfter, OwnedBy, WellMade, HasTerminalFailure, Reported;
    if e.Answered? && e.k == k { assert Agrees(k, s.stored[k], s.passes[k]); }
  }

  /**
   In every run, a stored terminal failure freezes the object until the user deletes it, and every pass in between
   ends without a single call to the cloud.
   */
  lemma {:induction false} TerminalFailureAbsorbs(cfg: Config, states: seq<State>, events: seq<Event>, i: nat, j: nat, k: Key)
    requires ConfigOK(cfg) && IsRun(cfg, states, events) && i <= j < |states|
    requires k in states[i].stored && HasTerminalFailure(k.kind, states[i].stored[k]) && !states[i].stored[k].deleting
    requires forall m {:trigger events[m]} :: i <= m < j ==> events[m] != UserDelete(k)
    ensures k in states[j].stored && states[j].stored[k] == states[i].stored[k]
    ensures k in states[j].passes ==> states[j].passes[k].log == [] && states[j].passes[k].call.Closing?
    decreases j
  {
    hide Apply, Enabled, Inv, HasTerminalFailure, Reported, PID.ToResourceID;
    LifeAlong(cfg, states, events, j);
    if i < j {
      TerminalFailureAbsorbs(cfg, states, events, i, j - 1, k);
      InvAlong(cfg, states, events, j - 1);
      LifeAlong(cfg, states, events, j - 1);
      assert events[j - 1] != UserDelete(k);
      TerminalStep(cfg, states[j - 1], events[j - 1], states[j], k);
    }
  }

  /** What of a terminal failure the passes can see: everything but the deletion mark. */
  ghost predicate SameReport(a: Machine, b: Machine) {
    a == b.(deleting := a.deleting)
  }

  /** One step after a stored terminal failure: only a delete pass changes the object, save for the user's mark. */
  lemma FailureStep(cfg: Config, s: State, e: Event, s': State, k: Key)
    requires ConfigOK(cfg) && Inv(cfg, s) && LifeInv(s) && Step(cfg, s, e, s') && k in s.stored && HasTerminalFailure(k.kind, s.stored[k])
    requires k in s'.stored && !SameReport(s'.stored[k], s.stored[k])
    ensures e.Answered? && e.k == k && k in s.passes && s.passes[k].mem.deleting && s.stored[k].deleting
  {
    hide PID.ToResourceID, Start, Next, ServersAfter, OwnedBy, WellMade, HasTerminalFailure, Reported;
    if e.Answered? && e.k == k { assert Agrees(k, s.stored[k], s.passes[k]); }
  }

  /** The step is the answer to a delete pass of k. */
  ghost predicate DeletePassStep(s: State, e: Event, k: Key) {
    e.Answered? && e.k == k && k in s.passes && s.passes[k].mem.deleting
  }

  /**
   In every run, also beyond the user's delete: while no delete pass of k has been answered, a stored terminal failure
   stands unchanged, and a pass of k that is not a delete pass, even one that was under way when the user deleted, has
   made no cloud call and will make none.
   */
  lemma {:induction false} OnlyDeletePassReplacesFailure(cfg: Config, states: seq<State>, events: seq<Event>, i: nat, j: nat, k: Key)
    requires ConfigOK(cfg) && IsRun(cfg, states, events) && Stays(states, i, j, k)
    requires HasTerminalFailure(k.kind, states[i].stored[k])
    requires forall m {:trigger events[m]} :: i <= m < j ==> !DeletePassStep(states[m], events[m], k)
    ensures HasTerminalFailure(k.kind, states[j].stored[k]) && SameReport(states[j].stored[k], states[i].stored[k])
    ensures k in states[j].passes && !states[j].passes[k].mem.deleting ==>
              states[j].passes[k].log == [] && states[j].passes[k].call.Closing?
    decreases j
  {
    hide Apply, Enabled, Inv, Reported, PID.ToResourceID;
    LifeAlong(cfg, states, events, j);
    if i < j {
      OnlyDeletePassReplacesFailure(cfg, states, events, i, j - 1, k);
      InvAlong(cfg, states, events, j - 1);
      LifeAlong(cfg, states, events, j - 1);
      assert !DeletePassStep(states[j - 1], events[j - 1], k);
      if !SameReport(states[j].stored[k], states[j - 1].stored[k]) {
        FailureStep(cfg, states[j - 1], events[j - 1], states[j], k);
      }
    }
  }

  /** A deletion mark never goes: from then on every pass that begins for the object is a delete pass. */
  lemma {:induction false} DeletionIsFinal(cfg: Config, states: seq<State>, events: seq<Event>, i: nat, j: nat, k: Key, f: Facts)
    requires ConfigOK(cfg) && IsRun(cfg, states, events) && Stays(states, i, j, k) && states[i].stored[k].deleting && k in cfg.machines
    ensures states[j].stored[k].deleting
    ensures var p := Start(k, cfg.machines[k], states[j].stored[k], f); DeleteCall(p.call) && p.mem.cond == Ready(False, Removing)
    decreases j
  {
    hide PID.ToResourceID, Next, ServersAfter;
    if i < j {
      DeletionIsFinal(cfg, states, events, i, j - 1, k, f);
      assert events[j - 1] == events[j - 1];
    }
  }

  // ---- Provisioned

  /**
   In every run, a step that clears a stored Provisioned mark is one that stores a terminal failure of an instance;
   bare metal never loses the mark.
   */
  lemma ProvisionedIsLostOnlyToTerminalFailure(cfg: Config, states: seq<State>, events: seq<Event>, i: nat, k: Key)
    requires ConfigOK(cfg) && IsRun(cfg, states, events) && i < |events|
    requires k in states[i].stored && k in states[i + 1].stored && states[i].stored[k].provisioned && !states[i + 1].stored[k].provisioned
    ensures k.kind == VM && HasTerminalFailure(k.kind, states[i + 1].stored[k])
  {
    hide PID.ToResourceID, Start, Next, ServersAfter, Reported, Inv;
    var s, e, s' := states[i], events[i], states[i + 1];
    InvAlong(cfg, states, events, i);
    LifeAlong(cfg, states, events, i);
    if e.Answered? && e.k == k { assert Agrees(k, s.stored[k], s.passes[k]); }
  }
}

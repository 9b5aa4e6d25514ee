/**
 The same convergence amid everything else that goes on: other machines' passes, users, crashes and vanishing servers
 never raise the measure of a machine that is being deleted, and each of its truthful delete passes, however
 interleaved, drops the finalizer or lowers it.
 */
module Interleaving {
  import opened Search
  import opened Machines
  import opened Protocol
  import opened Invariants
  import opened Convergence
  import U = Uniqueness
  import PID = ProviderID
  import LB = LoadBalancers

  /** The object of k is marked for deletion and no normal pass for it is under way. */
  ghost predicate Doomed(s: State, k: Key) {
    && k in s.stored && s.stored[k].deleting
    && (k in s.passes ==> s.passes[k].mem.deleting && s.passes[k].mem.providerID == s.stored[k].providerID)
  }

  /** A delete pass neither stops being one nor touches the providerID. */
  lemma DeletePassKeeps(k: Key, spec: Spec, p: Pass, a: Answer)
    requires p.mem.deleting && (DeleteCall(p.call) || p.call.Closing?)
    ensures var n := Next(k, spec, p, a); n.Some? ==> n.value.mem.deleting && n.value.mem.providerID == p.mem.providerID
  {
    hide PID.ToResourceID, Scan, LB.Without, AfterLbRemoveGet, AfterRelist;
  }

  lemma DeletePassStarts(k: Key, spec: Spec, m: Machine, f: Facts)
    requires m.deleting
    ensures var p := Start(k, spec, m, f); p.mem.deleting && p.mem.providerID == m.providerID
  {
    hide PID.ToResourceID;
  }

  lemma DoomedStep(cfg: Config, s: State, e: Event, s': State, k: Key)
    requires ConfigOK(cfg) && Inv(cfg, s) && Doomed(s, k) && Step(cfg, s, e, s') && k in s'.stored
    ensures Doomed(s', k) && s'.stored[k].providerID == s.stored[k].providerID
  {
    hide PID.ToResourceID, ServersAfter, MachineOK, ServersOK, Start, Next, CallOK;
    if e.Begin? && e.k == k {
      DeletePassStarts(k, cfg.machines[k], s.stored[k], e.facts);
    }
    if e.Answered? && e.k == k {
      InvPass(cfg, s, k);
      DeletePassKeeps(k, cfg.machines[k], s.passes[k], e.a);
    }
  }

  /** No server of k is made while it is doomed. */
  lemma NoNewServer(cfg: Config, s: State, e: Event, s': State, k: Key)
    requires ConfigOK(cfg) && U.Distinct(cfg) && Inv(cfg, s) && Doomed(s, k) && k in cfg.machines && Step(cfg, s, e, s')
    ensures Evolves(s.servers, s'.servers) && ServersOK(cfg, s'.servers)
    ensures forall id :: id in s'.servers && id !in s.servers ==> !OwnedBy(cfg, k, s'.servers[id])
  {
    hide Apply, OwnedBy, WellMade, NewServer, CallOK, MachineOK, Allowed;
    ServersEvolve(cfg, s, e, s');
    ServersKeepOK(cfg, s, e, s');
    forall id | id in s'.servers && id !in s.servers ensures !OwnedBy(cfg, k, s'.servers[id]) {
      InvPass(cfg, s, e.k);
      U.MakerIs(cfg, e.k);
      U.OwnedByMaker(cfg, k, s'.servers[id]);
    }
  }

  /** A server loses weight only: live, then lagging, then forgotten. */
  ghost predicate Wanes(cfg: Config, a: Server, b: Server) {
    SameBody(a, b) && (b.live ==> a.live) && (!b.live && a.live ==> b.lag <= cfg.lag) && (!b.live && !a.live ==> b.lag <= a.lag)
  }

  lemma ServersWane(cfg: Config, s: State, e: Event, s': State, id: string)
    requires Step(cfg, s, e, s') && id in s.servers
    ensures id in s'.servers && Wanes(cfg, s.servers[id], s'.servers[id])
  {
    hide Next, StoredAfter, NewServer, Start, QueriedBy;
  }

  /** Whatever happens, the measure of a doomed machine does not rise and no server of it comes to life. */
  lemma NothingHinders(cfg: Config, s: State, e: Event, s': State, k: Key)
    requires ConfigOK(cfg) && U.Distinct(cfg) && Inv(cfg, s) && Doomed(s, k) && k in cfg.machines && Step(cfg, s, e, s')
    ensures Measure(cfg, s'.servers, k) <= Measure(cfg, s.servers, k)
    ensures forall id :: U.LiveOwned(cfg, s'.servers, k, id) ==> U.LiveOwned(cfg, s.servers, k, id)
    ensures forall id :: U.LiveOwned(cfg, s.servers, k, id) && !U.LiveOwned(cfg, s'.servers, k, id) ==>
                           Measure(cfg, s'.servers, k) < Measure(cfg, s.servers, k)
  {
    hide Inv, Step, OwnedBy, WellMade;
    NoNewServer(cfg, s, e, s', k);
    var ids := OwnedIDs(cfg, s.servers, k);
    OwnedIDsFrame(cfg, s.servers, s'.servers, k);
    forall id | id in ids
      ensures Weight(cfg, s'.servers, k, id) <= Weight(cfg, s.servers, k, id)
      ensures !s'.servers[id].live && s.servers[id].live ==> Weight(cfg, s'.servers, k, id) < Weight(cfg, s.servers, k, id)
    {
      ServersWane(cfg, s, e, s', id);
      U.OwnedSame(cfg, k, s.servers[id], s'.servers[id]);
    }
    TotalLe(cfg, s.servers, s'.servers, k, ids);
    forall id | U.LiveOwned(cfg, s'.servers, k, id) ensures U.LiveOwned(cfg, s.servers, k, id) {
      U.OwnedSame(cfg, k, s.servers[id], s'.servers[id]);
    }
    forall id | U.LiveOwned(cfg, s.servers, k, id) && !U.LiveOwned(cfg, s'.servers, k, id)
      ensures Measure(cfg, s'.servers, k) < Measure(cfg, s.servers, k)
    {
      U.OwnedSame(cfg, k, s.servers[id], s'.servers[id]);
      assert id in ids;
    }
  }

  // ---- one truthful pass, interleaved

  /** How far the pass of k has come towards a measure below the one it began with. */
  ghost predicate Stage(cfg: Config, s: State, k: Key, bound: nat)
    requires k in cfg.machines
  {
    && Doomed(s, k) && k in s.passes
    && var c, m := s.passes[k].call, Measure(cfg, s.servers, k);
       && m <= bound
       && OneOther(cfg, s.servers, k, ServerID(s.stored[k]))
       && (c.Relisting? ==> !U.LiveOwned(cfg, s.servers, k, ServerID(s.stored[k])))
       && (c.DeletingOther? ==> m < bound || U.LiveOwned(cfg, s.servers, k, c.id))
       && (c.Closing? ==> m < bound || !s.passes[k].mem.finalizer)
  }

  /** Steps of anything but the pass of k. */
  lemma StageOthers(cfg: Config, s: State, e: Event, s': State, k: Key, bound: nat)
    requires ConfigOK(cfg) && U.Distinct(cfg) && Inv(cfg, s) && k in cfg.machines && Stage(cfg, s, k, bound) && Step(cfg, s, e, s')
    requires !(e.Answered? && e.k == k) && k in s'.passes && k in s'.stored
    ensures Stage(cfg, s', k, bound)
  {
    hide Inv, Measure, U.LiveOwned, PID.ToResourceID, Next, Start, ServersAfter, StoredAfter;
    NothingHinders(cfg, s, e, s', k);
    DoomedStep(cfg, s, e, s', k);
  }

  lemma RelistMoves(cfg: Config, s: State, k: Key, a: Answer, bound: nat)
    requires ConfigOK(cfg) && U.Distinct(cfg) && Inv(cfg, s) && k in cfg.machines && Stage(cfg, s, k, bound)
    requires s.passes[k].call.Relisting? && Truthful(cfg, s, k, Relisting, a)
    ensures Stage(cfg, Deliver(cfg, s, k, a), k, bound)
  {
    hide Inv, Measure, OwnedBy, PID.ToResourceID, Scan, Aged, Faithful;
    var s' := Deliver(cfg, s, k, a);
    RelistScan(cfg, s, k, ServerID(s.stored[k]), a.entries);
    AgedOwned(cfg, s.servers, k);
  }

  /** A truthful answer to the pass of k. */
  lemma StageMoves(cfg: Config, s: State, k: Key, a: Answer, bound: nat)
    requires ConfigOK(cfg) && U.Distinct(cfg) && Inv(cfg, s) && k in cfg.machines && Stage(cfg, s, k, bound)
    requires !s.passes[k].call.Closing? && Truthful(cfg, s, k, s.passes[k].call, a)
    ensures Stage(cfg, Deliver(cfg, s, k, a), k, bound)
  {
    hide Inv, Measure, OwnedBy, PID.ToResourceID, Scan, Aged, Faithful, MachineOK, LB.Without;
    var s' := Deliver(cfg, s, k, a);
    InvPass(cfg, s, k);
    if s.passes[k].call.Relisting? {
      RelistMoves(cfg, s, k, a, bound);
    } else {
      NothingHinders(cfg, s, Answered(k, a), s', k);
      DoomedStep(cfg, s, Answered(k, a), s', k);
    }
  }

  lemma StageBegins(cfg: Config, s: State, k: Key, f: Facts)
    requires Waiting(cfg, s, k) && OneOther(cfg, s.servers, k, ServerID(s.stored[k]))
    ensures Stage(cfg, Begun(cfg, s, k, f), k, Measure(cfg, s.servers, k))
  {
    hide Inv, Measure, PID.ToResourceID, OwnedBy;
    BeginRemoval(cfg, s, k, f);
    NoEmptyID(cfg, s);
  }

  /** In step m the pass of k is under way, and if it is answered, truthfully; anything else may happen instead. */
  ghost predicate TruthfulAt(cfg: Config, states: seq<State>, events: seq<Event>, m: nat, k: Key)
    requires m < |events| && |states| == |events| + 1 && k in cfg.machines
  {
    && k in states[m].passes && k in states[m].stored
    && (events[m].Answered? && events[m].k == k ==> Truthful(cfg, states[m], k, states[m].passes[k].call, events[m].a))
  }

  ghost predicate TruthfulUpTo(cfg: Config, states: seq<State>, events: seq<Event>, i: nat, j: nat, k: Key)
    requires |states| == |events| + 1 && j < |states| && k in cfg.machines
  {
    forall m: nat :: i <= m < j ==> TruthfulAt(cfg, states, events, m, k)
  }

  lemma {:induction false} StageAlong(cfg: Config, states: seq<State>, events: seq<Event>, i: nat, j: nat, k: Key, bound: nat)
    requires ConfigOK(cfg) && U.Distinct(cfg) && IsRun(cfg, states, events) && i <= j < |states| && k in cfg.machines
    requires TruthfulUpTo(cfg, states, events, i, j, k) && k in states[j].passes && k in states[j].stored
    requires Stage(cfg, states[i], k, bound)
    ensures Stage(cfg, states[j], k, bound)
    decreases j
  {
    hide Inv, Stage, Truthful, Apply;
    if i < j {
      var e := events[j - 1];
      assert TruthfulAt(cfg, states, events, j - 1, k);
      StageAlong(cfg, states, events, i, j - 1, k, bound);
      InvAlong(cfg, states, events, j - 1);
      if e.Answered? && e.k == k {
        ClosingEnds(cfg, states[j - 1], k, e.a, states[j]);
        StageMoves(cfg, states[j - 1], k, e.a, bound);
      } else {
        StageOthers(cfg, states[j - 1], e, states[j], k, bound);
      }
    }
  }

  lemma ClosingEnds(cfg: Config, s: State, k: Key, a: Answer, s': State)
    requires Step(cfg, s, Answered(k, a), s') && k in s'.passes
    ensures !s.passes[k].call.Closing? && s' == Deliver(cfg, s, k, a)
  {
  }

  /**
   In every run of distinct machines: a delete pass that begins at i, hears only the truth, and ends by closing at j
   leaves the object gone, or the measure below what it was at i with the next pass free to go on.
   */
  lemma InterleavedDeletePass(cfg: Config, states: seq<State>, events: seq<Event>, i: nat, j: nat, k: Key)
    requires ConfigOK(cfg) && U.Distinct(cfg) && IsRun(cfg, states, events) && i + 1 < j < |states| && k in cfg.machines
    requires events[i].Begin? && events[i].k == k && k in states[i].stored && states[i].stored[k].deleting
    requires OneOther(cfg, states[i].servers, k, ServerID(states[i].stored[k]))
    requires TruthfulUpTo(cfg, states, events, i + 1, j, k)
    requires events[j - 1].Answered? && events[j - 1].k == k && k !in states[j].passes
    ensures k in states[j].stored ==>
              && states[j].stored[k].deleting && states[j].stored[k].providerID == states[i].stored[k].providerID
              && Measure(cfg, states[j].servers, k) < Measure(cfg, states[i].servers, k)
              && OneOther(cfg, states[j].servers, k, ServerID(states[j].stored[k]))
  {
    hide Inv, Measure, PID.ToResourceID, OneOther, U.LiveOwned, Start, Allowed;
    InvAlong(cfg, states, events, i);
    var bound := Measure(cfg, states[i].servers, k);
    assert Step(cfg, states[i], events[i], states[i + 1]);
    StageBegins(cfg, states[i], k, events[i].facts);
    assert TruthfulAt(cfg, states, events, j - 1, k);
    StageAlong(cfg, states, events, i + 1, j - 1, k, bound);
    InvAlong(cfg, states, events, j - 1);
    LastAnswer(cfg, states[j - 1], k, events[j - 1].a, states[j], bound);
    forall m: nat | i + 1 <= m <= j - 1 ensures k in states[m].stored { assert TruthfulAt(cfg, states, events, m, k); }
    SameID(cfg, states, events, i + 1, j - 1, k);
  }

  /** The pass ends: with the finalizer in memory gone the object goes, otherwise the measure has fallen. */
  lemma LastAnswer(cfg: Config, s: State, k: Key, a: Answer, s': State, bound: nat)
    requires Inv(cfg, s) && k in cfg.machines && Stage(cfg, s, k, bound) && Step(cfg, s, Answered(k, a), s') && k !in s'.passes
    requires Truthful(cfg, s, k, s.passes[k].call, a)
    ensures s'.servers == s.servers
    ensures k in s'.stored ==> s'.stored[k].deleting && s'.stored[k].providerID == s.stored[k].providerID && Measure(cfg, s.servers, k) < bound
    ensures OneOther(cfg, s.servers, k, ServerID(s.stored[k]))
  {
    hide Inv, Measure, PID.ToResourceID, OneOther, U.LiveOwned;
  }

  /** The providerID of a doomed object stays as it is along the pass. */
  lemma {:induction false} SameID(cfg: Config, states: seq<State>, events: seq<Event>, i: nat, j: nat, k: Key)
    requires ConfigOK(cfg) && IsRun(cfg, states, events) && i <= j < |states| && k in cfg.machines && Doomed(states[i], k)
    requires forall m :: i <= m <= j ==> k in states[m].stored
    ensures Doomed(states[j], k) && states[j].stored[k].providerID == states[i].stored[k].providerID
    decreases j
  {
    hide Inv, Apply, Enabled;
    if i < j {
      SameID(cfg, states, events, i, j - 1, k);
      InvAlong(cfg, states, events, j - 1);
      assert events[j - 1] == events[j - 1];
      DoomedStep(cfg, states[j - 1], events[j - 1], states[j], k);
    }
  }
}

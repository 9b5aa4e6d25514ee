/**
 The finalizer guards the servers: it goes only after a listing without a live server of the machine, and if it is
 stored before each create, no server ever outlives its object.
 */
module Orphans {
  import opened Search
  import opened Machines
  import opened Protocol
  import opened Invariants
  import opened Strings
  import U = Uniqueness
  import L = Lifecycle
  import PID = ProviderID

  ghost predicate NoLiveMadeBy(servers: map<string, Server>, k: Key) {
    forall id :: id in servers && servers[id].live ==> servers[id].maker != k
  }

  ghost predicate NotLive(servers: map<string, Server>, id: string) {
    id in servers ==> !servers[id].live
  }

  /** A pass that has dropped the finalizer in memory has nothing left to delete. */
  ghost predicate DropOK(s: State, k: Key, p: Pass) {
    !p.mem.finalizer ==> NoLiveMadeBy(s.servers, k) && NotLive(s.servers, ServerID(p.mem)) && p.mem.deleting
  }

  ghost predicate DropInv(s: State) {
    && (forall k :: k in s.passes ==> DropOK(s, k, s.passes[k]))
    && (forall k :: k in s.stored && HasTerminalFailure(k.kind, s.stored[k]) ==> s.stored[k].finalizer)
  }

  lemma NextDrops(k: Key, spec: Spec, p: Pass, a: Answer)
    requires !p.call.Closing? ==> p.mem.finalizer
    requires var n := Next(k, spec, p, a); n.Some? && !n.value.mem.finalizer
    ensures p.call.Relisting? && a.Listed? && Scan(k.kind, a.entries, Params(k, spec)).Nothing?
    ensures Next(k, spec, p, a).value.mem == p.mem.(finalizer := false)
  {
    hide PID.ToResourceID, PID.FromResourceID, Scan, AfterGet, AfterFind, AfterCreate, AfterVpcList, AfterLbGet, AfterRelist, Join;
  }

  lemma StartKeepsFinalizer(k: Key, spec: Spec, m: Machine, f: Facts)
    requires m.deleting ==> m.finalizer
    requires HasTerminalFailure(k.kind, m) ==> m.finalizer
    ensures Start(k, spec, m, f).mem.finalizer
  {
    hide PID.ToResourceID;
  }

  /** Dead servers stay dead, and no server of k is made while its pass is not creating. */
  lemma NothingFrame(cfg: Config, s: State, e: Event, s': State, k: Key)
    requires Step(cfg, s, e, s') && k in s.passes && !s.passes[k].call.Creating?
    ensures NoLiveMadeBy(s.servers, k) ==> NoLiveMadeBy(s'.servers, k)
  {
    hide Apply, Enabled;
    ServersEvolve(cfg, s, e, s');
  }

  lemma DeadFrame(cfg: Config, s: State, e: Event, s': State, id: string)
    requires Step(cfg, s, e, s') && id in s.servers && !s.servers[id].live
    ensures NotLive(s'.servers, id)
  {
    hide Apply, Enabled;
    ServersEvolve(cfg, s, e, s');
  }

  /** The listing that lets the finalizer go. */
  lemma DropIsSafe(cfg: Config, s: State, k: Key, entries: seq<Entry>)
    requires ConfigOK(cfg) && Inv(cfg, s) && k in cfg.machines && k in s.passes && Faithful(cfg, s.servers, k, entries)
    requires Scan(k.kind, entries, ParamsOf(cfg, k)).Nothing?
    ensures NoLiveMadeBy(s.servers, k)
    ensures ServerID(s.passes[k].mem) != "" ==> ServerID(s.passes[k].mem) in s.servers && !s.servers[ServerID(s.passes[k].mem)].live
    ensures "" !in s.servers
  {
    hide PID.ToResourceID, OwnedBy, Scan, Faithful;
    ScanNothing(cfg, s.servers, k, entries);
    assert PassOK(cfg, s.servers, k, s.passes[k]);
    forall id | id in s.servers && s.servers[id].live ensures s.servers[id].maker != k {
      OwnedIsRightful(cfg, k, s.servers[id]);
    }
  }

  lemma DropStepFor(cfg: Config, s: State, e: Event, s': State, k: Key)
    requires ConfigOK(cfg) && Inv(cfg, s) && DropInv(s) && Step(cfg, s, e, s') && k in s'.passes
    ensures DropOK(s', k, s'.passes[k])
  {
    hide PID.ToResourceID, Start, Next, ServersAfter, StoredAfter, OwnedBy, WellMade, Scan, CallOK, Faithful;
    if s'.passes[k].mem.finalizer { return; }
    if e.Begin? && e.k == k {
      StartKeepsFinalizer(k, cfg.machines[k], s.stored[k], e.facts);
      return;
    }
    var p := s.passes[k];
    assert PassOK(cfg, s.servers, k, p) && DropOK(s, k, p);
    if e.Answered? && e.k == k {
      NextDrops(k, cfg.machines[k], p, e.a);
      DropIsSafe(cfg, s, k, e.a.entries);
    }
    NothingFrame(cfg, s, e, s', k);
    var id := ServerID(p.mem);
    ServersEvolve(cfg, s, e, s');
    ServersKeepOK(cfg, s, e, s');
    if id in s.servers { DeadFrame(cfg, s, e, s', id); }
    else { NotMade(cfg, s, e, s', k, id); }
  }

  lemma NotMade(cfg: Config, s: State, e: Event, s': State, k: Key, id: string)
    requires Inv(cfg, s) && ServersOK(cfg, s'.servers) && k in s.passes && id == ServerID(s.passes[k].mem) && id !in s.servers
    ensures NotLive(s'.servers, id)
  {
    hide PID.ToResourceID, OwnedBy, WellMade;
    assert PassOK(cfg, s.servers, k, s.passes[k]);
  }

  lemma TerminalStepFor(cfg: Config, s: State, e: Event, s': State, k: Key)
    requires ConfigOK(cfg) && Inv(cfg, s) && DropInv(s) && Step(cfg, s, e, s') && k in s'.stored
    requires HasTerminalFailure(k.kind, s'.stored[k])
    ensures s'.stored[k].finalizer
  {
    hide PID.ToResourceID, Start, Next, ServersAfter, OwnedBy, WellMade, CallOK, NoLiveMadeBy;
    if e.Answered? && e.k == k { assert PassOK(cfg, s.servers, k, s.passes[k]) && DropOK(s, k, s.passes[k]); }
  }

  lemma DropStep(cfg: Config, s: State, e: Event, s': State)
    requires ConfigOK(cfg) && Inv(cfg, s) && DropInv(s) && Step(cfg, s, e, s')
    ensures DropInv(s')
  {
    hide Inv, Step, DropOK, HasTerminalFailure;
    forall k | k in s'.passes ensures DropOK(s', k, s'.passes[k]) { DropStepFor(cfg, s, e, s', k); }
    forall k | k in s'.stored && HasTerminalFailure(k.kind, s'.stored[k]) ensures s'.stored[k].finalizer {
      TerminalStepFor(cfg, s, e, s', k);
    }
  }

  lemma {:induction false} DropAlong(cfg: Config, states: seq<State>, events: seq<Event>, i: nat)
    requires ConfigOK(cfg) && IsRun(cfg, states, events) && i < |states|
    ensures DropInv(states[i])
  {
    if i > 0 {
      DropAlong(cfg, states, events, i - 1);
      InvAlong(cfg, states, events, i - 1);
      assert events[i - 1] == events[i - 1];
      DropStep(cfg, states[i - 1], events[i - 1], states[i]);
    }
  }

  /** The object of k holds its finalizer. */
  predicate Holds(s: State, k: Key) {
    k in s.stored && s.stored[k].finalizer
  }

  /**
   In every run, whenever a stored finalizer goes, no server made for the machine is live, neither is the one that
   its providerID names, and among distinct machines no live server at all is owned by it.
   */
  lemma FinalizerGoesLast(cfg: Config, states: seq<State>, events: seq<Event>, i: nat, k: Key)
    requires ConfigOK(cfg) && IsRun(cfg, states, events) && i < |events|
    requires Holds(states[i], k) && !Holds(states[i + 1], k)
    ensures NoLiveMadeBy(states[i + 1].servers, k)
    ensures NotLive(states[i + 1].servers, ServerID(states[i].stored[k]))
    ensures k in states[i].passes && NotLive(states[i + 1].servers, ServerID(states[i].passes[k].mem))
    ensures U.Distinct(cfg) ==> k in cfg.machines && U.NoneLive(cfg, states[i + 1].servers, k)
  {
    hide PID.ToResourceID, OwnedBy, WellMade, CallOK, L.LifeInv;
    var s, e, s' := states[i], events[i], states[i + 1];
    InvAlong(cfg, states, events, i);
    InvAlong(cfg, states, events, i + 1);
    DropAlong(cfg, states, events, i);
    DropsOnlyAtClose(cfg, s, e, s', k);
    assert DropOK(s, k, s.passes[k]) && PassOK(cfg, s.servers, k, s.passes[k]);
    assert s'.servers == s.servers;
    L.LifeAlong(cfg, states, events, i);
    StoredOrNoID(cfg, s, k);
    if U.Distinct(cfg) {
      forall id ensures !U.LiveOwned(cfg, s'.servers, k, id) {
        if id in s'.servers { U.OwnedByMaker(cfg, k, s'.servers[id]); }
      }
    }
  }

  /** What the object names, its pass names, or else it is no server at all. */
  lemma StoredOrNoID(cfg: Config, s: State, k: Key)
    requires Inv(cfg, s) && L.LifeInv(s) && k in s.stored && k in s.passes
    ensures ServerID(s.stored[k]) == ServerID(s.passes[k].mem) || ServerID(s.stored[k]) !in s.servers
  {
    hide PID.ToResourceID, PassOK, MachineOK, WellMade, L.PassLifeOK, L.Reported, HasTerminalFailure;
    assert L.Agrees(k, s.stored[k], s.passes[k]);
  }

  lemma DropsOnlyAtClose(cfg: Config, s: State, e: Event, s': State, k: Key)
    requires Inv(cfg, s) && Step(cfg, s, e, s') && Holds(s, k) && !Holds(s', k)
    ensures e.Answered? && e.k == k && k in s.passes && s.passes[k].call.Closing? && !s.passes[k].mem.finalizer
    ensures s'.servers == s.servers
  {
    hide PID.ToResourceID, OwnedBy, WellMade, CallOK, Start, Next;
    if e.Answered? { assert PassOK(cfg, s.servers, e.k, s.passes[e.k]); }
  }

  // ---- with the finalizer stored first, no server outlives its object

  /** The create of this step, if it is one, is made while the object holds its finalizer. */
  ghost predicate Guarded(s: State, e: Event) {
    e.Answered? && e.k in s.passes && s.passes[e.k].call.Creating? ==> Holds(s, e.k)
  }

  ghost predicate NoOrphan(s: State) {
    forall id :: id in s.servers && s.servers[id].live ==> Holds(s, s.servers[id].maker)
  }

  lemma NoOrphanStep(cfg: Config, s: State, e: Event, s': State)
    requires ConfigOK(cfg) && Inv(cfg, s) && DropInv(s) && NoOrphan(s) && Step(cfg, s, e, s') && Guarded(s, e)
    ensures NoOrphan(s')
  {
    hide Apply, Enabled, Inv, DropInv;
    ServersEvolve(cfg, s, e, s');
    forall id | id in s'.servers && s'.servers[id].live ensures Holds(s', s'.servers[id].maker) {
      var k := s'.servers[id].maker;
      if !Holds(s', k) {
        if id !in s.servers { U.MakerIs(cfg, e.k); }
        HeldServer(cfg, s, e, s', k);
      }
    }
  }

  /** If the object of k stops holding its finalizer in this step, no live server of k is left. */
  lemma HeldServer(cfg: Config, s: State, e: Event, s': State, k: Key)
    requires ConfigOK(cfg) && Inv(cfg, s) && DropInv(s) && Step(cfg, s, e, s') && Holds(s, k) && !Holds(s', k)
    ensures NoLiveMadeBy(s'.servers, k)
  {
    hide Apply, Enabled, Inv;
    DropsOnlyAtClose(cfg, s, e, s', k);
    assert DropOK(s, k, s.passes[k]);
  }

  /** In every run in which each create finds the finalizer stored, every live server has an object that guards it. */
  lemma {:induction false} ServersNeverOrphaned(cfg: Config, states: seq<State>, events: seq<Event>, i: nat)
    requires ConfigOK(cfg) && IsRun(cfg, states, events) && i < |states|
    requires forall j {:trigger events[j]} :: 0 <= j < |events| ==> Guarded(states[j], events[j])
    ensures NoOrphan(states[i])
  {
    if i > 0 {
      ServersNeverOrphaned(cfg, states, events, i - 1);
      InvAlong(cfg, states, events, i - 1);
      DropAlong(cfg, states, events, i - 1);
      assert Guarded(states[i - 1], events[i - 1]);
      NoOrphanStep(cfg, states[i - 1], events[i - 1], states[i]);
    }
  }

  // ---- and an unguarded create can always orphan its server

  lemma {:induction false} LongerThanAll(ids: set<string>) returns (n: nat)
    ensures forall id :: id in ids ==> |id| < n
  {
    n := 1;
    if ids != {} {
      var x :| x in ids;
      var m := LongerThanAll(ids - {x});
      n := if m > |x| then m else |x| + 1;
      forall id | id in ids ensures |id| < n { if id != x { assert id in ids - {x}; } }
    }
  }

  lemma FreshIDExists(servers: map<string, Server>) returns (id: string)
    ensures FreshID(servers, id)
  {
    var n := LongerThanAll(servers.Keys);
    id := seq(n + 1, _ => 'a');
    forall i: nat ensures !OccursAt(id, PID.SEPARATOR, i) {
      if i + 3 <= |id| { assert id[i..i + 3][0] == 'a'; }
    }
  }

  /** Whenever a create runs without a stored finalizer, a crash and a user's delete leave its server behind. */
  lemma UnguardedCreateOrphans(cfg: Config, s: State, k: Key) returns (s': State)
    requires Reachable(cfg, s) && k in cfg.machines && k in s.passes && s.passes[k].call.Creating? && !Holds(s, k)
    ensures Reachable(cfg, s') && k !in s'.stored && !NoLiveMadeBy(s'.servers, k)
  {
    hide IsRun, Next, Reachable;
    var id := FreshIDExists(s.servers);
    var e := Answered(k, CreateFailed(MadeTagged(id)));
    ReachableStep(cfg, s, e);
    s' := Apply(cfg, s, e);
    assert s'.servers[id].live && s'.servers[id].maker == k;
    if k in s'.passes {
      ReachableStep(cfg, s', Crash(k));
      s' := Apply(cfg, s', Crash(k));
    }
    if k in s'.stored {
      ReachableStep(cfg, s', UserDelete(k));
      s' := Apply(cfg, s', UserDelete(k));
    }
  }

  /** The hypothesis is needed: every machine can be orphaned, because the first pass creates before it stores. */
  lemma FirstPassCanOrphan(cfg: Config, k: Key) returns (s: State)
    requires k in cfg.machines
    ensures Reachable(cfg, s) && k !in s.stored && !NoLiveMadeBy(s.servers, k)
  {
    hide Reachable, NoLiveMadeBy;
    InitReachable(cfg);
    ReachableStep(cfg, INIT, UserCreate(k));
    var s1 := Apply(cfg, INIT, UserCreate(k));
    var s2 := U.BeginAndFindNothing(cfg, s1, k, U.EAGER);
    s := UnguardedCreateOrphans(cfg, s2, k);
  }
}

/**
 When a machine becomes ready: exactly when a pass that has earned it closes. And one that never does: a machine that has
 adopted a server which was deleted already but still listed.
 */
module Progress {
  import opened Options
  import opened Search
  import opened Tags
  import opened Machines
  import opened Protocol
  import opened Invariants
  import R = Readiness
  import L = Lifecycle
  import P = Provisioning
  import U = Uniqueness
  import PID = ProviderID

  // ---- what a pass must have heard

  /** The patch of the ID, if there was one, succeeded. */
  predicate PatchesDone(log: seq<Exchange>) {
    forall i :: 0 <= i < |log| && log[i].call.Patching? ==> log[i].answer.Done?
  }

  /** The pass has heard everything that Ready=True asks for. */
  predicate Earned(k: Key, spec: Spec, p: Pass) {
    && p.facts.clusterReady && p.facts.bootstrap
    && p.sight.Saw? && p.sight.status == "active" && PatchesDone(p.log)
    && (spec.controlPlane ==> P.Admitted(p.log, LoadBalancerID(k.kind, p.facts), p.sight))
    && (k.kind == BareMetal && spec.vpcID != "" ==> R.Attached(p.log, p.sight.id, spec.vpcID))
  }

  predicate VpcCall(c: Call) {
    c.VpcListing? || c.VpcAttaching?
  }

  ghost predicate NotAttached(log: seq<Exchange>, vpc: string) {
    forall id :: !R.Attached(log, id, vpc)
  }

  /** Where a normal pass stands on its way. */
  ghost predicate OnTheWay(k: Key, spec: Spec, p: Pass) {
    && P.NotJoined(p.log) && PatchesDone(p.log) && p.facts.clusterReady && p.facts.bootstrap
    && (P.EarlyCall(p.call) ==> p.sight.NoServer?)
    && (P.EarlyCall(p.call) || p.call.Patching? || VpcCall(p.call) ==> NotAttached(p.log, spec.vpcID))
    && (VpcCall(p.call) ==> k.kind == BareMetal && spec.vpcID != "" && p.sight.Saw? && p.call.id == p.sight.id && p.sight.status == "active")
    && (P.LbCall(p.call) ==>
          && spec.controlPlane && p.call.lb == LoadBalancerID(k.kind, p.facts) && p.sight.Saw? && p.call.id == p.sight.id
          && (k.kind == BareMetal ==> p.sight.status == "active")
          && (k.kind == BareMetal && spec.vpcID != "" ==> R.Attached(p.log, p.call.id, spec.vpcID)))
  }

  /** A normal pass: on its way, or closing with Ready=True in memory if it has earned it. */
  ghost predicate PassProg(k: Key, spec: Spec, p: Pass) {
    !p.mem.deleting ==>
      if p.call.Closing? then Earned(k, spec, p) ==> R.IsTrue(p.mem) && p.mem.provisioned
      else OnTheWay(k, spec, p)
  }

  /** Ready=True in memory was there before the pass, or is earned. */
  predicate TrueOK(k: Key, spec: Spec, p: Pass, was: bool) {
    R.IsTrue(p.mem) ==> was || (p.call.Closing? && Earned(k, spec, p))
  }

  // ---- one answer

  lemma LogStep(p: Pass, n: Pass, a: Answer)
    requires n.log == p.log + [Exchange(p.call, a)]
    ensures PatchesDone(n.log) <==> PatchesDone(p.log) && (p.call.Patching? ==> a.Done?)
    ensures forall id, vpc :: R.Attached(n.log, id, vpc) <==> R.Attached(p.log, id, vpc) || R.Lists(Exchange(p.call, a), id, vpc)
    ensures forall vpc :: NotAttached(p.log, vpc) && !p.call.VpcListing? ==> NotAttached(n.log, vpc)
  {
    hide R.Lists;
    var x := Exchange(p.call, a);
    assert n.log[|p.log|] == x && forall i :: 0 <= i < |p.log| ==> n.log[i] == p.log[i];
    if PatchesDone(n.log) {
      assert forall i :: 0 <= i < |p.log| ==> p.log[i] == n.log[i];
    }
    forall id, vpc ensures R.Attached(n.log, id, vpc) <==> R.Attached(p.log, id, vpc) || R.Lists(x, id, vpc) {
    }
    if !p.call.VpcListing? { NotListing(x); }
  }

  lemma NotListing(x: Exchange)
    requires !x.call.VpcListing?
    ensures forall id, vpc :: !R.Lists(x, id, vpc)
  {
  }

  lemma NoneAttached(log: seq<Exchange>, vpc: string)
    ensures NotAttached(log, vpc) <==> forall id :: !R.Attached(log, id, vpc)
  {
    hide R.Attached;
  }

  /** The next point of the pass is as it should be. */
  ghost predicate Onward(k: Key, spec: Spec, p: Pass, n: Pass) {
    PassProg(k, spec, n) && forall was :: TrueOK(k, spec, p, was) ==> TrueOK(k, spec, n, was)
  }

  /** The pass has just been told of its server. */
  lemma HaveProg(k: Key, spec: Spec, p: Pass, id: string, status: string)
    requires P.NotJoined(p.log) && PatchesDone(p.log) && NotAttached(p.log, spec.vpcID) && p.facts.clusterReady && p.facts.bootstrap
    requires !p.mem.deleting
    ensures var n := Have(k.kind, spec, p, id, status);
            PassProg(k, spec, n) && (R.IsTrue(n.mem) ==> R.IsTrue(p.mem) || (n.call.Closing? && Earned(k, spec, n)))
  {
    hide PID.ToResourceID, PID.FromResourceID, PatchesDone, NotAttached, R.Attached, P.NotJoined, R.Joined, LoadBalancerID;
    P.NotYet(p.log);
    NoneAttached(p.log, spec.vpcID);
  }

  lemma EarlyProg(cfg: Config, servers: map<string, Server>, k: Key, p: Pass, a: Answer)
    requires k in cfg.machines && PassOK(cfg, servers, k, p) && PassProg(k, cfg.machines[k], p) && P.EarlyCall(p.call)
    ensures Onward(k, cfg.machines[k], p, Next(k, cfg.machines[k], p, a).value)
  {
    hide PID.ToResourceID, OwnedBy, Scan, Have, PatchesDone, NotAttached, R.Attached, P.NotJoined, R.Joined, LoadBalancerID;
    var n := Next(k, cfg.machines[k], p, a).value;
    var p1 := p.(log := p.log + [Exchange(p.call, a)]);
    LogStep(p, n, a);
    P.LogStep(p, n, a);
    if a.Found? || a.Created? {
      HaveProg(k, cfg.machines[k], p1, a.id, a.status);
    } else if p.call.Finding? && a.Listed? {
      var r := Scan(k.kind, a.entries, Params(k, cfg.machines[k]));
      if r.One? { HaveProg(k, cfg.machines[k], p1, r.entry.id, r.entry.status); }
    }
  }

  lemma LateProg(cfg: Config, servers: map<string, Server>, k: Key, p: Pass, a: Answer)
    requires k in cfg.machines && PassOK(cfg, servers, k, p) && PassProg(k, cfg.machines[k], p)
    requires P.LbCall(p.call) || p.call.Patching?
    ensures Onward(k, cfg.machines[k], p, Next(k, cfg.machines[k], p, a).value)
  {
    hide PID.ToResourceID, PID.FromResourceID, OwnedBy, PatchesDone, NotAttached, R.Attached, P.NotJoined, R.Joined, LoadBalancerID;
    var n := Next(k, cfg.machines[k], p, a).value;
    LogStep(p, n, a);
    P.LogStep(p, n, a);
    P.NotYet(n.log);
    P.StillNot(n.log);
  }

  lemma VpcProg(cfg: Config, servers: map<string, Server>, k: Key, p: Pass, a: Answer)
    requires k in cfg.machines && PassOK(cfg, servers, k, p) && PassProg(k, cfg.machines[k], p) && VpcCall(p.call)
    ensures Onward(k, cfg.machines[k], p, Next(k, cfg.machines[k], p, a).value)
  {
    hide PID.ToResourceID, PID.FromResourceID, OwnedBy, PatchesDone, NotAttached, R.Attached, P.NotJoined, R.Joined, LoadBalancerID;
    var n := Next(k, cfg.machines[k], p, a).value;
    LogStep(p, n, a);
    P.LogStep(p, n, a);
    P.NotYet(n.log);
    NoneAttached(p.log, cfg.machines[k].vpcID);
    NoneAttached(n.log, cfg.machines[k].vpcID);
  }

  lemma DeleteProg(cfg: Config, servers: map<string, Server>, k: Key, p: Pass, a: Answer)
    requires k in cfg.machines && PassOK(cfg, servers, k, p) && DeleteCall(p.call)
    ensures Onward(k, cfg.machines[k], p, Next(k, cfg.machines[k], p, a).value)
  {
    hide PID.ToResourceID, OwnedBy, Scan, AfterLbRemoveGet, Earned, OnTheWay;
  }

  lemma NextProg(cfg: Config, s: State, k: Key, a: Answer)
    requires Inv(cfg, s) && Enabled(cfg, s, Answered(k, a)) && PassProg(k, cfg.machines[k], s.passes[k]) && !s.passes[k].call.Closing?
    ensures var n := Next(k, cfg.machines[k], s.passes[k], a); n.Some? && Onward(k, cfg.machines[k], s.passes[k], n.value)
  {
    hide PID.ToResourceID, OwnedBy, WellMade, CallOK, MachineOK, PassProg, QueriedBy, AfterGet, AfterFind, AfterCreate, AfterVpcList, AfterVpcAttach,
         AfterLbGet, AfterLbUpdate, AfterLbRemoveGet, AfterRelist, Join, Onward;
    var p := s.passes[k];
    assert PassOK(cfg, s.servers, k, p);
    if P.EarlyCall(p.call) {
      EarlyProg(cfg, s.servers, k, p, a);
    } else if DeleteCall(p.call) {
      DeleteProg(cfg, s.servers, k, p, a);
    } else if VpcCall(p.call) {
      VpcProg(cfg, s.servers, k, p, a);
    } else {
      LateProg(cfg, s.servers, k, p, a);
    }
  }

  // ---- over runs

  ghost predicate ProgInv(cfg: Config, s: State) {
    && (forall k :: k in s.passes ==> k in cfg.machines && PassProg(k, cfg.machines[k], s.passes[k]))
    && (forall k :: k in s.passes && k in s.stored ==> TrueOK(k, cfg.machines[k], s.passes[k], R.IsTrue(s.stored[k])))
  }

  lemma StartProg(k: Key, spec: Spec, m: Machine, f: Facts)
    ensures var p := Start(k, spec, m, f); PassProg(k, spec, p) && TrueOK(k, spec, p, R.IsTrue(m))
  {
    hide PID.ToResourceID, LoadBalancerID;
  }

  lemma PassProgStep(cfg: Config, s: State, e: Event, s': State, k: Key)
    requires Inv(cfg, s) && ProgInv(cfg, s) && Step(cfg, s, e, s') && k in s'.passes
    ensures k in cfg.machines && PassProg(k, cfg.machines[k], s'.passes[k])
  {
    hide PID.ToResourceID, Start, Next, ServersAfter, StoredAfter, PassProg, TrueOK, Allowed, PassOK, MachineOK, ServersOK;
    if e.Begin? && e.k == k {
      StartProg(k, cfg.machines[k], s.stored[k], e.facts);
    } else if e.Answered? && e.k == k {
      if s.passes[k].call.Closing? { ClosingIsLast(k, cfg.machines[k], s.passes[k], e.a); }
      else { NextProg(cfg, s, k, e.a); }
    }
  }

  lemma TrueStep(cfg: Config, s: State, e: Event, s': State, k: Key)
    requires Inv(cfg, s) && ProgInv(cfg, s) && Step(cfg, s, e, s') && k in s'.passes && k in s'.stored && k in cfg.machines
    ensures TrueOK(k, cfg.machines[k], s'.passes[k], R.IsTrue(s'.stored[k]))
  {
    hide PID.ToResourceID, Start, Next, ServersAfter, PassProg, Earned, Allowed, PassOK, MachineOK, ServersOK;
    if e.Begin? && e.k == k {
      StartProg(k, cfg.machines[k], s.stored[k], e.facts);
    } else if e.Answered? && e.k == k {
      if s.passes[k].call.Closing? { ClosingIsLast(k, cfg.machines[k], s.passes[k], e.a); }
      else { NextProg(cfg, s, k, e.a); }
    }
  }

  lemma {:induction false} ProgAlong(cfg: Config, states: seq<State>, events: seq<Event>, i: nat)
    requires ConfigOK(cfg) && IsRun(cfg, states, events) && i < |states|
    ensures ProgInv(cfg, states[i])
  {
    hide Apply, Enabled, Inv, PassProg, TrueOK;
    if i > 0 {
      ProgAlong(cfg, states, events, i - 1);
      InvAlong(cfg, states, events, i - 1);
      var s, e, s' := states[i - 1], events[i - 1], states[i];
      forall k | k in s'.passes ensures k in cfg.machines && PassProg(k, cfg.machines[k], s'.passes[k]) { PassProgStep(cfg, s, e, s', k); }
      forall k | k in s'.passes && k in s'.stored ensures TrueOK(k, cfg.machines[k], s'.passes[k], R.IsTrue(s'.stored[k])) {
        TrueStep(cfg, s, e, s', k);
      }
    }
  }

  /**
   In every run, when the Close of a normal pass takes effect: Ready=True and Provisioned are stored if the pass has
   earned them; and an object that was not ready before is ready afterwards if and only if it has.
   */
  lemma BecomesReadyIff(cfg: Config, states: seq<State>, events: seq<Event>, i: nat, k: Key)
    requires ConfigOK(cfg) && IsRun(cfg, states, events) && i < |events|
    requires events[i].Answered? && events[i].k == k && Acted(events[i].a)
    requires k in states[i].passes && states[i].passes[k].call.Closing? && !states[i].passes[k].mem.deleting
    requires k in states[i].stored && k in states[i + 1].stored
    ensures k in cfg.machines
    ensures Earned(k, cfg.machines[k], states[i].passes[k]) ==> R.IsTrue(states[i + 1].stored[k]) && states[i + 1].stored[k].provisioned
    ensures !R.IsTrue(states[i].stored[k]) ==> (R.IsTrue(states[i + 1].stored[k]) <==> Earned(k, cfg.machines[k], states[i].passes[k]))
  {
    hide PID.ToResourceID, Start, Next, ServersAfter, Earned, Allowed;
    ProgAlong(cfg, states, events, i);
    assert Step(cfg, states[i], events[i], states[i + 1]);
  }

  // ---- a machine that never gets there

  /** The object names a server that is gone, is not ready, and its pass has not been told otherwise. */
  ghost predicate Stranded(s: State, k: Key, id: string) {
    && k in s.stored && ServerID(s.stored[k]) == id != "" && !R.IsTrue(s.stored[k])
    && id in s.servers && !s.servers[id].live
    && (k in s.passes ==>
          var p := s.passes[k];
          p.sight.NoServer? && !R.IsTrue(p.mem) && (p.mem.deleting || p.call.Closing? || p.call == Getting(id)))
  }

  /** A Get that finds the server finds it live. */
  ghost predicate GetIsTrue(s: State, e: Event, k: Key) {
    e.Answered? && e.k == k && k in s.passes && s.passes[k].call.Getting? && e.a.Found? ==>
      s.passes[k].call.id in s.servers && s.servers[s.passes[k].call.id].live
  }

  lemma StrandedStart(k: Key, spec: Spec, m: Machine, f: Facts)
    requires ServerID(m) != "" && !R.IsTrue(m)
    ensures var p := Start(k, spec, m, f);
            p.sight.NoServer? && !R.IsTrue(p.mem) && (p.mem.deleting || p.call.Closing? || p.call == Getting(ServerID(m)))
  {
    hide PID.ToResourceID;
  }

  /** A Get that finds nothing ends the pass without readiness. */
  lemma StrandedGet(k: Key, spec: Spec, p: Pass, a: Answer)
    requires p.call.Getting? && !a.Found? && p.sight.NoServer? && !R.IsTrue(p.mem)
    ensures var n := Next(k, spec, p, a); n.Some? && n.value.call.Closing? && n.value.sight.NoServer? && !R.IsTrue(n.value.mem)
  {
    hide PID.ToResourceID;
  }

  lemma StrandedPass(cfg: Config, s: State, e: Event, s': State, k: Key, id: string)
    requires ConfigOK(cfg) && Inv(cfg, s) && Inv(cfg, s') && L.LifeInv(s) && Stranded(s, k, id) && GetIsTrue(s, e, k) && Step(cfg, s, e, s')
    requires k in s'.passes
    ensures var p := s'.passes[k]; p.sight.NoServer? && !R.IsTrue(p.mem) && (p.mem.deleting || p.call.Closing? || p.call == Getting(id))
  {
    hide PID.ToResourceID, Start, Next, ServersAfter, StoredAfter, Allowed, MachineOK, CallOK, ServersOK;
    assert PassOK(cfg, s'.servers, k, s'.passes[k]);
    if e.Begin? && e.k == k {
      StrandedStart(k, cfg.machines[k], s.stored[k], e.facts);
    } else if e.Answered? && e.k == k {
      var p := s.passes[k];
      assert PassOK(cfg, s.servers, k, p);
      if p.call.Closing? {
        ClosingIsLast(k, cfg.machines[k], p, e.a);
      } else if p.mem.deleting {
        StaysDeleting(cfg, s, k, e.a);
      } else {
        StrandedGet(k, cfg.machines[k], p, e.a);
      }
    }
  }

  lemma StaysDeleting(cfg: Config, s: State, k: Key, a: Answer)
    requires ConfigOK(cfg) && Inv(cfg, s) && L.LifeInv(s) && Enabled(cfg, s, Answered(k, a)) && !s.passes[k].call.Closing? && s.passes[k].mem.deleting
    ensures var n := Next(k, cfg.machines[k], s.passes[k], a); n.Some? && n.value.mem.deleting
  {
    hide PID.ToResourceID, Next, ServersAfter, StoredAfter, Allowed, Inv, L.LifeInv;
    L.PassLifeStep(cfg, s, k, a);
  }

  lemma StrandedStored(cfg: Config, s: State, e: Event, s': State, k: Key, id: string)
    requires L.LifeInv(s) && Stranded(s, k, id) && Step(cfg, s, e, s') && k in s'.stored
    ensures ServerID(s'.stored[k]) == id && !R.IsTrue(s'.stored[k])
  {
    hide PID.ToResourceID, Start, Next, ServersAfter, Allowed, L.Reported, L.PassLifeOK, HasTerminalFailure;
    if e.Answered? && e.k == k {
      assert L.Agrees(k, s.stored[k], s.passes[k]);
    }
  }

  lemma StrandedStep(cfg: Config, s: State, e: Event, s': State, k: Key, id: string)
    requires ConfigOK(cfg) && Inv(cfg, s) && Inv(cfg, s') && L.LifeInv(s) && Stranded(s, k, id) && GetIsTrue(s, e, k) && Step(cfg, s, e, s')
    requires k in s'.stored
    ensures Stranded(s', k, id)
  {
    hide PID.ToResourceID, Apply, Enabled, Inv, L.LifeInv, GetIsTrue, R.IsTrue;
    ServersEvolve(cfg, s, e, s');
    StrandedStored(cfg, s, e, s', k, id);
    if k in s'.passes { StrandedPass(cfg, s, e, s', k, id); }
  }

  /**
   In every run in which Get finds only what is there: a machine that is not ready and whose providerID names a server
   that is gone is never ready again, as long as the object exists; nor is another server made for it, by
   `Lifecycle.StoredIDIsFinal`.
   */
  lemma {:induction false} StrandedForever(cfg: Config, states: seq<State>, events: seq<Event>, i: nat, j: nat, k: Key, id: string)
    requires ConfigOK(cfg) && IsRun(cfg, states, events) && L.Stays(states, i, j, k) && Stranded(states[i], k, id)
    requires forall m :: i <= m < j ==> GetIsTrue(states[m], events[m], k)
    ensures Stranded(states[j], k, id) && !R.IsTrue(states[j].stored[k])
    ensures forall x :: x in states[j].servers && states[j].servers[x].maker == k ==> x in states[i].servers
    decreases j
  {
    hide Apply, Enabled, Inv, L.LifeInv, GetIsTrue, PID.ToResourceID, R.IsTrue;
    if i < j {
      StrandedForever(cfg, states, events, i, j - 1, k, id);
      InvAlong(cfg, states, events, j - 1);
      InvAlong(cfg, states, events, j);
      L.LifeAlong(cfg, states, events, j - 1);
      assert GetIsTrue(states[j - 1], events[j - 1], k);
      StrandedStep(cfg, states[j - 1], events[j - 1], states[j], k, id);
    }
    L.StoredIDIsFinal(cfg, states, events, i, j, k);
  }

  // ---- and it happens to every machine

  /** A create of a new machine has failed but made the server "a", and the server is gone again. */
  lemma FailedAndVanished(cfg: Config, k: Key) returns (s: State)
    requires k in cfg.machines
    ensures Reachable(cfg, s) && k in s.stored && k !in s.passes && s.stored[k].finalizer && !s.stored[k].deleting
    ensures s.stored[k].providerID == "" && s.stored[k].cond == Ready(False, CreationFailed)
    ensures s.servers == map["a" := NewServer(cfg, k, true).(live := false, lag := cfg.lag)]
  {
    hide IsRun, Reachable, PID.ToResourceID, BuildTags;
    InitReachable(cfg);
    ReachableStep(cfg, INIT, UserCreate(k));
    var s2 := U.BeginAndFindNothing(cfg, Apply(cfg, INIT, UserCreate(k)), k, U.EAGER);
    U.FreshLetter(map[], "a");
    var e := Answered(k, CreateFailed(MadeTagged("a")));
    ReachableStep(cfg, s2, e);
    var s3 := Apply(cfg, s2, e);
    ReachableStep(cfg, s3, Answered(k, Done));
    var s4 := Apply(cfg, s3, Answered(k, Done));
    ReachableStep(cfg, s4, Vanish("a"));
    s := Apply(cfg, s4, Vanish("a"));
  }

  /** A listing that still shows the dead server, pending, makes the search find it. */
  lemma StaleListing(cfg: Config, servers: map<string, Server>, k: Key) returns (entries: seq<Entry>)
    requires ConfigOK(cfg) && k in cfg.machines && servers == map["a" := NewServer(cfg, k, true).(live := false, lag := cfg.lag)]
    ensures Faithful(cfg, servers, k, entries)
    ensures var r := Scan(k.kind, entries, Params(k, cfg.machines[k])); r.One? && r.entry.id == "a" && r.entry.status == "pending"
  {
    hide BuildTags, QueriedBy;
    var e := EntryOf("a", servers["a"], "pending");
    entries := [e];
    U.NewServerOwned(cfg, k, k, true);
    assert Owned(k.kind, e, Params(k, cfg.machines[k])) by { OwnedEntry(cfg, k); }
    assert entries[1..] == [] && OwnedEntries(k.kind, entries, Params(k, cfg.machines[k])) == [e] + OwnedEntries(k.kind, [], Params(k, cfg.machines[k]));
  }

  lemma OwnedEntry(cfg: Config, k: Key)
    requires k in cfg.machines && OwnedBy(cfg, k, NewServer(cfg, k, true))
    ensures Owned(k.kind, EntryOf("a", NewServer(cfg, k, true).(live := false, lag := cfg.lag), "pending"), Params(k, cfg.machines[k]))
  {
    hide BuildTags;
  }

  /** Every machine can be stranded: it adopts the server of its own failed create from a listing that lags. */
  lemma EveryMachineCanStrand(cfg: Config, k: Key) returns (s: State)
    requires ConfigOK(cfg) && k in cfg.machines
    ensures Reachable(cfg, s) && Stranded(s, k, "a") && !s.stored[k].deleting && k !in s.passes
  {
    hide IsRun, Reachable, PID.ToResourceID, PID.FromResourceID, Scan, NewServer, Faithful, QueriedBy, Join;
    var s1 := FailedAndVanished(cfg, k);
    P.LetterID();
    ReachableStep(cfg, s1, Begin(k, U.EAGER));
    var s2 := Apply(cfg, s1, Begin(k, U.EAGER));
    assert s2.passes[k].call.Finding?;
    var entries := StaleListing(cfg, s2.servers, k);
    ReachableStep(cfg, s2, Answered(k, Listed(entries)));
    var s3 := Apply(cfg, s2, Answered(k, Listed(entries)));
    assert "a" in s3.servers && !s3.servers["a"].live;
    s := EndAdoption(cfg, s3, k);
  }

  /** An instance stores the ID by its patch, bare metal by its Close. */
  lemma EndAdoption(cfg: Config, s: State, k: Key) returns (s': State)
    requires Reachable(cfg, s) && k in cfg.machines && k in s.passes && k in s.stored && !s.stored[k].deleting
    requires var p := s.passes[k];
             && (if k.kind == VM then p.call.Patching? else p.call.Closing?) && p.mem.finalizer && !p.mem.deleting
             && p.mem.providerID == PID.FromResourceID("a") && !R.IsTrue(p.mem)
    requires "a" in s.servers && !s.servers["a"].live
    ensures Reachable(cfg, s') && Stranded(s', k, "a") && !s'.stored[k].deleting && k !in s'.passes
  {
    hide IsRun, Reachable, PID.ToResourceID, PID.FromResourceID, Join;
    P.LetterID();
    ReachableStep(cfg, s, Answered(k, Done));
    s' := Apply(cfg, s, Answered(k, Done));
    if k in s'.passes {
      ReachableStep(cfg, s', Crash(k));
      s' := Apply(cfg, s', Crash(k));
    }
  }

  // ---- stale reads

  /**
   Why passes must begin with the object as it is stored. A pass that began with the object of a provisioned instance as
   it was before any pass (a cache that lags), when the server has vanished since, makes a second server and replaces
   the stored ID.
   */
  lemma StaleReadReplacesID(cfg: Config, k: Key) returns (s: State, stale: State, s': State)
    requires k in cfg.machines && k.kind == VM
    ensures Reachable(cfg, s) && k in s.stored && ServerID(s.stored[k]) == "a" && k !in s.passes
    ensures stale == s.(passes := s.passes[k := Start(k, cfg.machines[k], FRESH, U.EAGER)])
    ensures AllowedScript(cfg, stale, k, [Listed([]), Created("b", "active"), Done])
    ensures s' == Exec(cfg, stale, k, [Listed([]), Created("b", "active"), Done]).0 && k in s'.stored && ServerID(s'.stored[k]) == "b"
  {
    hide IsRun, Reachable, PID.ToResourceID, PID.FromResourceID, Join, NewServer, QueriedBy;
    var s0 := P.Provisioned(cfg, k);
    ReachableStep(cfg, s0, Vanish("a"));
    s := Apply(cfg, s0, Vanish("a"));
    stale := s.(passes := s.passes[k := Start(k, cfg.machines[k], FRESH, U.EAGER)]);
    P.LetterID();
    LetterB();
    assert stale.passes[k].call.Finding?;
    var script := [Listed([]), Created("b", "active"), Done];
    assert script[1..] == [Created("b", "active"), Done] && script[1..][1..] == [Done] && script[1..][1..][1..] == [];
    var s1 := Deliver(cfg, stale, k, script[0]);
    assert Faithful(cfg, stale.servers, k, []);
    assert s1.passes[k].call.Creating? && "b" !in s1.servers;
    U.FreshLetter(s1.servers, "b");
    var s2 := Deliver(cfg, s1, k, script[1]);
    assert s2.passes[k].call.Patching?;
    s' := Deliver(cfg, s2, k, script[2]);
    AllOfScript(cfg, stale, s1, s2, s', k, script);
  }

  lemma AllOfScript(cfg: Config, s0: State, s1: State, s2: State, s3: State, k: Key, script: seq<Answer>)
    requires k in cfg.machines && |script| == 3 && k in s0.passes && k in s1.passes && k in s2.passes
    requires s1 == Deliver(cfg, s0, k, script[0]) && s2 == Deliver(cfg, s1, k, script[1]) && s3 == Deliver(cfg, s2, k, script[2])
    requires Allowed(cfg, s0, k, s0.passes[k].call, script[0]) && Allowed(cfg, s1, k, s1.passes[k].call, script[1])
    requires Allowed(cfg, s2, k, s2.passes[k].call, script[2])
    ensures AllowedScript(cfg, s0, k, script) && Exec(cfg, s0, k, script).0 == s3
  {
    hide Deliver, Allowed;
    assert script[1..][1..] == script[2..] && script[2..][1..] == [];
    assert AllowedScript(cfg, s2, k, script[2..]) && Exec(cfg, s2, k, script[2..]).0 == s3;
    assert AllowedScript(cfg, s1, k, script[1..]) && Exec(cfg, s1, k, script[1..]).0 == s3;
  }

  lemma LetterB()
    ensures PID.ToResourceID(PID.FromResourceID("b")) == "b"
  {
    U.FreshLetter(map[], "b");
    PID.RoundTrip("b");
  }
}

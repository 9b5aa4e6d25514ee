/** Runs for every control plane machine: one in which it joins the load balancer, and one in which its deleted server remains there. */
module ControlPlaneRuns {
  import opened Options
  import opened Search
  import opened Machines
  import opened Protocol
  import opened Invariants
  import opened Membership
  import R = Readiness
  import O = Orphans
  import P = Provisioning
  import U = Uniqueness
  import PID = ProviderID
  import LB = LoadBalancers

  datatype Trace = Trace(states: seq<State>, events: seq<Event>)

  /** Every load balancer starts out with these members. */
  function All(c: seq<string>): string -> seq<string> {
    (_: string) => c
  }

  ghost function Last(t: Trace): State {
    if t.states == [] then INIT else t.states[|t.states| - 1]
  }

  /** The members of lb at the end. */
  ghost function Now(c: seq<string>, t: Trace, lb: string): seq<string>
    requires |t.states| == |t.events| + 1
  {
    Members(All(c), t.states, t.events, |t.events|, lb)
  }

  ghost predicate SerialRun(cfg: Config, c: seq<string>, t: Trace) {
    IsRun(cfg, t.states, t.events) && Serial(All(c), t.states, t.events)
  }

  /** A serial run that has left the members as they were. */
  ghost predicate Quiet(cfg: Config, c: seq<string>, t: Trace) {
    SerialRun(cfg, c, t) && forall lb :: Now(c, t, lb) == c
  }

  ghost predicate Extends(t: Trace, t': Trace) {
    |t.states| <= |t'.states| && t'.states[..|t.states|] == t.states && |t.events| <= |t'.events| && t'.events[..|t.events|] == t.events
  }

  lemma {:induction false} MembersOfPrefix(c: seq<string>, t: Trace, t': Trace, i: nat, lb: string)
    requires |t.states| == |t.events| + 1 && |t'.states| == |t'.events| + 1 && Extends(t, t') && i < |t.states|
    ensures Members(All(c), t'.states, t'.events, i, lb) == Members(All(c), t.states, t.events, i, lb)
  {
    if i > 0 {
      MembersOfPrefix(c, t, t', i - 1, lb);
      assert t'.states[i - 1] == t'.states[..|t.states|][i - 1] && t'.events[i - 1] == t'.events[..|t.events|][i - 1];
    }
  }

  /** The event fits a serial run: it reads the members as they are, and an update rests on them. */
  ghost predicate Honest(c: seq<string>, t: Trace, e: Event)
    requires |t.states| == |t.events| + 1
  {
    forall lb :: Touches(Last(t), e, lb) ==>
      var p := Last(t).passes[e.k];
      (e.a.LbGot? ==> e.a.members == Now(c, t, lb)) && (Updates(p.call) && Acted(e.a) ==> Read(p) == Now(c, t, lb))
  }

  lemma SerialPrefix(c: seq<string>, t: Trace, t': Trace)
    requires |t.states| == |t.events| + 1 && |t'.states| == |t'.events| + 1 && Extends(t, t') && Serial(All(c), t.states, t.events)
    ensures forall m :: 0 <= m < |t.events| ==> SerialAt(All(c), t'.states, t'.events, m)
  {
    hide Members;
    forall m | 0 <= m < |t.events| ensures SerialAt(All(c), t'.states, t'.events, m) {
      assert SerialAt(All(c), t.states, t.events, m);
      assert t'.states[m] == t'.states[..|t.states|][m] && t'.events[m] == t'.events[..|t.events|][m];
      forall lb ensures Members(All(c), t'.states, t'.events, m, lb) == Members(All(c), t.states, t.events, m, lb) {
        MembersOfPrefix(c, t, t', m, lb);
      }
    }
  }

  /** One more event of a serial run. */
  lemma Extend(cfg: Config, c: seq<string>, t: Trace, e: Event) returns (t': Trace)
    requires SerialRun(cfg, c, t) && Enabled(cfg, Last(t), e) && Honest(c, t, e)
    ensures SerialRun(cfg, c, t') && Extends(t, t') && |t'.states| == |t.states| + 1 && Last(t') == Apply(cfg, Last(t), e)
    ensures forall lb :: Now(c, t', lb) == MembersAfter(Last(t), e, lb, Now(c, t, lb))
  {
    hide Deliver, Start, Allowed, MembersAfter;
    var s' := Apply(cfg, Last(t), e);
    t' := Trace(t.states + [s'], t.events + [e]);
    var n := |t.events|;
    forall m {:trigger t'.events[m]} | 0 <= m < |t'.events| ensures Step(cfg, t'.states[m], t'.events[m], t'.states[m + 1]) {
      if m < n { assert t'.events[m] == t.events[m]; }
    }
    SerialPrefix(c, t, t');
    forall lb ensures Members(All(c), t'.states, t'.events, n, lb) == Now(c, t, lb) {
      MembersOfPrefix(c, t, t', n, lb);
    }
    assert SerialAt(All(c), t'.states, t'.events, n);
    forall m | 0 <= m < |t'.events| ensures SerialAt(All(c), t'.states, t'.events, m) {
      assert m < n || m == n;
    }
    assert t'.states[..|t.states|] == t.states && t'.events[..n] == t.events && IsRun(cfg, t'.states, t'.events);
    forall lb ensures Now(c, t', lb) == MembersAfter(Last(t), e, lb, Now(c, t, lb)) {
      assert Members(All(c), t'.states, t'.events, n + 1, lb) == MembersAfter(t'.states[n], e, lb, Members(All(c), t'.states, t'.events, n, lb));
    }
  }

  /** The answer, if it is one, reads the members as they are and is not to an update. */
  ghost predicate Harmless(c: seq<string>, s: State, e: Event) {
    e.Answered? ==> e.k in s.passes && !Updates(s.passes[e.k].call) && (e.a.LbGot? ==> e.a.members == c)
  }

  /** One more event that touches no members. */
  lemma Go(cfg: Config, c: seq<string>, t: Trace, e: Event) returns (t': Trace)
    requires Quiet(cfg, c, t) && Enabled(cfg, Last(t), e) && Harmless(c, Last(t), e)
    ensures Quiet(cfg, c, t') && Extends(t, t') && |t'.states| == |t.states| + 1 && Last(t') == Apply(cfg, Last(t), e)
  {
    hide Apply, Enabled, Now, SerialRun;
    HonestIfHarmless(cfg, c, t, e);
    t' := Extend(cfg, c, t, e);
  }

  lemma HonestIfHarmless(cfg: Config, c: seq<string>, t: Trace, e: Event)
    requires Quiet(cfg, c, t) && Harmless(c, Last(t), e)
    ensures |t.states| == |t.events| + 1 && Honest(c, t, e)
  {
    hide Now, Serial;
  }

  /** One more answer. */
  lemma Hear(cfg: Config, c: seq<string>, t: Trace, k: Key, a: Answer) returns (t': Trace)
    requires Quiet(cfg, c, t) && k in cfg.machines && k in Last(t).passes && !Updates(Last(t).passes[k].call) && (a.LbGot? ==> a.members == c)
    requires Allowed(cfg, Last(t), k, Last(t).passes[k].call, a)
    ensures Quiet(cfg, c, t') && Extends(t, t') && |t'.states| == |t.states| + 1 && Last(t') == Deliver(cfg, Last(t), k, a)
  {
    hide Deliver, Allowed, Quiet;
    t' := Go(cfg, c, t, Answered(k, a));
  }

  /** The Close of a pass takes effect. */
  lemma CloseDone(cfg: Config, c: seq<string>, t: Trace, k: Key) returns (t': Trace)
    requires Quiet(cfg, c, t) && k in cfg.machines && k in Last(t).passes && k in Last(t).stored && Last(t).passes[k].call.Closing?
    ensures Quiet(cfg, c, t') && Extends(t, t') && |t'.states| == |t.states| + 1
    ensures Last(t') == State(Write(Last(t).stored, k, Last(t).passes[k].mem), Last(t).passes - {k}, Last(t).servers)
  {
    hide Quiet, Write;
    t' := Hear(cfg, c, t, k, Done);
  }

  // ---- up to readiness

  /** A new machine has found nothing and is about to create its server. */
  ghost predicate ToCreate(cfg: Config, s: State, k: Key) {
    && k in cfg.machines && k in s.stored && s.stored[k] == FRESH && k in s.passes && s.servers == map[]
    && var p := s.passes[k]; p.mem == FRESH.(finalizer := true) && p.facts == P.WITH_LB && p.call.Creating? && p.sight == NoServer
  }

  lemma AboutToCreate(cfg: Config, c: seq<string>, k: Key) returns (t: Trace)
    requires k in cfg.machines
    ensures Quiet(cfg, c, t) && ToCreate(cfg, Last(t), k)
  {
    hide Quiet, IsRun;
    var t0 := Trace([INIT], []);
    assert Quiet(cfg, c, t0) by { StartTrace(cfg, c); }
    var t1 := Go(cfg, c, t0, UserCreate(k));
    var t2 := Go(cfg, c, t1, Begin(k, P.WITH_LB));
    assert Last(t2).passes[k].call.Finding? by { NoID(); }
    t := Go(cfg, c, t2, Answered(k, Listed([])));
    assert Aged(cfg, map[], k) == map[];
  }

  lemma StartTrace(cfg: Config, c: seq<string>)
    ensures Quiet(cfg, c, Trace([INIT], []))
  {
  }

  /** The pass has its new server "a" in hand, active, and makes this call. */
  ghost predicate Holding(cfg: Config, s: State, k: Key, call: Call) {
    && k in cfg.machines && k in s.stored && k in s.passes && s.servers == map["a" := NewServer(cfg, k, true)] && !s.stored[k].deleting
    && var p := s.passes[k];
       && p.call == call && p.mem.finalizer && !p.mem.deleting && p.mem.providerID == PID.FromResourceID("a")
       && p.facts == P.WITH_LB && p.sight == Saw("a", "active")
       && R.Sighted(k, cfg.machines[k], p.log, "a", "active")
  }

  /** The first call after the create: an instance patches its ID, bare metal lists its VPCs if it wants one. */
  function AfterCreation(k: Key, spec: Spec): Call {
    if k.kind == VM then Patching else if spec.vpcID != "" then VpcListing("a") else LbGetting("lb", "a")
  }

  lemma Create(cfg: Config, c: seq<string>, t: Trace, k: Key) returns (t': Trace)
    requires Quiet(cfg, c, t) && ToCreate(cfg, Last(t), k) && cfg.machines[k].controlPlane
    ensures Quiet(cfg, c, t') && Holding(cfg, Last(t'), k, AfterCreation(k, cfg.machines[k]))
  {
    hide Quiet, IsRun, PID.ToResourceID, PID.FromResourceID, R.Sighted, R.Attached, R.Joined, NewServer;
    U.FreshLetter(map[], "a");
    P.LetterID();
    R.LogGrows(k, cfg.machines[k], Last(t).passes[k].log, Exchange(Creating, Created("a", "active")));
    t' := Hear(cfg, c, t, k, Created("a", "active"));
  }

  /** The pass is about to ask the load balancer. */
  ghost predicate Asking(cfg: Config, s: State, k: Key) {
    && Holding(cfg, s, k, LbGetting("lb", "a"))
    && (k.kind == BareMetal && cfg.machines[k].vpcID != "" ==> R.Attached(s.passes[k].log, "a", cfg.machines[k].vpcID))
  }

  lemma GetToAsking(cfg: Config, c: seq<string>, t: Trace, k: Key) returns (t': Trace)
    requires Quiet(cfg, c, t) && k in cfg.machines && cfg.machines[k].controlPlane && Holding(cfg, Last(t), k, AfterCreation(k, cfg.machines[k]))
    ensures Quiet(cfg, c, t') && Asking(cfg, Last(t'), k)
  {
    hide Quiet, IsRun, PID.ToResourceID, PID.FromResourceID, R.Sighted, R.Attached, R.Joined, NewServer;
    var spec := cfg.machines[k];
    t' := t;
    if k.kind == VM {
      R.LogGrows(k, spec, Last(t).passes[k].log, Exchange(Patching, Done));
      t' := Hear(cfg, c, t, k, Done);
    } else if spec.vpcID != "" {
      R.LogGrows(k, spec, Last(t).passes[k].log, Exchange(VpcListing("a"), VpcListed([spec.vpcID])));
      t' := Hear(cfg, c, t, k, VpcListed([spec.vpcID]));
    }
  }

  /** The load balancer has the server already, and the pass has all its evidence. */
  lemma Accept(cfg: Config, c: seq<string>, t: Trace, k: Key) returns (t': Trace)
    requires c == ["a"] && Quiet(cfg, c, t) && Asking(cfg, Last(t), k) && cfg.machines[k].controlPlane
    ensures Quiet(cfg, c, t') && R.EvidenceAt(cfg, Last(t'), k, "a") && Holding(cfg, Last(t'), k, Closing) && R.IsTrue(Last(t').passes[k].mem)
  {
    hide Quiet, IsRun, PID.ToResourceID, PID.FromResourceID, R.Sighted, R.Attached, R.Joined, NewServer;
    P.LetterID();
    var a := LbGot(true, ["a"]);
    R.LogGrows(k, cfg.machines[k], Last(t).passes[k].log, Exchange(LbGetting("lb", "a"), a));
    t' := Hear(cfg, c, t, k, a);
  }

  // ---- and away

  /** The object names "a" and nothing is under way. */
  ghost predicate Idle(cfg: Config, s: State, k: Key) {
    && k in cfg.machines && k in s.stored && k !in s.passes && s.servers == map["a" := NewServer(cfg, k, true)]
    && s.stored[k].finalizer && s.stored[k].providerID == PID.FromResourceID("a")
  }

  lemma CloseReady(cfg: Config, c: seq<string>, t: Trace, k: Key) returns (t': Trace)
    requires Quiet(cfg, c, t) && Holding(cfg, Last(t), k, Closing)
    ensures Quiet(cfg, c, t') && Extends(t, t') && |t'.states| == |t.states| + 1 && Idle(cfg, Last(t'), k)
  {
    hide Quiet, IsRun, PID.FromResourceID, R.Sighted, NewServer;
    t' := CloseDone(cfg, c, t, k);
  }

  /** A delete pass over the object makes this call; the server is still there. */
  ghost predicate Leaves(cfg: Config, s: State, k: Key, call: Call) {
    && k in cfg.machines && k in s.stored && k in s.passes && s.servers == map["a" := NewServer(cfg, k, true)]
    && s.stored[k].finalizer && s.stored[k].deleting
    && s.passes[k].call == call && s.passes[k].mem.finalizer && s.passes[k].mem.deleting && s.passes[k].mem.providerID == PID.FromResourceID("a")
  }

  lemma DeleteAndBegin(cfg: Config, c: seq<string>, t: Trace, k: Key) returns (t': Trace)
    requires Quiet(cfg, c, t) && Idle(cfg, Last(t), k) && cfg.machines[k].controlPlane
    ensures Quiet(cfg, c, t') && Extends(t, t') && |t'.states| == |t.states| + 2
    ensures Leaves(cfg, Last(t'), k, if k.kind == VM then Deleting("a") else LbRemoveGetting("lb", "a"))
  {
    hide Quiet, IsRun, PID.ToResourceID, PID.FromResourceID, NewServer;
    P.LetterID();
    var t1 := Go(cfg, c, t, UserDelete(k));
    t' := Go(cfg, c, t1, Begin(k, P.WITH_LB));
    ExtendsTwice(t, t1, t');
  }

  lemma ExtendsTwice(t: Trace, t1: Trace, t2: Trace)
    requires Extends(t, t1) && Extends(t1, t2)
    ensures Extends(t, t2)
  {
    assert t2.states[..|t.states|] == t2.states[..|t1.states|][..|t.states|];
    assert t2.events[..|t.events|] == t2.events[..|t1.events|][..|t.events|];
  }

  /** Bare metal reads a list without any other member and goes on to its delete. */
  lemma ReadAlone(cfg: Config, c: seq<string>, t: Trace, k: Key) returns (t': Trace)
    requires c == ["a"] && Quiet(cfg, c, t) && Leaves(cfg, Last(t), k, LbRemoveGetting("lb", "a"))
    ensures Quiet(cfg, c, t') && Extends(t, t') && |t'.states| == |t.states| + 1 && Leaves(cfg, Last(t'), k, Deleting("a"))
  {
    hide Quiet, IsRun, PID.FromResourceID, LB.Without, NewServer;
    assert LB.Without(["a"], "a") == [] by { AloneInList(); }
    t' := Hear(cfg, c, t, k, LbGot(true, ["a"]));
  }

  lemma AloneInList()
    ensures LB.Without(["a"], "a") == []
  {
  }

  /** The server is dead; the pass makes this call. */
  ghost predicate Dead(cfg: Config, s: State, k: Key, call: Call) {
    && k in cfg.machines && k in s.stored && k in s.passes && s.stored[k].finalizer && s.stored[k].deleting && s.passes[k].call == call
    && s.servers.Keys == {"a"} && !s.servers["a"].live && s.servers["a"].maker == k
  }

  lemma Delete(cfg: Config, c: seq<string>, t: Trace, k: Key) returns (t': Trace)
    requires Quiet(cfg, c, t) && Leaves(cfg, Last(t), k, Deleting("a"))
    ensures Quiet(cfg, c, t') && Extends(t, t') && |t'.states| == |t.states| + 1 && Dead(cfg, Last(t'), k, Relisting)
  {
    hide Quiet, IsRun, PID.FromResourceID;
    t' := Hear(cfg, c, t, k, Done);
  }

  lemma ListNothing(cfg: Config, c: seq<string>, t: Trace, k: Key) returns (t': Trace)
    requires Quiet(cfg, c, t) && Dead(cfg, Last(t), k, Relisting)
    ensures Quiet(cfg, c, t') && Extends(t, t') && |t'.states| == |t.states| + 1
    ensures Dead(cfg, Last(t'), k, Closing) && !Last(t').passes[k].mem.finalizer
  {
    hide Quiet, IsRun, QueriedBy;
    assert Faithful(cfg, Last(t).servers, k, []);
    t' := Hear(cfg, c, t, k, Listed([]));
  }

  /** From the ready object to the end of its deletion. */
  lemma DeleteAndGo(cfg: Config, c: seq<string>, t: Trace, k: Key) returns (t': Trace)
    requires c == ["a"] && Quiet(cfg, c, t) && Idle(cfg, Last(t), k) && cfg.machines[k].controlPlane
    ensures Quiet(cfg, c, t') && Extends(t, t') && |t'.states| > |t.states| + 1
    ensures k !in Last(t').stored && "a" in Last(t').servers && !Last(t').servers["a"].live && Last(t').servers["a"].maker == k
    ensures O.Holds(t'.states[|t'.states| - 2], k)
  {
    hide Quiet, Idle, Extends, Leaves;
    var t1 := DeleteAndBegin(cfg, c, t, k);
    var t2 := t1;
    if k.kind == BareMetal {
      t2 := ReadAlone(cfg, c, t1, k);
      ExtendsTwice(t, t1, t2);
    }
    var t3 := Delete(cfg, c, t2, k);
    ExtendsTwice(t, t2, t3);
    var t4 := ListNothing(cfg, c, t3, k);
    ExtendsTwice(t, t3, t4);
    t' := CloseDone(cfg, c, t4, k);
    ExtendsTwice(t, t4, t');
    Before(t4, t', |t4.states| - 1);
  }

  lemma Before(t: Trace, t': Trace, i: nat)
    requires Extends(t, t') && i < |t.states|
    ensures i < |t'.states| && t'.states[i] == t.states[i]
  {
    assert t'.states[..|t.states|][i] == t'.states[i];
  }

  /**
   For every control plane machine of either kind there is a serial run in which it becomes ready and is deleted, and
   its dead server remains a member of the load balancer: an instance because it never leaves, bare metal because it is
   the last member.
   */
  lemma DeletedServerRemains(cfg: Config, k: Key) returns (t: Trace, j: nat)
    requires k in cfg.machines && cfg.machines[k].controlPlane
    ensures IsRun(cfg, t.states, t.events) && Serial(All(["a"]), t.states, t.events)
    ensures j < |t.events| && R.EvidenceAt(cfg, t.states[j], k, "a") && LoadBalancerID(k.kind, t.states[j].passes[k].facts) == "lb"
    ensures O.Holds(t.states[|t.events| - 1], k) && k !in Last(t).stored
    ensures "a" in Last(t).servers && !Last(t).servers["a"].live && Last(t).servers["a"].maker == k
    ensures "a" in Members(All(["a"]), t.states, t.events, |t.events|, "lb")
  {
    hide IsRun, Serial, Members, R.EvidenceAt, Idle, Extends;
    var c := ["a"];
    var t1 := AboutToCreate(cfg, c, k);
    var t2 := Create(cfg, c, t1, k);
    var t3 := GetToAsking(cfg, c, t2, k);
    var t4 := Accept(cfg, c, t3, k);
    j := |t4.states| - 1;
    var t5 := CloseReady(cfg, c, t4, k);
    t := DeleteAndGo(cfg, c, t5, k);
    ExtendsTwice(t4, t5, t);
    SameLength(cfg, c, t4);
    SameLength(cfg, c, t);
    Before(t4, t, j);
    assert Now(c, t, "lb") == c;
  }

  lemma SameLength(cfg: Config, c: seq<string>, t: Trace)
    requires Quiet(cfg, c, t)
    ensures |t.states| == |t.events| + 1
  {
  }

  // ---- and the way in

  /** An active load balancer that does not list the server makes the pass send an update. */
  lemma AskInVain(cfg: Config, c: seq<string>, t: Trace, k: Key) returns (t': Trace)
    requires Quiet(cfg, c, t) && Asking(cfg, Last(t), k) && cfg.machines[k].controlPlane && "a" !in c
    ensures Quiet(cfg, c, t') && Holding(cfg, Last(t'), k, LbUpdating("lb", "a")) && Read(Last(t').passes[k]) == c
  {
    hide Quiet, IsRun, PID.ToResourceID, PID.FromResourceID, R.Sighted, R.Attached, R.Joined, NewServer;
    var a := LbGot(true, c);
    R.LogGrows(k, cfg.machines[k], Last(t).passes[k].log, Exchange(LbGetting("lb", "a"), a));
    t' := Hear(cfg, c, t, k, a);
  }

  /** The update is accepted: the server stands behind the old members, and the pass closes ready. */
  lemma Update(cfg: Config, c: seq<string>, t: Trace, k: Key) returns (t': Trace)
    requires Quiet(cfg, c, t) && Holding(cfg, Last(t), k, LbUpdating("lb", "a")) && Read(Last(t).passes[k]) == c
    ensures SerialRun(cfg, c, t') && Now(c, t', "lb") == c + ["a"]
    ensures k in Last(t').stored && k in Last(t').passes && Last(t').passes[k].call.Closing? && R.IsTrue(Last(t').passes[k].mem)
    ensures Last(t').passes[k].mem.providerID == PID.FromResourceID("a") && !Last(t').stored[k].deleting
  {
    hide IsRun, Serial, Now, PID.ToResourceID, PID.FromResourceID, R.Sighted, NewServer;
    QuietIsHonest(cfg, c, t, k);
    t' := Extend(cfg, c, t, Answered(k, Done));
  }

  lemma QuietIsHonest(cfg: Config, c: seq<string>, t: Trace, k: Key)
    requires Quiet(cfg, c, t) && k in Last(t).passes && Updates(Last(t).passes[k].call) && Read(Last(t).passes[k]) == c
    ensures |t.states| == |t.events| + 1 && Honest(c, t, Answered(k, Done))
  {
    hide Now, Serial;
  }

  /** The pass stores its report; the members stay as they are. */
  lemma CloseJoined(cfg: Config, c: seq<string>, t: Trace, k: Key) returns (t': Trace)
    requires SerialRun(cfg, c, t) && k in cfg.machines && k in Last(t).stored && k in Last(t).passes && !Last(t).stored[k].deleting
    requires Last(t).passes[k].call.Closing? && R.IsTrue(Last(t).passes[k].mem) && Last(t).passes[k].mem.providerID == PID.FromResourceID("a")
    ensures SerialRun(cfg, c, t') && Now(c, t', "lb") == Now(c, t, "lb")
    ensures k in Last(t').stored && R.IsTrue(Last(t').stored[k]) && ServerID(Last(t').stored[k]) == "a" && k !in Last(t').passes
  {
    hide IsRun, Serial, Now, PID.ToResourceID, PID.FromResourceID;
    P.LetterID();
    LengthOf(cfg, c, t);
    t' := Extend(cfg, c, t, Answered(k, Done));
  }

  lemma LengthOf(cfg: Config, c: seq<string>, t: Trace)
    requires SerialRun(cfg, c, t)
    ensures |t.states| == |t.events| + 1
  {
  }

  /**
   For every control plane machine of either kind, and every list of members without its server, the empty one included,
   there is a serial run in which the pass adds the server behind them and stores Ready=True.
   */
  lemma EveryMachineCanJoin(cfg: Config, c: seq<string>, k: Key) returns (t: Trace)
    requires k in cfg.machines && cfg.machines[k].controlPlane && "a" !in c
    ensures IsRun(cfg, t.states, t.events) && Serial(All(c), t.states, t.events)
    ensures Members(All(c), t.states, t.events, |t.events|, "lb") == c + ["a"]
    ensures k in Last(t).stored && R.IsTrue(Last(t).stored[k]) && ServerID(Last(t).stored[k]) == "a"
  {
    hide IsRun, Serial, Members, Quiet, Asking, Holding, R.IsTrue, PID.ToResourceID, PID.FromResourceID;
    var t1 := AboutToCreate(cfg, c, k);
    var t2 := Create(cfg, c, t1, k);
    var t3 := GetToAsking(cfg, c, t2, k);
    var t4 := AskInVain(cfg, c, t3, k);
    var t5 := Update(cfg, c, t4, k);
    t := CloseJoined(cfg, c, t5, k);
  }
}

/**
 No machine ever has two live servers: the search that precedes every create, the tags, and one pass per machine
 suffice against crashes, failed patches, and creates that fail after having made a server.
 */
module Uniqueness {
  import opened Search
  import opened Tags
  import opened Machines
  import opened Protocol
  import opened Invariants
  import opened Strings
  import PID = ProviderID

  /** One machine may take the server of the other for its own. */
  predicate Confusable(cfg: Config, j: Key, k: Key)
    requires j in cfg.machines && k in cfg.machines
  {
    && j != k && j.kind == k.kind && j.name == k.name
    && (cfg.machines[j].clusterUID == cfg.machines[k].clusterUID || (k.kind == VM && cfg.untagged))
  }

  ghost predicate Distinct(cfg: Config) {
    forall j, k :: j in cfg.machines && k in cfg.machines ==> !Confusable(cfg, j, k)
  }

  predicate LiveOwned(cfg: Config, servers: map<string, Server>, k: Key, id: string)
    requires k in cfg.machines
  {
    id in servers && servers[id].live && OwnedBy(cfg, k, servers[id])
  }

  ghost predicate AtMostOneLive(cfg: Config, s: State, k: Key)
    requires k in cfg.machines
  {
    forall id1, id2 :: LiveOwned(cfg, s.servers, k, id1) && LiveOwned(cfg, s.servers, k, id2) ==> id1 == id2
  }

  ghost predicate NoneLive(cfg: Config, servers: map<string, Server>, k: Key)
    requires k in cfg.machines
  {
    forall id :: !LiveOwned(cfg, servers, k, id)
  }

  ghost predicate UniqueInv(cfg: Config, s: State) {
    && (forall k :: k in cfg.machines ==> AtMostOneLive(cfg, s, k))
    && (forall k :: k in cfg.machines && k in s.passes && s.passes[k].call.Creating? ==> NoneLive(cfg, s.servers, k))
  }

  /** Among distinct machines a server is owned by its maker alone. */
  lemma OwnedByMaker(cfg: Config, k: Key, sv: Server)
    requires ConfigOK(cfg) && Distinct(cfg) && k in cfg.machines && WellMade(cfg, sv)
    ensures OwnedBy(cfg, k, sv) <==> sv.maker == k
  {
    OwnedIsRightful(cfg, k, sv);
    assert !Confusable(cfg, sv.maker, k);
  }

  lemma NextCreates(k: Key, spec: Spec, p: Pass, a: Answer)
    requires var n := Next(k, spec, p, a); n.Some? && n.value.call.Creating?
    ensures p.call.Finding? && a.Listed? && Scan(k.kind, a.entries, Params(k, spec)).Nothing?
  {
    hide PID.ToResourceID, PID.FromResourceID, Scan, AfterGet, AfterFind, AfterCreate, AfterVpcList, AfterLbGet, AfterRelist, Join;
  }

  /** A pass comes to its create only from a listing without a live server of its machine. */
  lemma EntersCreate(cfg: Config, s: State, k: Key, a: Answer)
    requires ConfigOK(cfg) && Inv(cfg, s) && Enabled(cfg, s, Answered(k, a))
    requires var s' := Deliver(cfg, s, k, a); k in s'.passes && s'.passes[k].call.Creating?
    ensures s.passes[k].call.Finding? && NoneLive(cfg, Deliver(cfg, s, k, a).servers, k)
  {
    hide PID.ToResourceID, PID.FromResourceID, OwnedBy, PassOK, WellMade, Next, StoredAfter;
    NextCreates(k, cfg.machines[k], s.passes[k], a);
    ScanNothing(cfg, s.servers, k, a.entries);
    AgedEvolves(cfg, s.servers, k);
  }

  lemma StartIsNoCreate(k: Key, spec: Spec, m: Machine, f: Facts)
    ensures !Start(k, spec, m, f).call.Creating?
  {
  }

  /** Without a new server of k, what held of the live servers of k still holds. */
  lemma OwnedFrame(cfg: Config, s: State, s': State, k: Key)
    requires k in cfg.machines && Evolves(s.servers, s'.servers)
    requires forall id :: id in s'.servers && id !in s.servers ==> !OwnedBy(cfg, k, s'.servers[id])
    ensures AtMostOneLive(cfg, s, k) ==> AtMostOneLive(cfg, s', k)
    ensures NoneLive(cfg, s.servers, k) ==> NoneLive(cfg, s'.servers, k)
  {
    hide Owned, ParamsOf;
    forall id | LiveOwned(cfg, s'.servers, k, id) ensures LiveOwned(cfg, s.servers, k, id) {
    }
  }

  lemma UniqueStep(cfg: Config, s: State, e: Event, s': State)
    requires ConfigOK(cfg) && Distinct(cfg) && Inv(cfg, s) && UniqueInv(cfg, s) && Step(cfg, s, e, s')
    ensures UniqueInv(cfg, s')
  {
    hide Apply, Enabled, OwnedBy, WellMade, PassOK, NewServer;
    ServersEvolve(cfg, s, e, s');
    ServersKeepOK(cfg, s, e, s');
    forall k | k in cfg.machines ensures AtMostOneLive(cfg, s', k) {
      UniqueStepFor(cfg, s, e, s', k);
    }
    forall k | k in cfg.machines && k in s'.passes && s'.passes[k].call.Creating? ensures NoneLive(cfg, s'.servers, k) {
      CreatingStepFor(cfg, s, e, s', k);
    }
  }

  lemma UniqueStepFor(cfg: Config, s: State, e: Event, s': State, k: Key)
    requires ConfigOK(cfg) && Distinct(cfg) && Inv(cfg, s) && UniqueInv(cfg, s) && k in cfg.machines
    requires Evolves(s.servers, s'.servers) && MadeIn(cfg, s, e, s') && ServersOK(cfg, s'.servers)
    ensures AtMostOneLive(cfg, s', k)
  {
    hide OwnedBy, WellMade, PassOK;
    if id :| id in s'.servers && id !in s.servers && OwnedBy(cfg, k, s'.servers[id]) {
      // the maker of the new server is k itself, whose pass saw that nothing was there
      OwnedByMaker(cfg, k, s'.servers[id]);
      assert NoneLive(cfg, s.servers, k);
      forall id' | LiveOwned(cfg, s'.servers, k, id') ensures id' == id {
        if id' in s.servers {
          assert !LiveOwned(cfg, s.servers, k, id');
          OwnedSame(cfg, k, s.servers[id'], s'.servers[id']);
        }
      }
    } else {
      OwnedFrame(cfg, s, s', k);
    }
  }

  lemma OwnedSame(cfg: Config, k: Key, a: Server, b: Server)
    requires k in cfg.machines && SameBody(a, b)
    ensures OwnedBy(cfg, k, a) == OwnedBy(cfg, k, b)
  {
  }

  lemma CreatingStepFor(cfg: Config, s: State, e: Event, s': State, k: Key)
    requires ConfigOK(cfg) && Distinct(cfg) && Inv(cfg, s) && UniqueInv(cfg, s) && k in cfg.machines && Step(cfg, s, e, s')
    requires k in s'.passes && s'.passes[k].call.Creating?
    ensures NoneLive(cfg, s'.servers, k)
  {
    hide Start, Next, ServersAfter, StoredAfter, OwnedBy, WellMade, PassOK, NewServer;
    if e.Answered? && e.k == k {
      EntersCreate(cfg, s, k, e.a);
    } else {
      if e.Begin? && e.k == k { StartIsNoCreate(k, cfg.machines[k], s.stored[k], e.facts); }
      ServersEvolve(cfg, s, e, s');
      ServersKeepOK(cfg, s, e, s');
      forall id | id in s'.servers && id !in s.servers ensures !OwnedBy(cfg, k, s'.servers[id]) {
        OwnedByMaker(cfg, k, s'.servers[id]);
        assert s'.servers[id].maker == e.k by { MakerIs(cfg, e.k); }
      }
      OwnedFrame(cfg, s, s', k);
    }
  }

  lemma MakerIs(cfg: Config, k: Key)
    requires k in cfg.machines
    ensures NewServer(cfg, k, true).maker == NewServer(cfg, k, false).maker == k
  {
  }

  /** In every run, each machine of a configuration without confusable machines has at most one live server. */
  lemma {:induction false} NoDuplicateServers(cfg: Config, states: seq<State>, events: seq<Event>, i: nat)
    requires ConfigOK(cfg) && Distinct(cfg) && IsRun(cfg, states, events) && i < |states|
    ensures UniqueInv(cfg, states[i])
  {
    hide Apply, Enabled, Inv, Distinct;
    if i > 0 {
      NoDuplicateServers(cfg, states, events, i - 1);
      InvAlong(cfg, states, events, i - 1);
      assert events[i - 1] == events[i - 1];
      UniqueStep(cfg, states[i - 1], events[i - 1], states[i]);
    }
  }

  lemma UniqueReachable(cfg: Config, s: State, k: Key)
    requires ConfigOK(cfg) && Distinct(cfg) && Reachable(cfg, s) && k in cfg.machines
    ensures AtMostOneLive(cfg, s, k)
  {
    hide AtMostOneLive;
    var states, events :| IsRun(cfg, states, events) && states[|states| - 1] == s;
    NoDuplicateServers(cfg, states, events, |states| - 1);
  }

  // ---- and the condition is necessary

  lemma FreshLetter(servers: map<string, Server>, id: string)
    requires |id| == 1 && id !in servers
    ensures FreshID(servers, id)
  {
    assert |PID.SEPARATOR| == 3;
  }

  const EAGER := Facts(true, true, "", "")

  /** A fresh machine that finds an empty account comes to its create. */
  lemma BeginAndFindNothing(cfg: Config, s: State, k: Key, f: Facts) returns (s': State)
    requires f.clusterReady && f.bootstrap
    requires Reachable(cfg, s) && k in cfg.machines && k in s.stored && k !in s.passes && s.stored[k] == FRESH && s.servers == map[]
    ensures Reachable(cfg, s') && s'.stored == s.stored && s'.servers == map[]
    ensures k in s'.passes && s'.passes == s.passes[k := s'.passes[k]] && s'.passes[k].call.Creating?
    ensures s'.passes[k].mem == FRESH.(finalizer := true) && s'.passes[k].facts == f
  {
    hide IsRun;
    ReachableStep(cfg, s, Begin(k, f));
    var s1 := Apply(cfg, s, Begin(k, f));
    assert s1.passes[k].call.Finding? by { NoID(); }
    ReachableStep(cfg, s1, Answered(k, Listed([])));
    s' := Apply(cfg, s1, Answered(k, Listed([])));
    assert Aged(cfg, map[], k) == map[];
  }

  lemma CreateStep(cfg: Config, s: State, k: Key, a: Answer, id: string, tagged: bool) returns (s': State)
    requires Reachable(cfg, s) && k in cfg.machines && k in s.passes && s.passes[k].call.Creating?
    requires |id| == 1 && id !in s.servers
    requires a == (if tagged then Created(id, "active") else CreateFailed(MadeUntagged(id)))
    requires !tagged ==> k.kind == VM && cfg.untagged
    ensures Reachable(cfg, s') && s'.servers == s.servers[id := NewServer(cfg, k, tagged)]
    ensures forall j :: j != k && j in s.passes ==> j in s'.passes && s'.passes[j] == s.passes[j]
  {
    hide IsRun, Next, StoredAfter, NewServer;
    FreshLetter(s.servers, id);
    ReachableStep(cfg, s, Answered(k, a));
    s' := Apply(cfg, s, Answered(k, a));
  }

  /** Two confusable machines that list before either creates end up with two live servers that one of them owns. */
  lemma ConfusableDuplicates(cfg: Config, j: Key, k: Key) returns (s: State)
    requires ConfigOK(cfg) && j in cfg.machines && k in cfg.machines && Confusable(cfg, j, k)
    ensures Reachable(cfg, s) && !AtMostOneLive(cfg, s, k)
  {
    hide Reachable, NewServer, OwnedBy;
    InitReachable(cfg);
    ReachableStep(cfg, INIT, UserCreate(k));
    var s1 := Apply(cfg, INIT, UserCreate(k));
    ReachableStep(cfg, s1, UserCreate(j));
    var s2 := Apply(cfg, s1, UserCreate(j));
    var s3 := BeginAndFindNothing(cfg, s2, k, EAGER);
    var s4 := BeginAndFindNothing(cfg, s3, j, EAGER);
    var s5 := CreateStep(cfg, s4, k, Created("a", "active"), "a", true);
    var same := cfg.machines[j].clusterUID == cfg.machines[k].clusterUID;
    s := CreateStep(cfg, s5, j, if same then Created("b", "active") else CreateFailed(MadeUntagged("b")), "b", same);
    NewServerOwned(cfg, k, k, true);
    NewServerOwned(cfg, j, k, same);
    assert LiveOwned(cfg, s.servers, k, "a") && LiveOwned(cfg, s.servers, k, "b");
  }

  lemma NewServerOwned(cfg: Config, maker: Key, k: Key, tagged: bool)
    requires ConfigOK(cfg) && maker in cfg.machines && k in cfg.machines && maker.kind == k.kind && maker.name == k.name
    requires if tagged then cfg.machines[maker].clusterUID == cfg.machines[k].clusterUID else k.kind == VM && cfg.untagged
    ensures NewServer(cfg, maker, tagged).live && OwnedBy(cfg, k, NewServer(cfg, maker, tagged))
  {
    OwnedIsRightful(cfg, k, NewServer(cfg, maker, tagged));
  }

  /** Exactly the configurations without confusable machines are free of duplicates in every run. */
  lemma UniqueIffDistinct(cfg: Config)
    requires ConfigOK(cfg)
    ensures Distinct(cfg) <==> forall s, k :: Reachable(cfg, s) && k in cfg.machines ==> AtMostOneLive(cfg, s, k)
  {
    hide Reachable, AtMostOneLive;
    if Distinct(cfg) {
      forall s, k | Reachable(cfg, s) && k in cfg.machines ensures AtMostOneLive(cfg, s, k) {
        UniqueReachable(cfg, s, k);
      }
    } else {
      var j, k :| j in cfg.machines && k in cfg.machines && Confusable(cfg, j, k);
      var s := ConfusableDuplicates(cfg, j, k);
    }
  }
}

/**
 Deletion ends. The cloud answers truthfully and a deleted server shows in at most `lag` more listings of the machine's
 query; then every delete pass drops the finalizer or decreases a measure over live and stale servers, provided there
 is at most one live server besides the one that the providerID names. With two, the search refuses to choose and no
 number of passes helps.
 */
module Convergence {
  import opened Search
  import opened Tags
  import opened Machines
  import opened Protocol
  import opened Invariants
  import U = Uniqueness
  import PID = ProviderID
  import LB = LoadBalancers

  // ---- the measure

  ghost function Weight(cfg: Config, servers: map<string, Server>, k: Key, id: string): nat
    requires k in cfg.machines
  {
    if id in servers && OwnedBy(cfg, k, servers[id]) then (if servers[id].live then cfg.lag + 1 else servers[id].lag) else 0
  }

  ghost function Pick(ids: set<string>): string
    requires ids != {}
    ensures Pick(ids) in ids
  {
    var x :| x in ids; x
  }

  ghost function Total(cfg: Config, servers: map<string, Server>, k: Key, ids: set<string>): nat
    requires k in cfg.machines
  {
    if ids == {} then 0
    else Weight(cfg, servers, k, Pick(ids)) + Total(cfg, servers, k, ids - {Pick(ids)})
  }

  ghost function Measure(cfg: Config, servers: map<string, Server>, k: Key): nat
    requires k in cfg.machines
  {
    Total(cfg, servers, k, OwnedIDs(cfg, servers, k))
  }

  /** The servers that the machine owns, live or not. */
  function OwnedIDs(cfg: Config, servers: map<string, Server>, k: Key): set<string>
    requires k in cfg.machines
  {
    set id | id in servers && OwnedBy(cfg, k, servers[id])
  }

  /** Ownership does not change with the life of a server. */
  lemma OwnedIDsFrame(cfg: Config, a: map<string, Server>, b: map<string, Server>, k: Key)
    requires k in cfg.machines && Evolves(a, b) && forall id :: id in b && id !in a ==> !OwnedBy(cfg, k, b[id])
    ensures OwnedIDs(cfg, b, k) == OwnedIDs(cfg, a, k)
  {
    hide OwnedBy;
    forall id | id in a ensures OwnedBy(cfg, k, b[id]) == OwnedBy(cfg, k, a[id]) { U.OwnedSame(cfg, k, a[id], b[id]); }
  }

  lemma {:induction false} TotalLe(cfg: Config, a: map<string, Server>, b: map<string, Server>, k: Key, ids: set<string>)
    requires k in cfg.machines
    requires forall id :: id in ids ==> Weight(cfg, b, k, id) <= Weight(cfg, a, k, id)
    ensures Total(cfg, b, k, ids) <= Total(cfg, a, k, ids)
    ensures (exists id :: id in ids && Weight(cfg, b, k, id) < Weight(cfg, a, k, id)) ==> Total(cfg, b, k, ids) < Total(cfg, a, k, ids)
  {
    hide Weight;
    if ids != {} {
      TotalLe(cfg, a, b, k, ids - {Pick(ids)});
      if id :| id in ids && Weight(cfg, b, k, id) < Weight(cfg, a, k, id) {
        if id != Pick(ids) { assert id in ids - {Pick(ids)}; }
      }
    }
  }

  /** At most one element of weight one. */
  lemma {:induction false} TotalOne(cfg: Config, a: map<string, Server>, k: Key, ids: set<string>)
    requires k in cfg.machines
    requires forall id :: id in ids ==> Weight(cfg, a, k, id) <= 1
    requires forall x, y :: x in ids && y in ids && Weight(cfg, a, k, x) > 0 && Weight(cfg, a, k, y) > 0 ==> x == y
    ensures Total(cfg, a, k, ids) <= 1
  {
    hide Weight;
    if ids != {} {
      var x := Pick(ids);
      TotalOne(cfg, a, k, ids - {x});
      if Weight(cfg, a, k, x) > 0 {
        TotalZero(cfg, a, k, ids - {x});
      }
    }
  }

  lemma {:induction false} TotalZero(cfg: Config, a: map<string, Server>, k: Key, ids: set<string>)
    requires k in cfg.machines && forall id :: id in ids ==> Weight(cfg, a, k, id) == 0
    ensures Total(cfg, a, k, ids) == 0
  {
    hide Weight;
    if ids != {} { TotalZero(cfg, a, k, ids - {Pick(ids)}); }
  }

  lemma KillMeasure(cfg: Config, servers: map<string, Server>, k: Key, id: string)
    requires k in cfg.machines
    ensures Measure(cfg, Kill(cfg, servers, id), k) <= Measure(cfg, servers, k)
    ensures U.LiveOwned(cfg, servers, k, id) ==> Measure(cfg, Kill(cfg, servers, id), k) < Measure(cfg, servers, k)
  {
    hide Owned, ParamsOf;
    KillEvolves(cfg, servers, id);
    var b := Kill(cfg, servers, id);
    var ids := OwnedIDs(cfg, servers, k);
    OwnedIDsFrame(cfg, servers, b, k);
    forall x | x in ids ensures Weight(cfg, b, k, x) <= Weight(cfg, servers, k, x) {}
    TotalLe(cfg, servers, b, k, ids);
    if U.LiveOwned(cfg, servers, k, id) { assert Weight(cfg, b, k, id) < Weight(cfg, servers, k, id); }
  }

  /** The machine owns this deleted server, which listings may still show. */
  predicate Stale(cfg: Config, servers: map<string, Server>, k: Key, id: string)
    requires k in cfg.machines
  {
    id in servers && OwnedBy(cfg, k, servers[id]) && !servers[id].live && servers[id].lag > 0
  }

  lemma AgedMeasure(cfg: Config, servers: map<string, Server>, k: Key)
    requires ConfigOK(cfg) && k in cfg.machines && ServersOK(cfg, servers)
    ensures Measure(cfg, Aged(cfg, servers, k), k) <= Measure(cfg, servers, k)
    ensures forall id :: Stale(cfg, servers, k, id) ==> Measure(cfg, Aged(cfg, servers, k), k) < Measure(cfg, servers, k)
  {
    hide Owned, Query, ParamsOf, WellMade;
    AgedEvolves(cfg, servers, k);
    var b := Aged(cfg, servers, k);
    var ids := OwnedIDs(cfg, servers, k);
    OwnedIDsFrame(cfg, servers, b, k);
    forall x | x in ids ensures Weight(cfg, b, k, x) <= Weight(cfg, servers, k, x) {}
    TotalLe(cfg, servers, b, k, ids);
    forall id | Stale(cfg, servers, k, id) ensures Measure(cfg, b, k) < Measure(cfg, servers, k) {
      OwnedIsRightful(cfg, k, servers[id]);
      assert Weight(cfg, b, k, id) < Weight(cfg, servers, k, id);
    }
  }

  // ---- truthful answers

  predicate DistinctIDs(l: seq<Entry>) {
    forall i, j :: 0 <= i < j < |l| ==> l[i].id != l[j].id
  }

  ghost predicate TruthfulList(cfg: Config, servers: map<string, Server>, k: Key, entries: seq<Entry>)
    requires k in cfg.machines
  {
    && Faithful(cfg, servers, k, entries)
    && DistinctIDs(entries)
    && (forall i :: 0 <= i < |entries| ==> servers[entries[i].id].live || servers[entries[i].id].lag > 0)
  }

  predicate TruthfulDelete(servers: map<string, Server>, id: string, a: Answer) {
    if id in servers && servers[id].live then a.Done? else a.NotFound?
  }

  /** No error, and every answer is the truth about the servers. */
  ghost predicate Truthful(cfg: Config, s: State, k: Key, call: Call, a: Answer)
    requires k in cfg.machines
  {
    && Allowed(cfg, s, k, call, a) && !a.Failed?
    && (call.Relisting? ==> a.Listed? && TruthfulList(cfg, s.servers, k, a.entries))
    && (call.Deleting? || call.DeletingOther? ==> TruthfulDelete(s.servers, call.id, a))
  }

  /** The script takes the pass of k to its end, truthfully. */
  ghost predicate TruthfulPass(cfg: Config, s: State, k: Key, script: seq<Answer>)
    requires k in cfg.machines
    decreases |script|
  {
    if k !in s.passes then script == []
    else
      && script != [] && Truthful(cfg, s, k, s.passes[k].call, script[0])
      && TruthfulPass(cfg, Deliver(cfg, s, k, script[0]), k, script[1..])
  }

  // ---- the stages of a delete pass, from the last to the first

  /** In the middle of a delete pass of k. */
  ghost predicate Removal(cfg: Config, s: State, k: Key) {
    && ConfigOK(cfg) && Inv(cfg, s) && k in cfg.machines && k in s.stored && s.stored[k].deleting
    && k in s.passes && s.passes[k].mem.deleting && s.passes[k].mem.providerID == s.stored[k].providerID
  }

  ghost function EndOf(cfg: Config, s: State, k: Key, script: seq<Answer>): State
    requires k in cfg.machines
  {
    Exec(cfg, s, k, script).0
  }

  /** The object is still there, marked and naming the same server. */
  ghost predicate StillThere(s: State, k: Key, providerID: string) {
    k in s.stored && s.stored[k].deleting && s.stored[k].providerID == providerID
  }

  /** One more answer of the pass. */
  lemma Advance(cfg: Config, s: State, k: Key, script: seq<Answer>) returns (s': State)
    requires Removal(cfg, s, k) && TruthfulPass(cfg, s, k, script)
    ensures script != [] && Truthful(cfg, s, k, s.passes[k].call, script[0])
    ensures s' == Deliver(cfg, s, k, script[0]) && Inv(cfg, s') && TruthfulPass(cfg, s', k, script[1..])
    ensures EndOf(cfg, s, k, script) == EndOf(cfg, s', k, script[1..])
    ensures PassOK(cfg, s.servers, k, s.passes[k])
  {
    hide Inv, PassOK, Next, ServersAfter, StoredAfter, Allowed;
    s' := Deliver(cfg, s, k, script[0]);
    InvStep(cfg, s, Answered(k, script[0]), s');
    assert PassOK(cfg, s.servers, k, s.passes[k]) by { InvPass(cfg, s, k); }
  }

  lemma InvPass(cfg: Config, s: State, k: Key)
    requires Inv(cfg, s) && k in s.passes
    ensures k in cfg.machines && PassOK(cfg, s.servers, k, s.passes[k])
  {
    hide PassOK;
  }

  lemma CloseStage(cfg: Config, s: State, k: Key, script: seq<Answer>)
    requires Removal(cfg, s, k) && s.passes[k].call.Closing? && TruthfulPass(cfg, s, k, script)
    ensures var s' := EndOf(cfg, s, k, script);
            && k !in s'.passes && Inv(cfg, s') && s'.servers == s.servers
            && (if s.passes[k].mem.finalizer then StillThere(s', k, s.stored[k].providerID) else k !in s'.stored)
  {
    hide Inv, PassOK;
    var s' := Advance(cfg, s, k, script);
  }

  /** The scan found a server that the providerID does not name. */
  lemma OtherStage(cfg: Config, s: State, k: Key, script: seq<Answer>, id: string)
    requires Removal(cfg, s, k) && s.passes[k].call == DeletingOther(id) && TruthfulPass(cfg, s, k, script)
    ensures var s' := EndOf(cfg, s, k, script);
            k !in s'.passes && Inv(cfg, s') && s'.servers == Kill(cfg, s.servers, id) && StillThere(s', k, s.stored[k].providerID)
  {
    hide Inv, CallOK, MachineOK, EndOf, TruthfulPass;
    var s' := Advance(cfg, s, k, script);
    CloseStage(cfg, s', k, script[1..]);
  }

  /** At most one live server of k besides the one that the providerID names. */
  ghost predicate OneOther(cfg: Config, servers: map<string, Server>, k: Key, id: string)
    requires k in cfg.machines
  {
    forall x, y :: U.LiveOwned(cfg, servers, k, x) && U.LiveOwned(cfg, servers, k, y) && x != id && y != id ==> x == y
  }

  /** What the listing of a delete pass may turn up: nothing, a stale entry, or the one live server that is left. */
  lemma TruthfulScan(cfg: Config, servers: map<string, Server>, k: Key, id: string, entries: seq<Entry>)
    requires ConfigOK(cfg) && k in cfg.machines && ServersOK(cfg, servers) && TruthfulList(cfg, servers, k, entries)
    requires OneOther(cfg, servers, k, id) && !U.LiveOwned(cfg, servers, k, id)
    ensures var r := Scan(k.kind, entries, ParamsOf(cfg, k));
            match r
            case Nothing => true
            case One(e) => Stale(cfg, servers, k, e.id) || (e.id != id && U.LiveOwned(cfg, servers, k, e.id))
            case Many(_) => exists x :: Stale(cfg, servers, k, x)
  {
    hide OwnedBy, QueriedBy, WellMade;
    var owned := OwnedEntries(k.kind, entries, ParamsOf(cfg, k));
    forall i | 0 <= i < |owned| ensures owned[i] in entries && ClaimOK(cfg, servers, k, owned[i].id) && (U.LiveOwned(cfg, servers, k, owned[i].id) || Stale(cfg, servers, k, owned[i].id)) {
      OwnedEntryClaims(cfg, servers, k, entries, owned[i]);
    }
    if |owned| >= 2 {
      DistinctOwned(k.kind, entries, ParamsOf(cfg, k));
      assert owned[0].id != owned[1].id;
    }
  }

  lemma OwnedEntryClaims(cfg: Config, servers: map<string, Server>, k: Key, entries: seq<Entry>, e: Entry)
    requires k in cfg.machines && TruthfulList(cfg, servers, k, entries) && e in OwnedEntries(k.kind, entries, ParamsOf(cfg, k))
    ensures e in entries && ClaimOK(cfg, servers, k, e.id) && (servers[e.id].live || servers[e.id].lag > 0)
  {
    var i :| 0 <= i < |entries| && entries[i] == e;
    assert ShowsServer(servers, k.kind, entries[i]);
  }

  /** Owned entries of a listing without repeated ids have no repeated ids. */
  lemma {:induction false} DistinctOwned(kind: Kind, entries: seq<Entry>, p: TagParams)
    requires DistinctIDs(entries)
    ensures DistinctIDs(OwnedEntries(kind, entries, p))
  {
    hide Owned;
    if entries != [] {
      var rest := entries[1..];
      assert DistinctIDs(rest) by {
        forall i, j | 0 <= i < j < |rest| ensures rest[i].id != rest[j].id { assert entries[i + 1].id != entries[j + 1].id; }
      }
      var tail := OwnedEntries(kind, rest, p);
      DistinctOwned(kind, rest, p);
      forall i | 0 <= i < |tail| ensures tail[i].id != entries[0].id {
        var j :| 0 <= j < |rest| && rest[j] == tail[i];
        assert entries[0].id != entries[j + 1].id;
      }
      var o := OwnedEntries(kind, entries, p);
      assert o == tail || o == [entries[0]] + tail;
    }
  }

  lemma KillOneOther(cfg: Config, servers: map<string, Server>, k: Key, id: string, x: string)
    requires k in cfg.machines && OneOther(cfg, servers, k, id)
    ensures OneOther(cfg, Kill(cfg, servers, x), k, id)
    ensures !U.LiveOwned(cfg, Kill(cfg, servers, x), k, x)
  {
    hide Owned, ParamsOf;
    forall y | U.LiveOwned(cfg, Kill(cfg, servers, x), k, y) ensures U.LiveOwned(cfg, servers, k, y) {}
  }

  lemma AgedOwned(cfg: Config, servers: map<string, Server>, k: Key)
    requires k in cfg.machines
    ensures forall y :: U.LiveOwned(cfg, Aged(cfg, servers, k), k, y) <==> U.LiveOwned(cfg, servers, k, y)
  {
    hide Owned, ParamsOf;
    AgedEvolves(cfg, servers, k);
  }

  /** The pass ended; the object is gone or the measure is below the bound, and the next pass may go on from here. */
  ghost predicate Progress(cfg: Config, s': State, k: Key, providerID: string, bound: nat)
    requires k in cfg.machines
  {
    && k !in s'.passes && Inv(cfg, s')
    && (k in s'.stored ==>
          && StillThere(s', k, providerID) && Measure(cfg, s'.servers, k) < bound
          && OneOther(cfg, s'.servers, k, PID.ToResourceID(providerID)))
  }

  lemma RelistStage(cfg: Config, s: State, k: Key, script: seq<Answer>)
    requires Removal(cfg, s, k) && s.passes[k].call.Relisting? && TruthfulPass(cfg, s, k, script)
    requires OneOther(cfg, s.servers, k, ServerID(s.stored[k])) && !U.LiveOwned(cfg, s.servers, k, ServerID(s.stored[k]))
    ensures Progress(cfg, EndOf(cfg, s, k, script), k, s.stored[k].providerID, Measure(cfg, s.servers, k))
  {
    hide Inv, PassOK, EndOf, TruthfulPass, PID.ToResourceID, OwnedBy, Scan, Measure, Aged, Kill, Faithful;
    var id := ServerID(s.stored[k]);
    var s1 := Advance(cfg, s, k, script);
    var entries := script[0].entries;
    RelistScan(cfg, s, k, id, entries);
    AgedOwned(cfg, s.servers, k);
    var r := Scan(k.kind, entries, ParamsOf(cfg, k));
    PassFinalizer(cfg, s, k);
    if s1.passes[k].call.DeletingOther? {
      OtherStage(cfg, s1, k, script[1..], s1.passes[k].call.id);
      KillMeasure(cfg, s1.servers, k, s1.passes[k].call.id);
      KillOneOther(cfg, s1.servers, k, id, s1.passes[k].call.id);
    } else {
      CloseStage(cfg, s1, k, script[1..]);
    }
  }

  lemma PassFinalizer(cfg: Config, s: State, k: Key)
    requires Removal(cfg, s, k) && !s.passes[k].call.Closing?
    ensures s.passes[k].mem.finalizer
  {
    hide CallOK, MachineOK;
    InvPass(cfg, s, k);
  }

  /** The scan and the aging of the listing together: what is not live has one listing less to show in. */
  lemma RelistScan(cfg: Config, s: State, k: Key, id: string, entries: seq<Entry>)
    requires ConfigOK(cfg) && Inv(cfg, s) && k in cfg.machines && TruthfulList(cfg, s.servers, k, entries)
    requires OneOther(cfg, s.servers, k, id) && !U.LiveOwned(cfg, s.servers, k, id)
    ensures var r := Scan(k.kind, entries, ParamsOf(cfg, k));
            var aged := Aged(cfg, s.servers, k);
            && Measure(cfg, aged, k) <= Measure(cfg, s.servers, k)
            && (r.Many? ==> Measure(cfg, aged, k) < Measure(cfg, s.servers, k))
            && (r.One? ==> r.entry.id != "" && (Measure(cfg, aged, k) < Measure(cfg, s.servers, k) || (r.entry.id != id && U.LiveOwned(cfg, aged, k, r.entry.id))))
  {
    hide OwnedBy, Scan, Measure, Aged, PassOK, MachineOK, Faithful, WellMade;
    TruthfulScan(cfg, s.servers, k, id, entries);
    AgedMeasure(cfg, s.servers, k);
    AgedOwned(cfg, s.servers, k);
  }

  /** Delete by ID, then list. */
  lemma DeleteStage(cfg: Config, s: State, k: Key, script: seq<Answer>)
    requires Removal(cfg, s, k) && s.passes[k].call == Deleting(ServerID(s.stored[k])) && TruthfulPass(cfg, s, k, script)
    requires OneOther(cfg, s.servers, k, ServerID(s.stored[k]))
    ensures Progress(cfg, EndOf(cfg, s, k, script), k, s.stored[k].providerID, Measure(cfg, Kill(cfg, s.servers, ServerID(s.stored[k])), k))
  {
    hide Inv, PassOK, EndOf, TruthfulPass, PID.ToResourceID, OwnedBy, Measure, OneOther, Progress;
    var id := ServerID(s.stored[k]);
    var s1 := Advance(cfg, s, k, script);
    KillOneOther(cfg, s.servers, k, id, id);
    RelistStage(cfg, s1, k, script[1..]);
  }

  /** Bare metal control planes leave the load balancer first. */
  lemma LeaveStage(cfg: Config, s: State, k: Key, script: seq<Answer>)
    requires Removal(cfg, s, k) && TruthfulPass(cfg, s, k, script)
    requires (s.passes[k].call.LbRemoveGetting? || s.passes[k].call.LbRemoveUpdating?) && s.passes[k].call.id == ServerID(s.stored[k])
    requires OneOther(cfg, s.servers, k, ServerID(s.stored[k]))
    ensures Progress(cfg, EndOf(cfg, s, k, script), k, s.stored[k].providerID, Measure(cfg, Kill(cfg, s.servers, ServerID(s.stored[k])), k))
    decreases if s.passes[k].call.LbRemoveGetting? then 1 else 0
  {
    hide Inv, PassOK, EndOf, TruthfulPass, PID.ToResourceID, OwnedBy, Measure, OneOther, Progress, LB.Without, Kill;
    var s1 := Advance(cfg, s, k, script);
    if s1.passes[k].call.Deleting? {
      DeleteStage(cfg, s1, k, script[1..]);
    } else {
      LeaveStage(cfg, s1, k, script[1..]);
    }
  }

  /** The state in which a pass for k has just begun. */
  ghost function Begun(cfg: Config, s: State, k: Key, f: Facts): State
    requires k in cfg.machines && k in s.stored
  {
    Apply(cfg, s, Begin(k, f))
  }

  /** The object of k waits for its next delete pass. */
  ghost predicate Waiting(cfg: Config, s: State, k: Key) {
    ConfigOK(cfg) && Inv(cfg, s) && k in cfg.machines && k in s.stored && s.stored[k].deleting && k !in s.passes
  }

  lemma BeginRemoval(cfg: Config, s: State, k: Key, f: Facts)
    requires Waiting(cfg, s, k)
    ensures var s1 := Begun(cfg, s, k, f);
            && Removal(cfg, s1, k) && s1.servers == s.servers && s1.stored == s.stored
            && var c, id := s1.passes[k].call, ServerID(s.stored[k]);
               if id == "" then c.Relisting? else c == Deleting(id) || (c.LbRemoveGetting? && c.id == id)
  {
    hide Inv, PID.ToResourceID;
    InvStep(cfg, s, Begin(k, f), Begun(cfg, s, k, f));
  }

  /**
   Every truthful delete pass drops the finalizer or brings the measure below what deleting by ID alone would leave.
   */
  lemma DeletePassProgress(cfg: Config, s: State, k: Key, f: Facts, script: seq<Answer>)
    requires Waiting(cfg, s, k) && OneOther(cfg, s.servers, k, ServerID(s.stored[k]))
    requires TruthfulPass(cfg, Begun(cfg, s, k, f), k, script)
    ensures var id := ServerID(s.stored[k]);
            && Progress(cfg, EndOf(cfg, Begun(cfg, s, k, f), k, script), k, s.stored[k].providerID, Measure(cfg, Kill(cfg, s.servers, id), k))
            && Measure(cfg, Kill(cfg, s.servers, id), k) <= Measure(cfg, s.servers, k)
  {
    hide Inv, EndOf, TruthfulPass, PID.ToResourceID, OwnedBy, Measure, OneOther, Progress, Begun, PassOK, WellMade;
    var id := ServerID(s.stored[k]);
    var s1 := Begun(cfg, s, k, f);
    BeginRemoval(cfg, s, k, f);
    KillMeasure(cfg, s.servers, k, id);
    if id == "" {
      NoEmptyID(cfg, s);
      RelistStage(cfg, s1, k, script);
    } else if s1.passes[k].call.Deleting? {
      DeleteStage(cfg, s1, k, script);
    } else {
      LeaveStage(cfg, s1, k, script);
    }
  }

  lemma NoEmptyID(cfg: Config, s: State)
    requires Inv(cfg, s)
    ensures "" !in s.servers
  {
    hide PassOK, MachineOK, WellMade;
  }

  // ---- over any number of passes

  datatype PassScript = PassScript(facts: Facts, answers: seq<Answer>)

  ghost predicate TruthfulPasses(cfg: Config, s: State, k: Key, passes: seq<PassScript>)
    requires k in cfg.machines
    decreases |passes|
  {
    k !in s.stored || passes == [] ||
    (TruthfulPass(cfg, Begun(cfg, s, k, passes[0].facts), k, passes[0].answers)
     && TruthfulPasses(cfg, EndOf(cfg, Begun(cfg, s, k, passes[0].facts), k, passes[0].answers), k, passes[1..]))
  }

  ghost function AfterPasses(cfg: Config, s: State, k: Key, passes: seq<PassScript>): State
    requires k in cfg.machines
    decreases |passes|
  {
    if k !in s.stored || passes == [] then s
    else AfterPasses(cfg, EndOf(cfg, Begun(cfg, s, k, passes[0].facts), k, passes[0].answers), k, passes[1..])
  }

  /** More truthful delete passes than the measure counts, and the object is gone. */
  lemma {:induction false} DeleteConverges(cfg: Config, s: State, k: Key, passes: seq<PassScript>)
    requires Waiting(cfg, s, k) && OneOther(cfg, s.servers, k, ServerID(s.stored[k]))
    requires TruthfulPasses(cfg, s, k, passes) && |passes| > Measure(cfg, s.servers, k)
    ensures k !in AfterPasses(cfg, s, k, passes).stored
    decreases |passes|
  {
    hide Inv, EndOf, TruthfulPass, PID.ToResourceID, OwnedBy, Measure, OneOther, Begun;
    DeletePassProgress(cfg, s, k, passes[0].facts, passes[0].answers);
    var s' := EndOf(cfg, Begun(cfg, s, k, passes[0].facts), k, passes[0].answers);
    if k in s'.stored {
      DeleteConverges(cfg, s', k, passes[1..]);
    }
  }

  // ---- without list lag, two passes

  ghost predicate LagInv(cfg: Config, servers: map<string, Server>) {
    forall id :: id in servers ==> servers[id].lag <= cfg.lag
  }

  lemma LagStep(cfg: Config, s: State, e: Event, s': State)
    requires Step(cfg, s, e, s') && LagInv(cfg, s.servers)
    ensures LagInv(cfg, s'.servers)
  {
    hide Next, StoredAfter, BuildTags, Start, QueriedBy;
  }

  lemma {:induction false} LagAlong(cfg: Config, states: seq<State>, events: seq<Event>, i: nat)
    requires IsRun(cfg, states, events) && i < |states|
    ensures LagInv(cfg, states[i].servers)
  {
    hide Apply, Enabled;
    if i > 0 {
      LagAlong(cfg, states, events, i - 1);
      assert events[i - 1] == events[i - 1];
      LagStep(cfg, states[i - 1], events[i - 1], states[i]);
    }
  }

  /** Once the named server is deleted, at most one unit is left. */
  lemma OneUnitLeft(cfg: Config, servers: map<string, Server>, k: Key, id: string)
    requires k in cfg.machines && cfg.lag == 0 && LagInv(cfg, servers) && OneOther(cfg, servers, k, id)
    ensures Measure(cfg, Kill(cfg, servers, id), k) <= 1
  {
    hide OwnedBy;
    KillOneOther(cfg, servers, k, id, id);
    var b := Kill(cfg, servers, id);
    var ids := OwnedIDs(cfg, b, k);
    forall x | x in ids && Weight(cfg, b, k, x) > 0 ensures U.LiveOwned(cfg, b, k, x) && x != id {}
    TotalOne(cfg, b, k, ids);
  }

  /** When deleted servers leave the listings at once, two truthful delete passes suffice. */
  lemma DeleteInTwoPasses(cfg: Config, s: State, k: Key, passes: seq<PassScript>)
    requires Waiting(cfg, s, k) && OneOther(cfg, s.servers, k, ServerID(s.stored[k])) && cfg.lag == 0 && LagInv(cfg, s.servers)
    requires TruthfulPasses(cfg, s, k, passes) && |passes| == 2
    ensures k !in AfterPasses(cfg, s, k, passes).stored
  {
    hide Inv, EndOf, TruthfulPass, PID.ToResourceID, OwnedBy, Measure, OneOther, Begun, LagInv, Kill;
    OneUnitLeft(cfg, s.servers, k, ServerID(s.stored[k]));
    DeletePassProgress(cfg, s, k, passes[0].facts, passes[0].answers);
    var s' := EndOf(cfg, Begun(cfg, s, k, passes[0].facts), k, passes[0].answers);
    if k in s'.stored {
      DeleteConverges(cfg, s', k, passes[1..]);
    }
  }

  // ---- with two live servers besides the named one, never

  /** Two live servers of k, neither of which its providerID names. */
  predicate TwoOthers(cfg: Config, servers: map<string, Server>, k: Key, id: string, x: string, y: string)
    requires k in cfg.machines
  {
    U.LiveOwned(cfg, servers, k, x) && U.LiveOwned(cfg, servers, k, y) && x != y && x != id && y != id
  }

  /** A listing that shows two servers of k leaves the search without an answer. */
  lemma ScanTwo(cfg: Config, servers: map<string, Server>, k: Key, entries: seq<Entry>, id: string, x: string, y: string)
    requires ConfigOK(cfg) && k in cfg.machines && ServersOK(cfg, servers) && Faithful(cfg, servers, k, entries)
    requires TwoOthers(cfg, servers, k, id, x, y)
    ensures Scan(k.kind, entries, ParamsOf(cfg, k)).Many?
  {
    hide OwnedBy, QueriedBy, WellMade, Owned;
    OwnedIsRightful(cfg, k, servers[x]);
    OwnedIsRightful(cfg, k, servers[y]);
    ListedOwned(cfg, servers, k, entries, x);
    ListedOwned(cfg, servers, k, entries, y);
  }

  lemma KillTwoOthers(cfg: Config, servers: map<string, Server>, k: Key, id: string, x: string, y: string)
    requires k in cfg.machines && TwoOthers(cfg, servers, k, id, x, y)
    ensures TwoOthers(cfg, Kill(cfg, servers, id), k, id, x, y)
  {
  }

  /** From any point of the pass before the listing's answer. */
  lemma {:induction false} StuckStages(cfg: Config, s: State, k: Key, script: seq<Answer>, x: string, y: string)
    requires Removal(cfg, s, k) && TruthfulPass(cfg, s, k, script)
    requires TwoOthers(cfg, s.servers, k, ServerID(s.stored[k]), x, y)
    requires !s.passes[k].call.DeletingOther? && s.passes[k].mem.finalizer
    ensures var s' := EndOf(cfg, s, k, script);
            && k !in s'.passes && Inv(cfg, s') && StillThere(s', k, s.stored[k].providerID)
            && TwoOthers(cfg, s'.servers, k, ServerID(s.stored[k]), x, y)
    decreases |script|
  {
    hide Inv, MachineOK, EndOf, TruthfulPass, PID.ToResourceID, U.LiveOwned, Scan, Aged, Kill, LB.Without, OneOther;
    var id := ServerID(s.stored[k]);
    if s.passes[k].call.Closing? {
      CloseStage(cfg, s, k, script);
    } else {
      var s1 := Advance(cfg, s, k, script);
      if s.passes[k].call.Relisting? {
        ServersOf(cfg, s);
        ScanTwo(cfg, s.servers, k, script[0].entries, id, x, y);
        AgedOwned(cfg, s.servers, k);
      }
      KillTwoOthers(cfg, s.servers, k, id, x, y);
      StuckStages(cfg, s1, k, script[1..], x, y);
    }
  }

  lemma ServersOf(cfg: Config, s: State)
    requires Inv(cfg, s)
    ensures ServersOK(cfg, s.servers)
  {
    hide PassOK, MachineOK, WellMade;
  }

  /** A truthful delete pass leaves everything as it was: the object, its finalizer and both servers. */
  lemma StuckPass(cfg: Config, s: State, k: Key, f: Facts, script: seq<Answer>, x: string, y: string)
    requires Waiting(cfg, s, k) && TwoOthers(cfg, s.servers, k, ServerID(s.stored[k]), x, y)
    requires TruthfulPass(cfg, Begun(cfg, s, k, f), k, script)
    ensures var s' := EndOf(cfg, Begun(cfg, s, k, f), k, script);
            Waiting(cfg, s', k) && s'.stored[k].providerID == s.stored[k].providerID && TwoOthers(cfg, s'.servers, k, ServerID(s'.stored[k]), x, y)
  {
    hide Inv, EndOf, TruthfulPass, PID.ToResourceID, U.LiveOwned, Begun;
    BeginRemoval(cfg, s, k, f);
    var s1 := Begun(cfg, s, k, f);
    PassFinalizer(cfg, s1, k);
    StuckStages(cfg, s1, k, script, x, y);
  }

  /** No number of truthful delete passes removes the object. */
  lemma {:induction false} DeleteStuckForever(cfg: Config, s: State, k: Key, passes: seq<PassScript>, x: string, y: string)
    requires Waiting(cfg, s, k) && TwoOthers(cfg, s.servers, k, ServerID(s.stored[k]), x, y) && TruthfulPasses(cfg, s, k, passes)
    ensures k in AfterPasses(cfg, s, k, passes).stored
    decreases |passes|
  {
    hide Inv, EndOf, TruthfulPass, PID.ToResourceID, U.LiveOwned, Begun, TwoOthers;
    if passes != [] {
      StuckPass(cfg, s, k, passes[0].facts, passes[0].answers, x, y);
      var s' := EndOf(cfg, Begun(cfg, s, k, passes[0].facts), k, passes[0].answers);
      DeleteStuckForever(cfg, s', k, passes[1..], x, y);
    }
  }

  // ---- truthful passes exist, so the condition is exact

  /** A truthful listing of the live servers among ids. */
  lemma {:induction false} ListLive(cfg: Config, servers: map<string, Server>, k: Key, ids: set<string>) returns (l: seq<Entry>)
    requires k in cfg.machines && ids <= servers.Keys
    ensures forall i :: 0 <= i < |l| ==> l[i].id in ids && ShowsServer(servers, k.kind, l[i]) && servers[l[i].id].live
    ensures DistinctIDs(l)
    ensures forall id :: id in ids && servers[id].live && QueriedBy(cfg, k, servers[id]) ==> ListedIn(l, id)
  {
    hide Query;
    l := [];
    if ids != {} {
      var x := Pick(ids);
      var rest := ListLive(cfg, servers, k, ids - {x});
      l := if servers[x].live && QueriedBy(cfg, k, servers[x]) then rest + [EntryOf(x, servers[x], "active")] else rest;
      forall id | id in ids && servers[id].live && QueriedBy(cfg, k, servers[id]) ensures ListedIn(l, id) {
        if id == x {
          assert l[|rest|].id == x;
        } else {
          assert id in ids - {x};
          var i :| 0 <= i < |rest| && rest[i].id == id;
          assert l[i].id == id;
        }
      }
    }
  }

  lemma TruthfulAnswer(cfg: Config, s: State, k: Key) returns (a: Answer)
    requires Removal(cfg, s, k)
    ensures Truthful(cfg, s, k, s.passes[k].call, a)
  {
    hide Inv, MachineOK, CallOK, QueriedBy;
    InvPass(cfg, s, k);
    match s.passes[k].call
    case Relisting =>
      var l := ListLive(cfg, s.servers, k, s.servers.Keys);
      a := Listed(l);
    case Deleting(id) => a := if id in s.servers && s.servers[id].live then Done else NotFound;
    case DeletingOther(id) => a := if id in s.servers && s.servers[id].live then Done else NotFound;
    case LbRemoveGetting(_, _) => a := NotFound;
    case _ => a := Done;
  }

  ghost function Rank(c: Call): nat {
    match c
    case LbRemoveGetting(_, _) => 5
    case LbRemoveUpdating(_, _) => 4
    case Deleting(_) => 3
    case Relisting => 2
    case DeletingOther(_) => 1
    case _ => 0
  }

  lemma StillRemoving(cfg: Config, s: State, k: Key, a: Answer)
    requires Removal(cfg, s, k) && Truthful(cfg, s, k, s.passes[k].call, a) && !s.passes[k].call.Closing?
    ensures var s1 := Deliver(cfg, s, k, a); Removal(cfg, s1, k) && Rank(s1.passes[k].call) < Rank(s.passes[k].call)
  {
    hide Inv, MachineOK, PID.ToResourceID, Scan, ServersAfter, LB.Without, TruthfulList, Faithful;
    InvPass(cfg, s, k);
    InvStep(cfg, s, Answered(k, a), Deliver(cfg, s, k, a));
  }

  lemma {:induction false} TruthfulPassExists(cfg: Config, s: State, k: Key) returns (script: seq<Answer>)
    requires Removal(cfg, s, k)
    ensures TruthfulPass(cfg, s, k, script)
    decreases Rank(s.passes[k].call)
  {
    hide Inv, Truthful;
    var a := TruthfulAnswer(cfg, s, k);
    script := [a];
    if !s.passes[k].call.Closing? {
      StillRemoving(cfg, s, k, a);
      var rest := TruthfulPassExists(cfg, Deliver(cfg, s, k, a), k);
      script := [a] + rest;
      assert script[1..] == rest;
    }
  }

  /** From a stuck state there are truthful passes of any number. */
  lemma {:induction false} StuckPassesExist(cfg: Config, s: State, k: Key, n: nat, x: string, y: string) returns (passes: seq<PassScript>)
    requires Waiting(cfg, s, k) && TwoOthers(cfg, s.servers, k, ServerID(s.stored[k]), x, y)
    ensures |passes| == n && TruthfulPasses(cfg, s, k, passes)
    decreases n
  {
    hide Inv, EndOf, TruthfulPass, PID.ToResourceID, U.LiveOwned, Begun, TwoOthers;
    passes := [];
    if n > 0 {
      BeginRemoval(cfg, s, k, U.EAGER);
      var script := TruthfulPassExists(cfg, Begun(cfg, s, k, U.EAGER), k);
      StuckPass(cfg, s, k, U.EAGER, script, x, y);
      var rest := StuckPassesExist(cfg, EndOf(cfg, Begun(cfg, s, k, U.EAGER), k, script), k, n - 1, x, y);
      passes := [PassScript(U.EAGER, script)] + rest;
      assert passes[1..] == rest;
    }
  }

  /** After n truthful delete passes, whatever they read and are told, the object is gone. */
  ghost predicate GoneAfter(cfg: Config, s: State, k: Key, n: nat)
    requires k in cfg.machines
  {
    forall passes :: TruthfulPasses(cfg, s, k, passes) && |passes| == n ==> k !in AfterPasses(cfg, s, k, passes).stored
  }

  /** Deletion is sure to end exactly when at most one live server is owned besides the one the providerID names. */
  lemma DeleteConvergesIff(cfg: Config, s: State, k: Key)
    requires Waiting(cfg, s, k)
    ensures OneOther(cfg, s.servers, k, ServerID(s.stored[k])) <==> exists n: nat :: GoneAfter(cfg, s, k, n)
  {
    hide Inv, PID.ToResourceID, U.LiveOwned, TruthfulPasses, AfterPasses, Measure;
    var id := ServerID(s.stored[k]);
    if OneOther(cfg, s.servers, k, id) {
      var n := Measure(cfg, s.servers, k) + 1;
      forall passes | TruthfulPasses(cfg, s, k, passes) && |passes| == n ensures k !in AfterPasses(cfg, s, k, passes).stored {
        DeleteConverges(cfg, s, k, passes);
      }
      assert GoneAfter(cfg, s, k, n);
    } else {
      var x, y :| U.LiveOwned(cfg, s.servers, k, x) && U.LiveOwned(cfg, s.servers, k, y) && x != id && y != id && x != y;
      forall n: nat ensures !GoneAfter(cfg, s, k, n) {
        var passes := StuckPassesExist(cfg, s, k, n, x, y);
        DeleteStuckForever(cfg, s, k, passes, x, y);
      }
    }
  }
}

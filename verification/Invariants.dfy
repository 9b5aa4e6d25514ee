/** What every step of the protocol keeps, whatever the machines and whatever the cloud answers. */
module Invariants {
  import opened Options
  import opened Search
  import opened Tags
  import opened Machines
  import opened Protocol
  import opened Strings
  import PID = ProviderID

  // ---- servers only die, and only creates make them

  predicate SameBody(a: Server, b: Server) {
    a.kind == b.kind && a.labelText == b.labelText && a.hostname == b.hostname && a.tags == b.tags && a.maker == b.maker
  }

  ghost predicate Evolves(old_: map<string, Server>, new_: map<string, Server>) {
    forall id :: id in old_ ==> id in new_ && SameBody(old_[id], new_[id]) && (new_[id].live ==> old_[id].live)
  }

  /** At most one server of s' is not in s, and then it was just made by the pass of one machine. */
  ghost predicate MadeIn(cfg: Config, s: State, e: Event, s': State) {
    && (forall id1, id2 :: id1 in s'.servers && id1 !in s.servers && id2 in s'.servers && id2 !in s.servers ==> id1 == id2)
    && forall id :: id in s'.servers && id !in s.servers ==>
      && e.Answered? && e.k in cfg.machines && e.k in s.passes && s.passes[e.k].call.Creating?
      && FreshID(s.servers, id)
      && (s'.servers[id] == NewServer(cfg, e.k, true)
          || (cfg.untagged && e.k.kind == VM && s'.servers[id] == NewServer(cfg, e.k, false)))
  }

  lemma KillEvolves(cfg: Config, servers: map<string, Server>, id: string)
    ensures Evolves(servers, Kill(cfg, servers, id)) && Kill(cfg, servers, id).Keys == servers.Keys
  {
  }

  lemma AgedEvolves(cfg: Config, servers: map<string, Server>, k: Key)
    requires k in cfg.machines
    ensures Evolves(servers, Aged(cfg, servers, k)) && Aged(cfg, servers, k).Keys == servers.Keys
    ensures forall id :: id in servers ==> Aged(cfg, servers, k)[id].live == servers[id].live
  {
  }

  lemma CallEvolves(cfg: Config, servers: map<string, Server>, k: Key, call: Call, a: Answer)
    requires k in cfg.machines && !call.Creating?
    ensures Evolves(servers, ServersAfter(cfg, servers, k, call, a))
    ensures ServersAfter(cfg, servers, k, call, a).Keys == servers.Keys
  {
    match call
    case Finding => AgedEvolves(cfg, servers, k);
    case Relisting => AgedEvolves(cfg, servers, k);
    case Deleting(id) => KillEvolves(cfg, servers, id);
    case DeletingOther(id) => KillEvolves(cfg, servers, id);
    case _ =>
  }

  lemma ServersEvolve(cfg: Config, s: State, e: Event, s': State)
    requires Step(cfg, s, e, s')
    ensures Evolves(s.servers, s'.servers)
    ensures MadeIn(cfg, s, e, s')
  {
    hide Next, StoredAfter, BuildTags;
    match e
    case Answered(k, a) =>
      if !s.passes[k].call.Creating? { CallEvolves(cfg, s.servers, k, s.passes[k].call, a); }
    case Vanish(id) => KillEvolves(cfg, s.servers, id);
    case _ =>
  }

  // ---- ownership is exactly: same kind, same name, and the same cluster unless the tags were lost

  predicate WellMade(cfg: Config, sv: Server) {
    && sv.maker in cfg.machines
    && (SameBody(sv, NewServer(cfg, sv.maker, true))
        || (cfg.untagged && sv.maker.kind == VM && SameBody(sv, NewServer(cfg, sv.maker, false))))
  }

  /** The machine k may touch the server: it was made for a machine of that name, and of that cluster if it is tagged. */
  predicate Rightful(cfg: Config, k: Key, sv: Server)
    requires k in cfg.machines && sv.maker in cfg.machines
  {
    && sv.maker.kind == k.kind && sv.maker.name == k.name
    && (sv.tags != [] ==> cfg.machines[sv.maker].clusterUID == cfg.machines[k].clusterUID)
  }

  lemma OwnedIsRightful(cfg: Config, k: Key, sv: Server)
    requires ConfigOK(cfg) && k in cfg.machines && WellMade(cfg, sv)
    ensures OwnedBy(cfg, k, sv) <==> Rightful(cfg, k, sv)
    ensures OwnedBy(cfg, k, sv) ==> QueriedBy(cfg, k, sv)
    ensures sv.maker == k ==> OwnedBy(cfg, k, sv)
  {
    var extra := if sv.kind == BareMetal then cfg.machines[sv.maker].additionalTags else [];
    OwnershipExact(ParamsOf(cfg, sv.maker), extra, ParamsOf(cfg, k));
    assert Harmless([]);
  }

  /** What a server that is made for k says of it: its role and the name of its cluster. */
  lemma CreatedTags(cfg: Config, k: Key)
    requires k in cfg.machines
    ensures var tags := NewServer(cfg, k, true).tags;
            && |tags| >= 4 && tags[..4] == BuildTags(ParamsOf(cfg, k))
            && ("capvultr:role:control-plane" in tags[..4] <==> cfg.machines[k].controlPlane)
            && ("capvultr:role:worker" in tags[..4] <==> !cfg.machines[k].controlPlane)
            && (forall name: string :: "capvultr:cluster:" + name in tags[..4] <==> name == cfg.machines[k].clusterName)
            && tags[4..] == if k.kind == BareMetal then cfg.machines[k].additionalTags else []
  {
    var p := ParamsOf(cfg, k);
    RoleAndClusterExact(p, "control-plane", "");
    RoleAndClusterExact(p, "worker", "");
    assert "capvultr:role:control-plane" == "capvultr:role:" + "control-plane" && "capvultr:role:worker" == "capvultr:role:" + "worker";
    forall name: string ensures "capvultr:cluster:" + name in BuildTags(p) <==> name == p.clusterName {
      RoleAndClusterExact(p, "", name);
    }
  }

  // ---- the invariant

  /** The object's providerID, if it parses, names a server that its machine owns. */
  predicate ClaimOK(cfg: Config, servers: map<string, Server>, k: Key, id: string)
    requires k in cfg.machines
  {
    id in servers && OwnedBy(cfg, k, servers[id])
  }

  predicate MachineOK(cfg: Config, servers: map<string, Server>, k: Key, m: Machine)
    requires k in cfg.machines
  {
    ServerID(m) != "" ==> ClaimOK(cfg, servers, k, ServerID(m))
  }

  predicate DeleteCall(c: Call) {
    c.LbRemoveGetting? || c.LbRemoveUpdating? || c.Deleting? || c.Relisting? || c.DeletingOther?
  }

  /** The call works on the server that the pass saw and that the object names. */
  predicate OnSight(p: Pass, id: string) {
    p.sight.Saw? && p.sight.id == id == ServerID(p.mem)
  }

  predicate CallOK(cfg: Config, servers: map<string, Server>, k: Key, p: Pass)
    requires k in cfg.machines
  {
    match p.call
    case Getting(id) => id == ServerID(p.mem) != ""
    case Finding => ServerID(p.mem) == ""
    case Creating => ServerID(p.mem) == ""
    case Patching => k.kind == VM && p.sight.Saw? && OnSight(p, p.sight.id)
    case VpcListing(id) => k.kind == BareMetal && OnSight(p, id) && p.sight.status == "active"
    case VpcAttaching(id) => k.kind == BareMetal && OnSight(p, id) && p.sight.status == "active"
    case LbGetting(_, id) => OnSight(p, id) && (k.kind == BareMetal ==> p.sight.status == "active")
    case LbUpdating(_, id) => OnSight(p, id) && (k.kind == BareMetal ==> p.sight.status == "active")
    case LbRemoveGetting(_, id) => k.kind == BareMetal && id == ServerID(p.mem) != ""
    case LbRemoveUpdating(_, id) => k.kind == BareMetal && id == ServerID(p.mem) != ""
    case Deleting(id) => id == ServerID(p.mem) != ""
    case DeletingOther(id) => ClaimOK(cfg, servers, k, id) && id != ServerID(p.mem)
    case Relisting => true
    case Closing => true
  }

  predicate PassOK(cfg: Config, servers: map<string, Server>, k: Key, p: Pass)
    requires k in cfg.machines
  {
    && MachineOK(cfg, servers, k, p.mem)
    && CallOK(cfg, servers, k, p)
    && (!p.call.Closing? ==> (DeleteCall(p.call) <==> p.mem.deleting) && p.mem.finalizer)
    && (p.mem.deleting ==> p.mem.cond == Ready(False, Removing) && p.sight.NoServer?)
    && (p.sight.Saw? ==> ClaimOK(cfg, servers, k, p.sight.id) && ServerID(p.mem) == p.sight.id)
  }

  ghost predicate ServersOK(cfg: Config, servers: map<string, Server>) {
    forall id :: id in servers ==> id != "" && !Contains(id, PID.SEPARATOR) && WellMade(cfg, servers[id])
  }

  ghost predicate Inv(cfg: Config, s: State) {
    && ServersOK(cfg, s.servers)
    && (forall k :: k in s.stored ==> k in cfg.machines)
    && (forall k :: k in s.stored ==> MachineOK(cfg, s.servers, k, s.stored[k]) && (s.stored[k].deleting ==> s.stored[k].finalizer))
    && (forall k :: k in s.passes ==> k in cfg.machines)
    && (forall k :: k in s.passes ==> PassOK(cfg, s.servers, k, s.passes[k]))
  }

  // ---- preservation

  lemma ClaimFrame(cfg: Config, servers: map<string, Server>, servers': map<string, Server>, k: Key, id: string)
    requires k in cfg.machines && Evolves(servers, servers') && ClaimOK(cfg, servers, k, id)
    ensures ClaimOK(cfg, servers', k, id)
  {
  }

  lemma PassFrame(cfg: Config, servers: map<string, Server>, servers': map<string, Server>, k: Key, p: Pass)
    requires k in cfg.machines && Evolves(servers, servers') && PassOK(cfg, servers, k, p)
    ensures PassOK(cfg, servers', k, p)
  {
    if ServerID(p.mem) != "" { ClaimFrame(cfg, servers, servers', k, ServerID(p.mem)); }
    if p.call.DeletingOther? { ClaimFrame(cfg, servers, servers', k, p.call.id); }
    if p.sight.Saw? { ClaimFrame(cfg, servers, servers', k, p.sight.id); }
  }

  lemma StartOK(cfg: Config, servers: map<string, Server>, k: Key, m: Machine, f: Facts)
    requires k in cfg.machines && MachineOK(cfg, servers, k, m) && (m.deleting ==> m.finalizer)
    ensures PassOK(cfg, servers, k, Start(k, cfg.machines[k], m, f))
  {
    hide PID.ToResourceID, PID.FromResourceID, Owned, Query, Scan;
  }

  lemma FinishOK(cfg: Config, servers: map<string, Server>, k: Key, p: Pass)
    requires k in cfg.machines && MachineOK(cfg, servers, k, p.mem) && p.mem.finalizer && !p.mem.deleting
    requires p.sight.Saw? && ClaimOK(cfg, servers, k, p.sight.id) && OnSight(p, p.sight.id)
    ensures PassOK(cfg, servers, k, Finish(k.kind, p, p.sight.status))
  {
    hide PID.ToResourceID, PID.FromResourceID, OwnedBy;
  }

  lemma JoinOK(cfg: Config, servers: map<string, Server>, k: Key, p: Pass)
    requires k in cfg.machines && MachineOK(cfg, servers, k, p.mem) && p.mem.finalizer && !p.mem.deleting
    requires p.sight.Saw? && ClaimOK(cfg, servers, k, p.sight.id) && OnSight(p, p.sight.id)
    requires k.kind == BareMetal ==> p.sight.status == "active"
    ensures PassOK(cfg, servers, k, Join(k.kind, cfg.machines[k], p, p.sight.id, p.sight.status))
  {
    hide PID.ToResourceID, PID.FromResourceID, Owned, Query, Scan;
  }

  /** The pass takes up a server of its own: adopted, created, or read back under the ID it asked for. */
  lemma HaveOK(cfg: Config, servers: map<string, Server>, k: Key, p: Pass, id: string, status: string)
    requires k in cfg.machines && ServersOK(cfg, servers) && ClaimOK(cfg, servers, k, id)
    requires MachineOK(cfg, servers, k, p.mem) && p.mem.finalizer && !p.mem.deleting
    ensures PassOK(cfg, servers, k, Have(k.kind, cfg.machines[k], p, id, status))
  {
    hide PID.ToResourceID, PID.FromResourceID, Owned, Query, Scan;
    PID.RoundTrip(id);
    var p1 := p.(sight := Saw(id, status));
    var p2 := p1.(mem := p1.mem.(providerID := PID.FromResourceID(id)));
    if k.kind == VM {
      if ServerID(p.mem) == id { JoinOK(cfg, servers, k, p1); }
    } else if status == "active" {
      JoinOK(cfg, servers, k, p2);
    }
  }

  /** A scan that answers with one entry names a server that the machine owns. */
  lemma ScanOne(cfg: Config, servers: map<string, Server>, k: Key, entries: seq<Entry>)
    requires k in cfg.machines && Faithful(cfg, servers, k, entries)
    ensures var r := Scan(k.kind, entries, ParamsOf(cfg, k));
            r.One? ==> r.entry in entries && ClaimOK(cfg, servers, k, r.entry.id)
  {
    var owned := OwnedEntries(k.kind, entries, ParamsOf(cfg, k));
    if |owned| == 1 {
      assert owned[0] in entries && Owned(k.kind, owned[0], ParamsOf(cfg, k));
      assert ShowsServer(servers, k.kind, owned[0]);
    }
  }

  /** A listed server that the machine owns is among the owned entries. */
  lemma ListedOwned(cfg: Config, servers: map<string, Server>, k: Key, entries: seq<Entry>, id: string)
    requires k in cfg.machines && Faithful(cfg, servers, k, entries) && ListedIn(entries, id)
    requires id in servers && OwnedBy(cfg, k, servers[id])
    ensures ListedIn(OwnedEntries(k.kind, entries, ParamsOf(cfg, k)), id)
  {
    var i :| 0 <= i < |entries| && entries[i].id == id;
    assert ShowsServer(servers, k.kind, entries[i]);
    assert entries[i] in OwnedEntries(k.kind, entries, ParamsOf(cfg, k));
  }

  /** A scan that answers with nothing means that no server owned by the machine is live. */
  lemma ScanNothing(cfg: Config, servers: map<string, Server>, k: Key, entries: seq<Entry>)
    requires ConfigOK(cfg) && k in cfg.machines && ServersOK(cfg, servers) && Faithful(cfg, servers, k, entries)
    requires Scan(k.kind, entries, ParamsOf(cfg, k)).Nothing?
    ensures forall id :: id in servers && servers[id].live ==> !OwnedBy(cfg, k, servers[id])
  {
    forall id | id in servers && servers[id].live && OwnedBy(cfg, k, servers[id]) ensures false {
      OwnedIsRightful(cfg, k, servers[id]);
      ListedOwned(cfg, servers, k, entries, id);
    }
  }

  /** The answer to a listing, where the scan ran over `servers` and the world is now `servers'`. */
  lemma AfterFindOK(cfg: Config, servers: map<string, Server>, servers': map<string, Server>, k: Key, p: Pass, a: Answer)
    requires k in cfg.machines && ServersOK(cfg, servers') && Evolves(servers, servers') && PassOK(cfg, servers', k, p)
    requires p.call.Finding? && (a.Listed? ==> Faithful(cfg, servers, k, a.entries))
    ensures PassOK(cfg, servers', k, AfterFind(k, cfg.machines[k], p, a))
  {
    hide PID.ToResourceID, PID.FromResourceID, OwnedBy, Scan, Have, WellMade;
    if a.Listed? {
      ScanOne(cfg, servers, k, a.entries);
      var r := Scan(k.kind, a.entries, ParamsOf(cfg, k));
      if r.One? {
        ClaimFrame(cfg, servers, servers', k, r.entry.id);
        HaveOK(cfg, servers', k, p, r.entry.id, r.entry.status);
      }
    }
  }

  lemma AfterRelistOK(cfg: Config, servers: map<string, Server>, servers': map<string, Server>, k: Key, p: Pass, a: Answer)
    requires k in cfg.machines && Evolves(servers, servers') && PassOK(cfg, servers', k, p)
    requires p.call.Relisting? && (a.Listed? ==> Faithful(cfg, servers, k, a.entries))
    ensures PassOK(cfg, servers', k, AfterRelist(k, cfg.machines[k], p, a))
  {
    hide PID.ToResourceID, PID.FromResourceID, OwnedBy, Scan, WellMade;
    if a.Listed? {
      ScanOne(cfg, servers, k, a.entries);
      var r := Scan(k.kind, a.entries, ParamsOf(cfg, k));
      if r.One? { ClaimFrame(cfg, servers, servers', k, r.entry.id); }
    }
  }

  lemma AfterGetOK(cfg: Config, servers: map<string, Server>, k: Key, p: Pass, a: Answer)
    requires k in cfg.machines && ServersOK(cfg, servers) && PassOK(cfg, servers, k, p)
    requires p.call.Getting? && (a.Found? ==> a.id == p.call.id)
    ensures PassOK(cfg, servers, k, AfterGet(k.kind, cfg.machines[k], p, a))
  {
    hide PID.ToResourceID, PID.FromResourceID, OwnedBy, Have, WellMade;
    if a.Found? { HaveOK(cfg, servers, k, p, a.id, a.status); }
  }

  lemma AfterCreateOK(cfg: Config, servers: map<string, Server>, k: Key, p: Pass, a: Answer)
    requires k in cfg.machines && ServersOK(cfg, servers) && PassOK(cfg, servers, k, p)
    requires p.call.Creating? && (a.Created? ==> ClaimOK(cfg, servers, k, a.id))
    ensures PassOK(cfg, servers, k, AfterCreate(k.kind, cfg.machines[k], p, a))
  {
    hide PID.ToResourceID, PID.FromResourceID, OwnedBy, Have, WellMade;
    if a.Created? { HaveOK(cfg, servers, k, p, a.id, a.status); }
  }

  /** The patch and the VPC calls. */
  lemma NextPlainOK(cfg: Config, servers: map<string, Server>, k: Key, p: Pass, a: Answer)
    requires k in cfg.machines && PassOK(cfg, servers, k, p) && (p.call.Patching? || p.call.VpcListing? || p.call.VpcAttaching?)
    ensures var n := Next(k, cfg.machines[k], p, a); n.Some? ==> PassOK(cfg, servers, k, n.value)
  {
    hide PID.ToResourceID, PID.FromResourceID, OwnedBy, Join, Finish, AfterGet, AfterFind, AfterCreate, AfterRelist, AfterLbRemoveGet, AfterLbGet, AfterLbUpdate;
    if p.sight.Saw? && !p.call.VpcAttaching? {
      JoinOK(cfg, servers, k, p.(log := p.log + [Exchange(p.call, a)]));
    }
  }

  /** The load balancer calls of a normal pass. */
  lemma NextLbOK(cfg: Config, servers: map<string, Server>, k: Key, p: Pass, a: Answer)
    requires k in cfg.machines && PassOK(cfg, servers, k, p) && (p.call.LbGetting? || p.call.LbUpdating?)
    ensures var n := Next(k, cfg.machines[k], p, a); n.Some? ==> PassOK(cfg, servers, k, n.value)
  {
    hide PID.ToResourceID, PID.FromResourceID, OwnedBy, Join, Finish, AfterGet, AfterFind, AfterCreate, AfterRelist, AfterLbRemoveGet, AfterVpcList, AfterVpcAttach;
    FinishOK(cfg, servers, k, p.(log := p.log + [Exchange(p.call, a)]));
  }

  /** The calls of a delete pass but its listing. */
  lemma NextDeleteOK(cfg: Config, servers: map<string, Server>, k: Key, p: Pass, a: Answer)
    requires k in cfg.machines && PassOK(cfg, servers, k, p) && DeleteCall(p.call) && !p.call.Relisting?
    ensures var n := Next(k, cfg.machines[k], p, a); n.Some? ==> PassOK(cfg, servers, k, n.value)
  {
    hide PID.ToResourceID, PID.FromResourceID, OwnedBy, Join, AfterGet, AfterFind, AfterCreate, AfterRelist, AfterVpcList, AfterVpcAttach,
         AfterLbGet, AfterLbUpdate;
  }

  /** The Close is the last call of a pass. */
  lemma ClosingIsLast(k: Key, spec: Spec, p: Pass, a: Answer)
    requires p.call.Closing?
    ensures Next(k, spec, p, a) == None
  {
  }

  lemma NextOK(cfg: Config, s: State, k: Key, a: Answer)
    requires ConfigOK(cfg) && Inv(cfg, s) && Enabled(cfg, s, Answered(k, a))
    ensures var s' := Deliver(cfg, s, k, a); k in s'.passes ==> PassOK(cfg, s'.servers, k, s'.passes[k])
  {
    hide PID.ToResourceID, PID.FromResourceID, OwnedBy, AfterGet, AfterFind, AfterCreate, AfterRelist, AfterLbGet, AfterLbUpdate, AfterLbRemoveGet,
         AfterVpcList, AfterVpcAttach, Join, WellMade, CallOK;
    var s' := Deliver(cfg, s, k, a);
    var p := s.passes[k];
    ServersEvolve(cfg, s, Answered(k, a), s');
    ServersKeepOK(cfg, s, Answered(k, a), s');
    PassFrame(cfg, s.servers, s'.servers, k, p);
    var p1 := p.(log := p.log + [Exchange(p.call, a)]);
    LogIsFree(cfg, s'.servers, k, p, p1);
    match p.call
    case Getting(_) => AfterGetOK(cfg, s'.servers, k, p1, a);
    case Finding => AfterFindOK(cfg, s.servers, s'.servers, k, p1, a);
    case Relisting => AfterRelistOK(cfg, s.servers, s'.servers, k, p1, a);
    case Creating =>
      if a.Created? { OwnedIsRightful(cfg, k, NewServer(cfg, k, true)); }
      AfterCreateOK(cfg, s'.servers, k, p1, a);
    case Closing => ClosingIsLast(k, cfg.machines[k], p, a);
    case LbGetting(_, _) => NextLbOK(cfg, s'.servers, k, p, a);
    case LbUpdating(_, _) => NextLbOK(cfg, s'.servers, k, p, a);
    case _ => if DeleteCall(p.call) { NextDeleteOK(cfg, s'.servers, k, p, a); } else { NextPlainOK(cfg, s'.servers, k, p, a); }
  }

  lemma LogIsFree(cfg: Config, servers: map<string, Server>, k: Key, p: Pass, q: Pass)
    requires k in cfg.machines && PassOK(cfg, servers, k, p) && q == p.(log := q.log)
    ensures PassOK(cfg, servers, k, q)
  {
  }

  lemma ServersKeepOK(cfg: Config, s: State, e: Event, s': State)
    requires ConfigOK(cfg) && Step(cfg, s, e, s') && ServersOK(cfg, s.servers)
    ensures ServersOK(cfg, s'.servers)
  {
    ServersEvolve(cfg, s, e, s');
    forall id | id in s'.servers ensures id != "" && !Contains(id, PID.SEPARATOR) && WellMade(cfg, s'.servers[id]) {
      if id in s.servers { assert WellMade(cfg, s.servers[id]); }
    }
  }

  lemma PassesKeepOK(cfg: Config, s: State, e: Event, s': State, k: Key)
    requires ConfigOK(cfg) && Inv(cfg, s) && Step(cfg, s, e, s') && Evolves(s.servers, s'.servers) && k in s'.passes
    ensures k in cfg.machines && PassOK(cfg, s'.servers, k, s'.passes[k])
  {
    hide PassOK, Start, Next, ServersAfter, StoredAfter;
    if e.Begin? && e.k == k {
      StartOK(cfg, s.servers, k, s.stored[k], e.facts);
    } else if e.Answered? && e.k == k {
      NextOK(cfg, s, k, e.a);
    } else {
      PassFrame(cfg, s.servers, s'.servers, k, s.passes[k]);
    }
  }

  lemma StoredKeepOK(cfg: Config, s: State, e: Event, s': State, k: Key)
    requires ConfigOK(cfg) && Inv(cfg, s) && Step(cfg, s, e, s') && Evolves(s.servers, s'.servers) && k in s'.stored
    ensures k in cfg.machines && MachineOK(cfg, s'.servers, k, s'.stored[k])
    ensures s'.stored[k].deleting ==> s'.stored[k].finalizer
  {
    hide PID.ToResourceID, PID.FromResourceID, Owned, Start, Next, ServersAfter, CallOK;
    if e.Answered? && e.k == k && ServerID(s.passes[k].mem) != "" {
      ClaimFrame(cfg, s.servers, s'.servers, k, ServerID(s.passes[k].mem));
    }
    if k in s.stored && ServerID(s.stored[k]) != "" {
      ClaimFrame(cfg, s.servers, s'.servers, k, ServerID(s.stored[k]));
    }
    if e.UserCreate? && e.k == k { NoID(); }
  }

  lemma NoID()
    ensures ServerID(FRESH) == ""
  {
  }

  lemma InvStep(cfg: Config, s: State, e: Event, s': State)
    requires ConfigOK(cfg) && Inv(cfg, s) && Step(cfg, s, e, s')
    ensures Inv(cfg, s')
  {
    hide PassOK, MachineOK, Apply, Enabled;
    ServersEvolve(cfg, s, e, s');
    ServersKeepOK(cfg, s, e, s');
    forall k | k in s'.passes ensures k in cfg.machines && PassOK(cfg, s'.servers, k, s'.passes[k]) {
      PassesKeepOK(cfg, s, e, s', k);
    }
    forall k | k in s'.stored
      ensures k in cfg.machines && MachineOK(cfg, s'.servers, k, s'.stored[k])
      ensures s'.stored[k].deleting ==> s'.stored[k].finalizer
    {
      StoredKeepOK(cfg, s, e, s', k);
    }
  }

  lemma {:induction false} InvAlong(cfg: Config, states: seq<State>, events: seq<Event>, i: nat)
    requires ConfigOK(cfg) && IsRun(cfg, states, events) && i < |states|
    ensures Inv(cfg, states[i])
  {
    if i > 0 {
      InvAlong(cfg, states, events, i - 1);
      assert events[i - 1] == events[i - 1];
      InvStep(cfg, states[i - 1], events[i - 1], states[i]);
    }
  }

  lemma InvReachable(cfg: Config, s: State)
    requires ConfigOK(cfg) && Reachable(cfg, s)
    ensures Inv(cfg, s)
  {
    hide Inv;
    var states, events :| IsRun(cfg, states, events) && states[|states| - 1] == s;
    InvAlong(cfg, states, events, |states| - 1);
  }
}

/** internal/controller/vultrbaremetalmachine_controller.go: the pass over a VultrBareMetalMachine. */
module VultrBareMetalMachineController {
  import opened Search
  import opened Options
  import opened Machines
  import opened Protocol
  import opened Sessions
  import PID = ProviderID

  /** findOrCreateServer; a failed create keeps Provisioned as it is. */
  method FindOrCreateServer(s: Session) returns (alive: bool, sv: Sight, ghost p: Pass)
    requires s.Valid() && s.k.kind == BareMetal && s.At(if ServerID(s.Mem()) != "" then Getting(ServerID(s.Mem())) else Finding)
    modifies s
    ensures s.Valid() && s.Rest() == old(s.Rest())
    ensures !alive ==> s.Dead()
    ensures alive && sv.NoServer? ==> s.At(Closing)
    ensures alive && sv.Saw? ==>
              && s.k in s.passes && s.passes[s.k] == Have(BareMetal, s.cfg.machines[s.k], p, sv.id, sv.status)
              && p.mem == s.Mem() && p.facts == old(s.passes[s.k].facts)
  {
    hide Follow, PID.ToResourceID, PID.FromResourceID, ServersAfter, StoredAfter, Scan, Have, AfterVpcList, AfterVpcAttach,
         AfterLbGet, AfterLbUpdate, AfterLbRemoveGet, AfterRelist, Join;
    p := s.passes[s.k];
    var id := ServerID(s.Mem());
    if id != "" {
      var got := s.Do(Getting(id));
      if got.None? {
        return false, NoServer, p;
      }
      p := p.(log := p.log + [Exchange(Getting(id), got.value)]);
      if got.value.Found? {
        return true, Saw(got.value.id, got.value.status), p;
      }
      if got.value.NotFound? {
        s.SetReadyCondition(False, ServerMissing);
      }
      return true, NoServer, p;
    }

    var listed := s.Do(Finding);
    if listed.None? {
      return false, NoServer, p;
    }
    p := p.(log := p.log + [Exchange(Finding, listed.value)]);
    if !listed.value.Listed? {
      return true, NoServer, p;
    }
    match Scan(BareMetal, listed.value.entries, ParamsOf(s.cfg, s.k)) {
      case Many(_) =>
        return true, NoServer, p;
      case One(e) =>
        return true, Saw(e.id, e.status), p;
      case Nothing =>
    }

    p := s.passes[s.k];
    var made := s.Do(Creating);
    if made.None? {
      return false, NoServer, p;
    }
    p := p.(log := p.log + [Exchange(Creating, made.value)]);
    if !made.value.Created? {
      s.SetReadyCondition(False, CreationFailed);
      return true, NoServer, p;
    }
    return true, Saw(made.value.id, made.value.status), p;
  }

  datatype VpcResult = Attached | Requested | Unsupported | VpcError

  /** Where the protocol's pass stands after the VPC stage, by its result. */
  ghost predicate VpcStage(k: Key, spec: Spec, passes: map<Key, Pass>, mem: Machine, f: Facts, r: VpcResult, p: Pass, id: string, status: string) {
    && k in passes && p.mem == mem && p.sight == Saw(id, status) && p.facts == f
    && match r
       case Attached => passes[k] == Join(BareMetal, spec, p, id, status)
       case Requested => passes[k] == p.(mem := WithCond(p.mem, False, VPCAttachRequested), call := Closing)
       case Unsupported => passes[k] == p.(mem := WithTerminalFailure(BareMetal, p.mem, VPCAttachFailed), call := Closing)
       case VpcError => passes[k] == p.(call := Closing)
  }

  /** EnsureBareMetalVPC, with the caller's reading of its errors by IsTerminalVPCAttachError. */
  method EnsureBareMetalVPC(s: Session, id: string, status: string) returns (alive: bool, r: VpcResult, ghost p: Pass)
    requires s.Valid() && s.k.kind == BareMetal && s.At(VpcListing(id)) && s.passes[s.k].sight == Saw(id, status)
    modifies s`stored, s`servers, s`script, s`passes
    ensures s.Valid() && s.Rest() == old(s.Rest())
    ensures !alive ==> s.Dead()
    ensures alive ==> VpcStage(s.k, s.cfg.machines[s.k], s.passes, s.Mem(), old(s.passes[s.k].facts), r, p, id, status)
  {
    hide Follow, PID.ToResourceID, ServersAfter, StoredAfter, AfterGet, AfterFind, AfterCreate,
         AfterLbGet, AfterLbUpdate, AfterLbRemoveGet, AfterRelist, Join;
    var vpcID := s.cfg.machines[s.k].vpcID;
    p := s.passes[s.k];
    var listed := s.Do(VpcListing(id));
    if listed.None? {
      return false, VpcError, p;
    }
    p := p.(log := p.log + [Exchange(VpcListing(id), listed.value)]);
    if listed.value.VpcUnsupported? {
      return true, Unsupported, p;
    }
    if !listed.value.VpcListed? {
      return true, VpcError, p;
    }
    for i := 0 to |listed.value.vpcs|
      invariant vpcID !in listed.value.vpcs[..i]
    {
      if listed.value.vpcs[i] == vpcID {
        return true, Attached, p;
      }
    }
    alive, r, p := AttachVPC(s, id, status);
  }

  /** The attach request; the attachment shows up in a later listing. */
  method AttachVPC(s: Session, id: string, status: string) returns (alive: bool, r: VpcResult, ghost p: Pass)
    requires s.Valid() && s.k.kind == BareMetal && s.At(VpcAttaching(id)) && s.passes[s.k].sight == Saw(id, status)
    modifies s`stored, s`servers, s`script, s`passes
    ensures s.Valid() && s.Rest() == old(s.Rest()) && r != Attached
    ensures !alive ==> s.Dead()
    ensures alive ==> VpcStage(s.k, s.cfg.machines[s.k], s.passes, s.Mem(), old(s.passes[s.k].facts), r, p, id, status)
  {
    hide Follow, PID.ToResourceID, ServersAfter, StoredAfter, AfterGet, AfterFind, AfterCreate, AfterVpcList,
         AfterLbGet, AfterLbUpdate, AfterLbRemoveGet, AfterRelist, Join;
    p := s.passes[s.k];
    var attached := s.Do(VpcAttaching(id));
    if attached.None? {
      return false, VpcError, p;
    }
    p := p.(log := p.log + [Exchange(VpcAttaching(id), attached.value)]);
    if attached.value.Done? {
      return true, Requested, p;
    }
    return true, if attached.value.VpcUnsupported? then Unsupported else VpcError, p;
  }

  /** The load balancer stage and the end of reconcileNormal. */
  method JoinAndReport(s: Session, id: string, status: string, ghost p: Pass) returns (alive: bool)
    requires s.Valid() && s.k.kind == BareMetal && s.k in s.passes && p.mem == s.Mem() && p.sight == Saw(id, status) && p.facts == s.facts
    requires s.passes[s.k] == Join(BareMetal, s.cfg.machines[s.k], p, id, status)
    modifies s
    ensures s.Valid() && s.Rest() == old(s.Rest())
    ensures if alive then s.At(Closing) else s.Dead()
  {
    hide Follow, PID.ToResourceID, ServersAfter, StoredAfter, Next;
    if s.cfg.machines[s.k].controlPlane {
      var lb := if s.facts.lbRef != "" then s.facts.lbRef else s.facts.lbSpec;
      if lb == "" {
        s.SetReadyCondition(False, WaitingForLoadBalancer);
        return true;
      }
      var member;
      ghost var q;
      alive, member, q := s.EnsureLoadBalancerMember(lb, id, status);
      if !alive || member.MemberError? {
        return alive;
      }
      if member.NotReady? {
        s.SetReadyCondition(False, WaitingForLoadBalancer);
        return true;
      }
    }
    s.SetReadyCondition(True, Active);
    s.ready := true;
    s.provisioned := true;
    return true;
  }

  /** From the server in hand to the end of reconcileNormal. */
  method ReconcileServer(s: Session, id: string, status: string, ghost p: Pass) returns (alive: bool)
    requires s.Valid() && s.k.kind == BareMetal && s.k in s.passes && p.mem == s.Mem() && p.facts == s.facts
    requires s.passes[s.k] == Have(BareMetal, s.cfg.machines[s.k], p, id, status)
    modifies s
    ensures s.Valid() && s.Rest() == old(s.Rest())
    ensures if alive then s.At(Closing) else s.Dead()
  {
    hide Follow, PID.ToResourceID, PID.FromResourceID, ServersAfter, StoredAfter, Next, Join;
    s.SetProviderID(id);
    if status == "pending" {
      s.SetReadyCondition(False, Pending);
      return true;
    }
    if status != "active" {
      s.SetTerminalFailure(UnexpectedStatus);
      return true;
    }
    ghost var q := p.(sight := Saw(id, status), mem := s.Mem());
    if s.cfg.machines[s.k].vpcID != "" {
      var r;
      alive, r, q := EnsureBareMetalVPC(s, id, status);
      if !alive {
        return false;
      }
      match r {
        case Unsupported =>
          s.SetTerminalFailure(VPCAttachFailed);
          return true;
        case VpcError =>
          return true;
        case Requested =>
          s.SetReadyCondition(False, VPCAttachRequested);
          return true;
        case Attached =>
      }
    }
    alive := JoinAndReport(s, id, status, q);
  }

  /** reconcileNormal, up to the deferred Close. */
  method ReconcileNormal(s: Session) returns (alive: bool)
    requires s.Valid() && s.k.kind == BareMetal && !s.deleting && s.k in s.passes
    requires s.passes[s.k] == Start(s.k, s.cfg.machines[s.k], s.Mem(), s.facts)
    modifies s
    ensures s.Valid() && s.Rest() == old(s.Rest())
    ensures if alive then s.At(Closing) else s.Dead()
  {
    hide Follow, PID.ToResourceID, PID.FromResourceID, ServersAfter, StoredAfter, Next, Join, Have;
    if HasTerminalFailure(BareMetal, s.Mem()) {
      return true;
    }
    s.finalizer := true;
    if !s.facts.clusterReady {
      s.SetReadyCondition(False, WaitingForClusterInfrastructure);
      return true;
    }
    if !s.facts.bootstrap {
      s.SetReadyCondition(False, WaitingForBootstrapData);
      return true;
    }
    var sv;
    ghost var p;
    alive, sv, p := FindOrCreateServer(s);
    if !alive || sv.NoServer? {
      return alive;
    }
    alive := ReconcileServer(s, sv.id, sv.status, p);
  }

  /** reconcileDelete, up to the deferred Close. */
  method ReconcileDelete(s: Session) returns (alive: bool)
    requires s.Valid() && s.k.kind == BareMetal && s.deleting && s.k in s.passes
    requires s.passes[s.k] == Start(s.k, s.cfg.machines[s.k], s.Mem(), s.facts)
    modifies s
    ensures s.Valid() && s.Rest() == old(s.Rest())
    ensures if alive then s.At(Closing) else s.Dead()
  {
    hide Follow, PID.ToResourceID, Next;
    s.SetReadyCondition(False, Removing);
    var id := ServerID(s.Mem());
    if id != "" {
      var ok;
      if s.cfg.machines[s.k].controlPlane {
        var lb := if s.facts.lbRef != "" then s.facts.lbRef else s.facts.lbSpec;
        alive, ok := s.RemoveLoadBalancerMember(lb, id);
        if !alive || !ok {
          return alive;
        }
      }
      alive, ok := s.DeleteServer(id);
      if !alive || !ok {
        return alive;
      }
    }
    alive := DeleteRemaining(s);
  }

  /** Reconcile: the world ends up exactly where the protocol takes it on the same answers. */
  method Reconcile(s: Session)
    requires s.Valid() && s.k.kind == BareMetal && s.k in s.passes
    requires s.passes[s.k] == Start(s.k, s.cfg.machines[s.k], s.Mem(), s.facts)
    modifies s
    ensures s.Valid() && (s.Now(), s.script) == old(Follow(s.cfg, s.Now(), s.k, s.script))
    ensures s.k !in s.passes || s.Dead()
  {
    hide Next, Start;
    var alive;
    if s.deleting {
      alive := ReconcileDelete(s);
    } else {
      alive := ReconcileNormal(s);
    }
    if alive {
      s.Close();
    }
  }
}

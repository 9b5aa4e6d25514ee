/** internal/controller/vultrmachine_controller.go: the pass over a VultrMachine, statement by statement. */
module VultrMachineController {
  import opened Search
  import opened Options
  import opened Machines
  import opened Protocol
  import opened Sessions
  import PID = ProviderID

  /**
   findOrCreateInstance. Either the pass is to end, or it has an instance and the protocol is where it takes that
   instance up.
   */
  method FindOrCreateInstance(s: Session) returns (alive: bool, sv: Sight, ghost p: Pass)
    requires s.Valid() && s.k.kind == VM && s.At(if ServerID(s.Mem()) != "" then Getting(ServerID(s.Mem())) else Finding)
    modifies s
    ensures s.Valid() && s.Rest() == old(s.Rest())
    ensures !alive ==> s.Dead()
    ensures alive && sv.NoServer? ==> s.At(Closing)
    ensures alive && sv.Saw? ==>
              && s.k in s.passes && s.passes[s.k] == Have(VM, s.cfg.machines[s.k], p, sv.id, sv.status)
              && p.mem == s.Mem() && p.facts == old(s.passes[s.k].facts)
  {
    hide Follow, PID.ToResourceID, PID.FromResourceID, ServersAfter, StoredAfter, Scan, Have;
    p := s.passes[s.k];
    var id := ServerID(s.Mem());
    if id != "" {
      var got := s.Do(Getting(id));
      if got.None? {
        return false, NoServer, p;
      }
      p := p.(log := p.log + [Exchange(Getting(id), got.value)]);
      if got.value.Found? {
        return true, Saw(got.value.id, got.value.status), p;
      }
      if got.value.NotFound? {
        s.SetReadyCondition(False, ServerMissing);
      }
      return true, NoServer, p;
    }

    var listed := s.Do(Finding);
    if listed.None? {
      return false, NoServer, p;
    }
    p := p.(log := p.log + [Exchange(Finding, listed.value)]);
    if !listed.value.Listed? {
      return true, NoServer, p;
    }
    match Scan(VM, listed.value.entries, ParamsOf(s.cfg, s.k)) {
      case Many(_) =>
        return true, NoServer, p;
      case One(e) =>
        return true, Saw(e.id, e.status), p;
      case Nothing =>
    }

    p := s.passes[s.k];
    var made := s.Do(Creating);
    if made.None? {
      return false, NoServer, p;
    }
    p := p.(log := p.log + [Exchange(Creating, made.value)]);
    if !made.value.Created? {
      s.SetReadyCondition(False, CreationFailed);
      s.provisioned := false;
      return true, NoServer, p;
    }
    return true, Saw(made.value.id, made.value.status), p;
  }

  /** The switch on the instance status at the end of the pass. */
  method SetReadyFromStatus(s: Session, status: string, ghost p: Pass)
    requires s.Valid() && s.k.kind == VM && s.k in s.passes && p.mem == s.Mem() && s.passes[s.k] == Finish(VM, p, status)
    modifies s`cond, s`ready, s`provisioned
    ensures s.At(Closing)
  {
    if status == "pending" {
      s.SetReadyCondition(Unknown, Pending);
    } else if status == "active" {
      s.SetReadyCondition(True, Active);
      s.ready := true;
      s.provisioned := true;
    } else {
      s.SetTerminalFailure(UnexpectedStatus);
    }
  }

  /** The part of reconcileNormal after the instance ID is stored. */
  method JoinAndReport(s: Session, id: string, status: string, ghost p: Pass) returns (alive: bool)
    requires s.Valid() && s.k.kind == VM && s.k in s.passes && p.mem == s.Mem() && p.sight == Saw(id, status) && p.facts == s.facts
    requires s.passes[s.k] == Join(VM, s.cfg.machines[s.k], p, id, status)
    modifies s
    ensures s.Valid() && s.Rest() == old(s.Rest())
    ensures if alive then s.At(Closing) else s.Dead()
  {
    hide Follow, PID.ToResourceID, PID.FromResourceID, ServersAfter, StoredAfter, Scan, Finish;
    ghost var q := p;
    if s.cfg.machines[s.k].controlPlane {
      var lb := s.facts.lbRef;
      if lb == "" {
        s.SetReadyCondition(False, WaitingForLoadBalancer);
        return true;
      }
      var member;
      alive, member, q := s.EnsureLoadBalancerMember(lb, id, status);
      if !alive || member.MemberError? {
        return alive;
      }
      if member.NotReady? {
        s.SetReadyCondition(False, WaitingForLoadBalancer);
        return true;
      }
    }
    SetReadyFromStatus(s, status, q);
    return true;
  }

  /** An ID that the object does not name yet goes into the object and is patched at once; the pass ends unless that succeeds. */
  method PersistID(s: Session, id: string, status: string, ghost p: Pass) returns (alive: bool, stop: bool, ghost q: Pass)
    requires s.Valid() && s.k.kind == VM && s.k in s.passes && p.mem == s.Mem()
    requires s.passes[s.k] == Have(VM, s.cfg.machines[s.k], p, id, status)
    modifies s
    ensures s.Valid() && s.Rest() == old(s.Rest())
    ensures !alive ==> s.Dead()
    ensures alive && stop ==> s.At(Closing)
    ensures alive && !stop ==>
              && s.k in s.passes && s.passes[s.k] == Join(VM, s.cfg.machines[s.k], q, id, status)
              && q.mem == s.Mem() && q.sight == Saw(id, status) && q.facts == p.facts
  {
    hide Follow, PID.ToResourceID, PID.FromResourceID, ServersAfter, StoredAfter, Scan, Join;
    q := p.(sight := Saw(id, status));
    if ServerID(s.Mem()) != id {
      s.SetProviderID(id);
      q := s.passes[s.k];
      var patched := s.Do(Patching);
      if patched.None? {
        return false, true, q;
      }
      q := q.(log := q.log + [Exchange(Patching, patched.value)]);
      return true, !patched.value.Done?, q;
    }
    return true, false, q;
  }

  /** reconcileNormal, up to the deferred Close. */
  method ReconcileNormal(s: Session) returns (alive: bool)
    requires s.Valid() && s.k.kind == VM && !s.deleting && s.k in s.passes
    requires s.passes[s.k] == Start(s.k, s.cfg.machines[s.k], s.Mem(), s.facts)
    modifies s
    ensures s.Valid() && s.Rest() == old(s.Rest())
    ensures if alive then s.At(Closing) else s.Dead()
  {
    hide Follow, PID.ToResourceID, PID.FromResourceID, ServersAfter, StoredAfter, Scan, Join, Have, Next;
    if HasTerminalFailure(VM, s.Mem()) {
      return true;
    }
    s.finalizer := true;
    if !s.facts.clusterReady {
      s.SetReadyCondition(False, WaitingForClusterInfrastructure);
      return true;
    }
    if !s.facts.bootstrap {
      s.SetReadyCondition(False, WaitingForBootstrapData);
      return true;
    }
    var sv;
    ghost var p;
    alive, sv, p := FindOrCreateInstance(s);
    if !alive || sv.NoServer? {
      return alive;
    }
    var stop;
    alive, stop, p := PersistID(s, sv.id, sv.status, p);
    if !alive || stop {
      return alive;
    }
    alive := JoinAndReport(s, sv.id, sv.status, p);
  }

  /** reconcileDelete, up to the deferred Close. */
  method ReconcileDelete(s: Session) returns (alive: bool)
    requires s.Valid() && s.k.kind == VM && s.deleting && s.k in s.passes
    requires s.passes[s.k] == Start(s.k, s.cfg.machines[s.k], s.Mem(), s.facts)
    modifies s
    ensures s.Valid() && s.Rest() == old(s.Rest())
    ensures if alive then s.At(Closing) else s.Dead()
  {
    hide Follow, PID.ToResourceID, PID.FromResourceID, ServersAfter, StoredAfter, Next;
    s.SetReadyCondition(False, Removing);
    var id := ServerID(s.Mem());
    if id != "" {
      var ok;
      alive, ok := s.DeleteServer(id);
      if !alive || !ok {
        return alive;
      }
    }
    alive := DeleteRemaining(s);
  }

  /** Reconcile: the world ends up exactly where the protocol takes it on the same answers. */
  method Reconcile(s: Session)
    requires s.Valid() && s.k.kind == VM && s.k in s.passes
    requires s.passes[s.k] == Start(s.k, s.cfg.machines[s.k], s.Mem(), s.facts)
    modifies s
    ensures s.Valid() && (s.Now(), s.script) == old(Follow(s.cfg, s.Now(), s.k, s.script))
    ensures s.k !in s.passes || s.Dead()
  {
    hide Next, Start;
    var alive;
    if s.deleting {
      alive := ReconcileDelete(s);
    } else {
      alive := ReconcileNormal(s);
    }
    if alive {
      s.Close();
    }
  }
}

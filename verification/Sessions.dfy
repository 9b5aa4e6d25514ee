/**
 One reconcile pass as the controllers run it: an object in memory that the code changes step by step, calls to the API
 server and to Vultr whose answers come from outside, and the services that both controllers share
 (cloud/scope/machine.go, cloud/scope/baremetal_machine.go, cloud/services/loadbalancer.go).

 `passes` follows the same pass in the protocol. Each method keeps `Rest()`, what the protocol makes of the turns that
 are still to come, so that at the end the world is exactly where the protocol says.
 */
module Sessions {
  import opened Search
  import opened Options
  import opened Machines
  import opened Protocol
  import PID = ProviderID
  import LB = LoadBalancers

  class Session {
    const cfg: Config
    const k: Key
    const facts: Facts

    // the world as the pass last saw it, and the turns that are to come; when they run out the process has died
    var stored: map<Key, Machine>
    var servers: map<string, Server>
    var script: seq<Turn>

    // the object in memory
    var finalizer: bool
    var deleting: bool
    var providerID: string
    var cond: Condition
    var ready: bool
    var provisioned: bool

    // the passes of the protocol
    ghost var passes: map<Key, Pass>

    ghost predicate Valid() {
      k in cfg.machines
    }

    function Mem(): Machine
      reads this
    {
      Machine(finalizer, deleting, providerID, cond, ready, provisioned)
    }

    ghost function Now(): State
      reads this
    {
      State(stored, passes, servers)
    }

    ghost function Rest(): (State, seq<Turn>)
      requires Valid()
      reads this
    {
      Follow(cfg, Now(), k, script)
    }

    /** The code is about to make this call, and the protocol agrees. */
    ghost predicate At(call: Call)
      reads this
    {
      k in passes && passes[k].call == call && passes[k].mem == Mem()
    }

    /** The pass is over for the process, because it died. */
    ghost predicate Dead()
      reads this
    {
      script == []
    }

    constructor (cfg: Config, k: Key, facts: Facts, stored: map<Key, Machine>, servers: map<string, Server>, script: seq<Turn>,
                 ghost passes: map<Key, Pass>)
      requires k in cfg.machines && k in stored && k !in passes
      ensures Valid() && this.cfg == cfg && this.k == k && this.facts == facts && this.script == script
      ensures Mem() == stored[k]
      ensures Now() == Apply(cfg, State(stored, passes, servers), Begin(k, facts))
    {
      this.cfg, this.k, this.facts := cfg, k, facts;
      this.stored, this.servers, this.script := stored, servers, script;
      var m := stored[k];
      finalizer, deleting, providerID, cond, ready, provisioned :=
        m.finalizer, m.deleting, m.providerID, m.cond, m.ready, m.provisioned;
      this.passes := passes[k := Start(k, cfg.machines[k], m, facts)];
    }

    /**
     One API call. Anything may go on in the world until the answer comes and takes effect; none comes if the process
     dies first.
     */
    method Do(call: Call) returns (a: Option<Answer>)
      requires Valid() && At(call)
      modifies `stored, `servers, `script, `passes
      ensures Rest() == old(Rest())
      ensures a.None? ==> Dead()
      ensures a.Some? ==> var n := Next(k, cfg.machines[k], old(passes[k]), a.value);
                          if n.Some? then k in passes && passes[k] == n.value else k !in passes
    {
      hide Next;
      if script == [] {
        return None;
      }
      var world, answer := script[0].world, script[0].a;
      a := Some(answer);
      ghost var now := Resumed(world, k, passes[k]);
      stored := if (call.Patching? || call.Closing?) && Acted(answer) then Write(world.stored, k, Mem()) else world.stored;
      servers := ServersAfter(cfg, world.servers, k, call, answer);
      passes := Deliver(cfg, now, k, answer).passes;
      script := script[1..];
    }

    // ---- cloud/scope: setters and readers

    method SetReadyCondition(status: Status, reason: Reason)
      modifies `cond
      ensures Mem() == WithCond(old(Mem()), status, reason)
    {
      cond := Ready(status, reason);
    }

    method SetTerminalFailure(reason: Reason)
      modifies `cond, `ready, `provisioned
      ensures Mem() == WithTerminalFailure(k.kind, old(Mem()), reason)
    {
      SetReadyCondition(False, reason);
      ready := false;
      if k.kind == VM {
        provisioned := false;
      }
    }

    method SetProviderID(id: string)
      modifies `providerID
      ensures Mem() == old(Mem()).(providerID := PID.FromResourceID(id))
    {
      providerID := PID.FromResourceID(id);
    }

    /** The deferred Close of the scope: it persists the object or fails; either way the pass is over. */
    method Close()
      requires Valid() && At(Closing)
      modifies `stored, `servers, `script, `passes
      ensures Rest() == old(Rest())
      ensures k !in passes || Dead()
    {
      var _ := Do(Closing);
    }

    // ---- cloud/services/instance.go and cloud/services/baremetal.go

    /** DeleteInstance and DeleteBareMetalServer by the machine's ID: unless it fails, the pass goes on to list. */
    method DeleteServer(id: string) returns (alive: bool, ok: bool)
      requires Valid() && At(Deleting(id))
      modifies `stored, `servers, `script, `passes
      ensures Rest() == old(Rest())
      ensures if !alive then Dead() else if ok then At(Relisting) else At(Closing)
    {
      hide Follow, ServersAfter, StoredAfter, AfterGet, AfterFind, AfterCreate, AfterVpcList, AfterVpcAttach,
           AfterLbGet, AfterLbUpdate, AfterLbRemoveGet, AfterRelist, Join;
      var deleted := Do(Deleting(id));
      if deleted.None? {
        return false, false;
      }
      return true, deleted.value.Done? || deleted.value.NotFound?;
    }

    /** The same for a server that the machine's ID does not name: the pass is over, whatever the answer. */
    method DeleteOtherServer(id: string) returns (alive: bool)
      requires Valid() && At(DeletingOther(id))
      modifies `stored, `servers, `script, `passes
      ensures Rest() == old(Rest())
      ensures if alive then At(Closing) else Dead()
    {
      hide Follow, ServersAfter, StoredAfter, AfterGet, AfterFind, AfterCreate, AfterVpcList, AfterVpcAttach,
           AfterLbGet, AfterLbUpdate, AfterLbRemoveGet, AfterRelist, Join;
      var deleted := Do(DeletingOther(id));
      return deleted.Some?;
    }

    // ---- cloud/services/loadbalancer.go

    /**
     EnsureLoadBalancerMember: the protocol's pass, which was to ask the load balancer, has come to the end of the
     machine's pass if the server is a member, to a reason to wait if the load balancer is not ready, or to an error.
     */
    method EnsureLoadBalancerMember(lb: string, id: string, ghost status: string)
      returns (alive: bool, r: MemberResult, ghost p: Pass)
      requires Valid() && At(LbGetting(lb, id)) && passes[k].sight.Saw? && passes[k].sight.status == status
      modifies `stored, `servers, `script, `passes
      ensures Rest() == old(Rest())
      ensures !alive ==> Dead()
      ensures alive ==> k in passes && p.mem == Mem() && match r
                        case Member => passes[k] == Finish(k.kind, p, status)
                        case NotReady => passes[k] == p.(mem := WithCond(p.mem, False, WaitingForLoadBalancer), call := Closing)
                        case MemberError => passes[k] == p.(call := Closing)
    {
      hide Follow, PID.ToResourceID, Finish, ServersAfter, StoredAfter, AfterGet, AfterFind, AfterCreate, AfterVpcList, AfterVpcAttach,
           AfterLbRemoveGet, AfterRelist, Join;
      p := passes[k];
      var got := Do(LbGetting(lb, id));
      if got.None? {
        return false, MemberError, p;
      }
      p := p.(log := p.log + [Exchange(LbGetting(lb, id), got.value)]);
      if !got.value.LbGot? {
        return true, MemberError, p;
      }
      if !got.value.active {
        return true, NotReady, p;
      }
      for i := 0 to |got.value.members|
        invariant id !in got.value.members[..i]
      {
        if got.value.members[i] == id {
          return true, Member, p;
        }
      }
      p := passes[k];
      var updated := Do(LbUpdating(lb, id));
      if updated.None? {
        return false, MemberError, p;
      }
      p := p.(log := p.log + [Exchange(LbUpdating(lb, id), updated.value)]);
      if updated.value.Done? {
        return true, Member, p;
      }
      if updated.value.Unprocessable? {
        return true, NotReady, p;
      }
      return true, MemberError, p;
    }

    /** RemoveLoadBalancerMember: unless it fails, the pass goes on to delete the server. */
    method RemoveLoadBalancerMember(lb: string, id: string) returns (alive: bool, ok: bool)
      requires Valid() && if lb == "" then At(Deleting(id)) else At(LbRemoveGetting(lb, id))
      modifies `stored, `servers, `script, `passes
      ensures Rest() == old(Rest())
      ensures if !alive then Dead() else if ok then At(Deleting(id)) else At(Closing)
    {
      hide Follow, PID.ToResourceID, ServersAfter, StoredAfter, LB.Without, AfterGet, AfterFind, AfterCreate, AfterVpcList, AfterVpcAttach,
           AfterLbGet, AfterLbUpdate, AfterRelist, Join;
      if lb == "" {
        return true, true;
      }
      var got := Do(LbRemoveGetting(lb, id));
      if got.None? {
        return false, false;
      }
      if got.value.NotFound? {
        return true, true;
      }
      if !got.value.LbGot? {
        return true, false;
      }
      alive, ok := LeaveList(lb, id, got.value.members);
    }

    /** The list is read; the protocol is where the list sends it. */
    method LeaveList(lb: string, id: string, members: seq<string>) returns (alive: bool, ok: bool)
      requires Valid()
      requires var n := |LB.Without(members, id)|; At(if n == |members| || n == 0 then Deleting(id) else LbRemoveUpdating(lb, id))
      modifies `stored, `servers, `script, `passes
      ensures Rest() == old(Rest())
      ensures if !alive then Dead() else if ok then At(Deleting(id)) else At(Closing)
    {
      hide Follow, Next, ServersAfter, StoredAfter, LB.Without;
      var remaining := LB.Others(members, id);
      if |remaining| == |members| || |remaining| == 0 {
        return true, true;
      }
      alive, ok := UpdateWithout(lb, id);
    }

    /** The update that RemoveLoadBalancerMember sends when members remain. */
    method UpdateWithout(lb: string, id: string) returns (alive: bool, ok: bool)
      requires Valid() && At(LbRemoveUpdating(lb, id))
      modifies `stored, `servers, `script, `passes
      ensures Rest() == old(Rest())
      ensures if !alive then Dead() else if ok then At(Deleting(id)) else At(Closing)
    {
      hide Follow, ServersAfter, StoredAfter, AfterGet, AfterFind, AfterCreate, AfterVpcList, AfterVpcAttach,
           AfterLbGet, AfterLbUpdate, AfterLbRemoveGet, AfterRelist, Join;
      var updated := Do(LbRemoveUpdating(lb, id));
      if updated.None? {
        return false, false;
      }
      return true, updated.value.Done?;
    }
  }

  /**
   The second half of either reconcileDelete: list the servers of the machine; the finalizer goes only if there are
   none, and one that the providerID does not name is deleted.
   */
  method DeleteRemaining(s: Session) returns (alive: bool)
    requires s.Valid() && s.At(Relisting)
    modifies s
    ensures s.Valid() && s.Rest() == old(s.Rest())
    ensures if alive then s.At(Closing) else s.Dead()
  {
    hide Follow, PID.ToResourceID, ServersAfter, StoredAfter, Scan, AfterGet, AfterFind, AfterCreate, AfterVpcList, AfterVpcAttach,
         AfterLbGet, AfterLbUpdate, AfterLbRemoveGet, Join;
    var id := ServerID(s.Mem());
    var listed := s.Do(Relisting);
    if listed.None? {
      return false;
    }
    if !listed.value.Listed? {
      return true;
    }
    match Scan(s.k.kind, listed.value.entries, ParamsOf(s.cfg, s.k)) {
      case Many(_) =>
        return true;
      case One(e) =>
        if e.id == id || e.id == "" {
          return true;
        }
        alive := s.DeleteOtherServer(e.id);
        return;
      case Nothing =>
        s.finalizer := false;
        return true;
    }
  }

  datatype MemberResult = Member | NotReady | MemberError
}

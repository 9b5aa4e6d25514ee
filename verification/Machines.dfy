/**
 The machine objects of the provider and what one reconcile pass does with them.

 A pass is modelled by its in-memory object and the API call it is waiting for. `Start` is the code up to the first
 call and `Next` the code between the answer to one call and the next call, for internal/controller/
 vultrmachine_controller.go and internal/controller/vultrbaremetalmachine_controller.go. Neither looks at the cloud
 or at the stored objects: all that a pass learns comes from answers.
 */
module Machines {
  import opened Options
  import opened Search
  import opened Tags
  import PID = ProviderID
  import LB = LoadBalancers

  /** A VultrMachine or VultrBareMetalMachine, by resource kind, namespace and name. */
  datatype Key = Key(kind: Kind, namespace: string, name: string)

  /** The parts of a machine, of its Cluster and of its owner Machine that never change. */
  datatype Spec = Spec(clusterName: string, clusterUID: string, controlPlane: bool, vpcID: string, additionalTags: seq<string>)

  /** All machines there may be; whether a failed create may leave an instance without tags; the list lag. */
  datatype Config = Config(machines: map<Key, Spec>, untagged: bool, lag: nat)

  function Params(k: Key, spec: Spec): TagParams {
    TagParams(spec.clusterName, spec.clusterUID, k.name, if spec.controlPlane then "control-plane" else "worker")
  }

  /** MachineTagParams of the machine k. */
  function ParamsOf(cfg: Config, k: Key): TagParams
    requires k in cfg.machines
  {
    Params(k, cfg.machines[k])
  }

  datatype Status = True | False | Unknown

  datatype Reason =
    | WaitingForClusterInfrastructure | WaitingForBootstrapData | WaitingForLoadBalancer
    | Pending | Active | CreationFailed | ServerMissing | VPCAttachRequested | Removing
    | UnexpectedStatus | VPCAttachFailed

  datatype Condition = Unset | Ready(status: Status, reason: Reason)

  /** The fields of the object that the controllers read and write. A nil providerID is "". */
  datatype Machine = Machine(finalizer: bool, deleting: bool, providerID: string, cond: Condition, ready: bool, provisioned: bool)

  const FRESH := Machine(false, false, "", Unset, false, false)

  /** GetInstanceID and GetServerID. */
  function ServerID(m: Machine): string {
    PID.ToResourceID(m.providerID)
  }

  /** terminalMachineReasons and terminalBareMetalReasons. */
  predicate TerminalReason(kind: Kind, r: Reason) {
    r == UnexpectedStatus || (kind == BareMetal && r == VPCAttachFailed)
  }

  predicate HasTerminalFailure(kind: Kind, m: Machine) {
    m.cond.Ready? && m.cond.status == False && TerminalReason(kind, m.cond.reason)
  }

  function WithCond(m: Machine, status: Status, reason: Reason): Machine {
    m.(cond := Ready(status, reason))
  }

  /** SetTerminalFailure: only the VM scope also clears Provisioned. */
  function WithTerminalFailure(kind: Kind, m: Machine, reason: Reason): Machine {
    var m1 := WithCond(m, False, reason).(ready := false);
    if kind == VM then m1.(provisioned := false) else m1
  }

  /** What the pass reads of other objects when it begins. */
  datatype Facts = Facts(clusterReady: bool, bootstrap: bool, lbRef: string, lbSpec: string)

  /** The VM controller reads the status reference only; APIServerLoadBalancerID falls back to the spec. */
  function LoadBalancerID(kind: Kind, f: Facts): string {
    if kind == VM || f.lbRef != "" then f.lbRef else f.lbSpec
  }

  /** The API call that a pass is waiting for. */
  datatype Call =
    | Getting(id: string)
    | Finding
    | Creating
    | Patching
    | VpcListing(id: string)
    | VpcAttaching(id: string)
    | LbGetting(lb: string, id: string)
    | LbUpdating(lb: string, id: string)
    | LbRemoveGetting(lb: string, id: string)
    | LbRemoveUpdating(lb: string, id: string)
    | Deleting(id: string)
    | Relisting
    | DeletingOther(id: string)
    | Closing

  /** What a failed create left behind. */
  datatype Made = NothingMade | MadeTagged(id: string) | MadeUntagged(id: string)

  /** Answers. `Failed` is every error but 404, the empty 200 included; the call may have taken effect nevertheless. */
  datatype Answer =
    | Found(id: string, status: string)
    | NotFound
    | Failed(acted: bool)
    | Listed(entries: seq<Entry>)
    | Created(id: string, status: string)
    | CreateFailed(made: Made)
    | Done
    | LbGot(active: bool, members: seq<string>)
    | Unprocessable
    | VpcListed(vpcs: seq<string>)
    | VpcUnsupported

  datatype Exchange = Exchange(call: Call, answer: Answer)

  /** The server that the pass works on, once it has one. */
  datatype Sight = NoServer | Saw(id: string, status: string)

  datatype Pass = Pass(mem: Machine, call: Call, facts: Facts, sight: Sight, log: seq<Exchange>)

  function To(p: Pass, call: Call): Pass { p.(call := call) }

  function Close(p: Pass, m: Machine): Pass { p.(mem := m, call := Closing) }

  /** The code from p to q leaves the finalizer, the deletion mark and what the pass has read and logged alone. */
  predicate Continues(p: Pass, q: Pass) {
    q.mem.finalizer == p.mem.finalizer && q.mem.deleting == p.mem.deleting && q.facts == p.facts && q.log == p.log
  }

  /** It also leaves the providerID and the server of the pass alone. */
  predicate SameServer(p: Pass, q: Pass) {
    q.mem.providerID == p.mem.providerID && q.sight == p.sight
  }

  /** The pass now works on the server id; its object names the same server as before or this one. */
  predicate TakesUp(p: Pass, q: Pass, id: string, status: string) {
    && q.sight == Saw(id, status)
    && (q.mem.providerID == p.mem.providerID || q.mem.providerID == PID.FromResourceID(id))
  }

  /** The reported status is as before. */
  predicate Kept(p: Pass, q: Pass) {
    q.mem.cond == p.mem.cond && q.mem.ready == p.mem.ready && q.mem.provisioned == p.mem.provisioned
  }

  /** The pass ends with a reason to wait or to retry. */
  predicate Waits(kind: Kind, p: Pass, q: Pass) {
    && q.call.Closing? && q.mem.cond.Ready? && q.mem.cond.status != True && !HasTerminalFailure(kind, q.mem)
    && q.mem.ready == p.mem.ready && q.mem.provisioned == p.mem.provisioned
  }

  /** The pass ends in a terminal failure. */
  predicate Fails(kind: Kind, p: Pass, q: Pass) {
    && q.call.Closing? && HasTerminalFailure(kind, q.mem) && !q.mem.ready
    && (q.mem.provisioned <==> kind == BareMetal && p.mem.provisioned)
  }

  /** The pass ends with the machine ready. */
  predicate Succeeds(q: Pass) {
    q.call.Closing? && q.mem.cond == Ready(True, Active) && q.mem.ready && q.mem.provisioned
  }

  // ---- reconcileNormal

  function Start(k: Key, spec: Spec, m: Machine, f: Facts): Pass {
    var p := Pass(m, Closing, f, NoServer, []);
    if m.deleting then StartDelete(k, spec, p) else StartNormal(k, p)
  }

  function StartNormal(k: Key, p: Pass): Pass {
    if HasTerminalFailure(k.kind, p.mem) then p
    else
      var m := p.mem.(finalizer := true);
      if !p.facts.clusterReady then Close(p, WithCond(m, False, WaitingForClusterInfrastructure))
      else if !p.facts.bootstrap then Close(p, WithCond(m, False, WaitingForBootstrapData))
      else if ServerID(m) != "" then p.(mem := m, call := Getting(ServerID(m)))
      else p.(mem := m, call := Finding)
  }

  /** The tail of the pass: the switch on the instance status, or the end of the bare metal pass. */
  function Finish(kind: Kind, p: Pass, status: string): (q: Pass)
    ensures Kept(p, q) || Waits(kind, p, q) || Fails(kind, p, q) || (Succeeds(q) && (kind == VM ==> status == "active"))
    ensures Continues(p, q) && SameServer(p, q) && q.call.Closing?
  {
    if kind == VM && status == "pending" then Close(p, WithCond(p.mem, Unknown, Pending))
    else if kind == VM && status != "active" then Close(p, WithTerminalFailure(kind, p.mem, UnexpectedStatus))
    else Close(p, WithCond(p.mem, True, Active).(ready := true, provisioned := true))
  }

  /** Control plane machines join the load balancer first. */
  function Join(kind: Kind, spec: Spec, p: Pass, id: string, status: string): (q: Pass)
    ensures q.call.LbGetting? ==> q.call == LbGetting(LoadBalancerID(kind, p.facts), id)
    ensures Kept(p, q) || Waits(kind, p, q) || Fails(kind, p, q) || (Succeeds(q) && !spec.controlPlane && (kind == VM ==> status == "active"))
    ensures Continues(p, q) && SameServer(p, q) && (q.call.LbGetting? || q.call.Closing?)
  {
    if !spec.controlPlane then Finish(kind, p, status)
    else if LoadBalancerID(kind, p.facts) == "" then Close(p, WithCond(p.mem, False, WaitingForLoadBalancer))
    else To(p, LbGetting(LoadBalancerID(kind, p.facts), id))
  }

  /** The pass has its server: the VM controller persists a new ID at once, the bare metal one sorts by status. */
  function Have(kind: Kind, spec: Spec, p0: Pass, id: string, status: string): (q: Pass)
    ensures q.call.LbGetting? ==> q.call == LbGetting(LoadBalancerID(kind, p0.facts), id)
    ensures kind == BareMetal && q.call.LbGetting? ==> spec.vpcID == ""
    ensures q.call.VpcListing? || (kind == BareMetal && q.call.LbGetting?) ==> status == "active"
    ensures Kept(p0, q) || Waits(kind, p0, q) || Fails(kind, p0, q) ||
            (Succeeds(q) && !spec.controlPlane && status == "active" && (kind == BareMetal ==> spec.vpcID == ""))
    ensures Continues(p0, q) && TakesUp(p0, q, id, status)
    ensures q.call.Patching? || q.call.VpcListing? || q.call.LbGetting? || q.call.Closing?
  {
    var p := p0.(sight := Saw(id, status));
    if kind == VM then
      if ServerID(p.mem) != id then p.(mem := p.mem.(providerID := PID.FromResourceID(id)), call := Patching)
      else Join(kind, spec, p, id, status)
    else
      var r := p.(mem := p.mem.(providerID := PID.FromResourceID(id)));
      if status == "pending" then Close(r, WithCond(r.mem, False, Pending))
      else if status != "active" then Close(r, WithTerminalFailure(kind, r.mem, UnexpectedStatus))
      else if spec.vpcID != "" then To(r, VpcListing(id))
      else Join(kind, spec, r, id, status)
  }

  function AfterGet(kind: Kind, spec: Spec, p: Pass, a: Answer): (q: Pass)
    ensures if a.Found? then TakesUp(p, q, a.id, a.status) else SameServer(p, q)
    ensures Kept(p, q) || Waits(kind, p, q) || Fails(kind, p, q) || (Succeeds(q) && a.Found?)
    ensures Continues(p, q) && !q.call.Creating?
  {
    match a
    case Found(id, status) => Have(kind, spec, p, id, status)
    case NotFound => Close(p, WithCond(p.mem, False, ServerMissing))
    case _ => Close(p, p.mem)
  }

  function AfterFind(k: Key, spec: Spec, p: Pass, a: Answer): (q: Pass)
    ensures var r := if a.Listed? then Scan(k.kind, a.entries, Params(k, spec)) else Nothing;
            if r.One? then TakesUp(p, q, r.entry.id, r.entry.status) else SameServer(p, q)
    ensures Kept(p, q) || Waits(k.kind, p, q) || Fails(k.kind, p, q) ||
            (Succeeds(q) && a.Listed? && Scan(k.kind, a.entries, Params(k, spec)).One?)
    ensures Continues(p, q)
    ensures q.call.Creating? ==> a.Listed? && Scan(k.kind, a.entries, Params(k, spec)).Nothing?
  {
    if !a.Listed? then Close(p, p.mem)
    else
      match Scan(k.kind, a.entries, Params(k, spec))
      case Nothing => To(p, Creating)
      case One(e) => Have(k.kind, spec, p, e.id, e.status)
      case Many(_) => Close(p, p.mem)
  }

  /** Only the VM controller also resets Provisioned when a create fails. */
  function AfterCreate(kind: Kind, spec: Spec, p: Pass, a: Answer): (q: Pass)
    ensures if a.Created? then TakesUp(p, q, a.id, a.status) else SameServer(p, q)
    ensures Kept(p, q) || Waits(kind, p, q) || Fails(kind, p, q) || (Succeeds(q) && a.Created?)
            || (kind == VM && q.call.Closing? && q.mem.cond == Ready(False, CreationFailed) && !q.mem.provisioned)
    ensures Continues(p, q) && !q.call.Creating?
  {
    if a.Created? then Have(kind, spec, p, a.id, a.status)
    else
      var m := WithCond(p.mem, False, CreationFailed);
      Close(p, if kind == VM then m.(provisioned := false) else m)
  }

  // The VPC stage exists for bare metal only.

  function AfterVpcList(spec: Spec, p: Pass, id: string, status: string, a: Answer): (q: Pass)
    ensures q.call.LbGetting? ==> a.VpcListed? && spec.vpcID in a.vpcs && q.call == LbGetting(LoadBalancerID(BareMetal, p.facts), id)
    ensures Kept(p, q) || Waits(BareMetal, p, q) || Fails(BareMetal, p, q) ||
            (Succeeds(q) && a.VpcListed? && spec.vpcID in a.vpcs && !spec.controlPlane)
    ensures Continues(p, q) && SameServer(p, q) && (q.call.VpcAttaching? || q.call.LbGetting? || q.call.Closing?)
  {
    match a
    case VpcListed(vpcs) => if spec.vpcID in vpcs then Join(BareMetal, spec, p, id, status) else To(p, VpcAttaching(id))
    case VpcUnsupported => Close(p, WithTerminalFailure(BareMetal, p.mem, VPCAttachFailed))
    case _ => Close(p, p.mem)
  }

  function AfterVpcAttach(p: Pass, a: Answer): (q: Pass)
    ensures Kept(p, q) || Waits(BareMetal, p, q) || Fails(BareMetal, p, q)
    ensures Continues(p, q) && SameServer(p, q) && q.call.Closing?
  {
    match a
    case Done => Close(p, WithCond(p.mem, False, VPCAttachRequested))
    case VpcUnsupported => Close(p, WithTerminalFailure(BareMetal, p.mem, VPCAttachFailed))
    case _ => Close(p, p.mem)
  }

  function AfterLbGet(kind: Kind, p: Pass, lb: string, id: string, status: string, a: Answer): (q: Pass)
    ensures Kept(p, q) || Waits(kind, p, q) || Fails(kind, p, q) ||
            (Succeeds(q) && a.LbGot? && a.active && id in a.members && (kind == VM ==> status == "active"))
    ensures Continues(p, q) && SameServer(p, q) && (q.call == LbUpdating(lb, id) || q.call.Closing?)
  {
    match a
    case LbGot(active, members) =>
      if !active then Close(p, WithCond(p.mem, False, WaitingForLoadBalancer))
      else if id in members then Finish(kind, p, status)
      else To(p, LbUpdating(lb, id))
    case _ => Close(p, p.mem)
  }

  function AfterLbUpdate(kind: Kind, p: Pass, status: string, a: Answer): (q: Pass)
    ensures Kept(p, q) || Waits(kind, p, q) || Fails(kind, p, q) || (Succeeds(q) && a.Done? && (kind == VM ==> status == "active"))
    ensures Continues(p, q) && SameServer(p, q) && q.call.Closing?
  {
    match a
    case Done => Finish(kind, p, status)
    case Unprocessable => Close(p, WithCond(p.mem, False, WaitingForLoadBalancer))
    case _ => Close(p, p.mem)
  }

  // ---- reconcileDelete

  function StartDelete(k: Key, spec: Spec, p: Pass): Pass {
    var q := p.(mem := WithCond(p.mem, False, Removing));
    var id := ServerID(q.mem);
    var lb := LoadBalancerID(k.kind, p.facts);
    if id == "" then To(q, Relisting)
    else if k.kind == BareMetal && spec.controlPlane && lb != "" then To(q, LbRemoveGetting(lb, id))
    else To(q, Deleting(id))
  }

  function AfterLbRemoveGet(p: Pass, lb: string, id: string, a: Answer): (q: Pass)
    ensures Kept(p, q)
    ensures Continues(p, q) && SameServer(p, q) && (q.call.LbRemoveUpdating? || q.call.Deleting? || q.call.Closing?)
  {
    match a
    case LbGot(_, members) =>
      var remaining := LB.Without(members, id);
      if |remaining| == |members| || |remaining| == 0 then To(p, Deleting(id)) else To(p, LbRemoveUpdating(lb, id))
    case NotFound => To(p, Deleting(id))
    case _ => Close(p, p.mem)
  }

  function AfterRelist(k: Key, spec: Spec, p: Pass, a: Answer): (q: Pass)
    ensures Kept(p, q)
    ensures Continues(p, q) || (a.Listed? && Scan(k.kind, a.entries, Params(k, spec)).Nothing? && q.mem == p.mem.(finalizer := false))
    ensures SameServer(p, q) && (q.call.DeletingOther? || q.call.Closing?)
  {
    if !a.Listed? then Close(p, p.mem)
    else
      match Scan(k.kind, a.entries, Params(k, spec))
      case Nothing => Close(p, p.mem.(finalizer := false))
      case One(e) => if e.id == ServerID(p.mem) || e.id == "" then Close(p, p.mem) else To(p, DeletingOther(e.id))
      case Many(_) => Close(p, p.mem)
  }

  /** One answer: the code from there to the next call, or to the end of the pass. */
  function Next(k: Key, spec: Spec, p0: Pass, a: Answer): Option<Pass> {
    var p := p0.(log := p0.log + [Exchange(p0.call, a)]);
    var status := if p.sight.Saw? then p.sight.status else "";
    match p.call
    case Getting(_) => Some(AfterGet(k.kind, spec, p, a))
    case Finding => Some(AfterFind(k, spec, p, a))
    case Creating => Some(AfterCreate(k.kind, spec, p, a))
    case Patching => Some(if a.Done? && p.sight.Saw? then Join(k.kind, spec, p, p.sight.id, status) else Close(p, p.mem))
    case VpcListing(id) => Some(AfterVpcList(spec, p, id, status, a))
    case VpcAttaching(_) => Some(AfterVpcAttach(p, a))
    case LbGetting(lb, id) => Some(AfterLbGet(k.kind, p, lb, id, status, a))
    case LbUpdating(_, _) => Some(AfterLbUpdate(k.kind, p, status, a))
    case LbRemoveGetting(lb, id) => Some(AfterLbRemoveGet(p, lb, id, a))
    case LbRemoveUpdating(_, id) => Some(if a.Done? then To(p, Deleting(id)) else Close(p, p.mem))
    case Deleting(_) => Some(if a.Done? || a.NotFound? then To(p, Relisting) else Close(p, p.mem))
    case Relisting => Some(AfterRelist(k, spec, p, a))
    case DeletingOther(_) => Some(Close(p, p.mem))
    case Closing => None
  }
}

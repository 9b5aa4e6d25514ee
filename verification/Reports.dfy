/**
 What a normal pass reports, read off its log. Each reason of the Ready condition has its cause among the answers that the
 pass has heard, and is stored if and only if the cause is there; a pass that ends in an error stores the report as it was.
 */
module Reports {
  import opened Options
  import opened Search
  import opened Machines
  import opened Protocol
  import opened Invariants
  import R = Readiness
  import L = Lifecycle
  import P = Provisioning
  import Prog = Progress
  import PID = ProviderID

  // ---- causes

  /** Answers that end a pass with something to report. */
  datatype Mark = GetSays404 | CreateFails | VpcRefused | VpcRequested | LbInactive | LbSays422

  function MarkOf(x: Exchange): Option<Mark> {
    if x.call.Getting? && x.answer.NotFound? then Some(GetSays404)
    else if x.call.Creating? && x.answer.CreateFailed? then Some(CreateFails)
    else if Prog.VpcCall(x.call) && x.answer.VpcUnsupported? then Some(VpcRefused)
    else if x.call.VpcAttaching? && x.answer.Done? then Some(VpcRequested)
    else if x.call.LbGetting? && x.answer.LbGot? && !x.answer.active then Some(LbInactive)
    else if x.call.LbUpdating? && x.answer.Unprocessable? then Some(LbSays422)
    else None
  }

  predicate Heard(log: seq<Exchange>, m: Mark) {
    exists i :: 0 <= i < |log| && MarkOf(log[i]) == Some(m)
  }

  predicate Unmarked(log: seq<Exchange>) {
    forall i :: 0 <= i < |log| ==> MarkOf(log[i]) == None
  }

  /** The ID of the pass's server is stored: it was read by that ID, or has been patched. */
  predicate Noted(log: seq<Exchange>) {
    exists i :: 0 <= i < |log| && Notes(log[i])
  }

  predicate Notes(x: Exchange) {
    x.call.Getting? || x == Exchange(Patching, Done)
  }

  /** The pass has a server and has come to the load balancer: an instance with its ID stored, bare metal active and in its VPC. */
  predicate AtLb(k: Key, spec: Spec, p: Pass) {
    && p.sight.Saw?
    && (k.kind == VM ==> Noted(p.log))
    && (k.kind == BareMetal ==> p.sight.status == "active" && (spec.vpcID != "" ==> R.Attached(p.log, p.sight.id, spec.vpcID)))
  }

  /** It has got past the load balancer, which only control plane machines join. */
  predicate PastLb(k: Key, spec: Spec, p: Pass) {
    AtLb(k, spec, p) && (spec.controlPlane ==> P.Admitted(p.log, LoadBalancerID(k.kind, p.facts), p.sight))
  }

  /** An instance is judged by its status last, bare metal first. */
  predicate Judged(k: Key, spec: Spec, p: Pass) {
    if k.kind == VM then PastLb(k, spec, p) else p.sight.Saw?
  }

  /** The cause of each reason. */
  predicate Why(k: Key, spec: Spec, p: Pass, r: Reason) {
    match r
    case WaitingForClusterInfrastructure => !p.facts.clusterReady
    case WaitingForBootstrapData => p.facts.clusterReady && !p.facts.bootstrap
    case ServerMissing => Heard(p.log, GetSays404)
    case CreationFailed => Heard(p.log, CreateFails)
    case VPCAttachRequested => Heard(p.log, VpcRequested)
    case VPCAttachFailed => Heard(p.log, VpcRefused)
    case WaitingForLoadBalancer =>
      AtLb(k, spec, p) && spec.controlPlane && (LoadBalancerID(k.kind, p.facts) == "" || Heard(p.log, LbInactive) || Heard(p.log, LbSays422))
    case Pending => Judged(k, spec, p) && p.sight.status == "pending"
    case UnexpectedStatus => Judged(k, spec, p) && P.Unexpected(p.sight.status)
    case Active => PastLb(k, spec, p) && p.sight.status == "active"
    case Removing => false
  }

  function StatusFor(kind: Kind, r: Reason): Status {
    if r == Active then True else if r == Pending && kind == VM then Unknown else False
  }

  /** The pass ended in an error: a call failed, the search found several, or the load balancer is not there. */
  predicate Errored(k: Key, spec: Spec, p: Pass) {
    p.log != [] &&
    var x := p.log[|p.log| - 1];
    || x.answer.Failed?
    || (x.call.Finding? && x.answer.Listed? && Scan(k.kind, x.answer.entries, Params(k, spec)).Many?)
    || (x.call.LbGetting? && x.answer.NotFound?)
  }

  // ---- reports

  predicate SameReport(a: Machine, b: Machine) {
    a.cond == b.cond && a.ready == b.ready && a.provisioned == b.provisioned
  }

  /** What becomes of Ready and Provisioned with each reason. */
  predicate Flags(kind: Kind, r: Reason, before: Machine, after: Machine) {
    if r == Active then after.ready && after.provisioned
    else if TerminalReason(kind, r) then !after.ready && after.provisioned == (kind == BareMetal && before.provisioned)
    else after.ready == before.ready && after.provisioned == (before.provisioned && !(kind == VM && r == CreationFailed))
  }

  /** The pass closes with the report that its log asks for. */
  ghost predicate Settled(k: Key, spec: Spec, before: Machine, p: Pass) {
    && (forall r :: Why(k, spec, p, r) ==>
          !Errored(k, spec, p) && p.mem.cond == Ready(StatusFor(k.kind, r), r) && Flags(k.kind, r, before, p.mem))
    && (Errored(k, spec, p) ==> SameReport(p.mem, before))
    && (Errored(k, spec, p) || (p.mem.cond.Ready? && Why(k, spec, p, p.mem.cond.reason)))
    && p.mem.finalizer
  }

  /** A normal pass on its way, with nothing to report yet. */
  ghost predicate Underway(k: Key, spec: Spec, before: Machine, p: Pass) {
    && Prog.OnTheWay(k, spec, p) && Unmarked(p.log) && SameReport(p.mem, before) && p.mem.finalizer
    && (k.kind == VM ==> (p.call.LbGetting? || p.call.LbUpdating? ==> Noted(p.log)))
    && (k.kind == VM && (p.call.Finding? || p.call.Creating? || p.call.Patching?) ==> !Noted(p.log))
    && (p.call.Getting? ==> p.log == []) && (P.LbCall(p.call) ==> p.call.lb != "")
    && (p.call.Patching? ==> k.kind == VM && p.sight.Saw?)
  }

  /** Where a normal pass stands. */
  ghost predicate Stands(k: Key, spec: Spec, before: Machine, p: Pass) {
    if p.call.Closing? then Settled(k, spec, before, p) else Underway(k, spec, before, p)
  }

  // ---- one answer

  lemma MarkStep(p: Pass, n: Pass, a: Answer)
    requires Unmarked(p.log) && n.log == p.log + [Exchange(p.call, a)]
    ensures forall m :: Heard(n.log, m) <==> MarkOf(Exchange(p.call, a)) == Some(m)
    ensures MarkOf(Exchange(p.call, a)) == None ==> Unmarked(n.log)
    ensures Noted(n.log) <==> Noted(p.log) || Notes(Exchange(p.call, a))
    ensures n.log[|n.log| - 1] == Exchange(p.call, a)
  {
    hide MarkOf, Notes;
    var x := Exchange(p.call, a);
    assert n.log[|p.log|] == x && forall i :: 0 <= i < |p.log| ==> n.log[i] == p.log[i];
    if Noted(p.log) {
      var i :| 0 <= i < |p.log| && Notes(p.log[i]);
      assert Notes(n.log[i]);
    }
  }

  /** The server has just come into the hands of the pass. */
  ghost predicate JustSeen(k: Key, spec: Spec, before: Machine, p: Pass, id: string) {
    && P.NotJoined(p.log) && Prog.PatchesDone(p.log) && Prog.NotAttached(p.log, spec.vpcID) && p.facts.clusterReady && p.facts.bootstrap
    && Unmarked(p.log) && SameReport(p.mem, before) && p.mem.finalizer && !Errored(k, spec, p)
    && (k.kind == VM ==> (Noted(p.log) <==> ServerID(p.mem) == id))
  }

  /** The pass has come to the load balancer. */
  ghost predicate Arrives(k: Key, spec: Spec, before: Machine, p: Pass) {
    && P.NotJoined(p.log) && Prog.PatchesDone(p.log) && p.facts.clusterReady && p.facts.bootstrap && Unmarked(p.log)
    && SameReport(p.mem, before) && p.mem.finalizer && !Errored(k, spec, p) && AtLb(k, spec, p)
  }

  lemma JoinStands(k: Key, spec: Spec, before: Machine, p: Pass)
    requires Arrives(k, spec, before, p)
    ensures Stands(k, spec, before, Join(k.kind, spec, p, p.sight.id, p.sight.status))
  {
    hide PID.ToResourceID, Prog.PatchesDone, Prog.NotAttached, R.Attached, P.NotJoined, R.Joined, LoadBalancerID, Noted, MarkOf, Errored;
    P.NotYet(p.log);
    NoneHeard(p.log);
    SameErrors(k, spec, p, Join(k.kind, spec, p, p.sight.id, p.sight.status));
  }

  lemma InstanceStands(k: Key, spec: Spec, before: Machine, p: Pass, id: string, status: string)
    requires k.kind == VM && JustSeen(k, spec, before, p, id)
    ensures Stands(k, spec, before, Have(VM, spec, p, id, status))
  {
    hide PID.ToResourceID, PID.FromResourceID, Prog.PatchesDone, Prog.NotAttached, R.Attached, P.NotJoined, R.Joined, LoadBalancerID, Noted, MarkOf, Errored,
         Join, Settled;
    if ServerID(p.mem) == id {
      var p1 := p.(sight := Saw(id, status));
      SameErrors(k, spec, p, p1);
      JoinStands(k, spec, before, p1);
    }
  }

  lemma BareMetalStands(k: Key, spec: Spec, before: Machine, p: Pass, id: string, status: string)
    requires k.kind == BareMetal && JustSeen(k, spec, before, p, id)
    ensures Stands(k, spec, before, Have(BareMetal, spec, p, id, status))
  {
    hide PID.ToResourceID, PID.FromResourceID, Prog.PatchesDone, Prog.NotAttached, R.Attached, P.NotJoined, R.Joined, LoadBalancerID, Noted, MarkOf, Errored,
         Join;
    NoneHeard(p.log);
    SameErrors(k, spec, p, Have(BareMetal, spec, p, id, status));
    if status == "active" && spec.vpcID == "" {
      hide Settled, Underway;
      var p1 := p.(sight := Saw(id, status), mem := p.mem.(providerID := PID.FromResourceID(id)));
      SameErrors(k, spec, p, p1);
      JoinStands(k, spec, before, p1);
    }
  }

  lemma HaveStands(k: Key, spec: Spec, before: Machine, p: Pass, id: string, status: string)
    requires JustSeen(k, spec, before, p, id)
    ensures Stands(k, spec, before, Have(k.kind, spec, p, id, status))
  {
    hide Have, Stands, JustSeen;
    if k.kind == VM { InstanceStands(k, spec, before, p, id, status); } else { BareMetalStands(k, spec, before, p, id, status); }
  }

  lemma NoneHeard(log: seq<Exchange>)
    requires Unmarked(log)
    ensures forall m :: !Heard(log, m)
  {
    hide MarkOf;
  }

  lemma SameErrors(k: Key, spec: Spec, p: Pass, n: Pass)
    requires n.log == p.log
    ensures Errored(k, spec, n) == Errored(k, spec, p)
  {
  }

  /** The answer is of a kind that the call can get. */
  predicate Fits(call: Call, a: Answer) {
    match call
    case Getting(id) => a.NotFound? || a.Failed? || (a.Found? && a.id == id)
    case Finding => a.Failed? || a.Listed?
    case Creating => (a.Created? && a.id != "") || a.CreateFailed?
    case Patching => a.Failed? || a.Done?
    case VpcListing(_) => a.VpcListed? || a.VpcUnsupported? || a.Failed?
    case VpcAttaching(_) => a.Done? || a.VpcUnsupported? || a.Failed?
    case LbGetting(_, _) => a.LbGot? || a.NotFound? || a.Failed?
    case LbUpdating(_, _) => a.Done? || a.Unprocessable? || a.Failed?
    case _ => true
  }

  lemma AllowedFits(cfg: Config, s: State, k: Key, call: Call, a: Answer)
    requires k in cfg.machines && Allowed(cfg, s, k, call, a)
    ensures Fits(call, a)
  {
    hide Faithful;
  }

  lemma GetStands(cfg: Config, servers: map<string, Server>, k: Key, before: Machine, p: Pass, a: Answer)
    requires k in cfg.machines && PassOK(cfg, servers, k, p) && Underway(k, cfg.machines[k], before, p) && p.call.Getting? && Fits(p.call, a)
    ensures Stands(k, cfg.machines[k], before, Next(k, cfg.machines[k], p, a).value)
  {
    hide PID.ToResourceID, OwnedBy, Scan, Have, Prog.PatchesDone, Prog.NotAttached, R.Attached, P.NotJoined, R.Joined, LoadBalancerID, Noted, Heard, Unmarked;
    var spec := cfg.machines[k];
    var p1 := p.(log := p.log + [Exchange(p.call, a)]);
    Prog.LogStep(p, p1, a);
    P.LogStep(p, p1, a);
    MarkStep(p, p1, a);
    if a.Found? { HaveStands(k, spec, before, p1, a.id, a.status); }
  }

  lemma FindStands(cfg: Config, servers: map<string, Server>, k: Key, before: Machine, p: Pass, a: Answer)
    requires k in cfg.machines && PassOK(cfg, servers, k, p) && Underway(k, cfg.machines[k], before, p) && p.call.Finding? && Fits(p.call, a) && P.NamesServers(p, a)
    ensures Stands(k, cfg.machines[k], before, Next(k, cfg.machines[k], p, a).value)
  {
    hide PID.ToResourceID, OwnedBy, Scan, Have, Prog.PatchesDone, Prog.NotAttached, R.Attached, P.NotJoined, R.Joined, LoadBalancerID, Noted, Heard, Unmarked;
    var spec := cfg.machines[k];
    var p1 := p.(log := p.log + [Exchange(p.call, a)]);
    Prog.LogStep(p, p1, a);
    P.LogStep(p, p1, a);
    MarkStep(p, p1, a);
    if a.Listed? {
      var r := Scan(k.kind, a.entries, Params(k, spec));
      if r.One? {
        R.ScanFromList(k.kind, a.entries, Params(k, spec));
        HaveStands(k, spec, before, p1, r.entry.id, r.entry.status);
      }
    }
  }

  lemma CreateStands(cfg: Config, servers: map<string, Server>, k: Key, before: Machine, p: Pass, a: Answer)
    requires k in cfg.machines && PassOK(cfg, servers, k, p) && Underway(k, cfg.machines[k], before, p) && p.call.Creating? && Fits(p.call, a)
    ensures Stands(k, cfg.machines[k], before, Next(k, cfg.machines[k], p, a).value)
  {
    hide PID.ToResourceID, OwnedBy, Scan, Have, Prog.PatchesDone, Prog.NotAttached, R.Attached, P.NotJoined, R.Joined, LoadBalancerID, Noted, Heard, Unmarked;
    var spec := cfg.machines[k];
    var p1 := p.(log := p.log + [Exchange(p.call, a)]);
    Prog.LogStep(p, p1, a);
    P.LogStep(p, p1, a);
    MarkStep(p, p1, a);
    if a.Created? { HaveStands(k, spec, before, p1, a.id, a.status); }
  }

  lemma PatchStands(cfg: Config, servers: map<string, Server>, k: Key, before: Machine, p: Pass, a: Answer)
    requires k in cfg.machines && PassOK(cfg, servers, k, p) && Underway(k, cfg.machines[k], before, p) && p.call.Patching? && Fits(p.call, a)
    ensures Stands(k, cfg.machines[k], before, Next(k, cfg.machines[k], p, a).value)
  {
    hide PID.ToResourceID, OwnedBy, Scan, Prog.PatchesDone, Prog.NotAttached, R.Attached, P.NotJoined, R.Joined, LoadBalancerID, Noted, Heard, Unmarked, Join;
    var n := Next(k, cfg.machines[k], p, a).value;
    var p1 := p.(log := p.log + [Exchange(p.call, a)]);
    Prog.LogStep(p, p1, a);
    P.LogStep(p, p1, a);
    P.NotYet(p1.log);
    MarkStep(p, p1, a);
    if a.Done? { JoinStands(k, cfg.machines[k], before, p1); }
  }

  /** The pass has got past the load balancer. */
  lemma FinishStands(k: Key, spec: Spec, before: Machine, p: Pass)
    requires PastLb(k, spec, p) && p.facts.clusterReady && p.facts.bootstrap && SameReport(p.mem, before) && p.mem.finalizer
    requires !Errored(k, spec, p) && (forall m :: !Heard(p.log, m)) && (spec.controlPlane ==> LoadBalancerID(k.kind, p.facts) != "")
    ensures Settled(k, spec, before, Finish(k.kind, p, p.sight.status))
  {
    hide PID.ToResourceID, R.Attached, R.Joined, LoadBalancerID, Noted, MarkOf, Errored, Heard, P.Admitted;
    SameErrors(k, spec, p, Finish(k.kind, p, p.sight.status));
  }

  lemma LbGetStands(cfg: Config, servers: map<string, Server>, k: Key, before: Machine, p: Pass, a: Answer)
    requires k in cfg.machines && PassOK(cfg, servers, k, p) && Underway(k, cfg.machines[k], before, p) && p.call.LbGetting? && Fits(p.call, a)
    ensures Stands(k, cfg.machines[k], before, Next(k, cfg.machines[k], p, a).value)
  {
    hide PID.ToResourceID, OwnedBy, Scan, Prog.PatchesDone, Prog.NotAttached, R.Attached, P.NotJoined, R.Joined, LoadBalancerID, Noted, Heard, Unmarked,
         Finish;
    var p1 := p.(log := p.log + [Exchange(p.call, a)]);
    Prog.LogStep(p, p1, a);
    P.LogStep(p, p1, a);
    P.NotYet(p1.log);
    P.StillNot(p1.log);
    MarkStep(p, p1, a);
    if a.LbGot? && a.active && p.call.id in a.members { FinishStands(k, cfg.machines[k], before, p1); }
  }

  lemma LbUpdateStands(cfg: Config, servers: map<string, Server>, k: Key, before: Machine, p: Pass, a: Answer)
    requires k in cfg.machines && PassOK(cfg, servers, k, p) && Underway(k, cfg.machines[k], before, p) && p.call.LbUpdating? && Fits(p.call, a)
    ensures Stands(k, cfg.machines[k], before, Next(k, cfg.machines[k], p, a).value)
  {
    hide PID.ToResourceID, OwnedBy, Scan, Prog.PatchesDone, Prog.NotAttached, R.Attached, P.NotJoined, R.Joined, LoadBalancerID, Noted, Heard, Unmarked,
         Finish;
    var p1 := p.(log := p.log + [Exchange(p.call, a)]);
    Prog.LogStep(p, p1, a);
    P.LogStep(p, p1, a);
    P.NotYet(p1.log);
    P.StillNot(p1.log);
    MarkStep(p, p1, a);
    if a.Done? { FinishStands(k, cfg.machines[k], before, p1); }
  }

  lemma VpcListStands(cfg: Config, servers: map<string, Server>, k: Key, before: Machine, p: Pass, a: Answer)
    requires k in cfg.machines && PassOK(cfg, servers, k, p) && Underway(k, cfg.machines[k], before, p) && p.call.VpcListing? && Fits(p.call, a)
    ensures Stands(k, cfg.machines[k], before, Next(k, cfg.machines[k], p, a).value)
  {
    hide PID.ToResourceID, OwnedBy, Scan, Prog.PatchesDone, Prog.NotAttached, R.Attached, P.NotJoined, R.Joined, LoadBalancerID, Noted, Heard, Unmarked, Join;
    var p1 := p.(log := p.log + [Exchange(p.call, a)]);
    Prog.LogStep(p, p1, a);
    P.LogStep(p, p1, a);
    Prog.NoneAttached(p.log, cfg.machines[k].vpcID);
    Prog.NoneAttached(p1.log, cfg.machines[k].vpcID);
    MarkStep(p, p1, a);
    if a.VpcListed? && cfg.machines[k].vpcID in a.vpcs { JoinStands(k, cfg.machines[k], before, p1); }
  }

  lemma VpcAttachStands(cfg: Config, servers: map<string, Server>, k: Key, before: Machine, p: Pass, a: Answer)
    requires k in cfg.machines && PassOK(cfg, servers, k, p) && Underway(k, cfg.machines[k], before, p) && p.call.VpcAttaching? && Fits(p.call, a)
    ensures Stands(k, cfg.machines[k], before, Next(k, cfg.machines[k], p, a).value)
  {
    hide PID.ToResourceID, OwnedBy, Scan, Prog.PatchesDone, Prog.NotAttached, R.Attached, P.NotJoined, R.Joined, LoadBalancerID, Noted, Heard, Unmarked;
    var p1 := p.(log := p.log + [Exchange(p.call, a)]);
    Prog.LogStep(p, p1, a);
    Prog.NoneAttached(p1.log, cfg.machines[k].vpcID);
    MarkStep(p, p1, a);
  }

  lemma NextStands(cfg: Config, s: State, k: Key, before: Machine, a: Answer)
    requires Inv(cfg, s) && Enabled(cfg, s, Answered(k, a)) && !s.passes[k].mem.deleting && !s.passes[k].call.Closing?
    requires Underway(k, cfg.machines[k], before, s.passes[k])
    ensures var n := Next(k, cfg.machines[k], s.passes[k], a); n.Some? && Stands(k, cfg.machines[k], before, n.value)
  {
    hide PID.ToResourceID, OwnedBy, WellMade, CallOK, MachineOK, Underway, Stands, QueriedBy, AfterGet, AfterFind, AfterCreate, AfterVpcList, AfterVpcAttach,
         AfterLbGet, AfterLbUpdate, AfterLbRemoveGet, AfterRelist, Join;
    var p := s.passes[k];
    assert PassOK(cfg, s.servers, k, p);
    AllowedFits(cfg, s, k, p.call, a);
    if p.call.Getting? { GetStands(cfg, s.servers, k, before, p, a); }
    else if p.call.Finding? { FindStands(cfg, s.servers, k, before, p, a); }
    else if p.call.Creating? { CreateStands(cfg, s.servers, k, before, p, a); }
    else if p.call.VpcListing? { VpcListStands(cfg, s.servers, k, before, p, a); }
    else if p.call.VpcAttaching? { VpcAttachStands(cfg, s.servers, k, before, p, a); }
    else if p.call.LbGetting? { LbGetStands(cfg, s.servers, k, before, p, a); }
    else if p.call.LbUpdating? { LbUpdateStands(cfg, s.servers, k, before, p, a); }
    else { PatchStands(cfg, s.servers, k, before, p, a); }
  }

  // ---- over runs

  /** The pass of k against the stored object: a normal one stands where its log says, a delete pass leaves the report alone. */
  ghost predicate PassStands(k: Key, spec: Spec, m: Machine, p: Pass) {
    && (!p.mem.deleting && !HasTerminalFailure(k.kind, m) ==> Stands(k, spec, m, p))
    && (!p.mem.deleting && HasTerminalFailure(k.kind, m) ==> p.call.Closing?)
    && (p.mem.deleting ==> p.mem.ready == m.ready && p.mem.provisioned == m.provisioned && p.mem.providerID == m.providerID)
  }

  ghost predicate ReportInv(cfg: Config, s: State) {
    forall k :: k in s.passes && k in s.stored ==> k in cfg.machines && PassStands(k, cfg.machines[k], s.stored[k], s.passes[k])
  }

  lemma StartStands(k: Key, spec: Spec, m: Machine, f: Facts)
    ensures PassStands(k, spec, m, Start(k, spec, m, f))
  {
    hide PID.ToResourceID, LoadBalancerID, Scan;
  }

  lemma DeleteKeepsReport(cfg: Config, servers: map<string, Server>, k: Key, p: Pass, a: Answer)
    requires k in cfg.machines && PassOK(cfg, servers, k, p) && DeleteCall(p.call)
    ensures var n := Next(k, cfg.machines[k], p, a);
            && n.Some? && n.value.mem.deleting == p.mem.deleting && n.value.mem.ready == p.mem.ready && n.value.mem.provisioned == p.mem.provisioned
            && n.value.mem.providerID == p.mem.providerID
  {
    hide PID.ToResourceID, OwnedBy, Scan, AfterLbRemoveGet;
  }

  lemma StandsAnswered(cfg: Config, s: State, k: Key, a: Answer)
    requires ConfigOK(cfg) && Inv(cfg, s) && L.LifeInv(s) && ReportInv(cfg, s) && Enabled(cfg, s, Answered(k, a)) && k in s.stored
    requires var s' := Deliver(cfg, s, k, a); k in s'.passes && k in s'.stored
    ensures var s' := Deliver(cfg, s, k, a); PassStands(k, cfg.machines[k], s'.stored[k], s'.passes[k])
  {
    hide PID.ToResourceID, Next, ServersAfter, Allowed, CallOK, MachineOK, ServersOK, Settled, Prog.OnTheWay, Unmarked, Noted, L.Agrees, L.Reported;
    var p := s.passes[k];
    assert PassStands(k, cfg.machines[k], s.stored[k], p) && PassOK(cfg, s.servers, k, p) && L.PassLifeOK(k, p);
    if p.call.Closing? {
      ClosingIsLast(k, cfg.machines[k], p, a);
    } else if p.mem.deleting {
      DeleteKeepsReport(cfg, s.servers, k, p, a);
    } else {
      StaysNormal(cfg, s, k, a);
      NextStands(cfg, s, k, s.stored[k], a);
      var m := Deliver(cfg, s, k, a).stored[k];
      if m != s.stored[k] { SameStands(k, cfg.machines[k], s.stored[k], m, Next(k, cfg.machines[k], p, a).value); }
    }
  }

  lemma StaysNormal(cfg: Config, s: State, k: Key, a: Answer)
    requires ConfigOK(cfg) && Inv(cfg, s) && L.LifeInv(s) && Enabled(cfg, s, Answered(k, a)) && !s.passes[k].call.Closing? && !s.passes[k].mem.deleting
    ensures var n := Next(k, cfg.machines[k], s.passes[k], a); n.Some? && !n.value.mem.deleting
  {
    hide PID.ToResourceID, Next, ServersAfter, StoredAfter, Allowed, Inv, L.LifeInv;
    L.PassLifeStep(cfg, s, k, a);
  }

  /** Only the report of the object before the pass matters. */
  lemma SameStands(k: Key, spec: Spec, m: Machine, m': Machine, p: Pass)
    requires Stands(k, spec, m, p) && SameReport(m, m')
    ensures Stands(k, spec, m', p)
  {
    hide Why, Errored, Prog.OnTheWay, Unmarked, Noted;
  }

  lemma StandsStep(cfg: Config, s: State, e: Event, s': State, k: Key)
    requires ConfigOK(cfg) && Inv(cfg, s) && L.LifeInv(s) && ReportInv(cfg, s) && Step(cfg, s, e, s') && k in s'.passes && k in s'.stored
    ensures k in cfg.machines && PassStands(k, cfg.machines[k], s'.stored[k], s'.passes[k])
  {
    hide PID.ToResourceID, Start, Next, ServersAfter, Allowed, PassOK, MachineOK, ServersOK, Stands, L.LifeInv;
    if e.Begin? && e.k == k {
      StartStands(k, cfg.machines[k], s.stored[k], e.facts);
    } else if e.Answered? && e.k == k {
      StandsAnswered(cfg, s, k, e.a);
    } else if s'.stored[k] != s.stored[k] && !s.passes[k].mem.deleting && !HasTerminalFailure(k.kind, s.stored[k]) {
      SameStands(k, cfg.machines[k], s.stored[k], s'.stored[k], s.passes[k]);
    }
  }

  lemma {:induction false} ReportAlong(cfg: Config, states: seq<State>, events: seq<Event>, i: nat)
    requires ConfigOK(cfg) && IsRun(cfg, states, events) && i < |states|
    ensures ReportInv(cfg, states[i])
  {
    hide Apply, Enabled, Inv, L.LifeInv, PassStands;
    if i > 0 {
      ReportAlong(cfg, states, events, i - 1);
      InvAlong(cfg, states, events, i - 1);
      L.LifeAlong(cfg, states, events, i - 1);
      var s, e, s' := states[i - 1], events[i - 1], states[i];
      forall k | k in s'.passes && k in s'.stored ensures k in cfg.machines && PassStands(k, cfg.machines[k], s'.stored[k], s'.passes[k]) {
        StandsStep(cfg, s, e, s', k);
      }
    }
  }

  // ---- the theorems

  /** The i-th event is a Close, taking effect, of a normal pass over the object of k, which has no terminal failure. */
  ghost predicate Closes(states: seq<State>, events: seq<Event>, i: nat, k: Key)
    requires i < |events| && |states| == |events| + 1
  {
    && events[i].Answered? && events[i].k == k && Acted(events[i].a)
    && k in states[i].passes && states[i].passes[k].call.Closing? && !states[i].passes[k].mem.deleting
    && k in states[i].stored && !HasTerminalFailure(k.kind, states[i].stored[k])
  }

  lemma CloseStores(cfg: Config, states: seq<State>, events: seq<Event>, i: nat, k: Key)
    requires ConfigOK(cfg) && IsRun(cfg, states, events) && i < |events| && Closes(states, events, i, k)
    ensures k in cfg.machines && Settled(k, cfg.machines[k], states[i].stored[k], states[i].passes[k])
    ensures k in states[i + 1].stored && SameReport(states[i + 1].stored[k], states[i].passes[k].mem) && states[i + 1].stored[k].finalizer
  {
    hide PID.ToResourceID, Start, Next, ServersAfter, Allowed, Why, Errored, Flags;
    ReportAlong(cfg, states, events, i);
    assert Step(cfg, states[i], events[i], states[i + 1]);
    assert PassStands(k, cfg.machines[k], states[i].stored[k], states[i].passes[k]);
  }

  /**
   In every run, when a normal pass closes: a reason that was not stored is stored afterwards if and only if its cause is
   in the log of the pass, with the status and the marks that go with it. One cause or an error there always is, never
   both and never two; and after an error the report is what it was.
   */
  lemma ReportIff(cfg: Config, states: seq<State>, events: seq<Event>, i: nat, k: Key)
    requires ConfigOK(cfg) && IsRun(cfg, states, events) && i < |events| && Closes(states, events, i, k)
    ensures k in cfg.machines && k in states[i + 1].stored && states[i + 1].stored[k].finalizer
    ensures var p, m, m' := states[i].passes[k], states[i].stored[k], states[i + 1].stored[k];
            var spec := cfg.machines[k];
            && (forall r :: m.cond != Ready(StatusFor(k.kind, r), r) ==> (m'.cond == Ready(StatusFor(k.kind, r), r) <==> Why(k, spec, p, r)))
            && (forall r :: Why(k, spec, p, r) ==> m'.cond == Ready(StatusFor(k.kind, r), r) && Flags(k.kind, r, m, m'))
            && (Errored(k, spec, p) <==> forall r :: !Why(k, spec, p, r))
            && (Errored(k, spec, p) ==> SameReport(m', m))
  {
    hide Step, Why, Errored, Closes;
    CloseStores(cfg, states, events, i, k);
  }

  /**
   When a machine fails for good, of either kind: exactly when its pass saw a status that is neither "pending" nor
   "active" (an instance with its ID stored and, on a control plane, after it was accepted), or heard that its plan has no VPCs.
   */
  lemma FailsForGoodIff(cfg: Config, states: seq<State>, events: seq<Event>, i: nat, k: Key)
    requires ConfigOK(cfg) && IsRun(cfg, states, events) && i < |events| && Closes(states, events, i, k)
    ensures k in cfg.machines && k in states[i + 1].stored
    ensures var p := states[i].passes[k];
            HasTerminalFailure(k.kind, states[i + 1].stored[k]) <==>
              (Judged(k, cfg.machines[k], p) && P.Unexpected(p.sight.status)) || (k.kind == BareMetal && Heard(p.log, VpcRefused))
  {
    hide Step, Errored, Heard, Noted, R.Attached, R.Joined;
    ReportIff(cfg, states, events, i, k);
    var p, m, m', spec := states[i].passes[k], states[i].stored[k], states[i + 1].stored[k], cfg.machines[k];
    assert Why(k, spec, p, UnexpectedStatus) <==> Judged(k, spec, p) && P.Unexpected(p.sight.status);
    assert Why(k, spec, p, VPCAttachFailed) <==> Heard(p.log, VpcRefused);
    assert HasTerminalFailure(k.kind, m') <==> m'.cond == Ready(False, UnexpectedStatus) || (k.kind == BareMetal && m'.cond == Ready(False, VPCAttachFailed));
    assert m.cond != Ready(StatusFor(k.kind, UnexpectedStatus), UnexpectedStatus);
    if k.kind == BareMetal { assert m.cond != Ready(StatusFor(k.kind, VPCAttachFailed), VPCAttachFailed); }
  }

  /** Only a 404 to the Get by ID makes a server missing; any other failure of any call leaves the report as it was. */
  lemma MissingIffGet404(cfg: Config, states: seq<State>, events: seq<Event>, i: nat, k: Key)
    requires ConfigOK(cfg) && IsRun(cfg, states, events) && i < |events| && Closes(states, events, i, k)
    ensures k in states[i].passes && k in states[i].stored && k in states[i + 1].stored
    ensures var p, m, m' := states[i].passes[k], states[i].stored[k], states[i + 1].stored[k];
            && (m.cond != Ready(False, ServerMissing) ==>
                  (m'.cond == Ready(False, ServerMissing) <==> exists j :: 0 <= j < |p.log| && p.log[j].call.Getting? && p.log[j].answer.NotFound?))
            && (p.log != [] && p.log[|p.log| - 1].answer.Failed? ==> SameReport(m', m))
  {
    hide Step, Scan;
    ReportIff(cfg, states, events, i, k);
    var p, m, m', spec := states[i].passes[k], states[i].stored[k], states[i + 1].stored[k], cfg.machines[k];
    assert Why(k, spec, p, ServerMissing) <==> Heard(p.log, GetSays404);
    assert StatusFor(k.kind, ServerMissing) == False;
    Got404(p.log);
  }

  lemma Got404(log: seq<Exchange>)
    ensures Heard(log, GetSays404) <==> exists j :: 0 <= j < |log| && log[j].call.Getting? && log[j].answer.NotFound?
  {
    if j :| 0 <= j < |log| && log[j].call.Getting? && log[j].answer.NotFound? {
      assert MarkOf(log[j]) == Some(GetSays404);
    }
  }
}

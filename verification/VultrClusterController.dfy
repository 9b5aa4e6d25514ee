/**
 internal/controller/vultrcluster_controller.go: which load balancer belongs to a cluster. The ID is kept twice, in the
 spec and in the status reference; the cluster controller reads the spec first, the machines the status first.
 */
module VultrClusterController {
  import opened Options
  import M = Machines
  import opened Search

  datatype LB = LB(id: string, ipv4: string)

  /** Get by a non-empty ID: an error, a load balancer, or a success that carries none. */
  datatype GetAnswer = GetError | Got(lb: LB) | GotEmpty

  /** Create: a load balancer, or an error that may have left one behind. */
  datatype CreateAnswer = CreateOk(lb: LB) | CreateError(made: Option<string>)

  datatype LBCondition = Unset | FetchFailed | CreateFailed | WaitingForIP | LBReady

  /** The fields of the VultrCluster that the controller reads and writes. */
  datatype Cluster = Cluster(finalizer: bool, specID: string, refID: string, running: bool, cond: LBCondition, host: string,
                             ready: bool, provisioned: Option<bool>)

  /** The ID that reconcileNormal works with. */
  function WorkingID(c: Cluster): string {
    if c.specID != "" then c.specID else c.refID
  }

  /** APIServerLoadBalancerID, which the machines work with. */
  function APIServerLoadBalancerID(c: Cluster): string {
    if c.refID != "" then c.refID else c.specID
  }

  /** What a pass is told, and whether its Close persists the object. */
  datatype Inputs = Inputs(get: GetAnswer, create: CreateAnswer, persisted: bool)

  /** Get answers about the ID it was asked for, and created load balancers have an ID. */
  predicate Sane(c: Cluster, x: Inputs) {
    && (WorkingID(c) != "" && x.get.Got? ==> x.get.lb.id == WorkingID(c))
    && (x.create.CreateOk? ==> x.create.lb.id != "")
  }

  /** There is no load balancer to be had by ID, so the pass creates one. */
  predicate Creates(c: Cluster, x: Inputs) {
    WorkingID(c) == "" || x.get.GotEmpty?
  }

  /** The load balancer that the pass ends up with. */
  function Obtained(c: Cluster, x: Inputs): Option<LB> {
    if Creates(c, x) then (if x.create.CreateOk? then Some(x.create.lb) else None)
    else if x.get.Got? then Some(x.get.lb)
    else None
  }

  /** The load balancer that the pass makes, recorded or not. */
  function Makes(c: Cluster, x: Inputs): Option<string> {
    if !Creates(c, x) then None
    else if x.create.CreateOk? then Some(x.create.lb.id)
    else x.create.made
  }

  function Recorded(c: Cluster, lb: LB): Cluster {
    var c1 := c.(specID := lb.id, refID := lb.id);
    if !c1.running && lb.ipv4 == "" then c1.(provisioned := Some(false), cond := WaitingForIP)
    else c1.(cond := LBReady, host := lb.ipv4, ready := true, provisioned := Some(true))
  }

  function NormalPass(c: Cluster, x: Inputs): Cluster {
    var c1 := c.(finalizer := true);
    match Obtained(c, x)
    case Some(lb) => Recorded(c1, lb)
    case None => c1.(cond := if Creates(c, x) then CreateFailed else FetchFailed)
  }

  /** Whether the delete pass deletes a load balancer and drops the finalizer. */
  datatype Removal = Removal(deleted: Option<string>, finalizer: bool)

  function DeletePass(c: Cluster, get: GetAnswer, deleteOk: bool): Removal {
    if c.refID == "" || get.GotEmpty? then Removal(None, false)
    else if get.GetError? then Removal(None, c.finalizer)
    else if deleteOk then Removal(Some(get.lb.id), false)
    else Removal(None, c.finalizer)
  }

  /** The VultrCluster in memory, changed step by step. */
  class ClusterScope {
    var finalizer: bool
    var specID: string
    var refID: string
    var running: bool
    var cond: LBCondition
    var host: string
    var ready: bool
    var provisioned: Option<bool>

    function Value(): Cluster
      reads this
    {
      Cluster(finalizer, specID, refID, running, cond, host, ready, provisioned)
    }

    constructor (c: Cluster)
      ensures Value() == c
    {
      finalizer, specID, refID, running := c.finalizer, c.specID, c.refID, c.running;
      cond, host, ready, provisioned := c.cond, c.host, c.ready, c.provisioned;
    }

    /** reconcileNormal. `made` is the load balancer that came into being on the way. */
    method ReconcileNormal(get: GetAnswer, create: CreateAnswer) returns (ok: bool, made: Option<string>)
      modifies this
      ensures forall p :: var x := Inputs(get, create, p);
                && Value() == NormalPass(old(Value()), x)
                && made == Makes(old(Value()), x)
                && (ok <==> Obtained(old(Value()), x).Some?)
    {
      finalizer := true;
      made := None;
      var id := refID;
      if specID != "" {
        id := specID;
      }
      var lb: Option<LB> := None;
      if id != "" {
        if get.GetError? {
          cond := FetchFailed;
          return false, made;
        }
        if get.Got? {
          lb := Some(get.lb);
        }
      }
      if lb.None? {
        if create.CreateError? {
          cond := CreateFailed;
          return false, create.made;
        }
        lb := Some(create.lb);
        made := Some(create.lb.id);
      }
      refID := lb.value.id;
      specID := lb.value.id;
      if !running && lb.value.ipv4 == "" {
        provisioned := Some(false);
        cond := WaitingForIP;
        return true, made;
      }
      cond := LBReady;
      host := lb.value.ipv4;
      ready := true;
      provisioned := Some(true);
      return true, made;
    }

    /** reconcileDelete, which reads the status reference only. */
    method ReconcileDelete(get: GetAnswer, deleteOk: bool) returns (deleted: Option<string>)
      modifies `finalizer
      ensures Removal(deleted, finalizer) == DeletePass(old(Value()), get, deleteOk)
    {
      deleted := None;
      var id := refID;
      if id != "" {
        if get.GetError? {
          return;
        }
        if get.Got? {
          if !deleteOk {
            return;
          }
          deleted := Some(get.lb.id);
        }
      }
      finalizer := false;
    }
  }

  // ---- runs of normal passes

  /** The stored object and the load balancers made so far. */
  datatype Account = Account(stored: Cluster, made: seq<string>)

  function Pass(a: Account, x: Inputs): Account {
    Account(if x.persisted then NormalPass(a.stored, x) else a.stored,
            a.made + match Makes(a.stored, x) case Some(id) => [id] case None => [])
  }

  function Passes(a: Account, xs: seq<Inputs>): Account
    decreases |xs|
  {
    if xs == [] then a else Passes(Pass(a, xs[0]), xs[1..])
  }

  predicate AllSane(a: Account, xs: seq<Inputs>)
    decreases |xs|
  {
    xs == [] || (Sane(a.stored, xs[0]) && AllSane(Pass(a, xs[0]), xs[1..]))
  }

  /** The pass makes a load balancer whose ID it does not store. */
  predicate Leaks(c: Cluster, x: Inputs) {
    Makes(c, x).Some? && !(x.create.CreateOk? && x.persisted)
  }

  /** The pass stores a new load balancer in place of the one the object named. */
  predicate Abandons(c: Cluster, x: Inputs) {
    Creates(c, x) && x.create.CreateOk? && x.persisted && WorkingID(c) != ""
  }

  function Count(b: bool): nat { if b then 1 else 0 }

  function Lost(a: Account, xs: seq<Inputs>): nat
    decreases |xs|
  {
    if xs == [] then 0
    else Count(Leaks(a.stored, xs[0])) + Count(Abandons(a.stored, xs[0])) + Lost(Pass(a, xs[0]), xs[1..])
  }

  lemma PassConserves(a: Account, x: Inputs)
    requires Sane(a.stored, x)
    ensures |Pass(a, x).made| + Count(WorkingID(a.stored) != "") ==
            |a.made| + Count(WorkingID(Pass(a, x).stored) != "") + Count(Leaks(a.stored, x)) + Count(Abandons(a.stored, x))
  {
  }

  /**
   Conservation: over any run, the load balancers made are those that some pass leaked or abandoned, and the one that
   the object names if it did not name one before.
   */
  lemma {:induction false} LoadBalancersConserved(a: Account, xs: seq<Inputs>)
    requires AllSane(a, xs)
    ensures var b := Passes(a, xs);
            |b.made| + Count(WorkingID(a.stored) != "") == |a.made| + Count(WorkingID(b.stored) != "") + Lost(a, xs)
    decreases |xs|
  {
    if xs != [] {
      PassConserves(a, xs[0]);
      LoadBalancersConserved(Pass(a, xs[0]), xs[1..]);
    }
  }

  /** What can go wrong in a run: a Close that does not persist, a success without a load balancer, a create that errs but acts. */
  datatype Faults = Faults(lostClose: bool, emptyGet: bool, leakingCreate: bool)

  predicate Within(f: Faults, x: Inputs) {
    && (!x.persisted ==> f.lostClose)
    && (x.get.GotEmpty? ==> f.emptyGet)
    && (x.create.CreateError? && x.create.made.Some? ==> f.leakingCreate)
  }

  predicate AllWithin(f: Faults, xs: seq<Inputs>) {
    forall x :: x in xs ==> Within(f, x)
  }

  /** In every run within the faults, a cluster that starts without a load balancer gets at most one. */
  ghost predicate AtMostOne(f: Faults) {
    forall c: Cluster, xs: seq<Inputs> :: WorkingID(c) == "" && AllSane(Account(c, []), xs) && AllWithin(f, xs) ==> |Passes(Account(c, []), xs).made| <= 1
  }

  lemma {:induction false} NothingLost(a: Account, xs: seq<Inputs>)
    requires AllWithin(Faults(false, false, false), xs)
    ensures Lost(a, xs) == 0
    decreases |xs|
  {
    if xs != [] {
      assert Within(Faults(false, false, false), xs[0]);
      NothingLost(Pass(a, xs[0]), xs[1..]);
    }
  }

  const NEW := Cluster(false, "", "", false, Unset, "", false, None)

  lemma TwoPasses(x: Inputs, y: Inputs)
    requires Sane(NEW, x) && Sane(Pass(Account(NEW, []), x).stored, y)
    ensures AllSane(Account(NEW, []), [x, y])
    ensures Passes(Account(NEW, []), [x, y]) == Pass(Pass(Account(NEW, []), x), y)
  {
    var a := Account(NEW, []);
    assert [x, y][1..] == [y] && [y][1..] == [];
    assert AllSane(Pass(a, x), [y]);
    assert Passes(Pass(a, x), [y]) == Passes(Pass(Pass(a, x), y), []);
  }

  /** Each fault alone is enough for a second load balancer. */
  lemma FaultMakesTwo(f: Faults)
    requires f.lostClose || f.emptyGet || f.leakingCreate
    ensures !AtMostOne(f)
  {
    var made := CreateOk(LB("a", ""));
    var x, y;
    if f.lostClose {
      x, y := Inputs(GetError, made, false), Inputs(GetError, made, false);
    } else if f.emptyGet {
      x, y := Inputs(GetError, made, true), Inputs(GotEmpty, made, true);
    } else {
      x, y := Inputs(GetError, CreateError(Some("a")), true), Inputs(GetError, made, true);
    }
    TwoPasses(x, y);
    assert AllWithin(f, [x, y]) && WorkingID(NEW) == "";
    assert |Pass(Pass(Account(NEW, []), x), y).made| == 2;
  }

  /** At most one load balancer is made per cluster exactly when none of the three can go wrong. */
  lemma AtMostOneLoadBalancer(f: Faults)
    ensures AtMostOne(f) <==> f == Faults(false, false, false)
  {
    if f != Faults(false, false, false) {
      FaultMakesTwo(f);
    } else {
      forall c: Cluster, xs: seq<Inputs> | WorkingID(c) == "" && AllSane(Account(c, []), xs) && AllWithin(f, xs)
        ensures |Passes(Account(c, []), xs).made| <= 1
      {
        LoadBalancersConserved(Account(c, []), xs);
        NothingLost(Account(c, []), xs);
      }
    }
  }

  /** Both IDs are set and agree. */
  predicate Settled(c: Cluster) {
    c.specID == c.refID != ""
  }

  lemma {:induction false} StaysSettled(a: Account, xs: seq<Inputs>)
    requires Settled(a.stored) && AllSane(a, xs)
    ensures Settled(Passes(a, xs).stored)
    decreases |xs|
  {
    if xs != [] { StaysSettled(Pass(a, xs[0]), xs[1..]); }
  }

  /** A persisted pass that obtained a load balancer makes both IDs agree, and from then on every lookup is the same. */
  lemma LookupsAgree(a: Account, x: Inputs, xs: seq<Inputs>)
    requires Sane(a.stored, x) && x.persisted && Obtained(a.stored, x).Some? && AllSane(Pass(a, x), xs)
    ensures var b := Passes(Pass(a, x), xs).stored;
            Settled(b) && WorkingID(b) == APIServerLoadBalancerID(b) == b.refID
  {
    StaysSettled(Pass(a, x), xs);
  }

  /** Some pass of the run obtained a load balancer and stored it. */
  predicate Obtains(a: Account, xs: seq<Inputs>)
    decreases |xs|
  {
    xs != [] && ((xs[0].persisted && Obtained(a.stored, xs[0]).Some?) || Obtains(Pass(a, xs[0]), xs[1..]))
  }

  /** The status reference names a load balancer if it did before or a pass has stored one; it is never cleared. */
  lemma {:induction false} ReferenceIff(a: Account, xs: seq<Inputs>)
    requires AllSane(a, xs)
    ensures Passes(a, xs).stored.refID != "" <==> a.stored.refID != "" || Obtains(a, xs)
    decreases |xs|
  {
    if xs != [] {
      ReferenceIff(Pass(a, xs[0]), xs[1..]);
    }
  }

  /**
   After any run of normal passes, a delete pass whose calls succeed deletes the load balancer that the machines use if
   and only if the status named one from the start or some pass of the run obtained and stored one. Otherwise it drops
   the finalizer all the same and forgets the ID in the spec.
   */
  lemma DeleteReachesLoadBalancer(a: Account, xs: seq<Inputs>, lb: LB)
    requires AllSane(a, xs) && lb.id == APIServerLoadBalancerID(Passes(a, xs).stored) && lb.id != ""
    ensures var r := DeletePass(Passes(a, xs).stored, Got(lb), true);
            && (r.deleted == Some(lb.id) <==> a.stored.refID != "" || Obtains(a, xs))
            && (r.deleted.None? <==> a.stored.refID == "" && !Obtains(a, xs))
            && !r.finalizer
  {
    ReferenceIff(a, xs);
  }

  /** So it does after any run with one persisted pass that obtained a load balancer. */
  lemma DeleteAfterNormalPasses(a: Account, x: Inputs, xs: seq<Inputs>, lb: LB)
    requires Sane(a.stored, x) && x.persisted && Obtained(a.stored, x).Some? && AllSane(Pass(a, x), xs)
    requires lb.id == APIServerLoadBalancerID(Passes(Pass(a, x), xs).stored)
    ensures DeletePass(Passes(Pass(a, x), xs).stored, Got(lb), true) == Removal(Some(lb.id), false)
  {
    LookupsAgree(a, x, xs);
  }

  // ---- Provisioned and the control plane endpoint

  /** The power status of the reference is written nowhere in the controllers. */
  lemma {:induction false} PowerStatusStays(a: Account, xs: seq<Inputs>)
    ensures Passes(a, xs).stored.running == a.stored.running
    decreases |xs|
  {
    if xs != [] { PowerStatusStays(Pass(a, xs[0]), xs[1..]); }
  }

  /** What is provisioned is ready and has a host for its endpoint. */
  predicate HasEndpoint(c: Cluster) {
    c.provisioned == Some(true) ==> c.host != "" && c.ready
  }

  /** In every run, a cluster that is stored as provisioned is ready and has an endpoint with a host. */
  lemma {:induction false} ProvisionedHasEndpoint(a: Account, xs: seq<Inputs>)
    requires !a.stored.running && HasEndpoint(a.stored)
    ensures HasEndpoint(Passes(a, xs).stored)
    decreases |xs|
  {
    if xs != [] { ProvisionedHasEndpoint(Pass(a, xs[0]), xs[1..]); }
  }

  /** The pass obtains a load balancer that has no address. */
  predicate Unaddressed(c: Cluster, x: Inputs) {
    Obtained(c, x).Some? && Obtained(c, x).value.ipv4 == ""
  }

  /**
   After every run, one more pass clears a stored Provisioned if and only if it obtains a load balancer without an
   address and persists, the power status not being "running" from the start. It takes back neither Ready nor the
   endpoint.
   */
  lemma ClusterProvisionedIsLostIff(a: Account, xs: seq<Inputs>, x: Inputs)
    requires Passes(a, xs).stored.provisioned == Some(true)
    ensures var b := Passes(a, xs);
            var c := Pass(b, x).stored;
            && (c.provisioned != Some(true) <==> x.persisted && Unaddressed(b.stored, x) && !a.stored.running)
            && (c.provisioned != Some(true) ==> c.provisioned == Some(false) && c.cond == WaitingForIP)
            && (b.stored.ready ==> c.ready) && (c.provisioned != Some(true) ==> c.host == b.stored.host)
  {
    PowerStatusStays(a, xs);
  }

  /** And it happens: the load balancer of a provisioned cluster shows up without its address in the next pass. */
  lemma ClusterProvisionedCanBeLost()
    ensures var x := Inputs(GetError, CreateOk(LB("a", "192.0.2.1")), true);
            var y := Inputs(Got(LB("a", "")), CreateError(None), true);
            && AllSane(Account(NEW, []), [x, y])
            && Pass(Account(NEW, []), x).stored.provisioned == Some(true)
            && Passes(Account(NEW, []), [x, y]).stored.provisioned == Some(false)
  {
    TwoPasses(Inputs(GetError, CreateOk(LB("a", "192.0.2.1")), true), Inputs(Got(LB("a", "")), CreateError(None), true));
  }

  // ---- what a pass reports

  /** The load balancer that the answers give, said of the answers alone. */
  ghost predicate Gives(c: Cluster, x: Inputs, lb: LB) {
    if (c.specID == "" && c.refID == "") || x.get == GotEmpty then x.create == CreateOk(lb) else x.get == Got(lb)
  }

  /**
   What a normal pass stores, for every object and all answers, by the condition that it leaves. The finalizer is always
   set; the IDs, the endpoint, Ready and Provisioned change only as said here.
   */
  lemma NormalPassReports(c: Cluster, x: Inputs)
    ensures var d := NormalPass(c, x);
            var named := c.specID != "" || c.refID != "";
            && d.finalizer && d.running == c.running && (d.cond == FetchFailed || d.cond == CreateFailed || d.cond == WaitingForIP || d.cond == LBReady)
            && (d.cond == FetchFailed <==> named && x.get == GetError)
            && (d.cond == CreateFailed <==> (!named || x.get == GotEmpty) && x.create.CreateError?)
            && (d.cond == FetchFailed || d.cond == CreateFailed ==> d == c.(finalizer := true, cond := d.cond))
            && (forall lb :: Gives(c, x, lb) ==>
                  && d.specID == d.refID == lb.id && (d.cond == WaitingForIP || d.cond == LBReady)
                  && (d.cond == WaitingForIP <==> lb.ipv4 == "" && !c.running)
                  && (d.cond == WaitingForIP ==> d.provisioned == Some(false) && d.ready == c.ready && d.host == c.host)
                  && (d.cond == LBReady ==> d.provisioned == Some(true) && d.ready && d.host == lb.ipv4))
  {
  }

  /** If spec and status name different load balancers, the pass works with that of the spec, and both name it afterwards. */
  lemma SpecWins(c: Cluster, x: Inputs)
    requires Sane(c, x) && x.get.Got? && (c.specID != "" || c.refID != "")
    ensures var d := NormalPass(c, x); d.refID == d.specID == if c.specID != "" then c.specID else c.refID
  {
  }

  /** The pass gives the endpoint a host. */
  predicate Addresses(c: Cluster, x: Inputs) {
    x.persisted && Obtained(c, x).Some? && (Obtained(c, x).value.ipv4 != "" || c.running)
  }

  /** No pass of the run gives the endpoint a host. */
  predicate NoneAddresses(a: Account, xs: seq<Inputs>)
    decreases |xs|
  {
    xs == [] || (!Addresses(a.stored, xs[0]) && NoneAddresses(Pass(a, xs[0]), xs[1..]))
  }

  /** After every run the host of the endpoint is the address of the load balancer obtained last with one, or what it was. */
  lemma {:induction false} EndpointIsLastAddress(a: Account, xs: seq<Inputs>) returns (n: nat)
    ensures n <= |xs|
    ensures NoneAddresses(a, xs) ==> Passes(a, xs).stored.host == a.stored.host
    ensures !NoneAddresses(a, xs) ==>
              && n < |xs| && var b := Passes(a, xs[..n]);
                 && Addresses(b.stored, xs[n]) && Passes(a, xs).stored.host == Obtained(b.stored, xs[n]).value.ipv4
                 && NoneAddresses(Pass(b, xs[n]), xs[n + 1..])
    decreases |xs|
  {
    n := 0;
    if xs != [] {
      var b, rest := Pass(a, xs[0]), xs[1..];
      var m := EndpointIsLastAddress(b, rest);
      if NoneAddresses(b, rest) {
        assert xs[..0] == [] && xs[0 + 1..] == rest;
      } else {
        n := m + 1;
        assert xs[..n] == [xs[0]] + rest[..m] && xs[..n][1..] == rest[..m] && xs[n] == rest[m] && xs[n + 1..] == rest[m + 1..];
        assert Passes(a, xs[..n]) == Passes(b, rest[..m]);
      }
    }
  }

  /** What a machine's pass reads of the cluster. */
  ghost predicate ReadFrom(f: M.Facts, c: Cluster) {
    f.lbRef == c.refID && f.lbSpec == c.specID
  }

  /**
   The load balancer that the machines ask: an instance knows only the status reference, bare metal falls back to the
   spec. After a persisted pass that obtained a load balancer, and every later run, both ask the one that the cluster
   works with.
   */
  lemma MachinesAskTheSame(a: Account, x: Inputs, xs: seq<Inputs>, f: M.Facts)
    ensures forall c: Cluster :: ReadFrom(f, c) ==>
              && M.LoadBalancerID(VM, f) == c.refID
              && M.LoadBalancerID(BareMetal, f) == APIServerLoadBalancerID(c)
              && (APIServerLoadBalancerID(c) == "" <==> c.refID == "" && c.specID == "")
              && (c.refID != "" ==> APIServerLoadBalancerID(c) == c.refID) && (c.refID == "" ==> APIServerLoadBalancerID(c) == c.specID)
    ensures Sane(a.stored, x) && x.persisted && Obtained(a.stored, x).Some? && AllSane(Pass(a, x), xs) && ReadFrom(f, Passes(Pass(a, x), xs).stored) ==>
              M.LoadBalancerID(VM, f) == M.LoadBalancerID(BareMetal, f) == WorkingID(Passes(Pass(a, x), xs).stored) != ""
  {
    if Sane(a.stored, x) && x.persisted && Obtained(a.stored, x).Some? && AllSane(Pass(a, x), xs) {
      LookupsAgree(a, x, xs);
    }
  }

  // ---- runs of delete passes

  /** What a delete pass is told, and whether its Close persists the object. */
  datatype DeleteInputs = DeleteInputs(get: GetAnswer, deleteOk: bool, persisted: bool)

  function AfterDelete(c: Cluster, d: DeleteInputs): Cluster {
    if d.persisted then c.(finalizer := DeletePass(c, d.get, d.deleteOk).finalizer) else c
  }

  function AfterDeletes(c: Cluster, ds: seq<DeleteInputs>): Cluster
    decreases |ds|
  {
    if ds == [] then c else AfterDeletes(AfterDelete(c, ds[0]), ds[1..])
  }

  /** There is nothing left to delete, by the answers: no ID, no load balancer under it, or it is deleted now. */
  ghost predicate NothingLeft(c: Cluster, d: DeleteInputs) {
    c.refID == "" || d.get == GotEmpty || (d.get.Got? && d.deleteOk)
  }

  /** What one delete pass deletes and whether it gives up the finalizer, for all answers. */
  lemma DeletePassReports(c: Cluster, d: DeleteInputs)
    ensures var r := DeletePass(c, d.get, d.deleteOk);
            && (c.finalizer ==> (!r.finalizer <==> NothingLeft(c, d)))
            && (!c.finalizer ==> !r.finalizer)
            && (r.deleted.Some? <==> c.refID != "" && d.get.Got? && d.deleteOk)
            && (r.deleted.Some? ==> r.deleted.value == d.get.lb.id)
  {
  }

  /**
   After every run of normal passes and any number of delete passes, a stored finalizer is gone if and only if some
   delete pass that persisted had nothing left to delete. So no pass that met an error gives it up, however many there
   are; and if the status names a load balancer and no Get comes back empty, it goes only with a delete.
   */
  lemma {:induction false} ClusterFinalizerGoesIff(c: Cluster, ds: seq<DeleteInputs>)
    requires c.finalizer
    ensures !AfterDeletes(c, ds).finalizer <==> exists i :: 0 <= i < |ds| && ds[i].persisted && NothingLeft(c, ds[i])
    ensures AfterDeletes(c, ds).refID == c.refID
    ensures !AfterDeletes(c, ds).finalizer && c.refID != "" && (forall i :: 0 <= i < |ds| ==> ds[i].get != GotEmpty) ==>
              exists i :: 0 <= i < |ds| && ds[i].persisted && DeletePass(c, ds[i].get, ds[i].deleteOk).deleted.Some?
    decreases |ds|
  {
    if ds != [] {
      var c', rest := AfterDelete(c, ds[0]), ds[1..];
      DeletePassReports(c, ds[0]);
      if c'.finalizer {
        assert c' == c;
        ClusterFinalizerGoesIff(c, rest);
        assert forall i :: 0 <= i < |rest| ==> rest[i] == ds[i + 1];
        if i :| 0 <= i < |rest| && rest[i].persisted && NothingLeft(c, rest[i]) { assert NothingLeft(c, ds[i + 1]); }
        if i :| 0 <= i < |ds| && ds[i].persisted && NothingLeft(c, ds[i]) { assert i > 0 && NothingLeft(c, rest[i - 1]); }
        if i :| 0 <= i < |rest| && rest[i].persisted && DeletePass(c, rest[i].get, rest[i].deleteOk).deleted.Some? {
          assert DeletePass(c, ds[i + 1].get, ds[i + 1].deleteOk).deleted.Some?;
        }
      } else {
        assert NothingLeft(c, ds[0]);
        StaysGone(c', rest);
      }
    }
  }

  lemma {:induction false} StaysGone(c: Cluster, ds: seq<DeleteInputs>)
    requires !c.finalizer
    ensures !AfterDeletes(c, ds).finalizer && AfterDeletes(c, ds).refID == c.refID
    decreases |ds|
  {
    if ds != [] { StaysGone(AfterDelete(c, ds[0]), ds[1..]); }
  }
}

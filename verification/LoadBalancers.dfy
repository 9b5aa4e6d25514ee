/**
 Load balancer membership, cloud/services/loadbalancer.go: a read, then a replacement of the whole member list. The
 calls for one load balancer follow one another; each may fail, and a failed update may have been carried out.
 */
module LoadBalancers {

  datatype Get = GetOk | GetNotFound | GetError
  datatype Update = UpdateOk | Unprocessable | UpdateError(acted: bool)

  /** The answer of EnsureLoadBalancerMember. */
  datatype Ensured = Accepted | NotYet | EnsureError

  /** The members other than id, in order. */
  function Without(members: seq<string>, id: string): seq<string> {
    if members == [] then []
    else (if members[0] != id then [members[0]] else []) + Without(members[1..], id)
  }

  lemma {:induction false} WithoutFacts(members: seq<string>, id: string)
    ensures var r := Without(members, id);
            && (forall x :: x in r <==> x in members && x != id)
            && |r| <= |members| && (|r| == |members| <==> id !in members)
            && (id !in members ==> r == members)
  {
    if members != [] { WithoutFacts(members[1..], id); }
  }

  /** The loop of RemoveLoadBalancerMember over the members. */
  method Others(members: seq<string>, id: string) returns (remaining: seq<string>)
    ensures remaining == Without(members, id)
  {
    remaining := [];
    for i := 0 to |members|
      invariant Without(members, id) == remaining + Without(members[i..], id)
    {
      assert members[i..][1..] == members[i + 1..];
      if members[i] != id {
        remaining := remaining + [members[i]];
      }
    }
  }

  /** A member list that an update has replaced, unless it was refused. */
  function Replaced(members: seq<string>, wanted: seq<string>, u: Update): seq<string> {
    if u.UpdateOk? || (u.UpdateError? && u.acted) then wanted else members
  }

  function AfterEnsure(members: seq<string>, id: string, active: bool, g: Get, u: Update): seq<string> {
    if g.GetOk? && active && id !in members then Replaced(members, members + [id], u) else members
  }

  function EnsureAnswer(members: seq<string>, id: string, active: bool, g: Get, u: Update): Ensured {
    if !g.GetOk? then EnsureError
    else if !active then NotYet
    else if id in members || u.UpdateOk? then Accepted
    else if u.Unprocessable? then NotYet
    else EnsureError
  }

  function AfterRemove(members: seq<string>, id: string, g: Get, u: Update): seq<string> {
    var remaining := Without(members, id);
    if g.GetOk? && remaining != [] then Replaced(members, remaining, u) else members
  }

  class LoadBalancer {
    var active: bool
    var members: seq<string>

    constructor ()
      ensures !active && members == []
    {
      active, members := false, [];
    }

    method Apply(wanted: seq<string>, u: Update)
      modifies `members
      ensures members == Replaced(old(members), wanted, u)
    {
      if u.UpdateOk? || (u.UpdateError? && u.acted) {
        members := wanted;
      }
    }

    method EnsureMember(id: string, g: Get, u: Update) returns (r: Ensured)
      modifies `members
      ensures members == AfterEnsure(old(members), id, active, g, u)
      ensures r == EnsureAnswer(old(members), id, active, g, u)
      ensures r.Accepted? ==> id in members
    {
      if !g.GetOk? {
        return EnsureError;
      }
      if !active {
        return NotYet;
      }
      for i := 0 to |members|
        invariant id !in members[..i] && members == old(members)
      {
        if members[i] == id {
          return Accepted;
        }
      }
      Apply(members + [id], u);
      if u.UpdateOk? {
        return Accepted;
      }
      return if u.Unprocessable? then NotYet else EnsureError;
    }

    method RemoveMember(id: string, g: Get, u: Update) returns (ok: bool)
      modifies `members
      ensures members == AfterRemove(old(members), id, g, u)
      ensures ok <==> g.GetNotFound? || (g.GetOk? && (id !in old(members) || Without(old(members), id) == [] || u.UpdateOk?))
    {
      if !g.GetOk? {
        return g.GetNotFound?;
      }
      var remaining := Others(members, id);
      WithoutFacts(members, id);
      if |remaining| == |members| {
        return true;
      }
      if |remaining| == 0 {
        return true;
      }
      Apply(remaining, u);
      return u.UpdateOk?;
    }
  }

  // ---- any sequence of calls

  datatype Op =
    | Ensure(id: string, active: bool, g: Get, u: Update)
    | Remove(id: string, g: Get, u: Update)

  function Step(members: seq<string>, op: Op): seq<string> {
    match op
    case Ensure(id, active, g, u) => AfterEnsure(members, id, active, g, u)
    case Remove(id, g, u) => AfterRemove(members, id, g, u)
  }

  function Play(members: seq<string>, ops: seq<Op>): seq<string>
    decreases |ops|
  {
    if ops == [] then members else Play(Step(members, ops[0]), ops[1..])
  }

  predicate NoDuplicates(l: seq<string>) {
    forall i, j :: 0 <= i < j < |l| ==> l[i] != l[j]
  }

  lemma {:induction false} WithoutKeepsOrder(members: seq<string>, id: string)
    requires NoDuplicates(members)
    ensures NoDuplicates(Without(members, id))
  {
    if members != [] {
      var tail := members[1..];
      assert NoDuplicates(tail) by {
        forall i, j | 0 <= i < j < |tail| ensures tail[i] != tail[j] { assert members[i + 1] != members[j + 1]; }
      }
      WithoutKeepsOrder(tail, id);
      WithoutFacts(tail, id);
      assert members[0] !in tail by {
        forall i | 0 <= i < |tail| ensures tail[i] != members[0] { assert members[0] != members[i + 1]; }
      }
      var w := Without(tail, id);
      var r := Without(members, id);
      assert r == w || r == [members[0]] + w;
    }
  }

  /** No sequence of calls ever lists a server twice. */
  lemma {:induction false} MembersStayDistinct(members: seq<string>, ops: seq<Op>)
    requires NoDuplicates(members)
    ensures NoDuplicates(Play(members, ops))
    decreases |ops|
  {
    if ops != [] {
      if ops[0].Remove? { WithoutKeepsOrder(members, ops[0].id); }
      MembersStayDistinct(Step(members, ops[0]), ops[1..]);
    }
  }

  /** The members that are in s, in order. */
  function Project(l: seq<string>, s: set<string>): (r: seq<string>)
    ensures forall x :: x in r <==> x in l && x in s
  {
    if l == [] then [] else (if l[0] in s then [l[0]] else []) + Project(l[1..], s)
  }

  lemma {:induction false} ProjectAppend(l: seq<string>, x: string, s: set<string>)
    requires x !in s
    ensures Project(l + [x], s) == Project(l, s)
  {
    if l != [] {
      assert (l + [x])[1..] == l[1..] + [x];
      ProjectAppend(l[1..], x, s);
    }
  }

  lemma {:induction false} ProjectWithout(l: seq<string>, x: string, s: set<string>)
    requires x !in s
    ensures Project(Without(l, x), s) == Project(l, s)
  {
    if l != [] {
      ProjectWithout(l[1..], x, s);
      var w := Without(l[1..], x);
      if l[0] != x {
        assert Without(l, x) == [l[0]] + w;
        assert ([l[0]] + w)[1..] == w;
      } else {
        assert Without(l, x) == w;
      }
    }
  }

  predicate Removes(ops: seq<Op>, id: string) {
    exists i :: 0 <= i < |ops| && ops[i].Remove? && ops[i].id == id
  }

  /**
   Members for which no Remove is called are neither dropped nor reordered, whatever else is ensured or removed and
   whichever calls fail.
   */
  lemma {:induction false} OthersAreKept(members: seq<string>, ops: seq<Op>, s: set<string>)
    requires forall x :: x in s ==> x in members && !Removes(ops, x)
    ensures Project(Play(members, ops), s) == Project(members, s)
    ensures forall x :: x in s ==> x in Play(members, ops)
    decreases |ops|
  {
    if ops != [] {
      var next := Step(members, ops[0]);
      assert ops[0].Remove? ==> ops[0].id !in s;
      if ops[0].id !in s {
        ProjectAppend(members, ops[0].id, s);
        ProjectWithout(members, ops[0].id, s);
      }
      assert Project(next, s) == Project(members, s);
      forall x | x in s ensures x in next && !Removes(ops[1..], x) {
        assert x in Project(members, s);
        if i :| 0 <= i < |ops[1..]| && ops[1..][i].Remove? && ops[1..][i].id == x { assert ops[i + 1].id == x; }
      }
      OthersAreKept(next, ops[1..], s);
    }
  }

  /** A server that Ensure accepted is a member after every later sequence of calls without a Remove for it. */
  lemma AcceptedUntilRemoved(members: seq<string>, id: string, active: bool, g: Get, u: Update, later: seq<Op>)
    requires EnsureAnswer(members, id, active, g, u).Accepted? && !Removes(later, id)
    ensures id in Play(AfterEnsure(members, id, active, g, u), later)
  {
    OthersAreKept(AfterEnsure(members, id, active, g, u), later, {id});
  }

  /** An update takes effect: it succeeds, or fails after having acted. */
  predicate TakesEffect(u: Update) {
    u == UpdateOk || u == UpdateError(true)
  }

  /**
   What Ensure does, for every answer. The old members keep their places; the server comes behind them exactly if an
   active load balancer that does not list it takes the update, and nothing is written otherwise. It is accepted exactly
   if it is listed already or the update succeeds; a load balancer that is not active, or that answers 422, is to be
   tried again; everything else is an error.
   */
  lemma EnsureIsExact(members: seq<string>, id: string, active: bool, g: Get, u: Update)
    ensures var r, a := AfterEnsure(members, id, active, g, u), EnsureAnswer(members, id, active, g, u);
            && members <= r && (id in r <==> id in members || (g == GetOk && active && TakesEffect(u)))
            && (r != members <==> id !in members && id in r) && (r != members ==> |r| == |members| + 1 && r[|members|] == id)
            && (a == Accepted <==> g == GetOk && active && (id in members || u == UpdateOk)) && (a == Accepted ==> id in r)
            && (a == NotYet <==> g == GetOk && (!active || (id !in members && u == Unprocessable))) && (a == NotYet ==> r == members)
            && (a == EnsureError <==> g != GetOk || (active && id !in members && u.UpdateError?))
  {
    var r := AfterEnsure(members, id, active, g, u);
    if r != members { assert r == members + [id] && r[|members|] == id; }
  }

  /**
   What Remove does, for every answer. A list that changes holds exactly the other members, in order; it changes exactly if
   it could be read, held the server among others, and the update took effect. So a server that is alone in the list
   stays, since an empty list is never sent.
   */
  lemma RemoveIsExact(members: seq<string>, id: string, g: Get, u: Update)
    ensures var r := AfterRemove(members, id, g, u);
            && (r != members <==> g == GetOk && TakesEffect(u) && id in members && exists x :: x in members && x != id)
            && (r != members ==> id !in r)
            && (forall s: set<string> :: id !in s ==> Project(r, s) == Project(members, s))
            && (forall x :: x in r ==> x in members)
  {
    var r := AfterRemove(members, id, g, u);
    forall s: set<string> | id !in s ensures Project(r, s) == Project(members, s) {
      ProjectWithout(members, id, s);
    }
    WithoutFacts(members, id);
    if Without(members, id) != [] {
      assert Without(members, id)[0] in Without(members, id);
    }
  }
}

/** cloud/vultrerrors/vultrerrors.go: the HTTP status of one API call, recorded through the call's context. */
module Capture {
  import opened Options

  const NOT_FOUND := 404

  class Cell {
    var status: int

    constructor ()
      ensures status == 0
    {
      status := 0;
    }
  }

  /** A Go context: values are looked up from the innermost outwards. */
  datatype Context = Background | WithCapture(parent: Context, cell: Cell) | WithOther(parent: Context)

  /** The capture that a lookup in the context finds. */
  function Innermost(ctx: Context): Option<Cell> {
    match ctx
    case Background => None
    case WithCapture(_, cell) => Some(cell)
    case WithOther(parent) => Innermost(parent)
  }

  function Touched(ctx: Context): set<Cell> {
    match Innermost(ctx)
    case Some(cell) => {cell}
    case None => {}
  }

  method NewCapture(ctx: Context) returns (inner: Context, cell: Cell)
    ensures fresh(cell) && cell.status == 0 && inner == WithCapture(ctx, cell)
  {
    cell := new Cell();
    inner := WithCapture(ctx, cell);
  }

  /** Record writes the innermost capture of the context and nothing else. */
  method Record(ctx: Context, status: int)
    modifies Touched(ctx)
    ensures forall cell :: cell in Touched(ctx) ==> cell.status == status
  {
    var found := Innermost(ctx);
    if found.Some? {
      found.value.status := status;
    }
  }

  /** Transport.RoundTrip: a response, if there is one, is recorded. */
  method RoundTrip(ctx: Context, response: Option<int>)
    modifies if response.Some? then Touched(ctx) else {}
    ensures response.Some? ==> forall cell :: cell in Touched(ctx) ==> cell.status == response.value
  {
    if response.Some? {
      Record(ctx, response.value);
    }
  }

  // ---- any interleaving of calls and nested contexts

  /** A context as its layers, outermost first: captures by number, and other values. */
  type Nesting = seq<Option<nat>>

  /** Capture c is the innermost one. */
  ghost predicate Owns(at: Nesting, c: nat) {
    exists k :: 0 <= k < |at| && at[k] == Some(c) && forall j :: k < j < |at| ==> at[j].None?
  }

  /** The n-th capture is made inside `at`; a response arrives through `at`, or a call fails without one. */
  datatype Event = Captured(at: Nesting) | Responded(at: Nesting, status: Option<int>)

  function Captures(events: seq<Event>): nat {
    if events == [] then 0 else Captures(events[..|events| - 1]) + if events[|events| - 1].Captured? then 1 else 0
  }

  predicate MadeOf(at: Nesting, captures: nat) {
    forall i :: 0 <= i < |at| && at[i].Some? ==> at[i].value < captures
  }

  /** Contexts are made of captures that exist. */
  predicate WellFormed(events: seq<Event>) {
    events == [] ||
    var before := events[..|events| - 1];
    WellFormed(before) && MadeOf(events[|events| - 1].at, Captures(before))
  }

  /** The event is a response through a context whose innermost capture is c. */
  ghost predicate ReportsTo(e: Event, c: nat) {
    e.Responded? && e.status.Some? && Owns(e.at, c)
  }

  /** The status of the last response that reports to c, or 0. */
  ghost function LastStatus(events: seq<Event>, c: nat): int {
    if events == [] then 0
    else if ReportsTo(events[|events| - 1], c) then events[|events| - 1].status.value
    else LastStatus(events[..|events| - 1], c)
  }

  function ContextOf(at: Nesting, cells: seq<Cell>): Context
    requires MadeOf(at, |cells|)
  {
    if at == [] then Background
    else
      var parent := ContextOf(at[..|at| - 1], cells);
      if at[|at| - 1].Some? then WithCapture(parent, cells[at[|at| - 1].value]) else WithOther(parent)
  }

  ghost predicate DistinctCells(cells: seq<Cell>) {
    forall i, j :: 0 <= i < j < |cells| ==> cells[i] != cells[j]
  }

  /** A lookup finds the cell of the innermost capture, and only that one. */
  lemma {:induction false} LookupFindsOwner(at: Nesting, cells: seq<Cell>)
    requires MadeOf(at, |cells|) && DistinctCells(cells)
    ensures forall cell :: cell in Touched(ContextOf(at, cells)) ==> cell in cells
    ensures forall c :: 0 <= c < |cells| ==> (cells[c] in Touched(ContextOf(at, cells)) <==> Owns(at, c))
  {
    if at != [] && at[|at| - 1].None? {
      var outer := at[..|at| - 1];
      LookupFindsOwner(outer, cells);
      forall c: nat ensures Owns(at, c) <==> Owns(outer, c) {
        if Owns(outer, c) {
          var k :| 0 <= k < |outer| && outer[k] == Some(c) && forall j :: k < j < |outer| ==> outer[j].None?;
          assert at[k] == Some(c);
        }
        if Owns(at, c) {
          var k :| 0 <= k < |at| && at[k] == Some(c) && forall j :: k < j < |at| ==> at[j].None?;
          assert outer[k] == Some(c);
        }
      }
    } else if at != [] {
      assert Owns(at, at[|at| - 1].value);
    }
  }

  /** A capture that is yet to be made has no status. */
  lemma {:induction false} NoStatusYet(events: seq<Event>, c: nat)
    requires WellFormed(events) && c >= Captures(events)
    ensures LastStatus(events, c) == 0
  {
    if events != [] {
      NoStatusYet(events[..|events| - 1], c);
    }
  }

  /** One event on the cells: a response writes the cell of its innermost capture and no other. */
  method Step(e: Event, cells: seq<Cell>) returns (after: seq<Cell>)
    requires MadeOf(e.at, |cells|) && DistinctCells(cells)
    modifies cells
    ensures e.Captured? ==> |after| == |cells| + 1 && after[..|cells|] == cells && fresh(after[|cells|]) && after[|cells|].status == 0
    ensures e.Responded? ==> after == cells
    ensures forall c :: 0 <= c < |cells| ==> cells[c].status == if ReportsTo(e, c) then e.status.value else old(cells[c].status)
  {
    LookupFindsOwner(e.at, cells);
    var ctx := ContextOf(e.at, cells);
    if e.Captured? {
      var _, cell := NewCapture(ctx);
      return cells + [cell];
    }
    RoundTrip(ctx, e.status);
    return cells;
  }

  /**
   The cells that the calls read in the end. Each holds the status of the latest response that came through a context in
   which its capture is the innermost, or 0 if there was none; so a 404 is the answer to the call that reads it,
   whatever other calls were answered before, after or in between.
   */
  method Play(events: seq<Event>) returns (cells: seq<Cell>)
    requires WellFormed(events)
    ensures |cells| == Captures(events) && DistinctCells(cells)
    ensures forall c :: 0 <= c < |cells| ==> if NoneReports(events, c) then cells[c].status == 0 else LatestIs(events, c, cells[c].status)
    ensures forall c :: 0 <= c < |cells| && cells[c].status == NOT_FOUND ==> LatestIs(events, c, NOT_FOUND)
  {
    hide Owns, MadeOf, ContextOf, LatestIs, NoneReports;
    cells := [];
    for n := 0 to |events|
      invariant |cells| == Captures(events[..n]) && DistinctCells(cells)
      invariant forall c :: 0 <= c < |cells| ==> fresh(cells[c])
      invariant forall c :: 0 <= c < |cells| ==> cells[c].status == LastStatus(events[..n], c)
    {
      ghost var before := events[..n];
      ghost var after := events[..n + 1];
      assert after[..|after| - 1] == before && after[n] == events[n];
      PrefixWellFormed(events, n + 1);
      NoStatusYet(before, |cells|);
      cells := Step(events[n], cells);
    }
    assert events[..|events|] == events;
    forall c: nat | c < |cells|
      ensures if NoneReports(events, c) then cells[c].status == 0 else LatestIs(events, c, cells[c].status)
    {
      StatusIsItsOwn(events, c);
    }
  }

  lemma {:induction false} PrefixWellFormed(events: seq<Event>, n: nat)
    requires WellFormed(events) && n <= |events|
    ensures WellFormed(events[..n])
    decreases |events|
  {
    if n == |events| {
      assert events[..n] == events;
    } else {
      PrefixWellFormed(events[..|events| - 1], n);
      assert events[..|events| - 1][..n] == events[..n];
    }
  }

  /** The latest response that reports to c has this status. */
  ghost predicate LatestIs(events: seq<Event>, c: nat, status: int) {
    exists i :: 0 <= i < |events| && ReportsTo(events[i], c) && events[i].status == Some(status)
                && forall j :: i < j < |events| ==> !ReportsTo(events[j], c)
  }

  /** No response reports to c. */
  ghost predicate NoneReports(events: seq<Event>, c: nat) {
    forall j :: 0 <= j < |events| ==> !ReportsTo(events[j], c)
  }

  lemma {:induction false} StatusIsItsOwn(events: seq<Event>, c: nat)
    ensures if NoneReports(events, c) then LastStatus(events, c) == 0 else LatestIs(events, c, LastStatus(events, c))
  {
    hide Owns;
    if events != [] {
      var last := |events| - 1;
      var before := events[..last];
      assert forall j :: 0 <= j < last ==> before[j] == events[j];
      StatusIsItsOwn(before, c);
      if ReportsTo(events[last], c) {
        assert events[last].status == Some(LastStatus(events, c));
      } else if !NoneReports(before, c) {
        var i :| 0 <= i < last && ReportsTo(before[i], c) && before[i].status == Some(LastStatus(before, c))
                 && forall j :: i < j < last ==> !ReportsTo(before[j], c);
        assert ReportsTo(events[i], c);
        forall j | i < j < |events| ensures !ReportsTo(events[j], c) {
          if j < last { assert before[j] == events[j]; }
        }
      }
    }
  }

  // ---- the branches that the status decides

  /** What GetInstance, DeleteInstance and their bare metal counterparts make of a call. */
  datatype Outcome = Succeeded | Missing | Failure

  /**
   The outcome of the call that owns capture c, amid any other calls. `err` is the error of the client library and `empty`
   a success without a server. The server is missing if and only if the call failed and the latest response to this
   very call was a 404; every other error, and the empty success, is a failure.
   */
  method OutcomeOf(events: seq<Event>, c: nat, err: bool, empty: bool) returns (r: Outcome)
    requires WellFormed(events) && c < Captures(events)
    ensures r == Missing <==> err && LatestIs(events, c, NOT_FOUND)
    ensures r == Succeeded <==> !err && !empty
  {
    hide LatestIs, NoneReports, WellFormed, LastStatus;
    var cells := Play(events);
    if err {
      LatestIsOne(events, c);
      return if cells[c].status == NOT_FOUND then Missing else Failure;
    }
    return if empty then Failure else Succeeded;
  }

  /** There is only one latest response. */
  lemma LatestIsOne(events: seq<Event>, c: nat)
    ensures forall s, t :: LatestIs(events, c, s) && LatestIs(events, c, t) ==> s == t
    ensures forall s :: LatestIs(events, c, s) ==> !NoneReports(events, c)
  {
    hide ReportsTo;
  }
}

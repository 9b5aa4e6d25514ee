/**
 The ownership search of cloud/services/instance.go and cloud/services/baremetal.go: cursor loops over a
 listing that the server filters by label or by name tag, with a second filter on the client.
 */
module Search {
  import opened Tags

  datatype Kind = VM | BareMetal

  /** A server as a List page shows it. */
  datatype Entry = Entry(id: string, labelText: string, hostname: string, tags: seq<string>, status: string)

  datatype SearchResult = Nothing | One(entry: Entry) | Many(ids: seq<string>)

  /** The client-side filter: instanceOwnedByMachine for instances, TagsOwnedByMachine for bare metal. */
  predicate Owned(kind: Kind, e: Entry, p: TagParams) {
    match kind
    case VM =>
      e.labelText == p.name
      && (TagsOwnedByMachine(e.tags, p) || (|e.tags| == 0 && e.hostname == p.name))
    case BareMetal => TagsOwnedByMachine(e.tags, p)
  }

  /**
   What the search claims, for any entry, ours or not: an instance with tags by its label and both identifying tags, one
   without by its label and hostname together; bare metal by both tags, whatever its label, and never without tags.
   */
  lemma OwnedExact(e: Entry, p: TagParams)
    ensures Owned(VM, e, p) ==> e.labelText == p.name
    ensures e.tags != [] && e.labelText == p.name ==>
              (Owned(VM, e, p) <==> "name:" + p.name in e.tags && "capvultr:cluster-uid:" + p.clusterUID in e.tags)
    ensures e.tags == [] ==> (Owned(VM, e, p) <==> e.labelText == e.hostname == p.name)
    ensures Owned(BareMetal, e, p) <==> "name:" + p.name in e.tags && "capvultr:cluster-uid:" + p.clusterUID in e.tags
    ensures e.tags == [] ==> !Owned(BareMetal, e, p)
  {
    assert NameTag(p.name) == "name:" + p.name && ClusterUIDTag(p.clusterUID) == "capvultr:cluster-uid:" + p.clusterUID;
  }

  /** The server-side filter: by label for instances, by name tag for bare metal. */
  predicate Query(kind: Kind, e: Entry, p: TagParams) {
    match kind
    case VM => e.labelText == p.name
    case BareMetal => NameTag(p.name) in e.tags
  }

  function OwnedEntries(kind: Kind, l: seq<Entry>, p: TagParams): (r: seq<Entry>)
    ensures forall i :: 0 <= i < |r| ==> r[i] in l && Owned(kind, r[i], p)
    ensures forall e :: e in l && Owned(kind, e, p) ==> e in r
    ensures |r| <= |l|
  {
    if l == [] then []
    else (if Owned(kind, l[0], p) then [l[0]] else []) + OwnedEntries(kind, l[1..], p)
  }

  function QueriedEntries(kind: Kind, l: seq<Entry>, p: TagParams): seq<Entry> {
    if l == [] then []
    else (if Query(kind, l[0], p) then [l[0]] else []) + QueriedEntries(kind, l[1..], p)
  }

  function Ids(l: seq<Entry>): seq<string> {
    seq(|l|, i requires 0 <= i < |l| => l[i].id)
  }

  function Classify(matches: seq<Entry>): SearchResult {
    if |matches| == 0 then Nothing
    else if |matches| == 1 then One(matches[0])
    else Many(Ids(matches))
  }

  /** What the search must answer for a listing: a plain scan. */
  function Scan(kind: Kind, l: seq<Entry>, p: TagParams): SearchResult {
    Classify(OwnedEntries(kind, l, p))
  }

  lemma {:induction false} OwnedEntriesConcat(kind: Kind, a: seq<Entry>, b: seq<Entry>, p: TagParams)
    ensures OwnedEntries(kind, a + b, p) == OwnedEntries(kind, a, p) + OwnedEntries(kind, b, p)
  {
    if a == [] {
      assert a + b == b;
    } else {
      assert (a + b)[1..] == a[1..] + b;
      OwnedEntriesConcat(kind, a[1..], b, p);
    }
  }

  /** The server-side filter loses nothing: scanning the filtered listing is scanning the whole account. */
  lemma {:induction false} FilterLosesNothing(kind: Kind, account: seq<Entry>, p: TagParams)
    ensures OwnedEntries(kind, QueriedEntries(kind, account, p), p) == OwnedEntries(kind, account, p)
    ensures Scan(kind, QueriedEntries(kind, account, p), p) == Scan(kind, account, p)
  {
    if account != [] {
      FilterLosesNothing(kind, account[1..], p);
      var head := if Query(kind, account[0], p) then [account[0]] else [];
      OwnedEntriesConcat(kind, head, QueriedEntries(kind, account[1..], p), p);
    }
  }

  /** The owned entries of a listing are those at these places, in order. */
  ghost predicate Picks(kind: Kind, l: seq<Entry>, p: TagParams, at: seq<nat>) {
    && (forall i :: 0 <= i < |at| ==> at[i] < |l| && Owned(kind, l[at[i]], p))
    && (forall i, j :: 0 <= i < j < |at| ==> at[i] < at[j])
    && (forall n :: 0 <= n < |l| && Owned(kind, l[n], p) ==> n in at)
  }

  lemma PicksOneMore(kind: Kind, l: seq<Entry>, e: Entry, p: TagParams, at: seq<nat>)
    requires Picks(kind, l, p, at)
    ensures Picks(kind, l + [e], p, if Owned(kind, e, p) then at + [|l|] else at)
  {
    hide Owned;
    var more := if Owned(kind, e, p) then at + [|l|] else at;
    forall n | 0 <= n < |l + [e]| && Owned(kind, (l + [e])[n], p) ensures n in more {
      if n < |l| { assert n in at; } else { assert more[|at|] == n; }
    }
  }

  lemma OwnedOfOne(kind: Kind, e: Entry, p: TagParams)
    ensures OwnedEntries(kind, [e], p) == if Owned(kind, e, p) then [e] else []
  {
    hide Owned;
    assert [e][1..] == [];
  }

  /** The entries are those of the listing at these places. */
  ghost predicate AtPlaces(entries: seq<Entry>, l: seq<Entry>, at: seq<nat>) {
    |entries| == |at| && forall i :: 0 <= i < |at| ==> at[i] < |l| && entries[i] == l[at[i]]
  }

  lemma PlacesOneMore(entries: seq<Entry>, l: seq<Entry>, e: Entry, at: seq<nat>)
    requires AtPlaces(entries, l, at)
    ensures AtPlaces(entries, l + [e], at) && AtPlaces(entries + [e], l + [e], at + [|l|])
  {
  }

  /** Where the owned entries are once there is one more entry, seen as plain sequences. */
  lemma PlacesStep(own: seq<Entry>, own': seq<Entry>, l: seq<Entry>, e: Entry, at: seq<nat>, yes: bool)
    requires AtPlaces(own, l, at) && own' == own + if yes then [e] else []
    ensures AtPlaces(own', l + [e], if yes then at + [|l|] else at)
  {
    hide AtPlaces;
    PlacesOneMore(own, l, e, at);
    if !yes { assert own + [] == own; }
  }

  lemma OwnedOneMore(kind: Kind, l: seq<Entry>, e: Entry, p: TagParams)
    ensures OwnedEntries(kind, l + [e], p) == OwnedEntries(kind, l, p) + if Owned(kind, e, p) then [e] else []
  {
    hide Owned, OwnedEntries;
    OwnedEntriesConcat(kind, l, [e], p);
    OwnedOfOne(kind, e, p);
  }

  lemma LastApart(l: seq<Entry>)
    requires l != []
    ensures l == l[..|l| - 1] + [l[|l| - 1]]
  {
  }

  lemma {:induction false} OwnedPlaces(kind: Kind, l: seq<Entry>, p: TagParams) returns (at: seq<nat>)
    ensures Picks(kind, l, p, at) && AtPlaces(OwnedEntries(kind, l, p), l, at)
  {
    if l == [] {
      at := [];
    } else {
      hide Owned, OwnedEntries, Picks, AtPlaces;
      var rest, e := l[..|l| - 1], l[|l| - 1];
      LastApart(l);
      var before := OwnedPlaces(kind, rest, p);
      at := if Owned(kind, e, p) then before + [|rest|] else before;
      PicksOneMore(kind, rest, e, p, before);
      OwnedOneMore(kind, rest, e, p);
      PlacesStep(OwnedEntries(kind, rest, p), OwnedEntries(kind, l, p), rest, e, before, Owned(kind, e, p));
    }
  }

  /**
   What the search answers, said of the places in the listing: nothing if no entry is owned, the entry if exactly one is,
   and otherwise the IDs of all that are, in their order.
   */
  lemma ScanIff(kind: Kind, l: seq<Entry>, p: TagParams) returns (at: seq<nat>)
    ensures Picks(kind, l, p, at)
    ensures Scan(kind, l, p) == if |at| == 0 then Nothing else if |at| == 1 then One(l[at[0]]) else Many(seq(|at|, i requires 0 <= i < |at| => l[at[i]].id))
  {
    at := OwnedPlaces(kind, l, p);
    var m := OwnedEntries(kind, l, p);
    assert Ids(m) == seq(|at|, i requires 0 <= i < |at| => l[at[i]].id);
  }

  /** One List call: an error, or a page with the cursor of the next one ("" when it is the last). */
  datatype PageAnswer = PageError | Page(entries: seq<Entry>, next: string)

  /** The i-th cursor of a chain has an answer, and its next cursor is the (i+1)-th, or "" at the end. */
  ghost predicate Link(api: map<string, PageAnswer>, chain: seq<string>, i: nat)
    requires i < |chain|
  {
    && chain[i] in api
    && (i < |chain| - 1 ==> api[chain[i]].Page? && api[chain[i]].next == chain[i + 1] != "")
    && (i == |chain| - 1 && api[chain[i]].Page? ==> api[chain[i]].next == "")
  }

  /** The cursors that a search visits: from the empty one, link by link, to a last page or a failing one. */
  ghost predicate IsChain(api: map<string, PageAnswer>, chain: seq<string>) {
    && |chain| >= 1 && chain[0] == "" && chain[|chain| - 1] in api
    && forall i :: 0 <= i < |chain| ==> Link(api, chain, i)
  }

  /** The entries of the pages along a chain, in order. */
  ghost function Listing(api: map<string, PageAnswer>, chain: seq<string>): seq<Entry> {
    if chain == [] then []
    else
      var last := chain[|chain| - 1];
      Listing(api, chain[..|chain| - 1]) + if last in api && api[last].Page? then api[last].entries else []
  }

  /** Whatever account the server filtered to produce a listing, scanning the listing is scanning that account. */
  lemma ListingStandsForAccount(kind: Kind, listing: seq<Entry>, p: TagParams)
    ensures forall account ::
              QueriedEntries(kind, account, p) == listing ==> Scan(kind, listing, p) == Scan(kind, account, p)
  {
    forall account | QueriedEntries(kind, account, p) == listing
      ensures Scan(kind, listing, p) == Scan(kind, account, p)
    {
      FilterLosesNothing(kind, account, p);
    }
  }

  /** The client-side loop over one page. */
  method AppendOwned(kind: Kind, before: seq<Entry>, page: seq<Entry>, p: TagParams) returns (matches: seq<Entry>)
    ensures matches == before + OwnedEntries(kind, page, p)
  {
    matches := before;
    for n := 0 to |page|
      invariant matches == before + OwnedEntries(kind, page[..n], p)
    {
      assert page[..n + 1] == page[..n] + [page[n]];
      OwnedEntriesConcat(kind, page[..n], [page[n]], p);
      if Owned(kind, page[n], p) {
        matches := matches + [page[n]];
      }
    }
    assert page[..|page|] == page;
  }

  lemma ListingExtend(kind: Kind, api: map<string, PageAnswer>, chain: seq<string>, i: nat, p: TagParams)
    requires i < |chain| && chain[i] in api && api[chain[i]].Page?
    ensures OwnedEntries(kind, Listing(api, chain[..i + 1]), p) ==
            OwnedEntries(kind, Listing(api, chain[..i]), p) + OwnedEntries(kind, api[chain[i]].entries, p)
  {
    assert chain[..i + 1][..i] == chain[..i];
    OwnedEntriesConcat(kind, Listing(api, chain[..i]), api[chain[i]].entries, p);
  }

  datatype FindResult = FindError | FindOk(result: SearchResult)

  /**
   FindInstanceForMachine and FindBareMetalServerByTags. The loop ends on every chain, and unless a page fails
   its answer is the plain scan of everything that was listed, hence of the whole account.
   */
  method FindForMachine(kind: Kind, api: map<string, PageAnswer>, p: TagParams, ghost chain: seq<string>)
    returns (r: FindResult)
    requires IsChain(api, chain)
    ensures r.FindError? <==> api[chain[|chain| - 1]].PageError?
    ensures r.FindOk? ==> r.result == Scan(kind, Listing(api, chain), p)
    ensures r.FindOk? ==> forall account ::
              QueriedEntries(kind, account, p) == Listing(api, chain) ==> r.result == Scan(kind, account, p)
  {
    var matches := [];
    var cursor := "";
    ghost var i := 0;
    var more := true;
    while more
      invariant if more then i < |chain| && cursor == chain[i] else i == |chain| && api[chain[|chain| - 1]].Page?
      invariant matches == OwnedEntries(kind, Listing(api, chain[..i]), p)
      decreases |chain| - i
    {
      assert Link(api, chain, i);
      var answer := api[cursor];
      if answer.PageError? {
        return FindError;
      }
      matches := AppendOwned(kind, matches, answer.entries, p);
      ListingExtend(kind, api, chain, i, p);
      more := answer.next != "";
      cursor := answer.next;
      i := i + 1;
    }
    assert chain[..i] == chain;
    ListingStandsForAccount(kind, Listing(api, chain), p);
    r := FindOk(Classify(matches));
  }
}

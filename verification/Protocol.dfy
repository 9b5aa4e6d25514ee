/**
 The world that the passes run in: the stored objects, the servers of the Vultr account, and the passes under way,
 at most one per machine. Every event is one atomic action of a pass, of a user or of the cloud, so a run is any
 interleaving of any number of passes for any number of machines, with crashes between any two calls.
 */
module Protocol {
  import opened Search
  import opened Tags
  import opened Machines
  import opened Strings
  import PID = ProviderID

  /** A server that was made at some time. `maker` and `lag` (listings that may still show it once deleted) are history. */
  datatype Server = Server(kind: Kind, labelText: string, hostname: string, tags: seq<string>, maker: Key, live: bool, lag: nat)

  datatype State = State(stored: map<Key, Machine>, passes: map<Key, Pass>, servers: map<string, Server>)

  function EntryOf(id: string, sv: Server, status: string): Entry {
    Entry(id, sv.labelText, sv.hostname, sv.tags, status)
  }

  /** Whether the search made for the machine k would claim the server. */
  predicate OwnedBy(cfg: Config, k: Key, sv: Server)
    requires k in cfg.machines
  {
    sv.kind == k.kind && Owned(k.kind, EntryOf("", sv, ""), ParamsOf(cfg, k))
  }

  predicate QueriedBy(cfg: Config, k: Key, sv: Server)
    requires k in cfg.machines
  {
    sv.kind == k.kind && Query(k.kind, EntryOf("", sv, ""), ParamsOf(cfg, k))
  }

  // ---- what the cloud may answer

  predicate ListedIn(entries: seq<Entry>, id: string) {
    exists i :: 0 <= i < |entries| && entries[i].id == id
  }

  /** An entry shows a server that exists, or that existed once. */
  predicate ShowsServer(servers: map<string, Server>, kind: Kind, e: Entry) {
    e.id in servers && servers[e.id].kind == kind && e == EntryOf(e.id, servers[e.id], e.status)
  }

  /** List shows every live server that matches the query; deleted ones may still show. */
  predicate Faithful(cfg: Config, servers: map<string, Server>, k: Key, entries: seq<Entry>)
    requires k in cfg.machines
  {
    && (forall i :: 0 <= i < |entries| ==> ShowsServer(servers, k.kind, entries[i]))
    && (forall id :: id in servers && servers[id].live && QueriedBy(cfg, k, servers[id]) ==> ListedIn(entries, id))
  }

  ghost predicate FreshID(servers: map<string, Server>, id: string) {
    id !in servers && id != "" && !Contains(id, PID.SEPARATOR)
  }

  ghost predicate MadeAllowed(cfg: Config, servers: map<string, Server>, k: Key, made: Made) {
    match made
    case NothingMade => true
    case MadeTagged(id) => FreshID(servers, id)
    case MadeUntagged(id) => FreshID(servers, id) && k.kind == VM && cfg.untagged
  }

  /** The answers that a call may get. Get, Delete and the writes may fail or answer 404 at will. */
  ghost predicate Allowed(cfg: Config, s: State, k: Key, call: Call, a: Answer)
    requires k in cfg.machines
  {
    match call
    case Getting(id) => a.NotFound? || a.Failed? || (a.Found? && a.id == id)
    case Finding => a.Failed? || (a.Listed? && Faithful(cfg, s.servers, k, a.entries))
    case Relisting => a.Failed? || (a.Listed? && Faithful(cfg, s.servers, k, a.entries))
    case Creating => (a.Created? && FreshID(s.servers, a.id)) || (a.CreateFailed? && MadeAllowed(cfg, s.servers, k, a.made))
    case Patching => a.Failed? || (a.Done? && k in s.stored)
    case Closing => a.Failed? || (a.Done? && k in s.stored)
    case VpcListing(_) => a.VpcListed? || a.VpcUnsupported? || a.Failed?
    case VpcAttaching(_) => a.Done? || a.VpcUnsupported? || a.Failed?
    case LbGetting(_, _) => a.LbGot? || a.NotFound? || a.Failed?
    case LbUpdating(_, _) => a.Done? || a.Unprocessable? || a.Failed?
    case LbRemoveGetting(_, _) => a.LbGot? || a.NotFound? || a.Failed?
    case LbRemoveUpdating(_, _) => a.Done? || a.Failed?
    case Deleting(_) => a.Done? || a.NotFound? || a.Failed?
    case DeletingOther(_) => a.Done? || a.NotFound? || a.Failed?
  }

  // ---- what a call does

  function NewServer(cfg: Config, k: Key, tagged: bool): Server
    requires k in cfg.machines
  {
    var extra := if k.kind == BareMetal then cfg.machines[k].additionalTags else [];
    Server(k.kind, k.name, k.name, if tagged then BuildTags(ParamsOf(cfg, k)) + extra else [], k, true, 0)
  }

  function Make(cfg: Config, servers: map<string, Server>, k: Key, a: Answer): map<string, Server>
    requires k in cfg.machines
  {
    match a
    case Created(id, _) => servers[id := NewServer(cfg, k, true)]
    case CreateFailed(MadeTagged(id)) => servers[id := NewServer(cfg, k, true)]
    case CreateFailed(MadeUntagged(id)) => servers[id := NewServer(cfg, k, false)]
    case _ => servers
  }

  function Kill(cfg: Config, servers: map<string, Server>, id: string): map<string, Server> {
    if id in servers && servers[id].live then servers[id := servers[id].(live := false, lag := cfg.lag)] else servers
  }

  /** One more listing has gone by for the deleted servers that the query of k matches. */
  function Aged(cfg: Config, servers: map<string, Server>, k: Key): map<string, Server>
    requires k in cfg.machines
  {
    map id | id in servers ::
      var sv := servers[id];
      if !sv.live && QueriedBy(cfg, k, sv) && sv.lag > 0 then sv.(lag := sv.lag - 1) else sv
  }

  predicate Acted(a: Answer) {
    a.Done? || (a.Failed? && a.acted)
  }

  function ServersAfter(cfg: Config, servers: map<string, Server>, k: Key, call: Call, a: Answer): map<string, Server>
    requires k in cfg.machines
  {
    match call
    case Creating => Make(cfg, servers, k, a)
    case Finding => if a.Listed? then Aged(cfg, servers, k) else servers
    case Relisting => if a.Listed? then Aged(cfg, servers, k) else servers
    case Deleting(id) => if Acted(a) then Kill(cfg, servers, id) else servers
    case DeletingOther(id) => if Acted(a) then Kill(cfg, servers, id) else servers
    case _ => servers
  }

  /** A patch writes every field but the deletion mark; an object marked for deletion goes with its finalizer. */
  function Write(stored: map<Key, Machine>, k: Key, mem: Machine): map<Key, Machine> {
    if k !in stored then stored
    else if stored[k].deleting && !mem.finalizer then stored - {k}
    else stored[k := mem.(deleting := stored[k].deleting)]
  }

  function StoredAfter(stored: map<Key, Machine>, k: Key, p: Pass, a: Answer): map<Key, Machine> {
    if (p.call.Patching? || p.call.Closing?) && Acted(a) then Write(stored, k, p.mem) else stored
  }

  // ---- events

  datatype Event =
    | UserCreate(k: Key)
    | UserDelete(k: Key)
    | Begin(k: Key, facts: Facts)
    | Answered(k: Key, a: Answer)
    | Crash(k: Key)
    | Vanish(id: string)

  ghost predicate Enabled(cfg: Config, s: State, e: Event) {
    match e
    case UserCreate(k) => k in cfg.machines && k !in s.stored && k !in s.passes
    case UserDelete(k) => k in s.stored
    case Begin(k, _) => k in cfg.machines && k in s.stored && k !in s.passes
    case Answered(k, a) => k in cfg.machines && k in s.passes && Allowed(cfg, s, k, s.passes[k].call, a)
    case Crash(k) => k in s.passes
    case Vanish(_) => true
  }

  function Deliver(cfg: Config, s: State, k: Key, a: Answer): State
    requires k in cfg.machines && k in s.passes
  {
    var p := s.passes[k];
    var n := Next(k, cfg.machines[k], p, a);
    State(StoredAfter(s.stored, k, p, a),
          if n.Some? then s.passes[k := n.value] else s.passes - {k},
          ServersAfter(cfg, s.servers, k, p.call, a))
  }

  function Apply(cfg: Config, s: State, e: Event): State
    requires e.Begin? || e.Answered? ==> e.k in cfg.machines
    requires e.Begin? ==> e.k in s.stored
    requires e.Answered? ==> e.k in s.passes
  {
    match e
    case UserCreate(k) => s.(stored := s.stored[k := FRESH])
    case UserDelete(k) =>
      s.(stored := if k in s.stored && s.stored[k].finalizer then s.stored[k := s.stored[k].(deleting := true)] else s.stored - {k})
    case Begin(k, f) => s.(passes := s.passes[k := Start(k, cfg.machines[k], s.stored[k], f)])
    case Answered(k, a) => Deliver(cfg, s, k, a)
    case Crash(k) => s.(passes := s.passes - {k})
    case Vanish(id) => s.(servers := Kill(cfg, s.servers, id))
  }

  const INIT := State(map[], map[], map[])

  ghost predicate Step(cfg: Config, s: State, e: Event, s': State) {
    Enabled(cfg, s, e) && s' == Apply(cfg, s, e)
  }

  /** A run of any length: states[i] --events[i]--> states[i+1]. */
  ghost predicate IsRun(cfg: Config, states: seq<State>, events: seq<Event>) {
    && |states| == |events| + 1 && states[0] == INIT
    && forall i {:trigger events[i]} :: 0 <= i < |events| ==> Step(cfg, states[i], events[i], states[i + 1])
  }

  ghost predicate Reachable(cfg: Config, s: State) {
    exists states: seq<State>, events: seq<Event> :: IsRun(cfg, states, events) && states[|states| - 1] == s
  }

  lemma InitReachable(cfg: Config)
    ensures Reachable(cfg, INIT)
  {
    var states, events: seq<Event> := [INIT], [];
    assert IsRun(cfg, states, events) && states[|states| - 1] == INIT;
  }

  lemma ReachableStep(cfg: Config, s: State, e: Event)
    requires Reachable(cfg, s) && Enabled(cfg, s, e)
    ensures Reachable(cfg, Apply(cfg, s, e))
  {
    hide Deliver, Start, Allowed;
    var states, events :| IsRun(cfg, states, events) && states[|states| - 1] == s;
    var states', events' := states + [Apply(cfg, s, e)], events + [e];
    forall i {:trigger events'[i]} | 0 <= i < |events'| ensures Step(cfg, states'[i], events'[i], states'[i + 1]) {
      if i < |events| { assert events'[i] == events[i]; }
    }
    assert IsRun(cfg, states', events') && states'[|states'| - 1] == Apply(cfg, s, e);
  }

  /** User-added bare metal tags are not mistaken for the identifying ones. */
  predicate ConfigOK(cfg: Config) {
    forall k :: k in cfg.machines ==> Harmless(cfg.machines[k].additionalTags)
  }

  // ---- one uninterrupted pass

  /** The pass of k consumes answers until it ends, or until there are none left (the process stops there). */
  function Exec(cfg: Config, s: State, k: Key, script: seq<Answer>): (State, seq<Answer>)
    requires k in cfg.machines
    decreases |script|
  {
    if k !in s.passes || script == [] then (s, script)
    else Exec(cfg, Deliver(cfg, s, k, script[0]), k, script[1..])
  }

  /** Every answer of the script is one that its call may get. */
  ghost predicate AllowedScript(cfg: Config, s: State, k: Key, script: seq<Answer>)
    requires k in cfg.machines
    decreases |script|
  {
    k in s.passes && script != [] ==>
      && Allowed(cfg, s, k, s.passes[k].call, script[0])
      && AllowedScript(cfg, Deliver(cfg, s, k, script[0]), k, script[1..])
  }

  /** An uninterrupted pass is a piece of a run, so what holds in every run holds of the controllers' passes. */
  lemma {:induction false} PassIsRun(cfg: Config, s: State, k: Key, script: seq<Answer>)
    requires k in cfg.machines && Reachable(cfg, s) && AllowedScript(cfg, s, k, script)
    ensures Reachable(cfg, Exec(cfg, s, k, script).0)
    decreases |script|
  {
    hide Reachable, Deliver, Allowed;
    if k in s.passes && script != [] {
      ReachableStep(cfg, s, Answered(k, script[0]));
      assert Apply(cfg, s, Answered(k, script[0])) == Deliver(cfg, s, k, script[0]);
      PassIsRun(cfg, Deliver(cfg, s, k, script[0]), k, script[1..]);
    }
  }

  // ---- one pass amid the others

  /** The world at the moment when a call of the pass is answered, after whatever went on since the last one, and the answer. */
  datatype Turn = Turn(world: State, a: Answer)

  /** The world has moved on; the pass of k is where it was. */
  function Resumed(world: State, k: Key, p: Pass): State {
    world.(passes := world.passes[k := p])
  }

  /** The pass of k takes its turns until it ends, or until there are none left. */
  function Follow(cfg: Config, s: State, k: Key, script: seq<Turn>): (State, seq<Turn>)
    requires k in cfg.machines
    decreases |script|
  {
    if k !in s.passes || script == [] then (s, script)
    else Follow(cfg, Deliver(cfg, Resumed(script[0].world, k, s.passes[k]), k, script[0].a), k, script[1..])
  }

  /** The event leaves the pass of k alone. */
  predicate Elsewhere(e: Event, k: Key) {
    match e
    case Begin(j, _) => j != k
    case Answered(j, _) => j != k
    case Crash(j) => j != k
    case _ => true
  }

  /** The pass of k is under way and the event is not its end by a crash. */
  predicate UnderWay(s: State, e: Event, k: Key) {
    k in s.passes && e != Crash(k)
  }

  lemma ElsewhereKeepsPass(cfg: Config, s: State, e: Event, s': State, k: Key)
    requires Step(cfg, s, e, s') && Elsewhere(e, k) && k in s.passes
    ensures k in s'.passes && s'.passes[k] == s.passes[k]
  {
    hide Next, Start, ServersAfter, StoredAfter, Allowed;
  }

  /**
   Every piece of every run in which the pass of k goes on and has the last word is what the pass does with some turns,
   taken from the run itself.
   */
  lemma {:induction false} RunIsFollowed(cfg: Config, states: seq<State>, events: seq<Event>, i: nat, j: nat, k: Key) returns (script: seq<Turn>)
    requires IsRun(cfg, states, events) && i < j < |states| && k in cfg.machines
    requires forall m :: i <= m < j ==> UnderWay(states[m], events[m], k)
    requires events[j - 1].Answered? && events[j - 1].k == k
    ensures k in states[i].passes
    ensures forall s: State :: k in s.passes && s.passes[k] == states[i].passes[k] ==> Follow(cfg, s, k, script) == (states[j], [])
    decreases j - i
  {
    hide Deliver, Allowed;
    var e := events[i];
    assert UnderWay(states[i], e, k) && Step(cfg, states[i], e, states[i + 1]);
    if e.Answered? && e.k == k {
      var rest := [];
      if i + 1 < j { rest := RunIsFollowed(cfg, states, events, i + 1, j, k); }
      script := [Turn(states[i], e.a)] + rest;
      assert script[1..] == rest && Follow(cfg, states[i + 1], k, rest) == (states[j], []);
      assert Resumed(states[i], k, states[i].passes[k]) == states[i];
    } else {
      assert Elsewhere(e, k);
      ElsewhereKeepsPass(cfg, states[i], e, states[i + 1], k);
      script := RunIsFollowed(cfg, states, events, i + 1, j, k);
    }
  }

  /** From s, steps of others lead to s'. */
  ghost predicate Drifts(cfg: Config, s: State, s': State, k: Key) {
    exists states: seq<State>, events: seq<Event> :: DriftsBy(cfg, states, events, s, s', k)
  }

  ghost predicate DriftsBy(cfg: Config, states: seq<State>, events: seq<Event>, s: State, s': State, k: Key) {
    && |states| == |events| + 1 && states[0] == s && states[|states| - 1] == s'
    && forall i {:trigger events[i]} :: 0 <= i < |events| ==> Step(cfg, states[i], events[i], states[i + 1]) && Elsewhere(events[i], k)
  }

  lemma {:induction false} DriftIsReachable(cfg: Config, states: seq<State>, events: seq<Event>, s: State, s': State, k: Key)
    requires Reachable(cfg, s) && DriftsBy(cfg, states, events, s, s', k)
    ensures Reachable(cfg, s') && (k in s.passes ==> k in s'.passes && s'.passes[k] == s.passes[k])
    decreases |events|
  {
    hide Reachable, Apply, Enabled;
    if events != [] {
      var n := |events| - 1;
      assert Step(cfg, states[n], events[n], states[n + 1]);
      forall i {:trigger events[..n][i]} | 0 <= i < n ensures Step(cfg, states[..n + 1][i], events[..n][i], states[..n + 1][i + 1]) && Elsewhere(events[..n][i], k) {
        assert events[..n][i] == events[i];
      }
      DriftIsReachable(cfg, states[..n + 1], events[..n], s, states[n], k);
      ReachableStep(cfg, states[n], events[n]);
      if k in s.passes { ElsewhereKeepsPass(cfg, states[n], events[n], s', k); }
    }
  }

  /** Each turn's world is where others took the last one, and its answer is one that the call may get. */
  ghost predicate PossibleTurns(cfg: Config, s: State, k: Key, script: seq<Turn>)
    requires k in cfg.machines
    decreases |script|
  {
    k in s.passes && script != [] ==>
      && Drifts(cfg, s, script[0].world, k)
      && Allowed(cfg, script[0].world, k, s.passes[k].call, script[0].a)
      && PossibleTurns(cfg, Deliver(cfg, Resumed(script[0].world, k, s.passes[k]), k, script[0].a), k, script[1..])
  }

  /** The other way round: on possible turns, the pass takes a reachable state to a reachable one. */
  lemma {:induction false} FollowedIsRun(cfg: Config, s: State, k: Key, script: seq<Turn>)
    requires k in cfg.machines && Reachable(cfg, s) && PossibleTurns(cfg, s, k, script)
    ensures Reachable(cfg, Follow(cfg, s, k, script).0)
    decreases |script|
  {
    hide Reachable, Deliver, Allowed;
    if k in s.passes && script != [] {
      var w, a := script[0].world, script[0].a;
      var states, events :| DriftsBy(cfg, states, events, s, w, k);
      DriftIsReachable(cfg, states, events, s, w, k);
      assert Resumed(w, k, s.passes[k]) == w;
      ReachableStep(cfg, w, Answered(k, a));
      assert Apply(cfg, w, Answered(k, a)) == Deliver(cfg, w, k, a);
      FollowedIsRun(cfg, Deliver(cfg, w, k, a), k, script[1..]);
    }
  }
}

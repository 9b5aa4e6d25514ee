/** What the safety and the convergence of deletion come to together, from any state that a run can reach. */
module Cleanup {
  import opened Search
  import opened Machines
  import opened Protocol
  import opened Invariants
  import opened Convergence
  import opened Interleaving
  import L = Lifecycle
  import U = Uniqueness
  import O = Orphans
  import PID = ProviderID

  /** In every reachable state of distinct machines there is at most one live server to delete, recorded or not. */
  lemma OneOtherReachable(cfg: Config, s: State, k: Key)
    requires ConfigOK(cfg) && U.Distinct(cfg) && Reachable(cfg, s) && k in cfg.machines && k in s.stored
    ensures OneOther(cfg, s.servers, k, ServerID(s.stored[k]))
  {
    hide Reachable, PID.ToResourceID, U.LiveOwned;
    U.UniqueReachable(cfg, s, k);
  }

  lemma LagReachable(cfg: Config, s: State)
    requires Reachable(cfg, s)
    ensures LagInv(cfg, s.servers)
  {
    hide LagInv;
    var states, events :| IsRun(cfg, states, events) && states[|states| - 1] == s;
    LagAlong(cfg, states, events, |states| - 1);
  }

  lemma DropReachable(cfg: Config, s: State)
    requires ConfigOK(cfg) && Reachable(cfg, s)
    ensures O.DropInv(s)
  {
    hide O.DropInv;
    var states, events :| IsRun(cfg, states, events) && states[|states| - 1] == s;
    O.DropAlong(cfg, states, events, |states| - 1);
  }

  lemma NoneLiveIfNoneMade(cfg: Config, servers: map<string, Server>, k: Key)
    requires ConfigOK(cfg) && U.Distinct(cfg) && k in cfg.machines && ServersOK(cfg, servers) && O.NoLiveMadeBy(servers, k)
    ensures U.NoneLive(cfg, servers, k)
  {
    hide OwnedBy, WellMade;
    forall id ensures !U.LiveOwned(cfg, servers, k, id) {
      if id in servers { U.OwnedByMaker(cfg, k, servers[id]); }
    }
  }

  ghost predicate Marked(s: State, k: Key) {
    k in s.stored && s.stored[k].deleting
  }

  /** An answer leaves the object marked, or it is gone with its pass and no server made for it is live. */
  lemma MarkedOrGone(cfg: Config, s: State, k: Key, a: Answer)
    requires ConfigOK(cfg) && Inv(cfg, s) && O.DropInv(s) && Marked(s, k) && Enabled(cfg, s, Answered(k, a))
    ensures var s1 := Deliver(cfg, s, k, a);
            Marked(s1, k) || (k !in s1.stored && k !in s1.passes && O.NoLiveMadeBy(s1.servers, k))
  {
    hide Next, ServersAfter, O.DropInv, PassOK, MachineOK, ServersOK, O.NoLiveMadeBy, Allowed;
    var s1 := Deliver(cfg, s, k, a);
    if !Marked(s1, k) {
      O.DropsOnlyAtClose(cfg, s, Answered(k, a), s1, k);
      O.HeldServer(cfg, s, Answered(k, a), s1, k);
      ClosingIsLast(k, cfg.machines[k], s.passes[k], a);
    }
  }

  /** A pass in which the object goes leaves no live server of it. */
  lemma {:induction false} PassCleansUp(cfg: Config, s: State, k: Key, script: seq<Answer>)
    requires ConfigOK(cfg) && U.Distinct(cfg) && Reachable(cfg, s) && k in cfg.machines && Marked(s, k)
    requires TruthfulPass(cfg, s, k, script)
    ensures var s' := EndOf(cfg, s, k, script);
            && Reachable(cfg, s') && k !in s'.passes
            && (if k in s'.stored then Marked(s', k) else U.NoneLive(cfg, s'.servers, k))
    decreases |script|
  {
    hide Reachable, Inv, O.DropInv, Deliver, Allowed, U.Distinct;
    if k in s.passes {
      var s1 := Deliver(cfg, s, k, script[0]);
      ReachableStep(cfg, s, Answered(k, script[0]));
      assert s1 == Apply(cfg, s, Answered(k, script[0]));
      InvReachable(cfg, s);
      DropReachable(cfg, s);
      MarkedOrGone(cfg, s, k, script[0]);
      assert EndOf(cfg, s, k, script) == EndOf(cfg, s1, k, script[1..]);
      if Marked(s1, k) {
        PassCleansUp(cfg, s1, k, script[1..]);
      } else {
        InvReachable(cfg, s1);
        ServersOf(cfg, s1);
        NoneLiveIfNoneMade(cfg, s1.servers, k);
      }
    }
  }

  lemma {:induction false} PassesCleanUp(cfg: Config, s: State, k: Key, passes: seq<PassScript>)
    requires ConfigOK(cfg) && U.Distinct(cfg) && Reachable(cfg, s) && k in cfg.machines && Marked(s, k) && k !in s.passes
    requires TruthfulPasses(cfg, s, k, passes)
    ensures var s' := AfterPasses(cfg, s, k, passes); Reachable(cfg, s') && (k !in s'.stored ==> U.NoneLive(cfg, s'.servers, k))
    decreases |passes|
  {
    hide Reachable, EndOf, TruthfulPass, U.Distinct, U.NoneLive;
    if passes != [] {
      var s1 := Begun(cfg, s, k, passes[0].facts);
      ReachableStep(cfg, s, Begin(k, passes[0].facts));
      PassCleansUp(cfg, s1, k, passes[0].answers);
      var s2 := EndOf(cfg, s1, k, passes[0].answers);
      if k in s2.stored { PassesCleanUp(cfg, s2, k, passes[1..]); }
    }
  }

  /**
   From every state that any run of distinct machines can reach: an object that is marked for deletion is gone after as
   many truthful passes as the measure counts and one more, or after two if listings do not lag, and then none of its
   servers is live.
   */
  lemma DeletionCleansUp(cfg: Config, s: State, k: Key, passes: seq<PassScript>)
    requires ConfigOK(cfg) && U.Distinct(cfg) && Reachable(cfg, s) && k in cfg.machines && Marked(s, k) && k !in s.passes
    requires TruthfulPasses(cfg, s, k, passes) && (|passes| > Measure(cfg, s.servers, k) || (cfg.lag == 0 && |passes| == 2))
    ensures var s' := AfterPasses(cfg, s, k, passes);
            Reachable(cfg, s') && k !in s'.stored && U.NoneLive(cfg, s'.servers, k)
  {
    hide Reachable, Inv, AfterPasses, TruthfulPasses, U.Distinct, U.NoneLive, OneOther, Measure, LagInv, PID.ToResourceID;
    InvReachable(cfg, s);
    OneOtherReachable(cfg, s, k);
    LagReachable(cfg, s);
    if |passes| > Measure(cfg, s.servers, k) {
      DeleteConverges(cfg, s, k, passes);
    } else {
      DeleteInTwoPasses(cfg, s, k, passes);
    }
    PassesCleanUp(cfg, s, k, passes);
  }

  // ---- and exactly distinct machines can rely on it

  /** A create of k that fails but has made a server, tagged or not. */
  lemma FailedCreate(cfg: Config, s: State, k: Key, id: string, tagged: bool) returns (s': State)
    requires Reachable(cfg, s) && k in cfg.machines && k in s.passes && s.passes[k].call.Creating?
    requires |id| == 1 && id !in s.servers && (!tagged ==> k.kind == VM && cfg.untagged)
    ensures Reachable(cfg, s') && s'.stored == s.stored && s'.servers == s.servers[id := NewServer(cfg, k, tagged)]
    ensures k in s'.passes && s'.passes == s.passes[k := s'.passes[k]] && s'.passes[k].call.Closing?
    ensures s'.passes[k].mem.finalizer == s.passes[k].mem.finalizer && s'.passes[k].mem.providerID == s.passes[k].mem.providerID
  {
    hide IsRun, NewServer;
    U.FreshLetter(s.servers, id);
    var e := Answered(k, CreateFailed(if tagged then MadeTagged(id) else MadeUntagged(id)));
    ReachableStep(cfg, s, e);
    s' := Apply(cfg, s, e);
  }

  /** The pass of k stores its object, and the user deletes it. */
  lemma CloseAndDelete(cfg: Config, s: State, k: Key) returns (s': State)
    requires Reachable(cfg, s) && k in cfg.machines && k in s.stored && k in s.passes && s.passes[k].call.Closing? && s.passes[k].mem.finalizer
    ensures Reachable(cfg, s') && s'.servers == s.servers && k !in s'.passes
    ensures Marked(s', k) && s'.stored[k].providerID == s.passes[k].mem.providerID
  {
    hide IsRun;
    ReachableStep(cfg, s, Answered(k, Done));
    var s1 := Apply(cfg, s, Answered(k, Done));
    ReachableStep(cfg, s1, UserDelete(k));
    s' := Apply(cfg, s1, UserDelete(k));
  }

  /** Of two confusable machines, one can be left to delete with two live servers that it does not record. */
  lemma ConfusableGetsStuck(cfg: Config, j: Key, k: Key) returns (s: State)
    requires ConfigOK(cfg) && j in cfg.machines && k in cfg.machines && U.Confusable(cfg, j, k)
    ensures Reachable(cfg, s) && Waiting(cfg, s, k) && TwoOthers(cfg, s.servers, k, ServerID(s.stored[k]), "a", "b")
  {
    hide Reachable, NewServer, OwnedBy, Inv;
    InitReachable(cfg);
    ReachableStep(cfg, INIT, UserCreate(k));
    var s1 := Apply(cfg, INIT, UserCreate(k));
    ReachableStep(cfg, s1, UserCreate(j));
    var s2 := Apply(cfg, s1, UserCreate(j));
    var s3 := U.BeginAndFindNothing(cfg, s2, k, U.EAGER);
    var s4 := U.BeginAndFindNothing(cfg, s3, j, U.EAGER);
    var s5 := FailedCreate(cfg, s4, k, "a", true);
    var same := cfg.machines[j].clusterUID == cfg.machines[k].clusterUID;
    var s6 := FailedCreate(cfg, s5, j, "b", same);
    s := CloseAndDelete(cfg, s6, k);
    U.NewServerOwned(cfg, k, k, true);
    U.NewServerOwned(cfg, j, k, same);
    NoID();
    InvReachable(cfg, s);
  }

  /** In every reachable state, every object that waits for its deletion is sure to be gone after some number of truthful passes. */
  ghost predicate DeletionIsCertain(cfg: Config) {
    forall s, k :: Reachable(cfg, s) && Waiting(cfg, s, k) ==> exists n: nat :: GoneAfter(cfg, s, k, n)
  }

  /** Deletion is certain in all that can happen exactly for the configurations without confusable machines. */
  lemma DeletionCertainIffDistinct(cfg: Config)
    requires ConfigOK(cfg)
    ensures DeletionIsCertain(cfg) <==> U.Distinct(cfg)
  {
    hide Reachable, Inv, GoneAfter, OneOther, TwoOthers, PID.ToResourceID;
    if U.Distinct(cfg) {
      forall s, k | Reachable(cfg, s) && Waiting(cfg, s, k) ensures exists n: nat :: GoneAfter(cfg, s, k, n) {
        OneOtherReachable(cfg, s, k);
        DeleteConvergesIff(cfg, s, k);
      }
    } else {
      var j, k :| j in cfg.machines && k in cfg.machines && U.Confusable(cfg, j, k);
      var s := ConfusableGetsStuck(cfg, j, k);
      TwoAreNotOne(cfg, s.servers, k, ServerID(s.stored[k]), "a", "b");
      DeleteConvergesIff(cfg, s, k);
    }
  }

  lemma TwoAreNotOne(cfg: Config, servers: map<string, Server>, k: Key, id: string, x: string, y: string)
    requires k in cfg.machines && TwoOthers(cfg, servers, k, id, x, y)
    ensures !OneOther(cfg, servers, k, id)
  {
    hide U.LiveOwned;
  }

  // ---- the same amid everything else

  /** A delete pass of k from its Begin event to the state after its Close. */
  datatype Span = Span(begin: nat, end: nat)

  /** The pass takes place in the run and hears only the truth; what goes on in between is left open. */
  ghost predicate IsSpan(cfg: Config, states: seq<State>, events: seq<Event>, k: Key, sp: Span)
    requires |states| == |events| + 1 && k in cfg.machines
  {
    && sp.begin + 1 < sp.end < |states|
    && events[sp.begin].Begin? && events[sp.begin].k == k && k in states[sp.begin].stored && states[sp.begin].stored[k].deleting
    && TruthfulUpTo(cfg, states, events, sp.begin + 1, sp.end, k)
    && events[sp.end - 1].Answered? && events[sp.end - 1].k == k && k !in states[sp.end].passes
  }

  /** Truthful delete passes of k, one after another. */
  ghost predicate AreSpans(cfg: Config, states: seq<State>, events: seq<Event>, k: Key, spans: seq<Span>)
    requires |states| == |events| + 1 && k in cfg.machines
  {
    && (forall n :: 0 <= n < |spans| ==> IsSpan(cfg, states, events, k, spans[n]))
    && (forall n {:trigger spans[n]} :: 0 < n < |spans| ==> spans[n - 1].end <= spans[n].begin)
  }

  /** While the object is there and doomed, nothing raises its measure. */
  lemma {:induction false} DoomedAlong(cfg: Config, states: seq<State>, events: seq<Event>, i: nat, j: nat, k: Key)
    requires ConfigOK(cfg) && U.Distinct(cfg) && IsRun(cfg, states, events) && k in cfg.machines && L.Stays(states, i, j, k)
    requires Doomed(states[i], k)
    ensures Doomed(states[j], k) && Measure(cfg, states[j].servers, k) <= Measure(cfg, states[i].servers, k)
    decreases j
  {
    hide Inv, Measure, Apply, Enabled, Doomed, U.Distinct, U.LiveOwned;
    if i < j {
      DoomedAlong(cfg, states, events, i, j - 1, k);
      InvAlong(cfg, states, events, j - 1);
      assert events[j - 1] == events[j - 1];
      NothingHinders(cfg, states[j - 1], events[j - 1], states[j], k);
      DoomedStep(cfg, states[j - 1], events[j - 1], states[j], k);
    }
  }

  lemma PrefixReachable(cfg: Config, states: seq<State>, events: seq<Event>, i: nat)
    requires IsRun(cfg, states, events) && i < |states|
    ensures Reachable(cfg, states[i])
  {
    hide Step;
    var states', events' := states[..i + 1], events[..i];
    forall m {:trigger events'[m]} | 0 <= m < |events'| ensures Step(cfg, states'[m], events'[m], states'[m + 1]) {
      assert events'[m] == events[m];
    }
    assert IsRun(cfg, states', events') && states'[|states'| - 1] == states[i];
  }

  /** One span lowers the measure if the object survives it. */
  lemma SpanLowers(cfg: Config, states: seq<State>, events: seq<Event>, k: Key, sp: Span)
    requires ConfigOK(cfg) && U.Distinct(cfg) && IsRun(cfg, states, events) && k in cfg.machines && IsSpan(cfg, states, events, k, sp)
    requires k in states[sp.end].stored
    ensures Doomed(states[sp.end], k) && Measure(cfg, states[sp.end].servers, k) < Measure(cfg, states[sp.begin].servers, k)
  {
    hide Step, Reachable, U.Distinct, OneOther, Measure, TruthfulUpTo;
    PrefixReachable(cfg, states, events, sp.begin);
    OneOtherReachable(cfg, states[sp.begin], k);
    InterleavedDeletePass(cfg, states, events, sp.begin, sp.end, k);
  }

  lemma {:induction false} SpansOrdered(cfg: Config, states: seq<State>, events: seq<Event>, k: Key, spans: seq<Span>, n: nat)
    requires |states| == |events| + 1 && k in cfg.machines && AreSpans(cfg, states, events, k, spans) && n < |spans|
    ensures IsSpan(cfg, states, events, k, spans[n])
    ensures spans[0].begin <= spans[n].begin < spans[n].end < |states|
    ensures n > 0 ==> spans[0].begin < spans[n - 1].end <= spans[n].begin
  {
    hide TruthfulUpTo;
    if n > 0 { SpansOrdered(cfg, states, events, k, spans, n - 1); }
  }

  lemma StaysWithin(states: seq<State>, i: nat, j: nat, i': nat, j': nat, k: Key)
    requires L.Stays(states, i, j, k) && i <= i' <= j' <= j
    ensures L.Stays(states, i', j', k)
  {
  }

  lemma {:induction false} SpansLower(cfg: Config, states: seq<State>, events: seq<Event>, k: Key, spans: seq<Span>, n: nat)
    requires ConfigOK(cfg) && U.Distinct(cfg) && IsRun(cfg, states, events) && k in cfg.machines
    requires AreSpans(cfg, states, events, k, spans) && n < |spans|
    requires spans[0].begin <= spans[n].end && L.Stays(states, spans[0].begin, spans[n].end, k)
    ensures spans[n].end < |states| && Doomed(states[spans[n].end], k)
    ensures Measure(cfg, states[spans[n].end].servers, k) + n < Measure(cfg, states[spans[0].begin].servers, k)
  {
    hide Step, U.Distinct, Measure, AreSpans, IsSpan, Doomed;
    SpansOrdered(cfg, states, events, k, spans, n);
    var b, e := spans[0].begin, spans[n].end;
    SpanLowers(cfg, states, events, k, spans[n]);
    if n > 0 {
      StaysWithin(states, b, e, b, spans[n - 1].end, k);
      StaysWithin(states, b, e, spans[n - 1].end, spans[n].begin, k);
      SpansLower(cfg, states, events, k, spans, n - 1);
      DoomedAlong(cfg, states, events, spans[n - 1].end, spans[n].begin, k);
    }
  }

  /**
   In every run of distinct machines: once more truthful delete passes of k have gone by than the measure counted when the
   first began, however they interleave with other machines, users, crashed passes and vanishing servers, the object
   was gone at some moment in between, and at that moment none of its servers was live.
   */
  lemma InterleavedDeletionEnds(cfg: Config, states: seq<State>, events: seq<Event>, k: Key, spans: seq<Span>) returns (m: nat)
    requires ConfigOK(cfg) && U.Distinct(cfg) && IsRun(cfg, states, events) && k in cfg.machines
    requires AreSpans(cfg, states, events, k, spans) && spans != []
    requires |spans| > Measure(cfg, states[spans[0].begin].servers, k)
    ensures spans[0].begin < m <= spans[|spans| - 1].end < |states|
    ensures k !in states[m].stored && U.NoneLive(cfg, states[m].servers, k)
  {
    hide Step, U.Distinct, Measure, TruthfulUpTo, AreSpans, U.NoneLive, PID.ToResourceID;
    var n := |spans| - 1;
    SpansOrdered(cfg, states, events, k, spans, 0);
    SpansOrdered(cfg, states, events, k, spans, n);
    var b, e := spans[0].begin, spans[n].end;
    if L.Stays(states, b, e, k) {
      SpansLower(cfg, states, events, k, spans, n);
      m := b;
      assert false;
    } else {
      m := FirstGone(states, b, e, k);
      DoomedAtBegin(cfg, states, events, k, spans[0]);
      DoomedAlong(cfg, states, events, b, m - 1, k);
      GoneIsClean(cfg, states, events, m - 1, k);
    }
  }

  lemma {:induction false} FirstGone(states: seq<State>, i: nat, j: nat, k: Key) returns (m: nat)
    requires i < j < |states| && k in states[i].stored && !L.Stays(states, i, j, k)
    ensures i < m <= j && k !in states[m].stored && L.Stays(states, i, m - 1, k)
    decreases j
  {
    if L.Stays(states, i, j - 1, k) {
      m := j;
    } else {
      m := FirstGone(states, i, j - 1, k);
    }
  }

  lemma DoomedAtBegin(cfg: Config, states: seq<State>, events: seq<Event>, k: Key, sp: Span)
    requires IsRun(cfg, states, events) && k in cfg.machines && IsSpan(cfg, states, events, k, sp)
    ensures Doomed(states[sp.begin], k)
  {
    hide Apply, TruthfulUpTo;
    assert Step(cfg, states[sp.begin], events[sp.begin], states[sp.begin + 1]);
  }

  /** The step in which a marked object goes. */
  lemma GoneIsClean(cfg: Config, states: seq<State>, events: seq<Event>, i: nat, k: Key)
    requires ConfigOK(cfg) && U.Distinct(cfg) && IsRun(cfg, states, events) && k in cfg.machines && i < |events|
    requires Marked(states[i], k) && k !in states[i + 1].stored
    ensures U.NoneLive(cfg, states[i + 1].servers, k)
  {
    hide Step, U.Distinct, U.NoneLive, PID.ToResourceID, PassOK, MachineOK, ServersOK, O.NoLiveMadeBy, O.NotLive;
    InvAlong(cfg, states, events, i);
    O.FinalizerGoesLast(cfg, states, events, i, k);
  }
}

/** A pass for one machine leaves the servers of every other machine alone. */
module Isolation {
  import opened Machines
  import opened Protocol
  import opened Invariants
  import PID = ProviderID

  /** The server dies in the step. */
  predicate Dies(s: State, s': State, id: string) {
    id in s.servers && s.servers[id].live && id in s'.servers && !s'.servers[id].live
  }

  lemma KilledIsNamed(cfg: Config, s: State, e: Event, s': State, id: string)
    requires Step(cfg, s, e, s') && e.Answered? && Dies(s, s', id)
    ensures (s.passes[e.k].call.Deleting? || s.passes[e.k].call.DeletingOther?) && s.passes[e.k].call.id == id
  {
    hide Next, StoredAfter, NewServer;
    AgedEvolves(cfg, s.servers, e.k);
  }

  /**
   In every run: a server that a pass deletes, that it adopts or reads, or that an object records, was made for a
   machine of the same kind and name, and of the same cluster unless its tags were lost in a failed create.
   */
  lemma PassesKeepToTheirServers(cfg: Config, states: seq<State>, events: seq<Event>, i: nat)
    requires ConfigOK(cfg) && IsRun(cfg, states, events) && i < |events|
    ensures var s, e, s' := states[i], events[i], states[i + 1];
            forall id :: e.Answered? && Dies(s, s', id) ==>
              e.k in cfg.machines && s.servers[id].maker in cfg.machines && Rightful(cfg, e.k, s.servers[id])
    ensures var s := states[i];
            forall k :: k in s.passes && s.passes[k].sight.Saw? ==>
              k in cfg.machines && var id := s.passes[k].sight.id;
              id in s.servers && s.servers[id].maker in cfg.machines && Rightful(cfg, k, s.servers[id])
    ensures var s := states[i];
            forall k :: k in s.stored && ServerID(s.stored[k]) != "" ==>
              k in cfg.machines && var id := ServerID(s.stored[k]);
              id in s.servers && s.servers[id].maker in cfg.machines && Rightful(cfg, k, s.servers[id])
  {
    hide Apply, Enabled, PID.ToResourceID, OwnedBy, Rightful;
    var s, e, s' := states[i], events[i], states[i + 1];
    InvAlong(cfg, states, events, i);
    forall id | e.Answered? && Dies(s, s', id)
      ensures e.k in cfg.machines && s.servers[id].maker in cfg.machines && Rightful(cfg, e.k, s.servers[id])
    {
      DeletedIsOwned(cfg, s, e, s', id);
      OwnedIsRightful(cfg, e.k, s.servers[id]);
    }
    forall k | k in s.passes && s.passes[k].sight.Saw?
      ensures k in cfg.machines && var id := s.passes[k].sight.id;
              id in s.servers && s.servers[id].maker in cfg.machines && Rightful(cfg, k, s.servers[id])
    {
      assert PassOK(cfg, s.servers, k, s.passes[k]);
      OwnedIsRightful(cfg, k, s.servers[s.passes[k].sight.id]);
    }
    forall k | k in s.stored && ServerID(s.stored[k]) != ""
      ensures k in cfg.machines && var id := ServerID(s.stored[k]);
              id in s.servers && s.servers[id].maker in cfg.machines && Rightful(cfg, k, s.servers[id])
    {
      assert MachineOK(cfg, s.servers, k, s.stored[k]);
      OwnedIsRightful(cfg, k, s.servers[ServerID(s.stored[k])]);
    }
  }

  lemma DeletedIsOwned(cfg: Config, s: State, e: Event, s': State, id: string)
    requires Inv(cfg, s) && Step(cfg, s, e, s') && e.Answered? && Dies(s, s', id)
    ensures e.k in cfg.machines && ClaimOK(cfg, s.servers, e.k, id)
  {
    hide PID.ToResourceID, OwnedBy, Deliver;
    KilledIsNamed(cfg, s, e, s', id);
    assert PassOK(cfg, s.servers, e.k, s.passes[e.k]);
  }
}

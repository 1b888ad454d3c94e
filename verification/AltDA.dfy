/** The alt-DA challenge state and manager as objects that are updated in place. */
module AltDAObject {
  import opened Options
  import opened Format
  import opened Commitments
  import opened AltDASpec

  /** Challenges live in `objs`; queues and table refer to them by their place there. */
  class ChallengeState {
    const cfg: Config
    var commitments: seq<Commitment>
    var expiredCommitments: seq<Commitment>
    var challenges: seq<Ref>
    var expiredChallenges: seq<Ref>
    var table: map<Key, Ref>
    var objs: seq<Challenge>
    var lastPruned: nat

    ghost function View(): State
      reads this
    {
      State(commitments, expiredCommitments, challenges, expiredChallenges, table, objs, lastPruned)
    }

    ghost predicate Valid()
      reads this
    {
      View().WF()
    }

    constructor (cfg: Config)
      ensures Valid() && this.cfg == cfg
      ensures View() == State([], [], [], [], map[], [], 0)
    {
      this.cfg := cfg;
      commitments, expiredCommitments := [], [];
      challenges, expiredChallenges := [], [];
      table, objs, lastPruned := map[], [], 0;
    }

    method ClearCommitments()
      requires Valid()
      modifies `commitments, `expiredCommitments
      ensures Valid() && View() == old(View()).ClearCommitments()
    {
      commitments := [];
      expiredCommitments := [];
    }

    method Reset()
      requires Valid()
      modifies this
      ensures Valid() && View() == old(View()).Reset()
    {
      commitments := [];
      expiredCommitments := [];
      challenges := [];
      expiredChallenges := [];
      table := map[];
    }

    method CreateChallenge(comm: Comm, inclusion: nat, block: nat)
      requires Valid()
      modifies `challenges, `objs, `table
      ensures Valid() && View() == old(View()).Create(cfg, comm, inclusion, block)
    {
      var c := Challenge(comm, block, inclusion + cfg.resolveWindow, [], Active);
      var p := |objs|;
      objs := objs + [c];
      challenges := challenges + [p];
      table := table[c.Key() := p];
    }

    method ResolveChallenge(comm: Comm, block: nat, input: seq<Byte>) returns (ok: bool)
      requires Valid()
      modifies `objs
      ensures Valid() && (View(), ok) == old(View()).Resolve(comm, block, input)
    {
      var k := ChallengeKey(comm, block);
      if k !in table {
        return false;
      }
      var p := table[k];
      objs := objs[p := objs[p].(input := input)];
      objs := objs[p := objs[p].(status := Resolved)];
      assert objs == old(objs)[p := old(objs)[p].(input := input, status := Resolved)];
      return true;
    }

    method TrackCommitment(comm: Comm, block: nat)
      requires Valid()
      modifies `commitments
      ensures Valid() && View() == old(View()).Track(cfg, comm, block)
    {
      commitments := commitments + [Commitment(comm, block, block + cfg.challengeWindow)];
    }

    method GetChallenge(comm: Comm, block: nat) returns (c: Option<Challenge>)
      requires Valid()
      ensures c == View().Get(ChallengeKey(comm, block))
    {
      var k := ChallengeKey(comm, block);
      if k in table {
        return Some(objs[table[k]]);
      }
      return None;
    }

    method GetChallengeStatus(comm: Comm, block: nat) returns (status: Status)
      requires Valid()
      ensures status == View().StatusOf(ChallengeKey(comm, block))
    {
      var c := GetChallenge(comm, block);
      status := if c.Some? then c.value.status else Uninitialized;
    }

    method NoCommitments() returns (r: bool)
      ensures r == View().NoCommitments()
    {
      r := |challenges| == 0 && |expiredChallenges| == 0 && |commitments| == 0 && |expiredCommitments| == 0;
    }

    method ExpireCommitments(origin: nat) returns (reorg: bool)
      requires Valid()
      modifies `commitments, `expiredCommitments
      ensures Valid() && (View(), reorg) == old(View()).ExpireCommitments(origin)
    {
      hide ChallengeKey;
      reorg := false;
      while |commitments| > 0
        invariant Valid()
        invariant View().ExpireCommitments(origin).0 == old(View()).ExpireCommitments(origin).0
        invariant (reorg || View().ExpireCommitments(origin).1) == old(View()).ExpireCommitments(origin).1
        decreases |commitments|
      {
        var c := commitments[0];
        var challenge := GetChallenge(c.comm, c.block);
        var expiresAt := c.windowEnd;
        if challenge.Some? {
          expiresAt := challenge.value.resolveEnd;
        }
        if expiresAt > origin {
          return;
        }
        expiredCommitments := expiredCommitments + [c];
        commitments := commitments[1..];
        if challenge.Some? && challenge.value.status != Resolved {
          reorg := true;
        }
      }
    }

    method ExpireChallenges(origin: nat)
      requires Valid()
      modifies `challenges, `expiredChallenges, `objs
      ensures Valid() && View() == old(View()).ExpireChallenges(origin)
    {
      while |challenges| > 0
        invariant Valid()
        invariant View().ExpireChallenges(origin) == old(View()).ExpireChallenges(origin)
        decreases |challenges|
      {
        var p := challenges[0];
        if objs[p].resolveEnd > origin {
          return;
        }
        expiredChallenges := expiredChallenges + [p];
        challenges := challenges[1..];
        if objs[p].status == Active {
          objs := objs[p := objs[p].(status := Expired)];
        }
      }
    }

    method PruneCommitments(origin: nat)
      requires Valid()
      modifies `expiredCommitments, `lastPruned
      ensures Valid() && View() == old(View()).PruneCommitments(origin)
    {
      hide ChallengeKey;
      while |expiredCommitments| > 0
        invariant Valid()
        invariant View().PruneCommitments(origin) == old(View()).PruneCommitments(origin)
        decreases |expiredCommitments|
      {
        var c := expiredCommitments[0];
        var challenge := GetChallenge(c.comm, c.block);
        var expiresAt := c.windowEnd;
        if challenge.Some? {
          expiresAt := challenge.value.resolveEnd;
        }
        if expiresAt > origin {
          break;
        }
        expiredCommitments := expiredCommitments[1..];
        lastPruned := c.block;
      }
    }

    method PruneChallenges(origin: nat)
      requires Valid()
      modifies `expiredChallenges, `table
      ensures Valid() && View() == old(View()).PruneChallenges(origin)
    {
      hide ChallengeKey;
      while |expiredChallenges| > 0
        invariant Valid()
        invariant View().PruneChallenges(origin) == old(View()).PruneChallenges(origin)
        decreases |expiredChallenges|
      {
        var c := objs[expiredChallenges[0]];
        if c.resolveEnd > origin {
          break;
        }
        expiredChallenges := expiredChallenges[1..];
        table := table - {c.Key()};
      }
    }

    method Prune(origin: nat)
      requires Valid()
      modifies `expiredCommitments, `lastPruned, `expiredChallenges, `table
      ensures Valid() && View() == old(View()).Prune(origin)
    {
      PruneCommitments(origin);
      PruneChallenges(origin);
    }
  }

  class Manager {
    const cfg: Config
    const state: ChallengeState
    var challengeOrigin: nat
    var commitmentOrigin: nat
    var finalizedHead: nat
    var l1FinalizedHead: nat
    var resetting: bool

    ghost function View(): DA
      reads this, state
    {
      DA(cfg, state.View(), challengeOrigin, commitmentOrigin, finalizedHead, l1FinalizedHead, resetting)
    }

    ghost predicate Valid()
      reads this, state
    {
      state.Valid() && state.cfg == cfg
    }

    constructor (cfg: Config)
      ensures Valid() && fresh(state)
      ensures View() == DA(cfg, State([], [], [], [], map[], [], 0), 0, 0, 0, 0, false)
    {
      this.cfg := cfg;
      state := new ChallengeState(cfg);
      challengeOrigin, commitmentOrigin, finalizedHead, l1FinalizedHead, resetting := 0, 0, 0, 0, false;
    }

    method LoadChallengeEvents(block: nat, events: Option<seq<Event>>) returns (ok: bool)
      requires Valid()
      modifies state
      ensures Valid() && ok == View().Loads(events)
      ensures !ok ==> state.View() == old(state.View())
      ensures ok ==> state.View() == ApplyAll(old(state.View()), cfg, block, View().Loaded(events))
    {
      hide ChallengeKey, State.Create, State.Resolve;
      var logs := [];
      if cfg.commitmentType != GenericType {
        if events.None? {
          return false;
        }
        logs := events.value;
      }
      for i := 0 to |logs|
        invariant Valid()
        invariant ApplyAll(state.View(), cfg, block, logs[i..]) == ApplyAll(old(state.View()), cfg, block, logs)
      {
        assert logs[i..][1..] == logs[i + 1..];
        match logs[i] {
          case ChallengeResolved(comm, bn, input) =>
            var resolved := state.ResolveChallenge(comm, bn, input);
          case Challenged(comm, bn) => state.CreateChallenge(comm, block, bn);
          case Skipped =>
        }
      }
      assert logs[|logs|..] == [];
      return true;
    }

    method AdvanceChallengeOrigin(block: nat, events: Option<seq<Event>>) returns (ok: bool)
      requires Valid()
      modifies state, `challengeOrigin
      ensures Valid() && (View(), ok) == old(View()).AdvanceChallengeOrigin(block, events)
    {
      hide ApplyAll, State.ExpireChallenges;
      if block <= challengeOrigin {
        return true;
      }
      ok := LoadChallengeEvents(block, events);
      if !ok {
        return;
      }
      state.ExpireChallenges(block);
      challengeOrigin := block;
    }

    method AdvanceCommitmentOrigin(block: nat) returns (reorg: bool)
      requires Valid()
      modifies state, `commitmentOrigin, `resetting
      ensures Valid() && (View(), reorg) == old(View()).AdvanceCommitmentOrigin(block)
    {
      if block <= commitmentOrigin {
        return false;
      }
      reorg := state.ExpireCommitments(block);
      if reorg {
        resetting := true;
        return;
      }
      commitmentOrigin := block;
    }

    method UpdateFinalizedFromL1(refFound: bool) returns (ok: bool)
      requires Valid()
      modifies `finalizedHead
      ensures Valid() && ok == (l1FinalizedHead < cfg.challengeWindow || refFound)
      ensures View() == if l1FinalizedHead >= cfg.challengeWindow && refFound
                        then old(View()).(finalizedHead := l1FinalizedHead - cfg.challengeWindow) else old(View())
    {
      if l1FinalizedHead < cfg.challengeWindow {
        return true;
      }
      if !refFound {
        return false;
      }
      finalizedHead := l1FinalizedHead - cfg.challengeWindow;
      return true;
    }

    method AdvanceL1Origin(block: nat, events: Option<seq<Event>>, refFound: bool) returns (outcome: Outcome)
      requires Valid()
      modifies this, state
      ensures Valid() && (View(), outcome) == old(View()).AdvanceL1Origin(block, events, refFound)
    {
      hide DA.AdvanceChallengeOrigin, DA.AdvanceCommitmentOrigin;
      var ok := AdvanceChallengeOrigin(block, events);
      if !ok {
        return FetchFailed;
      }
      var reorg := AdvanceCommitmentOrigin(block);
      if reorg {
        return ReorgRequired;
      }
      var none := state.NoCommitments();
      if none {
        ok := UpdateFinalizedFromL1(refFound);
        if !ok {
          return FetchFailed;
        }
      }
      return Advanced;
    }

    method Finalize(l1Finalized: nat)
      requires Valid()
      modifies `l1FinalizedHead, `finalizedHead, state
      ensures Valid() && View() == old(View()).Finalize(l1Finalized)
    {
      hide State.Prune;
      l1FinalizedHead := l1Finalized;
      var none := state.NoCommitments();
      if none {
        return;
      }
      state.Prune(l1Finalized);
      finalizedHead := state.lastPruned;
    }

    method LookAhead(found: bool, events: Option<seq<Event>>) returns (ok: bool)
      requires Valid()
      modifies state, `challengeOrigin
      ensures Valid() && (View(), ok) == old(View()).LookAhead(found, events)
    {
      if !found {
        return false;
      }
      ok := AdvanceChallengeOrigin(challengeOrigin + 1, events);
    }

    method Reset(base: nat)
      requires Valid()
      modifies this, state
      ensures Valid() && View() == old(View()).Reset(base)
    {
      if resetting {
        resetting := false;
        commitmentOrigin := base;
        state.ClearCommitments();
      } else {
        challengeOrigin := base;
        commitmentOrigin := base;
        state.Reset();
      }
    }

    method GetInput(comm: Comm, block: nat, storage: Storage, found: bool, events: Option<seq<Event>>)
      returns (r: InputResult)
      requires Valid()
      modifies state, `challengeOrigin
      ensures Valid() && (View(), r) == old(View()).GetInput(comm, block, storage, found, events)
    {
      hide DA.LookAhead, ChallengeKey;
      if cfg.commitmentType != comm.Type() {
        return TypeMismatch;
      }
      var status := state.GetChallengeStatus(comm, block);
      if status == Expired {
        return ExpiredChallenge;
      }
      state.TrackCommitment(comm, block);
      if storage.StorageError? {
        return StorageFailed;
      }
      if storage.NotFound? {
        match status {
          case Uninitialized =>
            if challengeOrigin > block + cfg.challengeWindow {
              return MissingPastWindow;
            }
            var ok := LookAhead(found, events);
            return if ok then PendingChallenge else LookAheadFailed;
          case Active =>
            var ok := LookAhead(found, events);
            return if ok then PendingChallenge else LookAheadFailed;
          case Resolved =>
            if comm.Type() == GenericType {
              return MissingPastWindow;
            }
            var c := state.GetChallenge(comm, block);
            return Data(c.value.input);
        }
      }
      return Data(storage.data);
    }
  }
}

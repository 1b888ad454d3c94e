/** The alt-DA challenge state and the manager that drives it, as values, and what each
    operation does to them. A challenge is referred to by its place in `objs`, which holds
    every challenge that was ever created. */
module AltDASpec {
  import opened Options
  import opened Format
  import opened Commitments

  datatype Status = Uninitialized | Active | Resolved | Expired

  datatype Config = Config(commitmentType: CommitmentType, challengeWindow: nat, resolveWindow: nat)

  type Key = string

  /** A reference to a challenge. */
  type Ref = nat

  /** `windowEnd` is the block after which the commitment can no longer be challenged. */
  datatype Commitment = Commitment(comm: Comm, block: nat, windowEnd: nat)
  {
    function Key(): Key { ChallengeKey(comm, block) }
  }

  /** `resolveEnd` is the block by which the challenge must be resolved. */
  datatype Challenge = Challenge(comm: Comm, block: nat, resolveEnd: nat, input: seq<Byte>, status: Status)
  {
    function Key(): Key { ChallengeKey(comm, block) }
  }

  datatype State = State(
    commitments: seq<Commitment>,
    expiredCommitments: seq<Commitment>,
    challenges: seq<Ref>,
    expiredChallenges: seq<Ref>,
    table: map<Key, Ref>,
    objs: seq<Challenge>,
    lastPruned: nat)
  {
    /** References lead to challenges. */
    predicate WF() {
      && (forall i | 0 <= i < |challenges| :: challenges[i] < |objs|)
      && (forall i | 0 <= i < |expiredChallenges| :: expiredChallenges[i] < |objs|)
      && (forall k | k in table :: table[k] < |objs|)
    }

    function Get(key: Key): Option<Challenge>
      requires WF()
    {
      if key in table then Some(objs[table[key]]) else None
    }

    function StatusOf(key: Key): Status
      requires WF()
    {
      if key in table then objs[table[key]].status else Uninitialized
    }

    function ExpiresAt(c: Commitment): nat
      requires WF()
    {
      match Get(c.Key())
      case Some(ch) => ch.resolveEnd
      case None => c.windowEnd
    }

    function Create(cfg: Config, comm: Comm, inclusion: nat, block: nat): State {
      var c := Challenge(comm, block, inclusion + cfg.resolveWindow, [], Active);
      this.(objs := objs + [c], challenges := challenges + [|objs|], table := table[c.Key() := |objs|])
    }

    /** The flag is false if there is no such challenge. */
    function Resolve(comm: Comm, block: nat, input: seq<Byte>): (State, bool)
      requires WF()
    {
      var k := ChallengeKey(comm, block);
      if k !in table then (this, false)
      else (this.(objs := objs[table[k] := objs[table[k]].(input := input, status := Resolved)]), true)
    }

    function Track(cfg: Config, comm: Comm, block: nat): State {
      this.(commitments := commitments + [Commitment(comm, block, block + cfg.challengeWindow)])
    }

    /** The flag says that an L2 reorg is required. */
    function ExpireCommitments(origin: nat): (State, bool)
      requires WF()
      decreases |commitments|
    {
      if commitments == [] || ExpiresAt(commitments[0]) > origin then (this, false)
      else
        var c := commitments[0];
        var (s, reorg) := this.(commitments := commitments[1..], expiredCommitments := expiredCommitments + [c])
                          .ExpireCommitments(origin);
        (s, reorg || (c.Key() in table && StatusOf(c.Key()) != Resolved))
    }

    function ExpireChallenges(origin: nat): State
      requires WF()
      decreases |challenges|
    {
      if challenges == [] || objs[challenges[0]].resolveEnd > origin then this
      else
        var p := challenges[0];
        this.(challenges := challenges[1..], expiredChallenges := expiredChallenges + [p],
              objs := if objs[p].status == Active then objs[p := objs[p].(status := Expired)] else objs)
        .ExpireChallenges(origin)
    }

    function PruneCommitments(origin: nat): State
      requires WF()
      decreases |expiredCommitments|
    {
      if expiredCommitments == [] || ExpiresAt(expiredCommitments[0]) > origin then this
      else
        this.(expiredCommitments := expiredCommitments[1..], lastPruned := expiredCommitments[0].block)
        .PruneCommitments(origin)
    }

    function PruneChallenges(origin: nat): State
      requires WF()
      decreases |expiredChallenges|
    {
      if expiredChallenges == [] || objs[expiredChallenges[0]].resolveEnd > origin then this
      else
        this.(expiredChallenges := expiredChallenges[1..],
              table := table - {objs[expiredChallenges[0]].Key()})
        .PruneChallenges(origin)
    }

    function Prune(origin: nat): State
      requires WF()
    {
      PruneCommitmentsShape(this, origin);
      PruneCommitments(origin).PruneChallenges(origin)
    }

    predicate NoCommitments() {
      challenges == [] && expiredChallenges == [] && commitments == [] && expiredCommitments == []
    }

    function ClearCommitments(): State { this.(commitments := [], expiredCommitments := []) }

    function Reset(): State {
      this.(commitments := [], expiredCommitments := [], challenges := [], expiredChallenges := [], table := map[])
    }
  }

  lemma {:induction false} PruneCommitmentsShape(s: State, origin: nat)
    requires s.WF()
    ensures var s' := s.PruneCommitments(origin);
            s' == s.(expiredCommitments := s'.expiredCommitments, lastPruned := s'.lastPruned) && s'.WF()
    decreases |s.expiredCommitments|
  {
    if s.expiredCommitments != [] && s.ExpiresAt(s.expiredCommitments[0]) <= origin {
      var s1 := s.(expiredCommitments := s.expiredCommitments[1..], lastPruned := s.expiredCommitments[0].block);
      PruneCommitmentsShape(s1, origin);
    }
  }

  /** A challenge event of the L1 contract, decoded. Events that cannot be decoded or checked
      are skipped. */
  datatype Event =
    | Challenged(comm: Comm, block: nat)
    | ChallengeResolved(comm: Comm, block: nat, input: seq<Byte>)
    | Skipped

  function Apply(s: State, cfg: Config, inclusion: nat, e: Event): (r: State)
    requires s.WF()
    ensures r.WF()
  {
    match e
    case Challenged(comm, block) => s.Create(cfg, comm, inclusion, block)
    case ChallengeResolved(comm, block, input) => s.Resolve(comm, block, input).0
    case Skipped => s
  }

  function ApplyAll(s: State, cfg: Config, inclusion: nat, es: seq<Event>): (r: State)
    requires s.WF()
    ensures r.WF()
    decreases |es|
  {
    if es == [] then s else ApplyAll(Apply(s, cfg, inclusion, es[0]), cfg, inclusion, es[1..])
  }

  lemma {:induction false} ExpireChallengesWF(s: State, origin: nat)
    requires s.WF()
    ensures s.ExpireChallenges(origin).WF()
    decreases |s.challenges|
  {
    if s.challenges != [] && s.objs[s.challenges[0]].resolveEnd <= origin {
      var p := s.challenges[0];
      ExpireChallengesWF(
        s.(challenges := s.challenges[1..], expiredChallenges := s.expiredChallenges + [p],
           objs := if s.objs[p].status == Active then s.objs[p := s.objs[p].(status := Expired)] else s.objs),
        origin);
    }
  }

  lemma {:induction false} ExpireCommitmentsShape(s: State, origin: nat)
    requires s.WF()
    ensures var s' := s.ExpireCommitments(origin).0;
            s' == s.(commitments := s'.commitments, expiredCommitments := s'.expiredCommitments) && s'.WF()
    decreases |s.commitments|
  {
    if s.commitments != [] && s.ExpiresAt(s.commitments[0]) <= origin {
      ExpireCommitmentsShape(
        s.(commitments := s.commitments[1..], expiredCommitments := s.expiredCommitments + [s.commitments[0]]), origin);
    }
  }

  lemma {:induction false} PruneChallengesWF(s: State, origin: nat)
    requires s.WF()
    ensures s.PruneChallenges(origin).WF()
    decreases |s.expiredChallenges|
  {
    if s.expiredChallenges != [] && s.objs[s.expiredChallenges[0]].resolveEnd <= origin {
      PruneChallengesWF(
        s.(expiredChallenges := s.expiredChallenges[1..],
           table := s.table - {s.objs[s.expiredChallenges[0]].Key()}), origin);
    }
  }

  datatype Outcome = Advanced | ReorgRequired | FetchFailed

  datatype InputResult =
    | Data(data: seq<Byte>)
    | TypeMismatch
    | ExpiredChallenge
    | StorageFailed
    | MissingPastWindow
    | PendingChallenge
    | LookAheadFailed

  datatype Storage = Found(data: seq<Byte>) | NotFound | StorageError

  /** `challengeOrigin` is the highest L1 block whose challenge events were read,
      `commitmentOrigin` the highest one that commitments were expired for. Events that
      cannot be fetched are None. */
  datatype DA = DA(
    cfg: Config,
    state: State,
    challengeOrigin: nat,
    commitmentOrigin: nat,
    finalizedHead: nat,
    l1FinalizedHead: nat,
    resetting: bool)
  {
    /** There is no challenge contract for generic commitments, so nothing is fetched. */
    predicate Loads(events: Option<seq<Event>>) { cfg.commitmentType == GenericType || events.Some? }

    function Loaded(events: Option<seq<Event>>): seq<Event>
      requires Loads(events)
    {
      if cfg.commitmentType == GenericType then [] else events.value
    }

    /** The flag is false if the events cannot be fetched. */
    function AdvanceChallengeOrigin(block: nat, events: Option<seq<Event>>): (r: (DA, bool))
      requires state.WF()
      ensures r.0.state.WF()
    {
      if block <= challengeOrigin then (this, true)
      else if !Loads(events) then (this, false)
      else
        var s := ApplyAll(state, cfg, block, Loaded(events));
        ExpireChallengesWF(s, block);
        (this.(state := s.ExpireChallenges(block), challengeOrigin := block), true)
    }

    /** The flag says that an L2 reorg is required. */
    function AdvanceCommitmentOrigin(block: nat): (r: (DA, bool))
      requires state.WF()
      ensures r.0.state.WF()
    {
      if block <= commitmentOrigin then (this, false)
      else
        ExpireCommitmentsShape(state, block);
        var (s, reorg) := state.ExpireCommitments(block);
        if reorg then (this.(state := s, resetting := true), true)
        else (this.(state := s, commitmentOrigin := block), false)
    }

    /** `refFound` says whether the L1 block of the finalized head is found. */
    function AdvanceL1Origin(block: nat, events: Option<seq<Event>>, refFound: bool): (r: (DA, Outcome))
      requires state.WF()
      ensures r.0.state.WF()
    {
      var (d, ok) := AdvanceChallengeOrigin(block, events);
      if !ok then (d, FetchFailed)
      else
        var (d', reorg) := d.AdvanceCommitmentOrigin(block);
        if reorg then (d', ReorgRequired)
        else if d'.state.NoCommitments() && d'.l1FinalizedHead >= cfg.challengeWindow then
          if refFound then (d'.(finalizedHead := d'.l1FinalizedHead - cfg.challengeWindow), Advanced)
          else (d', FetchFailed)
        else (d', Advanced)
    }

    function Finalize(l1Finalized: nat): (r: DA)
      requires state.WF()
      ensures r.state.WF()
    {
      var d := this.(l1FinalizedHead := l1Finalized);
      if state.NoCommitments() then d
      else
        PruneCommitmentsShape(state, l1Finalized);
        PruneChallengesWF(state.PruneCommitments(l1Finalized), l1Finalized);
        var s := state.Prune(l1Finalized);
        d.(state := s, finalizedHead := s.lastPruned)
    }

    /** The next block may not be found; `events` are its events. */
    function LookAhead(found: bool, events: Option<seq<Event>>): (r: (DA, bool))
      requires state.WF()
      ensures r.0.state.WF()
    {
      if !found then (this, false) else AdvanceChallengeOrigin(challengeOrigin + 1, events)
    }

    function Reset(base: nat): (r: DA)
      requires state.WF()
      ensures r.state.WF()
    {
      if resetting then this.(resetting := false, commitmentOrigin := base, state := state.ClearCommitments())
      else this.(challengeOrigin := base, commitmentOrigin := base, state := state.Reset())
    }

    function GetInput(comm: Comm, block: nat, storage: Storage, found: bool,
                      events: Option<seq<Event>>): (r: (DA, InputResult))
      requires state.WF()
      ensures r.0.state.WF()
    {
      var status := state.StatusOf(ChallengeKey(comm, block));
      if comm.Type() != cfg.commitmentType then (this, TypeMismatch)
      else if status == Expired then (this, ExpiredChallenge)
      else
        var d := this.(state := state.Track(cfg, comm, block));
        match storage
        case StorageError => (d, StorageFailed)
        case Found(data) => (d, Data(data))
        case NotFound =>
          if status == Resolved then
            if comm.Generic? then (d, MissingPastWindow)
            else (d, Data(state.objs[state.table[ChallengeKey(comm, block)]].input))
          else if status == Uninitialized && challengeOrigin > block + cfg.challengeWindow then (d, MissingPastWindow)
          else
            var (d', ok) := d.LookAhead(found, events);
            (d', if ok then PendingChallenge else LookAheadFailed)
    }
  }
}

/** Whole runs of the alt-DA manager: the status of every challenge, and reorgs. */
module AltDARuns {
  import opened Options
  import opened Format
  import opened Commitments
  import opened AltDASpec
  import opened ChallengeProofs
  import opened ChallengeHistory

  /** What the derivation pipeline and the finality signal make the manager do. */
  datatype Step =
    | L1Origin(block: nat, events: Option<seq<Event>>, refFound: bool)
    | ChallengeOrigin(block: nat, events: Option<seq<Event>>)
    | Input(comm: Comm, block: nat, storage: Storage, found: bool, events: Option<seq<Event>>)
    | Finalized(l1Finalized: nat)
    | ResetTo(base: nat)

  function Next(d: DA, step: Step): (r: DA)
    requires d.state.WF()
    ensures r.state.WF()
  {
    match step
    case L1Origin(block, events, refFound) => d.AdvanceL1Origin(block, events, refFound).0
    case ChallengeOrigin(block, events) => d.AdvanceChallengeOrigin(block, events).0
    case Input(comm, block, storage, found, events) => d.GetInput(comm, block, storage, found, events).0
    case Finalized(l1Finalized) => d.Finalize(l1Finalized)
    case ResetTo(base) => d.Reset(base)
  }

  /** The challenge events that a step loads. */
  function News(d: DA, step: Step): seq<Entry>
    requires d.state.WF()
  {
    match step
    case L1Origin(block, events, _) => Read(d, block, events)
    case ChallengeOrigin(block, events) => Read(d, block, events)
    case Input(comm, block, storage, found, events) =>
      if d.GetInput(comm, block, storage, found, events).1.PendingChallenge? then Read(d, d.challengeOrigin + 1, events)
      else []
    case _ => []
  }

  function Read(d: DA, block: nat, events: Option<seq<Event>>): seq<Entry> {
    if block > d.challengeOrigin && d.Loads(events) then Tag(block, d.Loaded(events)) else []
  }

  /** A manager, the events loaded since the last L1 reorg, and the highest block pruned to
      since then. */
  datatype World = World(da: DA, hist: seq<Entry>, pruned: nat)

  function Max(a: nat, b: nat): nat { if a > b then a else b }

  function Do(w: World, step: Step): (r: World)
    requires w.da.state.WF()
    ensures r.da.state.WF()
  {
    var d := Next(w.da, step);
    if step.ResetTo? && !w.da.resetting then World(d, [], 0)
    else World(d, w.hist + News(w.da, step), if step.Finalized? then Max(w.pruned, step.l1Finalized) else w.pruned)
  }

  function Run(w: World, steps: seq<Step>): (r: World)
    requires w.da.state.WF()
    ensures r.da.state.WF()
    decreases |steps|
  {
    if steps == [] then w else Run(Do(w, steps[0]), steps[1..])
  }

  function Start(cfg: Config): (r: World)
    ensures r.da.state.WF()
  {
    World(DA(cfg, State([], [], [], [], map[], [], 0), 0, 0, 0, 0, false), [], 0)
  }

  ghost predicate Inv(d: DA) { StateInv(d.state, d.challengeOrigin, d.challengeOrigin + d.cfg.resolveWindow) }

  ghost predicate WorldInv(w: World) {
    && Inv(w.da)
    && HistInv(w.da.state, w.hist, w.da.cfg.resolveWindow, w.pruned)
    && (forall i | 0 <= i < |w.hist| :: w.hist[i].block <= w.da.challengeOrigin)
  }

  lemma WorldMeans(w: World)
    requires WorldInv(w)
    ensures Inv(w.da)
  {
  }

  /** The first step of a run, and the rest from its world on. */
  lemma RunFirst(w: World, steps: seq<Step>) returns (w': World)
    requires w.da.state.WF() && steps != []
    ensures w'.da.state.WF() && w'.da == Next(w.da, steps[0]) && Run(w, steps) == Run(w', steps[1..])
  {
    hide Next, News, State.WF;
    w' := Do(w, steps[0]);
  }

  // ---- steps keep the invariant

  /** The challenges of two states are the same. */
  ghost predicate SameChallenges(s: State, s': State) {
    s' == s.(commitments := s'.commitments, expiredCommitments := s'.expiredCommitments, lastPruned := s'.lastPruned)
  }

  lemma SameKeeps(s: State, s': State, origin: nat, bound: nat, hist: seq<Entry>, window: nat, pruned: nat)
    requires SameChallenges(s, s')
    ensures StateInv(s, origin, bound) ==> StateInv(s', origin, bound)
    ensures HistInv(s, hist, window, pruned) ==> HistInv(s', hist, window, pruned)
    ensures s.WF() ==> s'.WF()
  {
    hide Ordered, Phased, TableOk, Known, Complete;
    assert Queue(s') == Queue(s);
  }

  lemma AdvanceKeeps(d: DA, block: nat, events: Option<seq<Event>>, hist: seq<Entry>, pruned: nat)
    requires d.state.WF() && WorldInv(World(d, hist, pruned))
    ensures WorldInv(World(d.AdvanceChallengeOrigin(block, events).0, hist + Read(d, block, events), pruned))
  {
    hide StateInv, HistInv, State.WF, State.ExpireChallenges, ApplyAll;
    if block > d.challengeOrigin && d.Loads(events) {
      var es := d.Loaded(events);
      var w := d.cfg.resolveWindow;
      var s := ApplyAll(d.state, d.cfg, block, es);
      ApplyKeeps(d.state, d.cfg, block, es, d.challengeOrigin, d.challengeOrigin + w);
      LoadStep(d.state, hist, pruned, d.cfg, block, es, d.challengeOrigin, d.challengeOrigin + w);
      StartMoving(s, d.challengeOrigin, block, block + w);
      ExpireKeeps(s, d.challengeOrigin, block, block + w);
      ExpireStep(s, s.ExpireChallenges(block), hist + Tag(block, es), w, pruned);
    } else {
      assert hist + Read(d, block, events) == hist;
    }
  }

  lemma StartMoving(s: State, origin: nat, at: nat, bound: nat)
    requires StateInv(s, origin, bound) && origin <= at
    ensures Moving(s, origin, at, bound)
  {
    hide Ordered, TableOk;
  }

  lemma FinalizeKeeps(d: DA, l1Finalized: nat, hist: seq<Entry>, pruned: nat)
    requires d.state.WF() && WorldInv(World(d, hist, pruned))
    ensures WorldInv(World(d.Finalize(l1Finalized), hist, Max(pruned, l1Finalized)))
  {
    hide StateInv, HistInv, State.WF, State.PruneCommitments, State.PruneChallenges;
    var w, o := d.cfg.resolveWindow, d.challengeOrigin;
    var s := d.state;
    if s.NoCommitments() {
      assert HistInv(s, hist, w, Max(pruned, l1Finalized)) by { MorePruned(s, hist, w, pruned, l1Finalized); }
    } else {
      PruneCommitmentsShape(s, l1Finalized);
      var s1 := s.PruneCommitments(l1Finalized);
      SameKeeps(s, s1, o, o + w, hist, w, pruned);
      PruneChallengesKeeps(s1, l1Finalized, o, o + w);
      PruneStep(s1, l1Finalized, hist, w, pruned, Max(pruned, l1Finalized), o, o + w);
    }
  }

  lemma MorePruned(s: State, hist: seq<Entry>, window: nat, pruned: nat, more: nat)
    requires HistInv(s, hist, window, pruned)
    ensures HistInv(s, hist, window, Max(pruned, more))
  {
    hide Recalled, Known, FirstEnd;
  }

  /** Every state keeps the challenge invariant, and agrees with the event history. */
  lemma StepKeeps(w: World, step: Step)
    requires w.da.state.WF() && WorldInv(w)
    ensures WorldInv(Do(w, step)) && Do(w, step).da.cfg == w.da.cfg
  {
    hide StateInv, HistInv, State.WF, DA.AdvanceChallengeOrigin, State.ExpireCommitments, DA.Finalize, Read;
    var d := w.da;
    var o, win := d.challengeOrigin, d.cfg.resolveWindow;
    match step {
      case L1Origin(block, events, refFound) => L1OriginKeeps(w, block, events, refFound);
      case ChallengeOrigin(block, events) =>
        AdvanceKeeps(d, block, events, w.hist, w.pruned);
        AdvanceShape(d, block, events);
      case Input(comm, block, storage, found, events) => InputKeeps(w, comm, block, storage, found, events);
      case Finalized(l1Finalized) =>
        FinalizeKeeps(d, l1Finalized, w.hist, w.pruned);
        FinalizeShape(d, l1Finalized);
        assert w.hist + [] == w.hist;
      case ResetTo(base) => ResetKeeps(w, base);
    }
  }

  lemma AdvanceShape(d: DA, block: nat, events: Option<seq<Event>>)
    requires d.state.WF()
    ensures var (d', ok) := d.AdvanceChallengeOrigin(block, events);
            && d' == d.(state := d'.state, challengeOrigin := d'.challengeOrigin)
            && d.challengeOrigin <= d'.challengeOrigin && (ok ==> block <= d'.challengeOrigin)
  {
  }

  lemma FinalizeShape(d: DA, l1Finalized: nat)
    requires d.state.WF()
    ensures var d' := d.Finalize(l1Finalized);
            d' == d.(state := d'.state, l1FinalizedHead := d'.l1FinalizedHead, finalizedHead := d'.finalizedHead)
  {
    hide State.PruneCommitments, State.PruneChallenges;
  }

  lemma ExpireCommitmentsSame(s: State, origin: nat)
    requires s.WF()
    ensures SameChallenges(s, s.ExpireCommitments(origin).0)
  {
    ExpireCommitmentsShape(s, origin);
  }

  lemma L1OriginKeeps(w: World, block: nat, events: Option<seq<Event>>, refFound: bool)
    requires w.da.state.WF() && WorldInv(w)
    ensures var w' := Do(w, L1Origin(block, events, refFound)); WorldInv(w') && w'.da.cfg == w.da.cfg
  {
    hide StateInv, HistInv, State.WF, DA.AdvanceChallengeOrigin, State.ExpireCommitments, Read;
    var d := w.da;
    AdvanceKeeps(d, block, events, w.hist, w.pruned);
    AdvanceShape(d, block, events);
    var d1 := d.AdvanceChallengeOrigin(block, events).0;
    var d' := d.AdvanceL1Origin(block, events, refFound).0;
    ExpireCommitmentsSame(d1.state, block);
    SameKeeps(d1.state, d1.state.ExpireCommitments(block).0, d1.challengeOrigin,
              d1.challengeOrigin + d1.cfg.resolveWindow, w.hist + Read(d, block, events), d1.cfg.resolveWindow,
              w.pruned);
  }

  lemma InputKeeps(w: World, comm: Comm, block: nat, storage: Storage, found: bool, events: Option<seq<Event>>)
    requires w.da.state.WF() && WorldInv(w)
    ensures var w' := Do(w, Input(comm, block, storage, found, events)); WorldInv(w') && w'.da.cfg == w.da.cfg
  {
    hide StateInv, HistInv, State.WF, DA.AdvanceChallengeOrigin, Read, ChallengeKey;
    var d := w.da;
    var d1 := d.(state := d.state.Track(d.cfg, comm, block));
    SameKeeps(d.state, d1.state, d.challengeOrigin, d.challengeOrigin + d.cfg.resolveWindow, w.hist,
              d.cfg.resolveWindow, w.pruned);
    AdvanceKeeps(d1, d1.challengeOrigin + 1, events, w.hist, w.pruned);
    AdvanceShape(d1, d1.challengeOrigin + 1, events);
    ReadSame(d, d1, d.challengeOrigin + 1, events);
    FailedRead(d1, d1.challengeOrigin + 1, events);
    assert w.hist + [] == w.hist;
  }

  lemma ReadSame(d: DA, d1: DA, block: nat, events: Option<seq<Event>>)
    requires d1.cfg == d.cfg && d1.challengeOrigin == d.challengeOrigin
    ensures Read(d1, block, events) == Read(d, block, events)
  {
  }

  lemma FailedRead(d: DA, block: nat, events: Option<seq<Event>>)
    requires d.state.WF()
    ensures !d.AdvanceChallengeOrigin(block, events).1 ==> d.AdvanceChallengeOrigin(block, events).0 == d
  {
  }

  lemma ResetKeeps(w: World, base: nat)
    requires w.da.state.WF() && WorldInv(w)
    ensures var w' := Do(w, ResetTo(base)); WorldInv(w') && w'.da.cfg == w.da.cfg
    ensures var d, d' := w.da, Do(w, ResetTo(base)).da;
            && d'.commitmentOrigin == base && d'.state.commitments == [] && d'.state.expiredCommitments == []
            && !d'.resetting
            && (if d.resetting then d'.challengeOrigin == d.challengeOrigin && SameChallenges(d.state, d'.state)
                else d'.challengeOrigin == base && Queue(d'.state) == [] && d'.state.table == map[])
  {
    hide ChallengeKey, State.WF;
    var d := w.da;
    if d.resetting {
      hide HistInv, StateInv;
      SameKeeps(d.state, d.state.ClearCommitments(), d.challengeOrigin, d.challengeOrigin + d.cfg.resolveWindow, w.hist,
                d.cfg.resolveWindow, w.pruned);
      assert w.hist + [] == w.hist;
    } else {
      hide HistInv, StateInv;
      EmptyInv(d.state.Reset(), base, base + d.cfg.resolveWindow, d.cfg.resolveWindow);
    }
  }

  lemma EmptyInv(s: State, origin: nat, bound: nat, window: nat)
    requires Queue(s) == [] && s.table == map[]
    ensures StateInv(s, origin, bound) && HistInv(s, [], window, 0)
  {
    hide ChallengeKey;
  }

  lemma {:induction false} RunKeeps(w: World, steps: seq<Step>)
    requires w.da.state.WF() && WorldInv(w)
    ensures WorldInv(Run(w, steps)) && Run(w, steps).da.cfg == w.da.cfg
    decreases |steps|
  {
    hide WorldInv, Do, State.WF;
    if steps != [] {
      StepKeeps(w, steps[0]);
      RunKeeps(Do(w, steps[0]), steps[1..]);
    }
  }

  lemma StartInv(cfg: Config)
    ensures WorldInv(Start(cfg))
  {
    hide StateInv, HistInv;
    EmptyInv(Start(cfg).da.state, 0, cfg.resolveWindow, cfg.resolveWindow);
  }

  /** The status of a challenge is what the event history says: the last challenge of the
      commitment is resolved, or still open at the challenge origin, or expired. A challenge is
      only missing if it was pruned. */
  ghost predicate SaysHistory(w: World, k: Key)
    requires w.da.state.WF()
  {
    var s, r := w.da.state, Recall(w.hist, w.da.cfg.resolveWindow, k);
    && (k in s.table ==> r.Some?)
    && (r.Some? && FirstEnd(w.hist, w.da.cfg.resolveWindow, k).value > w.pruned ==> k in s.table)
    && s.StatusOf(k) == (if k !in s.table then Uninitialized
                         else if r.value.resolved then Resolved
                         else if r.value.end > w.da.challengeOrigin then Active
                         else Expired)
    && (k in s.table ==> s.Get(k).value.resolveEnd == r.value.end && s.Get(k).value.input == r.value.input)
  }

  lemma InvSaysHistory(w: World, k: Key)
    requires w.da.state.WF() && WorldInv(w)
    ensures SaysHistory(w, k)
  {
    hide Recall, FirstEnd, Known, ChallengeKey, StateInv, State.WF;
    var o := w.da.challengeOrigin;
    StatusByOrigin(w.da.state, o, o + w.da.cfg.resolveWindow, k);
  }

  /** In every reachable state, for every commitment. */
  lemma StatusIsHistory(cfg: Config, steps: seq<Step>, k: Key)
    ensures SaysHistory(Run(Start(cfg), steps), k)
  {
    hide WorldInv, SaysHistory, Run;
    StartInv(cfg);
    RunKeeps(Start(cfg), steps);
    InvSaysHistory(Run(Start(cfg), steps), k);
  }

  /** How the last challenge of a key stands, if it is on record. */
  datatype Past = Unchallenged | Unanswered | Answered(input: seq<Byte>) | LostForever

  function PastOf(w: World, k: Key): Past {
    var r := Recall(w.hist, w.da.cfg.resolveWindow, k);
    if k !in w.da.state.table || r.None? then Unchallenged
    else if r.value.resolved then Answered(r.value.input)
    else if r.value.end > w.da.challengeOrigin then Unanswered
    else LostForever
  }

  /** What the caller gets, by the type of the commitment, its past, the storage, and whether the
      next block is there with its events. */
  ghost predicate Answers(res: InputResult, w: World, comm: Comm, block: nat, storage: Storage, found: bool,
                          events: Option<seq<Event>>)
  {
    var past := PastOf(w, ChallengeKey(comm, block));
    var refused := comm.Type() != w.da.cfg.commitmentType || past.LostForever?;
    var late := past.Unchallenged? && w.da.challengeOrigin > block + w.da.cfg.challengeWindow;
    var next := found && (w.da.cfg.commitmentType == GenericType || events.Some?);
    && (res == TypeMismatch <==> comm.Type() != w.da.cfg.commitmentType)
    && (res == ExpiredChallenge <==> comm.Type() == w.da.cfg.commitmentType && past.LostForever?)
    && (forall x :: res == Data(x) <==>
          && !refused
          && (storage == Found(x) || (storage == NotFound && comm.Type() == Keccak256Type && past == Answered(x))))
    && (res == StorageFailed <==> !refused && storage == StorageError)
    && (res == MissingPastWindow <==>
          !refused && storage == NotFound && (late || (past.Answered? && comm.Type() == GenericType)))
    && (res == PendingChallenge <==> !refused && storage == NotFound && !late && !past.Answered? && next)
    && (res == LookAheadFailed <==> !refused && storage == NotFound && !late && !past.Answered? && !next)
  }

  /** What reading an input does, told from the history and the storage: every result exactly. A
      commitment that is not refused is tracked. */
  lemma InputByHistory(w: World, comm: Comm, block: nat, storage: Storage, found: bool, events: Option<seq<Event>>)
    requires w.da.state.WF() && WorldInv(w)
    ensures var (d', res) := w.da.GetInput(comm, block, storage, found, events);
            && Answers(res, w, comm, block, storage, found, events)
            && (if res.TypeMismatch? || res.ExpiredChallenge? then d' == w.da
                else d'.state.commitments == w.da.state.commitments
                                             + [Commitment(comm, block, block + w.da.cfg.challengeWindow)])
  {
    hide WorldInv, StateInv, HistInv, State.WF, DA.AdvanceChallengeOrigin, Recall, FirstEnd, ChallengeKey;
    var k := ChallengeKey(comm, block);
    InvSaysHistory(w, k);
    var d1 := w.da.(state := w.da.state.Track(w.da.cfg, comm, block));
    SameKeeps(w.da.state, d1.state, 0, 0, [], 0, 0);
    AdvanceCommitments(d1, d1.challengeOrigin + 1, events);
    AdvanceLoads(d1, d1.challengeOrigin + 1, events);
    InputOfKnown(w, k);
  }

  lemma AdvanceLoads(d: DA, block: nat, events: Option<seq<Event>>)
    requires d.state.WF()
    ensures d.AdvanceChallengeOrigin(block, events).1 <==>
            block <= d.challengeOrigin || d.cfg.commitmentType == GenericType || events.Some?
    ensures var (d', ok) := d.AdvanceChallengeOrigin(block, events);
            ok ==> d'.challengeOrigin == Max(d.challengeOrigin, block)
  {
  }

  lemma InputOfKnown(w: World, k: Key)
    requires w.da.state.WF() && SaysHistory(w, k)
    ensures k in w.da.state.table ==>
              Recall(w.hist, w.da.cfg.resolveWindow, k).Some?
              && w.da.state.objs[w.da.state.table[k]].input == Recall(w.hist, w.da.cfg.resolveWindow, k).value.input
  {
    hide Recall, FirstEnd;
  }

  /** What is recorded of commitments is the same. */
  ghost predicate SameCommitments(s: State, s': State) {
    && s'.commitments == s.commitments && s'.expiredCommitments == s.expiredCommitments
    && s'.lastPruned == s.lastPruned
  }

  /** Reading challenge events leaves the commitments alone. */
  lemma AdvanceCommitments(d: DA, block: nat, events: Option<seq<Event>>)
    requires d.state.WF()
    ensures SameCommitments(d.state, d.AdvanceChallengeOrigin(block, events).0.state)
  {
    hide ApplyAll, State.ExpireChallenges;
    if block > d.challengeOrigin && d.Loads(events) {
      ApplyLeavesCommitments(d.state, d.cfg, block, d.Loaded(events));
      ExpireLeavesCommitments(ApplyAll(d.state, d.cfg, block, d.Loaded(events)), block);
    }
  }

  lemma {:induction false} ApplyLeavesCommitments(s: State, cfg: Config, b: nat, es: seq<Event>)
    requires s.WF()
    ensures SameCommitments(s, ApplyAll(s, cfg, b, es))
    decreases |es|
  {
    if es != [] {
      ApplyLeavesCommitments(Apply(s, cfg, b, es[0]), cfg, b, es[1..]);
    }
  }

  lemma {:induction false} ExpireLeavesCommitments(s: State, origin: nat)
    requires s.WF()
    ensures SameCommitments(s, s.ExpireChallenges(origin))
    decreases |s.challenges|
  {
    if s.challenges != [] && End(s, s.challenges[0]) <= origin {
      ExpireLeavesCommitments(ExpireFirst(s), origin);
    }
  }
}

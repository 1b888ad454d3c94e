/** The finalized head of the alt-DA manager. It has two sources, the last commitment pruned and
    the L1 finalized head less the challenge window, and it can fall: exactly when, and over
    whole runs only where one source takes over from the other. */
module FinalizedHead {
  import opened Options
  import opened Commitments
  import opened AltDASpec
  import opened ChallengeProofs
  import opened ChallengeHistory
  import opened AltDARuns
  import opened Reorgs
  import opened Pruning

  // ---- what is tracked

  /** The commitments that are tracked, in the order in which they came. */
  function Tracked(s: State): seq<Commitment> { s.expiredCommitments + s.commitments }

  lemma NothingTracked(s: State)
    ensures s.NoCommitments() <==> Queue(s) == [] && Tracked(s) == []
  {
  }

  predicate NoneChallenged(es: seq<Event>) { forall i | 0 <= i < |es| :: !es[i].Challenged? }

  lemma {:induction false} ApplyQueues(s: State, cfg: Config, b: nat, es: seq<Event>)
    requires s.WF()
    ensures Queue(ApplyAll(s, cfg, b, es)) == [] <==> Queue(s) == [] && NoneChallenged(es)
    decreases |es|
  {
    if es != [] {
      ApplyQueues(Apply(s, cfg, b, es[0]), cfg, b, es[1..]);
      assert Queue(Apply(s, cfg, b, es[0])) == [] <==> Queue(s) == [] && !es[0].Challenged?;
      assert NoneChallenged(es) <==> !es[0].Challenged? && NoneChallenged(es[1..]) by {
        assert forall i | 0 < i < |es| :: es[i] == es[1..][i - 1];
      }
    }
  }

  lemma {:induction false} ExpireQueues(s: State, origin: nat)
    requires s.WF()
    ensures Queue(s.ExpireChallenges(origin)) == Queue(s)
    decreases |s.challenges|
  {
    if s.challenges != [] && End(s, s.challenges[0]) <= origin {
      ExpireQueues(ExpireFirst(s), origin);
    }
  }

  /** The events of the block can be read, or were, and bring no challenge. */
  predicate BringsNone(d: DA, block: nat, events: Option<seq<Event>>) {
    block <= d.challengeOrigin || (d.Loads(events) && NoneChallenged(d.Loaded(events)))
  }

  lemma AdvanceQueues(d: DA, block: nat, events: Option<seq<Event>>)
    requires d.state.WF()
    ensures var (d1, ok) := d.AdvanceChallengeOrigin(block, events);
            ok && Queue(d1.state) == [] <==> Queue(d.state) == [] && BringsNone(d, block, events)
  {
    hide ApplyAll, State.ExpireChallenges, State.WF;
    if block > d.challengeOrigin && d.Loads(events) {
      var s := ApplyAll(d.state, d.cfg, block, d.Loaded(events));
      ApplyQueues(d.state, d.cfg, block, d.Loaded(events));
      ExpireQueues(s, block);
    }
  }

  // ---- exactly which steps lower the head

  /** The first n expired commitments are the longest prefix that is due. */
  ghost predicate Due(s: State, n: nat, at: nat)
    requires s.WF()
  {
    && n <= |s.expiredCommitments|
    && (forall i | 0 <= i < n :: s.ExpiresAt(s.expiredCommitments[i]) <= at)
    && (n < |s.expiredCommitments| ==> s.ExpiresAt(s.expiredCommitments[n]) > at)
  }

  /** The block of the last commitment ever pruned, once n more are. */
  function LastOf(s: State, n: nat): nat
    requires n <= |s.expiredCommitments|
  {
    if n == 0 then s.lastPruned else s.expiredCommitments[n - 1].block
  }

  lemma FinalizeHead(d: DA, l1Finalized: nat) returns (n: nat)
    requires d.state.WF()
    ensures Due(d.state, n, l1Finalized)
    ensures var d' := d.Finalize(l1Finalized);
            if d.state.NoCommitments() then d' == d.(l1FinalizedHead := l1Finalized)
            else
              && d' == d.(state := d'.state, l1FinalizedHead := l1Finalized, finalizedHead := d'.state.lastPruned)
              && d'.state.lastPruned == LastOf(d.state, n)
              && d'.state.commitments == d.state.commitments
              && d'.state.expiredCommitments == d.state.expiredCommitments[n..]
  {
    hide State.PruneCommitments, State.PruneChallenges, State.WF, State.ExpiresAt;
    n := PruneCommitmentsIs(d.state, l1Finalized);
    PruneCommitmentsShape(d.state, l1Finalized);
    PruneLeavesCommitments(d.state.PruneCommitments(l1Finalized), l1Finalized);
  }

  lemma {:induction false} PruneLeavesCommitments(s: State, at: nat)
    requires s.WF()
    ensures SameCommitments(s, s.PruneChallenges(at))
    ensures s.PruneChallenges(at).objs == s.objs
    ensures forall k | k in s.PruneChallenges(at).table :: k in s.table && s.PruneChallenges(at).table[k] == s.table[k]
    decreases |s.expiredChallenges|
  {
    hide Challenge.Key;
    if s.expiredChallenges != [] && s.objs[s.expiredChallenges[0]].resolveEnd <= at {
      PruneLeavesCommitments(
        s.(expiredChallenges := s.expiredChallenges[1..],
           table := s.table - {s.objs[s.expiredChallenges[0]].Key()}), at);
    }
  }

  /** Advancing the L1 origin sets the head from the L1 finalized head: nothing is tracked, no
      challenge is read, and the block is there. */
  predicate FromWindow(d: DA, block: nat, events: Option<seq<Event>>, refFound: bool) {
    d.state.NoCommitments() && BringsNone(d, block, events) && refFound && d.l1FinalizedHead >= d.cfg.challengeWindow
  }

  lemma AdvanceHead(d: DA, block: nat, events: Option<seq<Event>>, refFound: bool)
    requires d.state.WF()
    ensures var d' := d.AdvanceL1Origin(block, events, refFound).0;
            && d' == d.(state := d'.state, challengeOrigin := d'.challengeOrigin,
                        commitmentOrigin := d'.commitmentOrigin, resetting := d'.resetting,
                        finalizedHead := d'.finalizedHead)
            && d'.finalizedHead == (if FromWindow(d, block, events, refFound)
                                    then d.l1FinalizedHead - d.cfg.challengeWindow else d.finalizedHead)
            && Tracked(d'.state) == Tracked(d.state) && d'.state.lastPruned == d.state.lastPruned
    ensures d.AdvanceL1Origin(block, events, refFound).1 == FetchFailed <==>
            || (block > d.challengeOrigin && d.cfg.commitmentType == Keccak256Type && events.None?)
            || (FromWindow(d, block, events, true) && !refFound)
  {
    hide DA.AdvanceChallengeOrigin, State.ExpireCommitments, State.WF, BringsNone, State.NoCommitments;
    AdvanceShape(d, block, events);
    AdvanceCommitments(d, block, events);
    AdvanceQueues(d, block, events);
    FailedRead(d, block, events);
    AdvanceLoads(d, block, events);
    var (d1, ok) := d.AdvanceChallengeOrigin(block, events);
    ExpireTracked(d1.state, block);
    NothingTracked(d.state);
    NothingTracked(d1.AdvanceCommitmentOrigin(block).0.state);
  }

  lemma ExpireTracked(s: State, block: nat)
    requires s.WF()
    ensures var s' := s.ExpireCommitments(block).0;
            && Tracked(s') == Tracked(s) && s'.lastPruned == s.lastPruned && Queue(s') == Queue(s)
    ensures Tracked(s) == [] ==> !s.ExpireCommitments(block).1
  {
    hide State.ExpireCommitments, State.WF, State.ExpiresAt, Unresolved;
    ExpireCommitmentsShape(s, block);
    var n := ExpireCommitmentsIs(s, block);
    assert s.commitments == s.commitments[..n] + s.commitments[n..];
  }

  /** The step lowers the head; n is how many expired commitments are due. */
  ghost predicate Lowers(d: DA, step: Step, n: nat)
    requires step.Finalized? ==> n <= |d.state.expiredCommitments|
  {
    match step
    case Finalized(_) => !d.state.NoCommitments() && LastOf(d.state, n) < d.finalizedHead
    case L1Origin(block, events, refFound) =>
      FromWindow(d, block, events, refFound) && d.l1FinalizedHead - d.cfg.challengeWindow < d.finalizedHead
    case _ => false
  }

  lemma HeadFallsExactly(d: DA, step: Step) returns (n: nat)
    requires d.state.WF()
    ensures step.Finalized? ==> Due(d.state, n, step.l1Finalized)
    ensures Next(d, step).finalizedHead < d.finalizedHead <==> Lowers(d, step, n)
  {
    hide DA.AdvanceL1Origin, DA.Finalize, DA.AdvanceChallengeOrigin, State.WF, FromWindow, Due, LastOf;
    n := 0;
    match step {
      case Finalized(l1Finalized) => n := FinalizeHead(d, l1Finalized);
      case L1Origin(block, events, refFound) => AdvanceHead(d, block, events, refFound);
      case ChallengeOrigin(block, events) => AdvanceShape(d, block, events);
      case Input(comm, block, _, _, events) =>
        TrackWF(d.state, d.cfg, comm, block);
        AdvanceShape(d.(state := d.state.Track(d.cfg, comm, block)), d.challengeOrigin + 1, events);
      case ResetTo(_) =>
    }
  }

  // ---- over whole runs

  datatype Source = Unset | LastPruned | Window

  /** The source from which a step sets the head. */
  function Sets(d: DA, step: Step): Source {
    match step
    case Finalized(_) => if d.state.NoCommitments() then Unset else LastPruned
    case L1Origin(block, events, refFound) => if FromWindow(d, block, events, refFound) then Window else Unset
    case _ => Unset
  }

  /** A challenge of a 32-byte commitment that ends no earlier than the commitment's window. */
  predicate Timely(cfg: Config, e: Entry) {
    e.event.Challenged? ==>
      IsKeccak(e.event.comm) && e.event.block + cfg.challengeWindow <= e.block + cfg.resolveWindow
  }

  ghost predicate AllTimely(cfg: Config, es: seq<Entry>) { forall i | 0 <= i < |es| :: Timely(cfg, es[i]) }

  ghost predicate TimelyStep(d: DA, step: Step)
    requires d.state.WF()
  {
    AllTimely(d.cfg, News(d, step)) && (step.Input? && step.comm.Keccak256? ==> |step.comm.data| == 32)
  }

  /** A run of the manager with the source of its head, the block up to which inputs were read, and
      whether all challenges and inputs were timely. */
  datatype Trace = Trace(da: DA, source: Source, low: nat, timely: bool)

  ghost function Follow(t: Trace, step: Step): (r: Trace)
    requires t.da.state.WF()
    ensures r.da.state.WF()
  {
    Trace(Next(t.da, step),
          if Sets(t.da, step) == Unset then t.source else Sets(t.da, step),
          if step.Input? then Max(t.low, step.block) else if step.ResetTo? then t.da.state.lastPruned else t.low,
          t.timely && TimelyStep(t.da, step))
  }

  ghost function FollowAll(t: Trace, steps: seq<Step>): (r: Trace)
    requires t.da.state.WF()
    ensures r.da.state.WF()
    decreases |steps|
  {
    if steps == [] then t else FollowAll(Follow(t, steps[0]), steps[1..])
  }

  /** Inputs are read in the order of their blocks, after a reset from the last pruned one on, and
      the L1 finalized head does not go back. */
  predicate InOrder(t: Trace, step: Step) {
    match step
    case Input(_, block, _, _, _) => t.low <= block
    case Finalized(l1Finalized) => t.da.l1FinalizedHead <= l1Finalized
    case _ => true
  }

  ghost predicate AllInOrder(t: Trace, steps: seq<Step>)
    requires t.da.state.WF()
    decreases |steps|
  {
    steps == [] || (InOrder(t, steps[0]) && AllInOrder(Follow(t, steps[0]), steps[1..]))
  }

  function Begin(cfg: Config): (r: Trace)
    ensures r.da.state.WF()
  {
    Trace(Start(cfg).da, Unset, 0, true)
  }

  /** Tracked commitments are in the order of their blocks, from the last pruned one on. */
  ghost predicate Sorted(s: State, low: nat) {
    var cs := Tracked(s);
    && s.lastPruned <= low
    && (forall i | 0 <= i < |cs| :: s.lastPruned <= cs[i].block <= low)
    && (forall i, j | 0 <= i < j < |cs| :: cs[i].block <= cs[j].block)
  }

  /** The head is what its source says. */
  ghost predicate HeadOk(t: Trace) {
    match t.source
    case Unset => t.da.finalizedHead == 0
    case LastPruned => t.da.finalizedHead == t.da.state.lastPruned
    case Window => t.da.finalizedHead + t.da.cfg.challengeWindow <= t.da.l1FinalizedHead
  }

  predicate EndsLate(c: Challenge, k: Key, window: nat) {
    c.Key() == k && IsKeccak(c.comm) && c.block + window <= c.resolveEnd
  }

  ghost predicate LateTable(s: State, window: nat)
    requires s.WF()
  {
    forall k | k in s.table :: EndsLate(s.objs[s.table[k]], k, window)
  }

  /** Every challenge ends no earlier than its commitment's window; generic commitments have none. */
  ghost predicate LateOk(s: State, cfg: Config)
    requires s.WF()
  {
    LateTable(s, cfg.challengeWindow) && (cfg.commitmentType == GenericType ==> s.table == map[])
  }

  ghost predicate Tracks(cfg: Config, c: Commitment) {
    && c.windowEnd == c.block + cfg.challengeWindow
    && (cfg.commitmentType == Keccak256Type ==> IsKeccak(c.comm))
  }

  /** If everything was timely, no commitment expires before its window ends, so the window has
      passed at the last one pruned. */
  ghost predicate TimelyOk(d: DA)
    requires d.state.WF()
  {
    && LateOk(d.state, d.cfg)
    && (forall i | 0 <= i < |Tracked(d.state)| :: Tracks(d.cfg, Tracked(d.state)[i]))
    && (d.state.lastPruned == 0 || d.state.lastPruned + d.cfg.challengeWindow <= d.l1FinalizedHead)
  }

  ghost predicate TraceInv(t: Trace)
    requires t.da.state.WF()
  {
    HeadOk(t) && Sorted(t.da.state, t.low) && (t.timely ==> TimelyOk(t.da))
  }

  // ---- challenges stay late

  lemma ApplyOneLate(s: State, cfg: Config, b: nat, e: Event)
    requires s.WF() && LateTable(s, cfg.challengeWindow) && Timely(cfg, Entry(b, e))
    ensures LateTable(Apply(s, cfg, b, e), cfg.challengeWindow)
  {
    hide ChallengeKey;
  }

  lemma {:induction false} ApplyLate(s: State, cfg: Config, b: nat, es: seq<Event>)
    requires s.WF() && LateTable(s, cfg.challengeWindow) && AllTimely(cfg, Tag(b, es))
    ensures LateTable(ApplyAll(s, cfg, b, es), cfg.challengeWindow)
    decreases |es|
  {
    hide LateTable, Timely, Apply, State.WF, Tag;
    if es != [] {
      assert Timely(cfg, Tag(b, es)[0]);
      ApplyOneLate(s, cfg, b, es[0]);
      forall i | 0 <= i < |es| - 1 ensures Timely(cfg, Tag(b, es[1..])[i]) {
        assert Timely(cfg, Tag(b, es)[i + 1]);
      }
      ApplyLate(Apply(s, cfg, b, es[0]), cfg, b, es[1..]);
    }
  }

  lemma {:induction false} ExpireLate(s: State, origin: nat, window: nat)
    requires s.WF() && LateTable(s, window)
    ensures s.ExpireChallenges(origin).WF() && LateTable(s.ExpireChallenges(origin), window)
    ensures s.ExpireChallenges(origin).table == s.table
    decreases |s.challenges|
  {
    hide ChallengeKey;
    if s.challenges != [] && End(s, s.challenges[0]) <= origin {
      assert LateTable(ExpireFirst(s), window);
      ExpireLate(ExpireFirst(s), origin, window);
    }
  }

  lemma AdvanceLate(d: DA, block: nat, events: Option<seq<Event>>)
    requires d.state.WF() && LateOk(d.state, d.cfg) && AllTimely(d.cfg, Read(d, block, events))
    ensures LateOk(d.AdvanceChallengeOrigin(block, events).0.state, d.cfg)
  {
    hide ApplyAll, State.ExpireChallenges, LateTable, AllTimely, Tag, State.WF;
    if block > d.challengeOrigin && d.Loads(events) {
      var s := ApplyAll(d.state, d.cfg, block, d.Loaded(events));
      ApplyLate(d.state, d.cfg, block, d.Loaded(events));
      ExpireLate(s, block, d.cfg.challengeWindow);
      ApplyNothing(d.state, d.cfg, block);
    }
  }

  lemma ApplyNothing(s: State, cfg: Config, b: nat)
    requires s.WF()
    ensures ApplyAll(s, cfg, b, []) == s
  {
  }

  /** No timely commitment expires before its window ends. */
  lemma ExpiresLate(d: DA, c: Commitment)
    requires d.state.WF() && LateOk(d.state, d.cfg) && Tracks(d.cfg, c)
    ensures c.block + d.cfg.challengeWindow <= d.state.ExpiresAt(c)
  {
    hide ChallengeKey;
    if c.Key() in d.state.table {
      var ch := d.state.objs[d.state.table[c.Key()]];
      assert EndsLate(ch, c.Key(), d.cfg.challengeWindow);
      KeyInjective(ch.comm, ch.block, c.comm, c.block);
    }
  }

  // ---- the order of blocks

  lemma SortedTrack(s: State, s': State, low: nat, c: Commitment)
    requires Sorted(s, low) && Tracked(s') == Tracked(s) + [c] && s'.lastPruned == s.lastPruned && low <= c.block
    ensures Sorted(s', c.block)
  {
  }

  lemma SortedPrune(s: State, s': State, low: nat, n: nat)
    requires Sorted(s, low) && n <= |s.expiredCommitments| && s'.lastPruned == LastOf(s, n)
    requires s'.commitments == s.commitments && s'.expiredCommitments == s.expiredCommitments[n..]
    ensures Sorted(s', low) && s.lastPruned <= s'.lastPruned
    ensures Tracked(s') == Tracked(s)[n..] && (n > 0 ==> Tracked(s)[n - 1].block == s'.lastPruned)
  {
    assert Tracked(s') == Tracked(s)[n..];
    assert n > 0 ==> Tracked(s)[n - 1] == s.expiredCommitments[n - 1];
  }

  // ---- every step keeps the invariant

  /** Only what a challenge says may have changed. */
  lemma SameTracked(t: Trace, d': DA, timely: bool)
    requires t.da.state.WF() && d'.state.WF() && TraceInv(t)
    requires Tracked(d'.state) == Tracked(t.da.state) && d'.state.lastPruned == t.da.state.lastPruned
    requires d'.cfg == t.da.cfg && d'.l1FinalizedHead == t.da.l1FinalizedHead && d'.finalizedHead == t.da.finalizedHead
    requires timely ==> t.timely && LateOk(d'.state, d'.cfg)
    ensures TraceInv(Trace(d', t.source, t.low, timely))
  {
    hide State.WF, LateOk, Tracked, Tracks;
  }

  lemma ChallengeTrace(t: Trace, block: nat, events: Option<seq<Event>>)
    requires t.da.state.WF() && TraceInv(t)
    ensures TraceInv(Follow(t, ChallengeOrigin(block, events)))
  {
    hide State.WF, LateOk, AllTimely, Read, Sorted, HeadOk, DA.AdvanceChallengeOrigin;
    AdvanceShape(t.da, block, events);
    AdvanceCommitments(t.da, block, events);
    var t' := Follow(t, ChallengeOrigin(block, events));
    if t'.timely {
      AdvanceLate(t.da, block, events);
    }
    SameTracked(t, t'.da, t'.timely);
  }

  lemma L1OriginTrace(t: Trace, block: nat, events: Option<seq<Event>>, refFound: bool)
    requires t.da.state.WF() && TraceInv(t)
    ensures TraceInv(Follow(t, L1Origin(block, events, refFound)))
  {
    hide State.WF, LateOk, AllTimely, Read, Sorted, DA.AdvanceL1Origin, FromWindow, Tracked, Tracks;
    AdvanceHead(t.da, block, events, refFound);
    var t' := Follow(t, L1Origin(block, events, refFound));
    if t'.timely {
      L1OriginLate(t.da, block, events, refFound);
    }
    SameTracked(t, t'.da.(finalizedHead := t.da.finalizedHead), t'.timely);
    WindowSet(t.da, block, events, refFound);
    TimelySame(t'.da.(finalizedHead := t.da.finalizedHead), t'.da);
  }

  lemma WindowSet(d: DA, block: nat, events: Option<seq<Event>>, refFound: bool)
    ensures FromWindow(d, block, events, refFound) ==> d.l1FinalizedHead >= d.cfg.challengeWindow
  {
  }

  lemma TimelySame(d: DA, d': DA)
    requires d.state.WF() && d' == d.(finalizedHead := d'.finalizedHead)
    ensures TimelyOk(d) ==> TimelyOk(d')
  {
    hide State.WF, LateTable, Tracked, Tracks;
  }

  lemma L1OriginLate(d: DA, block: nat, events: Option<seq<Event>>, refFound: bool)
    requires d.state.WF() && LateOk(d.state, d.cfg) && AllTimely(d.cfg, Read(d, block, events))
    ensures LateOk(d.AdvanceL1Origin(block, events, refFound).0.state, d.cfg)
  {
    hide State.WF, LateTable, AllTimely, Read, DA.AdvanceChallengeOrigin, State.ExpireCommitments;
    AdvanceLate(d, block, events);
    AdvanceShape(d, block, events);
    var d1 := d.AdvanceChallengeOrigin(block, events).0;
    ExpireCommitmentsShape(d1.state, block);
    LateSame(d1.state, d1.state.ExpireCommitments(block).0, d.cfg.challengeWindow);
  }

  lemma LateSame(s: State, s': State, window: nat)
    requires s.WF() && s'.WF() && s'.table == s.table && s'.objs == s.objs && LateTable(s, window)
    ensures LateTable(s', window)
  {
  }

  /** The commitment that an input adds to those tracked, if any. */
  function Added(d: DA, step: Step): seq<Commitment>
    requires d.state.WF() && step.Input?
  {
    if step.comm.Type() != d.cfg.commitmentType || d.state.StatusOf(ChallengeKey(step.comm, step.block)) == Expired
    then [] else [Commitment(step.comm, step.block, step.block + d.cfg.challengeWindow)]
  }

  lemma InputAdds(d: DA, step: Step)
    requires d.state.WF() && step.Input?
    ensures var d' := Next(d, step);
            && d' == d.(state := d'.state, challengeOrigin := d'.challengeOrigin)
            && Tracked(d'.state) == Tracked(d.state) + Added(d, step) && d'.state.lastPruned == d.state.lastPruned
            && (LateOk(d.state, d.cfg) && AllTimely(d.cfg, News(d, step)) ==> LateOk(d'.state, d.cfg))
  {
    hide State.WF, LateTable, AllTimely, DA.AdvanceChallengeOrigin, ChallengeKey, Read;
    var d1 := d.(state := d.state.Track(d.cfg, step.comm, step.block));
    TrackWF(d.state, d.cfg, step.comm, step.block);
    AdvanceShape(d1, d.challengeOrigin + 1, step.events);
    AdvanceCommitments(d1, d.challengeOrigin + 1, step.events);
    FailedRead(d1, d.challengeOrigin + 1, step.events);
    ReadSame(d, d1, d.challengeOrigin + 1, step.events);
    if LateOk(d.state, d.cfg) {
      LateSame(d.state, d1.state, d.cfg.challengeWindow);
      if AllTimely(d.cfg, Read(d, d.challengeOrigin + 1, step.events)) {
        AdvanceLate(d1, d.challengeOrigin + 1, step.events);
      }
    }
  }

  lemma InputTrace(t: Trace, step: Step)
    requires t.da.state.WF() && TraceInv(t) && step.Input? && InOrder(t, step)
    ensures TraceInv(Follow(t, step))
  {
    hide State.WF, LateOk, AllTimely, News, Next, Sorted;
    InputAdds(t.da, step);
    var t' := Follow(t, step);
    if Added(t.da, step) == [] {
      assert Tracked(t.da.state) + [] == Tracked(t.da.state);
      SortedUp(t.da.state, t'.da.state, t.low, t'.low);
    } else {
      SortedTrack(t.da.state, t'.da.state, t.low, Added(t.da, step)[0]);
    }
  }

  lemma SortedUp(s: State, s': State, low: nat, high: nat)
    requires Sorted(s, low) && Tracked(s') == Tracked(s) && s'.lastPruned == s.lastPruned && low <= high
    ensures Sorted(s', high)
  {
  }

  lemma FinalizedTrace(t: Trace, l1Finalized: nat)
    requires t.da.state.WF() && TraceInv(t) && InOrder(t, Finalized(l1Finalized))
    ensures TraceInv(Follow(t, Finalized(l1Finalized)))
    ensures !t.da.state.NoCommitments() ==> t.da.state.lastPruned <= t.da.Finalize(l1Finalized).finalizedHead
  {
    hide State.WF, LateOk, Sorted, DA.Finalize, State.ExpiresAt, Tracks;
    var n := FinalizeHead(t.da, l1Finalized);
    var d' := t.da.Finalize(l1Finalized);
    if !t.da.state.NoCommitments() {
      SortedPrune(t.da.state, d'.state, t.low, n);
      if t.timely {
        PrunedLate(t.da, n, l1Finalized);
        FinalizeLate(t.da, l1Finalized);
      }
    }
  }

  lemma PrunedLate(d: DA, n: nat, at: nat)
    requires d.state.WF() && TimelyOk(d) && Due(d.state, n, at)
    ensures n > 0 ==> LastOf(d.state, n) + d.cfg.challengeWindow <= at
  {
    hide State.ExpiresAt, State.WF, LateOk;
    if n > 0 {
      var c := Tracked(d.state)[n - 1];
      assert c == d.state.expiredCommitments[n - 1];
      ExpiresLate(d, c);
    }
  }

  lemma FinalizeLate(d: DA, at: nat)
    requires d.state.WF() && LateOk(d.state, d.cfg)
    ensures LateOk(d.Finalize(at).state, d.cfg)
  {
    hide State.PruneCommitments, State.PruneChallenges;
    PruneCommitmentsShape(d.state, at);
    PruneLeavesCommitments(d.state.PruneCommitments(at), at);
  }

  lemma ResetTrace(t: Trace, base: nat)
    requires t.da.state.WF() && TraceInv(t)
    ensures TraceInv(Follow(t, ResetTo(base)))
  {
  }

  lemma FollowKeeps(t: Trace, step: Step)
    requires t.da.state.WF() && TraceInv(t) && InOrder(t, step)
    ensures TraceInv(Follow(t, step))
  {
    hide *;
    match step {
      case L1Origin(block, events, refFound) => L1OriginTrace(t, block, events, refFound);
      case ChallengeOrigin(block, events) => ChallengeTrace(t, block, events);
      case Input(_, _, _, _, _) => InputTrace(t, step);
      case Finalized(l1Finalized) => FinalizedTrace(t, l1Finalized);
      case ResetTo(base) => ResetTrace(t, base);
    }
  }

  lemma {:induction false} FollowAllKeeps(t: Trace, steps: seq<Step>)
    requires t.da.state.WF() && TraceInv(t) && AllInOrder(t, steps)
    ensures TraceInv(FollowAll(t, steps))
    decreases |steps|
  {
    hide TraceInv, InOrder, Follow, State.WF;
    if steps != [] {
      FollowKeeps(t, steps[0]);
      FollowAllKeeps(Follow(t, steps[0]), steps[1..]);
    }
  }

  lemma {:induction false} FollowAllIsRun(t: Trace, w: World, steps: seq<Step>)
    requires t.da.state.WF() && w.da == t.da
    ensures FollowAll(t, steps).da == Run(w, steps).da
    decreases |steps|
  {
    hide Next, News, State.WF, Sets, TimelyStep;
    if steps != [] {
      FollowAllIsRun(Follow(t, steps[0]), Do(w, steps[0]), steps[1..]);
    }
  }

  /** A step lowers the head only if it sets it from another source than the step that set it
      last. If challenges are timely, only a finality signal that takes over from the window does. */
  ghost predicate FallsAtTakeover(t: Trace, step: Step)
    requires t.da.state.WF()
  {
    Next(t.da, step).finalizedHead < t.da.finalizedHead ==>
      && t.source != Unset && Sets(t.da, step) != Unset && Sets(t.da, step) != t.source
      && (t.timely ==> t.source == Window && Sets(t.da, step) == LastPruned)
  }

  lemma StepFallsAtTakeover(t: Trace, step: Step)
    requires t.da.state.WF() && TraceInv(t) && InOrder(t, step)
    ensures FallsAtTakeover(t, step)
  {
    hide State.WF, LateOk, Sorted, Next, FromWindow, DA.Finalize, State.NoCommitments, Due, Tracked, Tracks;
    var n := HeadFallsExactly(t.da, step);
    match step {
      case Finalized(l1Finalized) =>
        FinalizedTrace(t, l1Finalized);
        NextFinalized(t.da, l1Finalized);
      case L1Origin(block, events, refFound) =>
      case _ =>
    }
  }

  lemma NextFinalized(d: DA, l1Finalized: nat)
    requires d.state.WF()
    ensures Next(d, Finalized(l1Finalized)) == d.Finalize(l1Finalized)
  {
    hide DA.Finalize;
  }

  /** In every run with inputs in order, resets included. */
  lemma HeadFallsOnlyAtTakeover(cfg: Config, steps: seq<Step>, step: Step)
    requires AllInOrder(Begin(cfg), steps) && InOrder(FollowAll(Begin(cfg), steps), step)
    ensures FollowAll(Begin(cfg), steps).da == Run(Start(cfg), steps).da
    ensures FallsAtTakeover(FollowAll(Begin(cfg), steps), step)
  {
    hide AllInOrder, FollowAll, FallsAtTakeover, InOrder, Run;
    FollowAllIsRun(Begin(cfg), Start(cfg), steps);
    FollowAllKeeps(Begin(cfg), steps);
    StepFallsAtTakeover(FollowAll(Begin(cfg), steps), step);
  }

  // ---- a run in which the head falls

  const CFG := Config(Keccak256Type, 2, 1)

  /** The L1 chain is finalized far ahead of the derivation, which has nothing to track until it
      reads its first commitment. */
  function Ahead(comm: Comm): seq<Step> {
    [Finalized(5), L1Origin(1, Some([]), true), Input(comm, 1, Found([]), true, None)]
  }

  function AheadAt(origin: nat, head: nat, cs: seq<Commitment>): DA {
    DA(CFG, State(cs, [], [], [], map[], [], 0), origin, origin, head, 5, false)
  }

  lemma AheadSteps(comm: Comm)
    requires comm.Keccak256?
    ensures Next(Start(CFG).da, Finalized(5)) == AheadAt(0, 0, [])
    ensures Next(AheadAt(0, 0, []), L1Origin(1, Some([]), true)) == AheadAt(1, 3, [])
    ensures Next(AheadAt(1, 3, []), Input(comm, 1, Found([]), true, None)) == AheadAt(1, 3, [Commitment(comm, 1, 3)])
    ensures Next(AheadAt(1, 3, [Commitment(comm, 1, 3)]), Finalized(6)).finalizedHead == 0
  {
    hide ChallengeKey;
    ApplyNothing(AheadAt(0, 0, []).state, CFG, 1);
  }

  lemma HeadCanFall(comm: Comm)
    requires comm.Keccak256?
    ensures Run(Start(CFG), Ahead(comm)).da.finalizedHead == 3
    ensures Next(Run(Start(CFG), Ahead(comm)).da, Finalized(6)).finalizedHead == 0
  {
    hide Next;
    AheadSteps(comm);
    var steps := Ahead(comm);
    var w1 := RunFirst(Start(CFG), steps);
    var w2 := RunFirst(w1, steps[1..]);
    var w3 := RunFirst(w2, steps[2..]);
    assert steps[3..] == [];
  }
}

/** When the alt-DA manager asks for an L2 reorg, and that it does not ask twice. */
module Reorgs {
  import opened Options
  import opened Commitments
  import opened AltDASpec
  import opened ChallengeProofs
  import opened ChallengeHistory
  import opened AltDARuns

  // ---- expiry of commitments

  /** s' is s with its n oldest commitments expired, the longest prefix that is due. */
  ghost predicate Expires(s: State, s': State, n: nat, origin: nat)
    requires s.WF()
  {
    && n <= |s.commitments|
    && s'.commitments == s.commitments[n..]
    && s'.expiredCommitments == s.expiredCommitments + s.commitments[..n]
    && (forall i | 0 <= i < n :: s.ExpiresAt(s.commitments[i]) <= origin)
    && (n < |s.commitments| ==> s.ExpiresAt(s.commitments[n]) > origin)
  }

  /** The commitment has a challenge that was not resolved. */
  predicate Unresolved(s: State, c: Commitment)
    requires s.WF()
  {
    c.Key() in s.table && s.StatusOf(c.Key()) != Resolved
  }

  function ExpireOne(s: State): State
    requires s.commitments != []
  {
    s.(commitments := s.commitments[1..], expiredCommitments := s.expiredCommitments + [s.commitments[0]])
  }

  lemma ExpireOneMore(s: State, s': State, n: nat, origin: nat)
    requires s.WF() && s.commitments != [] && s.ExpiresAt(s.commitments[0]) <= origin
    requires ExpireOne(s).WF() && Expires(ExpireOne(s), s', n, origin)
    ensures Expires(s, s', n + 1, origin)
    ensures (exists i :: 0 <= i < n + 1 && Unresolved(s, s.commitments[i])) <==>
            || Unresolved(s, s.commitments[0])
            || exists i :: 0 <= i < n && Unresolved(ExpireOne(s), ExpireOne(s).commitments[i])
  {
    hide Commitment.Key;
    var s1 := ExpireOne(s);
    assert forall c :: s1.ExpiresAt(c) == s.ExpiresAt(c) && Unresolved(s1, c) == Unresolved(s, c);
    assert forall i | 0 <= i < |s1.commitments| :: s1.commitments[i] == s.commitments[i + 1];
    assert s'.commitments == s.commitments[n + 1..];
    assert s'.expiredCommitments == s.expiredCommitments + s.commitments[..n + 1];
    forall i | 0 <= i < n + 1 ensures s.ExpiresAt(s.commitments[i]) <= origin {
      if i > 0 {
        assert s.commitments[i] == s1.commitments[i - 1];
      }
    }
    if i :| 0 < i < n + 1 && Unresolved(s, s.commitments[i]) {
      assert Unresolved(s1, s1.commitments[i - 1]);
    }
  }

  /** Commitments expire in order and none is lost; a reorg is required if and only if one of
      those that expire has an unresolved challenge. */
  lemma {:induction false} ExpireCommitmentsIs(s: State, origin: nat) returns (n: nat)
    requires s.WF()
    ensures Expires(s, s.ExpireCommitments(origin).0, n, origin)
    ensures s.ExpireCommitments(origin).1 <==> exists i :: 0 <= i < n && Unresolved(s, s.commitments[i])
    decreases |s.commitments|
  {
    hide Commitment.Key, State.WF;
    if s.commitments == [] || s.ExpiresAt(s.commitments[0]) > origin {
      n := 0;
    } else {
      assert ExpireOne(s).WF() by { ExpireOneWF(s); }
      var m := ExpireCommitmentsIs(ExpireOne(s), origin);
      ExpireOneMore(s, s.ExpireCommitments(origin).0, m, origin);
      n := m + 1;
    }
  }

  lemma ExpireOneWF(s: State)
    requires s.WF() && s.commitments != []
    ensures ExpireOne(s).WF()
  {
  }

  /** Advancing the L1 origin expires the longest prefix of commitments that is due, and
      requires a reorg if and only if one of those has an expired challenge. None of them has
      an active one: the challenge events up to that block are read first. */
  lemma ReorgExactly(d: DA, block: nat, events: Option<seq<Event>>, refFound: bool) returns (n: nat)
    requires d.state.WF() && Inv(d)
    ensures var (d1, ok) := d.AdvanceChallengeOrigin(block, events);
            var (d', outcome) := d.AdvanceL1Origin(block, events, refFound);
            && n <= |d1.state.commitments|
            && (!ok <==> block > d.challengeOrigin && d.cfg.commitmentType == Keccak256Type && events.None?)
            && (!ok ==> n == 0 && d' == d && outcome == FetchFailed)
            && (ok ==> d1.challengeOrigin == Max(d.challengeOrigin, block))
            && (ok && block <= d.commitmentOrigin ==> n == 0 && d'.state == d1.state)
            && (ok && block > d.commitmentOrigin ==> Expires(d1.state, d'.state, n, block))
            && (forall i | 0 <= i < n :: d1.state.StatusOf(d1.state.commitments[i].Key()) != Active)
            && (outcome == ReorgRequired <==>
                exists i :: 0 <= i < n && d1.state.StatusOf(d1.state.commitments[i].Key()) == Expired)
            && (outcome == ReorgRequired ==> d'.resetting && d'.commitmentOrigin == d.commitmentOrigin)
  {
    hide DA.AdvanceChallengeOrigin, State.ExpireCommitments, State.WF, Commitment.Key, Inv;
    AdvanceShape(d, block, events);
    AdvanceLoads(d, block, events);
    FailedRead(d, block, events);
    AdvanceInv(d, block, events);
    var (d1, ok) := d.AdvanceChallengeOrigin(block, events);
    if !ok || block <= d.commitmentOrigin {
      n := 0;
    } else {
      n := ExpireCommitmentsIs(d1.state, block);
      var cs := d1.state.commitments;
      forall i | 0 <= i < n
        ensures d1.state.StatusOf(cs[i].Key()) != Active
        ensures Unresolved(d1.state, cs[i]) <==> d1.state.StatusOf(cs[i].Key()) == Expired
      {
        DueIsExpired(d1, cs[i], block);
      }
    }
  }

  lemma AdvanceInv(d: DA, block: nat, events: Option<seq<Event>>)
    requires d.state.WF() && Inv(d)
    ensures Inv(d.AdvanceChallengeOrigin(block, events).0)
  {
    hide StateInv, State.WF, State.ExpireChallenges, ApplyAll;
    if block > d.challengeOrigin && d.Loads(events) {
      var es, w := d.Loaded(events), d.cfg.resolveWindow;
      var s := ApplyAll(d.state, d.cfg, block, es);
      ApplyKeeps(d.state, d.cfg, block, es, d.challengeOrigin, d.challengeOrigin + w);
      StartMoving(s, d.challengeOrigin, block, block + w);
      ExpireKeeps(s, d.challengeOrigin, block, block + w);
    }
  }

  lemma DueIsExpired(d: DA, c: Commitment, block: nat)
    requires d.state.WF() && Inv(d) && block <= d.challengeOrigin && d.state.ExpiresAt(c) <= block
    ensures d.state.StatusOf(c.Key()) != Active
    ensures Unresolved(d.state, c) <==> d.state.StatusOf(c.Key()) == Expired
  {
    hide StateInv, State.WF, Commitment.Key;
    StatusByOrigin(d.state, d.challengeOrigin, d.challengeOrigin + d.cfg.resolveWindow, c.Key());
  }

  /** By the history, the last challenge of the key was not resolved and has ended. */
  ghost predicate Lost(w: World, k: Key) {
    var r := Recall(w.hist, w.da.cfg.resolveWindow, k);
    r.Some? && !r.value.resolved && r.value.end <= w.da.challengeOrigin
  }

  /** No challenge of the key can have been pruned. */
  ghost predicate Unpruned(w: World, k: Key) {
    var f := FirstEnd(w.hist, w.da.cfg.resolveWindow, k);
    f.Some? && f.value > w.pruned
  }

  lemma ExpiredIsLost(w: World, k: Key)
    requires w.da.state.WF() && WorldInv(w)
    ensures w.da.state.StatusOf(k) == Expired <==> Lost(w, k) && k in w.da.state.table
    ensures Lost(w, k) && Unpruned(w, k) ==> k in w.da.state.table
  {
    hide WorldInv, Recall, FirstEnd, State.WF;
    InvSaysHistory(w, k);
  }

  /** The same told from the history: a reorg is required if and only if a commitment that expires
      has a lost challenge that is still on record, which it is unless one of the key was pruned. */
  lemma ReorgByHistory(w: World, block: nat, events: Option<seq<Event>>, refFound: bool) returns (n: nat)
    requires w.da.state.WF() && WorldInv(w)
    ensures var (d1, ok) := w.da.AdvanceChallengeOrigin(block, events);
            var (d', outcome) := w.da.AdvanceL1Origin(block, events, refFound);
            var w1, cs := World(d1, w.hist + Read(w.da, block, events), w.pruned), d1.state.commitments;
            && n <= |cs| && (ok && block > w.da.commitmentOrigin ==> Expires(d1.state, d'.state, n, block))
            && (!ok || block <= w.da.commitmentOrigin ==> n == 0)
            && (outcome == ReorgRequired <==>
                exists i :: 0 <= i < n && Lost(w1, cs[i].Key()) && cs[i].Key() in d1.state.table)
            && (forall k | Lost(w1, k) && Unpruned(w1, k) :: k in d1.state.table)
  {
    hide WorldInv, DA.AdvanceChallengeOrigin, DA.AdvanceL1Origin, State.WF, Commitment.Key, Inv, Lost, Unpruned, Read,
      Expires;
    WorldMeans(w);
    n := ReorgExactly(w.da, block, events, refFound);
    AdvanceKeeps(w.da, block, events, w.hist, w.pruned);
    var d1 := w.da.AdvanceChallengeOrigin(block, events).0;
    var w1 := World(d1, w.hist + Read(w.da, block, events), w.pruned);
    forall k
      ensures d1.state.StatusOf(k) == Expired <==> Lost(w1, k) && k in d1.state.table
      ensures Lost(w1, k) && Unpruned(w1, k) ==> k in d1.state.table
    {
      ExpiredIsLost(w1, k);
    }
  }

  // ---- no repeated reorg

  /** The step requires a reorg because of this key's challenge: a commitment with the key
      expires while the challenge is expired. */
  ghost predicate Blames(d: DA, step: Step, k: Key)
    requires d.state.WF()
  {
    step.L1Origin? &&
    var d1 := d.AdvanceChallengeOrigin(step.block, step.events).0;
    var (d', outcome) := d.AdvanceL1Origin(step.block, step.events, step.refFound);
    && outcome == ReorgRequired
    && d1.state.StatusOf(k) == Expired
    && exists i :: 0 <= i < |d1.state.commitments| - |d'.state.commitments| && d1.state.commitments[i].Key() == k
  }

  /** A reorg has a culprit. */
  lemma ReorgHasCulprit(d: DA, step: Step) returns (k: Key)
    requires d.state.WF() && Inv(d) && step.L1Origin?
    requires d.AdvanceL1Origin(step.block, step.events, step.refFound).1 == ReorgRequired
    ensures Blames(d, step, k)
  {
    hide DA.AdvanceChallengeOrigin, State.WF, Commitment.Key, Inv, DA.AdvanceL1Origin;
    var n := ReorgExactly(d, step.block, step.events, step.refFound);
    var s := d.AdvanceChallengeOrigin(step.block, step.events).0.state;
    var i :| 0 <= i < n && s.StatusOf(s.commitments[i].Key()) == Expired;
    k := s.commitments[i].Key();
  }

  /** No commitment with this key can expire while its challenge is expired: the challenge is
      gone, or resolved, or expired without a tracked commitment. */
  ghost predicate Safe(s: State, k: Key)
    requires s.WF()
  {
    || k !in s.table
    || s.StatusOf(k) == Resolved
    || (s.StatusOf(k) == Expired && forall i | 0 <= i < |s.commitments| :: s.commitments[i].Key() != k)
  }

  predicate Challenges(e: Event, k: Key) { e.Challenged? && ChallengeKey(e.comm, e.block) == k }

  /** The step is not an L1 reset and reads no new challenge of the key. */
  ghost predicate Quiet(d: DA, step: Step, k: Key)
    requires d.state.WF()
  {
    && !(step.ResetTo? && !d.resetting)
    && forall i | 0 <= i < |News(d, step)| :: !Challenges(News(d, step)[i].event, k)
  }

  /** The key's entry is unchanged, but its challenge may have been resolved, or have expired. */
  ghost predicate Aged(s: State, s': State, k: Key)
    requires s.WF() && s'.WF()
  {
    && s'.commitments == s.commitments
    && (k in s'.table <==> k in s.table)
    && (s.StatusOf(k) == Resolved ==> s'.StatusOf(k) == Resolved)
    && (s.StatusOf(k) == Expired ==> s'.StatusOf(k) in {Expired, Resolved})
  }

  lemma EventAges(s: State, cfg: Config, b: nat, e: Event, k: Key)
    requires s.WF() && TableOk(s.table, Queue(s), s.objs) && !Challenges(e, k)
    ensures Aged(s, Apply(s, cfg, b, e), k)
  {
    hide ChallengeKey;
    var s' := Apply(s, cfg, b, e);
    if k in s.table {
      TableQueued(s, k);
      assert s'.table[k] == s.table[k];
    }
  }

  lemma {:induction false} EventsAge(s: State, cfg: Config, b: nat, es: seq<Event>, origin: nat, bound: nat, k: Key)
    requires s.WF() && StateInv(s, origin, bound) && origin < b && bound <= b + cfg.resolveWindow
    requires forall i | 0 <= i < |es| :: !Challenges(es[i], k)
    ensures Aged(s, ApplyAll(s, cfg, b, es), k)
    decreases |es|
  {
    hide State.WF, Apply, Challenges, TableOk, Ordered, Phased;
    if es != [] {
      EventAges(s, cfg, b, es[0], k);
      ApplyOneKeeps(s, cfg, b, es[0], origin, bound);
      hide StateInv;
      EventsAge(Apply(s, cfg, b, es[0]), cfg, b, es[1..], origin, b + cfg.resolveWindow, k);
    }
  }

  lemma ExpiryAges(s: State, s': State, k: Key)
    requires s.WF() && s'.WF() && SameButStatus(s, s') && s'.table == s.table && s'.commitments == s.commitments
    ensures Aged(s, s', k)
  {
  }

  lemma AdvanceAges(d: DA, block: nat, events: Option<seq<Event>>, k: Key)
    requires d.state.WF() && Inv(d)
    requires forall i | 0 <= i < |Read(d, block, events)| :: !Challenges(Read(d, block, events)[i].event, k)
    ensures Aged(d.state, d.AdvanceChallengeOrigin(block, events).0.state, k)
  {
    hide StateInv, State.WF, State.ExpireChallenges, ApplyAll, Challenges, SameButStatus, Challenge.Key;
    if block > d.challengeOrigin && d.Loads(events) {
      var es, w, o := d.Loaded(events), d.cfg.resolveWindow, d.challengeOrigin;
      forall i | 0 <= i < |es| ensures !Challenges(es[i], k) {
        assert Read(d, block, events)[i] == Entry(block, es[i]);
      }
      var s := ApplyAll(d.state, d.cfg, block, es);
      EventsAge(d.state, d.cfg, block, es, o, o + w, k);
      ApplyKeeps(d.state, d.cfg, block, es, o, o + w);
      StartMoving(s, o, block, block + w);
      ExpireKeeps(s, o, block, block + w);
      ExpiryAges(s, s.ExpireChallenges(block), k);
    }
  }

  lemma AgedSafe(s: State, s': State, k: Key)
    requires s.WF() && s'.WF() && Aged(s, s', k) && Safe(s, k)
    ensures Safe(s', k)
  {
  }

  lemma AdvanceSafe(d: DA, block: nat, events: Option<seq<Event>>, k: Key)
    requires d.state.WF() && Inv(d) && Safe(d.state, k)
    requires forall i | 0 <= i < |Read(d, block, events)| :: !Challenges(Read(d, block, events)[i].event, k)
    ensures Safe(d.AdvanceChallengeOrigin(block, events).0.state, k)
  {
    hide State.WF, Inv, Safe, Aged, DA.AdvanceChallengeOrigin, Challenges, Read;
    AdvanceAges(d, block, events, k);
    AgedSafe(d.state, d.AdvanceChallengeOrigin(block, events).0.state, k);
  }

  lemma ExpireCommitmentsSafe(s: State, origin: nat, k: Key)
    requires s.WF() && Safe(s, k)
    ensures s.ExpireCommitments(origin).0.WF() && Safe(s.ExpireCommitments(origin).0, k)
  {
    hide State.ExpireCommitments, Commitment.Key;
    ExpireCommitmentsShape(s, origin);
    var n := ExpireCommitmentsIs(s, origin);
  }

  lemma L1OriginSafe(d: DA, block: nat, events: Option<seq<Event>>, refFound: bool, k: Key)
    requires d.state.WF() && Inv(d) && Safe(d.state, k)
    requires forall i | 0 <= i < |Read(d, block, events)| :: !Challenges(Read(d, block, events)[i].event, k)
    ensures Safe(d.AdvanceL1Origin(block, events, refFound).0.state, k)
    ensures !Blames(d, L1Origin(block, events, refFound), k)
  {
    hide State.WF, Inv, DA.AdvanceChallengeOrigin, State.ExpireCommitments, Commitment.Key, Read, Challenges;
    AdvanceSafe(d, block, events, k);
    AdvanceShape(d, block, events);
    ExpireCommitmentsSafe(d.AdvanceChallengeOrigin(block, events).0.state, block, k);
  }

  /** A tracked commitment's challenge is not expired. */
  lemma TrackSafe(s: State, cfg: Config, comm: Comm, block: nat, k: Key)
    requires s.WF() && Safe(s, k) && s.StatusOf(ChallengeKey(comm, block)) != Expired
    ensures s.Track(cfg, comm, block).WF() && Safe(s.Track(cfg, comm, block), k)
  {
    hide ChallengeKey;
  }

  lemma InputSafe(d: DA, step: Step, k: Key)
    requires d.state.WF() && Inv(d) && Safe(d.state, k) && step.Input? && Quiet(d, step, k)
    ensures Safe(Next(d, step).state, k)
  {
    hide State.WF, Inv, Safe, DA.AdvanceChallengeOrigin, ChallengeKey, Read, Challenges;
    var d1 := d.(state := d.state.Track(d.cfg, step.comm, step.block));
    if d.state.StatusOf(ChallengeKey(step.comm, step.block)) != Expired {
      TrackSafe(d.state, d.cfg, step.comm, step.block, k);
      TrackInv(d, step.comm, step.block);
      FailedRead(d1, d.challengeOrigin + 1, step.events);
      ReadSame(d, d1, d.challengeOrigin + 1, step.events);
      if News(d, step) == Read(d, d.challengeOrigin + 1, step.events) {
        AdvanceSafe(d1, d.challengeOrigin + 1, step.events, k);
      }
    }
  }

  lemma TrackInv(d: DA, comm: Comm, block: nat)
    requires d.state.WF() && Inv(d)
    ensures var d1 := d.(state := d.state.Track(d.cfg, comm, block)); d1.state.WF() && Inv(d1)
  {
    hide StateInv, HistInv;
    var o, w := d.challengeOrigin, d.cfg.resolveWindow;
    SameKeeps(d.state, d.state.Track(d.cfg, comm, block), o, o + w, [], w, 0);
  }

  lemma PruneSafe(s: State, at: nat, origin: nat, bound: nat, k: Key)
    requires s.WF() && StateInv(s, origin, bound) && Safe(s, k)
    ensures s.Prune(at).WF() && Safe(s.Prune(at), k)
  {
    hide State.PruneChallenges, State.PruneCommitments, StateInv, Commitment.Key, HistInv;
    PruneCommitmentsShape(s, at);
    var s1 := s.PruneCommitments(at);
    SameKeeps(s, s1, origin, bound, [], 0, 0);
    PruneChallengesKeeps(s1, at, origin, bound);
    PruneChallengesIs(s1, at, origin, bound, k);
  }

  /** A key stays safe until an L1 reset or a new challenge, and is not blamed. */
  lemma StaysSafe(d: DA, step: Step, k: Key)
    requires d.state.WF() && Inv(d) && Safe(d.state, k) && Quiet(d, step, k)
    ensures Safe(Next(d, step).state, k) && !Blames(d, step, k)
  {
    hide State.WF, StateInv, DA.AdvanceChallengeOrigin, DA.AdvanceL1Origin, DA.GetInput, State.Prune, Commitment.Key,
         Challenges, Read;
    match step {
      case L1Origin(block, events, refFound) =>
        assert News(d, step) == Read(d, block, events);
        L1OriginSafe(d, block, events, refFound, k);
      case ChallengeOrigin(block, events) =>
        assert News(d, step) == Read(d, block, events);
        AdvanceSafe(d, block, events, k);
      case Input(_, _, _, _, _) => InputSafe(d, step, k);
      case Finalized(l1) => PruneSafe(d.state, l1, d.challengeOrigin, d.challengeOrigin + d.cfg.resolveWindow, k);
      case ResetTo(_) =>
    }
  }

  lemma NextInv(d: DA, step: Step)
    requires d.state.WF() && Inv(d)
    ensures Inv(Next(d, step))
  {
    hide StateInv, DA.AdvanceChallengeOrigin, State.ExpireCommitments, State.PruneCommitments,
         State.PruneChallenges, State.WF, ChallengeKey, HistInv;
    var o, w := d.challengeOrigin, d.cfg.resolveWindow;
    match step {
      case L1Origin(block, events, refFound) =>
        AdvanceInv(d, block, events);
        AdvanceShape(d, block, events);
        var d1 := d.AdvanceChallengeOrigin(block, events).0;
        ExpireCommitmentsSame(d1.state, block);
        SameKeeps(d1.state, d1.state.ExpireCommitments(block).0, d1.challengeOrigin, d1.challengeOrigin + w, [], w, 0);
      case ChallengeOrigin(block, events) => AdvanceInv(d, block, events);
      case Input(comm, block, storage, found, events) =>
        TrackInv(d, comm, block);
        AdvanceInv(d.(state := d.state.Track(d.cfg, comm, block)), o + 1, events);
      case Finalized(l1) =>
        PruneCommitmentsShape(d.state, l1);
        SameKeeps(d.state, d.state.PruneCommitments(l1), o, o + w, [], w, 0);
        PruneChallengesKeeps(d.state.PruneCommitments(l1), l1, o, o + w);
      case ResetTo(base) =>
        SameKeeps(d.state, d.state.ClearCommitments(), o, o + w, [], w, 0);
        EmptyInv(d.state.Reset(), base, base + w, w);
    }
  }

  /** No step of the run is an L1 reset or reads a new challenge of the key. */
  ghost predicate QuietRun(d: DA, steps: seq<Step>, k: Key)
    requires d.state.WF()
    decreases |steps|
  {
    steps == [] || (Quiet(d, steps[0], k) && QuietRun(Next(d, steps[0]), steps[1..], k))
  }

  ghost predicate NeverBlames(d: DA, steps: seq<Step>, k: Key)
    requires d.state.WF()
    decreases |steps|
  {
    steps == [] || (!Blames(d, steps[0], k) && NeverBlames(Next(d, steps[0]), steps[1..], k))
  }

  lemma {:induction false} SafeRun(d: DA, steps: seq<Step>, k: Key)
    requires d.state.WF() && Inv(d) && Safe(d.state, k) && QuietRun(d, steps, k)
    ensures NeverBlames(d, steps, k)
    decreases |steps|
  {
    hide State.WF, Inv, Safe, Quiet, Blames, Next;
    if steps != [] {
      StaysSafe(d, steps[0], k);
      NextInv(d, steps[0]);
      SafeRun(Next(d, steps[0]), steps[1..], k);
    }
  }

  /** Once a challenge has caused a reorg and the manager has been reset for it, no step asks
      for a reorg because of that challenge again, for as long as the L1 chain is not reset and
      the commitment is not challenged anew. */
  lemma NoRepeatedReorg(d: DA, step: Step, base: nat, steps: seq<Step>, k: Key)
    requires d.state.WF() && Inv(d) && Blames(d, step, k)
    requires QuietRun(Next(d, step).Reset(base), steps, k)
    ensures NeverBlames(Next(d, step).Reset(base), steps, k)
  {
    hide *;
    ResetInv(d, step, base);
    BlamedIsSafe(d, step, base, k);
    SafeRun(Next(d, step).Reset(base), steps, k);
  }

  lemma ResetInv(d: DA, step: Step, base: nat)
    requires d.state.WF() && Inv(d)
    ensures Inv(Next(d, step).Reset(base))
  {
    hide Inv, DA.AdvanceL1Origin, DA.AdvanceChallengeOrigin, DA.GetInput, DA.Finalize, DA.Reset, State.WF;
    NextInv(d, step);
    NextInv(Next(d, step), ResetTo(base));
  }

  lemma BlamedIsSafe(d: DA, step: Step, base: nat, k: Key)
    requires d.state.WF() && Inv(d) && Blames(d, step, k)
    ensures Safe(Next(d, step).Reset(base).state, k)
  {
    hide State.WF, Inv, DA.AdvanceChallengeOrigin, State.ExpireCommitments, Commitment.Key;
    AdvanceShape(d, step.block, step.events);
    ExpireCommitmentsSame(d.AdvanceChallengeOrigin(step.block, step.events).0.state, step.block);
  }

  // ---- a fixed L1 chain

  /** The events of every L1 block. */
  type L1Chain = nat -> seq<Event>

  /** What the step is given are events of the chain. */
  ghost predicate Follows(d: DA, step: Step, chain: L1Chain) {
    match step
    case L1Origin(block, events, _) => events.Some? ==> events.value == chain(block)
    case ChallengeOrigin(block, events) => events.Some? ==> events.value == chain(block)
    case Input(_, _, _, _, events) => events.Some? ==> events.value == chain(d.challengeOrigin + 1)
    case _ => true
  }

  /** Every step follows the chain, and none is an L1 reset. */
  ghost predicate FollowsRun(d: DA, steps: seq<Step>, chain: L1Chain)
    requires d.state.WF()
    decreases |steps|
  {
    steps == [] ||
    (&& Follows(d, steps[0], chain) && !(steps[0].ResetTo? && !d.resetting)
     && FollowsRun(Next(d, steps[0]), steps[1..], chain))
  }

  /** The key is challenged only in blocks up to `last`. */
  ghost predicate ChallengedBy(chain: L1Chain, k: Key, last: nat) {
    forall b: nat, i | b > last && 0 <= i < |chain(b)| :: !Challenges(chain(b)[i], k)
  }

  /** The challenge origin does not go back. */
  lemma OriginGrows(d: DA, step: Step)
    requires d.state.WF() && !(step.ResetTo? && !d.resetting)
    ensures Next(d, step).challengeOrigin >= d.challengeOrigin
  {
    hide State.WF, DA.AdvanceChallengeOrigin, State.ExpireCommitments, State.PruneCommitments, State.PruneChallenges,
      ChallengeKey;
    match step {
      case L1Origin(block, events, _) => AdvanceShape(d, block, events);
      case ChallengeOrigin(block, events) => AdvanceShape(d, block, events);
      case Input(comm, block, _, _, events) =>
        var d1 := d.(state := d.state.Track(d.cfg, comm, block));
        TrackWF(d.state, d.cfg, comm, block);
        AdvanceShape(d1, d1.challengeOrigin + 1, events);
      case _ =>
    }
  }

  lemma TrackWF(s: State, cfg: Config, comm: Comm, block: nat)
    requires s.WF()
    ensures s.Track(cfg, comm, block).WF()
  {
  }

  /** Blocks that were read are not read again, so old challenges are not news. */
  lemma FollowingIsQuiet(d: DA, step: Step, chain: L1Chain, k: Key, last: nat)
    requires d.state.WF() && Follows(d, step, chain) && !(step.ResetTo? && !d.resetting)
    requires ChallengedBy(chain, k, last) && last <= d.challengeOrigin
    ensures Quiet(d, step, k)
  {
    hide State.WF, DA.GetInput, Challenges;
    forall i | 0 <= i < |News(d, step)|
      ensures !Challenges(News(d, step)[i].event, k)
    {
      var b := if step.Input? then d.challengeOrigin + 1 else step.block;
      assert News(d, step) == Read(d, b, step.events);
      assert News(d, step)[i].event == chain(b)[i];
    }
  }

  lemma {:induction false} FollowingRunIsQuiet(d: DA, steps: seq<Step>, chain: L1Chain, k: Key, last: nat)
    requires d.state.WF() && FollowsRun(d, steps, chain) && ChallengedBy(chain, k, last) && last <= d.challengeOrigin
    ensures QuietRun(d, steps, k)
    decreases |steps|
  {
    hide State.WF, Next, Quiet, Follows, ChallengedBy;
    if steps != [] {
      FollowingIsQuiet(d, steps[0], chain, k, last);
      OriginGrows(d, steps[0]);
      FollowingRunIsQuiet(Next(d, steps[0]), steps[1..], chain, k, last);
    }
  }

  /** On a fixed L1 chain that challenges the commitment only in blocks read before the reset, the
      same challenge causes no second reorg: its events are not read again. */
  lemma NoRepeatedReorgOnChain(d: DA, step: Step, base: nat, steps: seq<Step>, k: Key, chain: L1Chain)
    requires d.state.WF() && Inv(d) && Blames(d, step, k)
    requires FollowsRun(Next(d, step).Reset(base), steps, chain)
    requires ChallengedBy(chain, k, Next(d, step).Reset(base).challengeOrigin)
    ensures NeverBlames(Next(d, step).Reset(base), steps, k)
  {
    hide *;
    var d' := Next(d, step).Reset(base);
    FollowingRunIsQuiet(d', steps, chain, k, d'.challengeOrigin);
    NoRepeatedReorg(d, step, base, steps, k);
  }
}

/** What finalization may delete from the alt-DA state, and the agreement of the challenge
    table with the queues over whole runs. */
module Pruning {
  import opened Options
  import opened Commitments
  import opened AltDASpec
  import opened ChallengeProofs
  import opened ChallengeHistory
  import opened AltDARuns

  // ---- pruning keeps what is still needed

  /** s' still has the challenge of every commitment that it still tracks. */
  ghost predicate KeepsNeeded(s: State, s': State) {
    && (forall i | 0 <= i < |s'.commitments| ::
          s'.commitments[i].Key() in s.table ==> s'.commitments[i].Key() in s'.table)
    && (forall i | 0 <= i < |s'.expiredCommitments| ::
          s'.expiredCommitments[i].Key() in s.table ==> s'.expiredCommitments[i].Key() in s'.table)
  }

  /** The commitment has no challenge that ends by `last`. */
  predicate Outlasts(s: State, c: Commitment, last: nat)
    requires s.WF()
  {
    c.Key() in s.table ==> s.ExpiresAt(c) > last
  }

  /** No commitment has a challenge that is due at `at`, except expired commitments that stand
      before every one that is not due. */
  ghost predicate MayPrune(s: State, at: nat, origin: nat)
    requires s.WF()
  {
    && (forall i | 0 <= i < |s.commitments| :: Outlasts(s, s.commitments[i], Min(at, origin)))
    && (forall i, j | 0 <= i < j < |s.expiredCommitments| ::
          s.ExpiresAt(s.expiredCommitments[i]) > at ==> Outlasts(s, s.expiredCommitments[j], Min(at, origin)))
  }

  /** The first n expired commitments are pruned, the longest prefix that is due. */
  ghost predicate Prunes(s: State, s': State, n: nat, at: nat)
    requires s.WF()
  {
    && n <= |s.expiredCommitments|
    && s'.expiredCommitments == s.expiredCommitments[n..]
    && (forall i | 0 <= i < n :: s.ExpiresAt(s.expiredCommitments[i]) <= at)
    && (n < |s.expiredCommitments| ==> s.ExpiresAt(s.expiredCommitments[n]) > at)
    && s'.lastPruned == if n == 0 then s.lastPruned else s.expiredCommitments[n - 1].block
  }

  function PruneOne(s: State): State
    requires s.expiredCommitments != []
  {
    s.(expiredCommitments := s.expiredCommitments[1..], lastPruned := s.expiredCommitments[0].block)
  }

  lemma PruneOneMore(s: State, s': State, n: nat, at: nat)
    requires s.WF() && s.expiredCommitments != [] && s.ExpiresAt(s.expiredCommitments[0]) <= at
    requires PruneOne(s).WF() && Prunes(PruneOne(s), s', n, at)
    ensures Prunes(s, s', n + 1, at)
  {
    hide Commitment.Key;
    var e, e' := s.expiredCommitments, PruneOne(s).expiredCommitments;
    assert forall c :: PruneOne(s).ExpiresAt(c) == s.ExpiresAt(c);
    assert forall i | 0 <= i < |e'| :: e'[i] == e[i + 1];
    forall i | 0 <= i < n + 1 ensures s.ExpiresAt(e[i]) <= at {
      if i > 0 {
        assert e[i] == e'[i - 1];
      }
    }
  }

  lemma {:induction false} PruneCommitmentsIs(s: State, at: nat) returns (n: nat)
    requires s.WF()
    ensures Prunes(s, s.PruneCommitments(at), n, at)
    decreases |s.expiredCommitments|
  {
    hide Commitment.Key;
    if s.expiredCommitments == [] || s.ExpiresAt(s.expiredCommitments[0]) > at {
      n := 0;
    } else {
      var m := PruneCommitmentsIs(PruneOne(s), at);
      PruneOneMore(s, s.PruneCommitments(at), m, at);
      n := m + 1;
    }
  }

  /** If table and queues agree, pruning deletes the challenge of a commitment if and only if
      it has ended by the pruned block and by the challenge origin. */
  lemma DeletedIsDue(s: State, at: nat, origin: nat, bound: nat, c: Commitment)
    requires s.WF() && StateInv(s, origin, bound) && Agrees(s)
    ensures c.Key() in s.table ==>
              (c.Key() in s.PruneChallenges(at).table <==> Outlasts(s, c, Min(at, origin)))
  {
    hide Challenge.Key, Ordered;
    var k := c.Key();
    if k in s.table {
      PruneChallengesIs(s, at, origin, bound, k);
      var p := s.table[k];
      var e := s.expiredChallenges;
      forall j | 0 <= j < |e| && s.objs[e[j]].Key() == k ensures e[j] == p && End(s, p) <= origin {
        assert Queue(s)[j] == e[j];
        assert Late(s.objs[e[j]], origin);
      }
      var i :| 0 <= i < |Queue(s)| && Queue(s)[i] == p;
      if End(s, p) <= Min(at, origin) {
        assert i < |e|;
        assert e[i] == p;
      }
    }
  }

  /** Pruning keeps the challenge of every commitment that stays tracked, if and only if none
      of those is due; the ones that stay are those behind the first that is not due. */
  lemma PruneKeepsNeeded(s: State, at: nat, origin: nat, bound: nat)
    requires s.WF() && StateInv(s, origin, bound) && Agrees(s)
    ensures KeepsNeeded(s, s.Prune(at)) <==> MayPrune(s, at, origin)
  {
    hide Commitment.Key, StateInv, Agrees, State.PruneCommitments, State.PruneChallenges, HistInv, State.ExpiresAt;
    PruneCommitmentsShape(s, at);
    var n := PruneCommitmentsIs(s, at);
    var s1 := s.PruneCommitments(at);
    SameKeeps(s, s1, origin, bound, [], 0, 0);
    AgreesSame(s, s1);
    PruneChallengesKeeps(s1, at, origin, bound);
    var s' := s.Prune(at);
    forall c: Commitment ensures c.Key() in s.table ==> (c.Key() in s'.table <==> Outlasts(s, c, Min(at, origin))) {
      DeletedIsDue(s1, at, origin, bound, c);
      OutlastsSame(s, s1, c, Min(at, origin));
    }
    Rest(s, s', n, at, origin);
  }

  lemma AgreesSame(s: State, s': State)
    requires Agrees(s) && SameChallenges(s, s')
    ensures Agrees(s')
  {
    hide TableOk, Listed;
    assert Queue(s') == Queue(s);
  }

  lemma OutlastsSame(s: State, s': State, c: Commitment, last: nat)
    requires s.WF() && s'.WF() && SameChallenges(s, s')
    ensures Outlasts(s', c, last) == Outlasts(s, c, last)
  {
    hide Commitment.Key;
  }

  lemma Rest(s: State, s': State, n: nat, at: nat, origin: nat)
    requires s.WF() && Prunes(s, s', n, at) && s'.commitments == s.commitments
    requires forall c: Commitment :: c.Key() in s.table ==> (c.Key() in s'.table <==> Outlasts(s, c, Min(at, origin)))
    ensures KeepsNeeded(s, s') <==> MayPrune(s, at, origin)
  {
    hide Commitment.Key;
    var e, e' := s.expiredCommitments, s'.expiredCommitments;
    assert forall i | 0 <= i < |e'| :: e'[i] == e[n + i];
    if MayPrune(s, at, origin) {
      forall i | 0 <= i < |e'| && e'[i].Key() in s.table ensures e'[i].Key() in s'.table {
        if i == 0 {
          assert Outlasts(s, e[n], Min(at, origin));
        } else {
          assert Outlasts(s, e[n + i], Min(at, origin));
        }
      }
    }
    if KeepsNeeded(s, s') {
      forall i, j | 0 <= i < j < |e| && s.ExpiresAt(e[i]) > at ensures Outlasts(s, e[j], Min(at, origin)) {
        assert n <= i;
        assert e[j] == e'[j - n];
      }
    }
  }

  /** In particular if expired commitments are queued in the order of their expiry and the
      others expire after the pruned block. */
  lemma SortedMayPrune(s: State, at: nat, origin: nat)
    requires s.WF()
    requires forall i, j | 0 <= i < j < |s.expiredCommitments| ::
               s.ExpiresAt(s.expiredCommitments[i]) <= s.ExpiresAt(s.expiredCommitments[j])
    requires forall i | 0 <= i < |s.commitments| :: s.ExpiresAt(s.commitments[i]) > at
    ensures MayPrune(s, at, origin)
  {
    hide Commitment.Key, State.ExpiresAt;
  }

  // ---- agreement over runs

  predicate IsKeccak(c: Comm) { c.Keccak256? && |c.data| == 32 }

  /** The challenges of the history are of 32-byte Keccak commitments, and no two are of the same
      commitment in the same block. */
  ghost predicate Once(hist: seq<Entry>) {
    && (forall i | 0 <= i < |hist| :: hist[i].event.Challenged? ==> IsKeccak(hist[i].event.comm))
    && (forall i, j | 0 <= i < j < |hist| ::
          hist[i].event.Challenged? && hist[j].event.Challenged? ==> hist[i].event != hist[j].event)
  }

  lemma OncePrefix(hist: seq<Entry>, more: seq<Entry>)
    requires Once(hist + more)
    ensures Once(hist)
  {
    assert forall i | 0 <= i < |hist| :: (hist + more)[i] == hist[i];
  }

  /** What the history recalls was challenged. */
  lemma {:induction false} RecalledEntry(hist: seq<Entry>, window: nat, k: Key) returns (i: nat)
    requires Recall(hist, window, k).Some?
    ensures i < |hist| && hist[i].event.Challenged? && ChallengeKey(hist[i].event.comm, hist[i].event.block) == k
    decreases |hist|
  {
    hide ChallengeKey;
    var n := |hist| - 1;
    if hist[n].event.Challenged? && ChallengeKey(hist[n].event.comm, hist[n].event.block) == k {
      i := n;
    } else {
      i := RecalledEntry(hist[..n], window, k);
    }
  }

  /** A commitment that is challenged once has no challenge in the table yet: one with its key
      would be in the history, and different commitments have different keys. */
  lemma KeyIsNew(s: State, hist: seq<Entry>, window: nat, e: Entry)
    requires Recalled(s, hist, window) && Once(hist + [e]) && e.event.Challenged?
    ensures ChallengeKey(e.event.comm, e.event.block) !in s.table
  {
    hide Recall, ChallengeKey;
    var k := ChallengeKey(e.event.comm, e.event.block);
    if k in s.table {
      var i := RecalledEntry(hist, window, k);
      var f := hist[i].event;
      assert (hist + [e])[i] == hist[i] && (hist + [e])[|hist|] == e;
      KeyInjective(f.comm, f.block, e.event.comm, e.event.block);
    }
  }

  lemma EventAgrees(s: State, hist: seq<Entry>, cfg: Config, b: nat, e: Event)
    requires s.WF() && Agrees(s) && Recalled(s, hist, cfg.resolveWindow) && Once(hist + [Entry(b, e)])
    ensures Agrees(Apply(s, cfg, b, e))
  {
    hide Agrees, Recalled, Once, ChallengeKey, State.Create, State.Resolve, State.WF;
    match e {
      case Challenged(comm, block) =>
        KeyIsNew(s, hist, cfg.resolveWindow, Entry(b, e));
        CreateAgrees(s, cfg, comm, b, block);
      case ChallengeResolved(comm, block, input) => ResolveAgrees(s, comm, block, input);
      case Skipped =>
    }
  }

  lemma HistRecalled(s: State, hist: seq<Entry>, window: nat, pruned: nat)
    requires HistInv(s, hist, window, pruned)
    ensures Recalled(s, hist, window)
  {
    hide Recalled, Known, Complete;
  }

  lemma {:induction false} LoadAgrees(s: State, hist: seq<Entry>, pruned: nat, cfg: Config, b: nat, es: seq<Event>,
                                      origin: nat, bound: nat)
    requires HistInv(s, hist, cfg.resolveWindow, pruned) && StateInv(s, origin, bound) && s.WF() && Agrees(s)
    requires origin < b && bound <= b + cfg.resolveWindow && Once(hist + Tag(b, es))
    requires forall i | 0 <= i < |hist| :: hist[i].block <= b
    ensures Agrees(ApplyAll(s, cfg, b, es))
    decreases |es|
  {
    hide HistInv, StateInv, Apply, State.WF, Agrees, Once;
    if es != [] {
      var e, s' := Entry(b, es[0]), Apply(s, cfg, b, es[0]);
      assert hist + Tag(b, es) == (hist + [e]) + Tag(b, es[1..]);
      OncePrefix(hist + [e], Tag(b, es[1..]));
      HistRecalled(s, hist, cfg.resolveWindow, pruned);
      EventAgrees(s, hist, cfg, b, es[0]);
      ApplyOneKeeps(s, cfg, b, es[0], origin, bound);
      EventStep(s, hist, pruned, cfg, b, es[0], origin, bound);
      LoadAgrees(s', hist + [e], pruned, cfg, b, es[1..], origin, b + cfg.resolveWindow);
    }
  }

  lemma AdvanceAgrees(d: DA, block: nat, events: Option<seq<Event>>, hist: seq<Entry>, pruned: nat)
    requires d.state.WF() && WorldInv(World(d, hist, pruned)) && Agrees(d.state)
    requires Once(hist + Read(d, block, events))
    ensures Agrees(d.AdvanceChallengeOrigin(block, events).0.state)
  {
    hide Agrees, StateInv, HistInv, Once, State.WF, State.ExpireChallenges, ApplyAll;
    if block > d.challengeOrigin && d.Loads(events) {
      var es, w, o := d.Loaded(events), d.cfg.resolveWindow, d.challengeOrigin;
      var s := ApplyAll(d.state, d.cfg, block, es);
      LoadAgrees(d.state, hist, pruned, d.cfg, block, es, o, o + w);
      ApplyKeeps(d.state, d.cfg, block, es, o, o + w);
      StartMoving(s, o, block, block + w);
      ExpireAgrees(s, o, block, block + w);
    }
  }

  lemma TrackedWorld(d: DA, comm: Comm, block: nat, hist: seq<Entry>, pruned: nat)
    requires d.state.WF() && WorldInv(World(d, hist, pruned)) && Agrees(d.state)
    ensures var d1 := d.(state := d.state.Track(d.cfg, comm, block));
            d1.state.WF() && WorldInv(World(d1, hist, pruned)) && Agrees(d1.state)
  {
    hide StateInv, HistInv, Agrees, State.WF;
    var o, w := d.challengeOrigin, d.cfg.resolveWindow;
    var s1 := d.state.Track(d.cfg, comm, block);
    SameKeeps(d.state, s1, o, o + w, hist, w, pruned);
    AgreesSame(d.state, s1);
  }

  lemma InputAgrees(w: World, step: Step)
    requires step.Input? && w.da.state.WF() && WorldInv(w) && Agrees(w.da.state) && Once(w.hist + News(w.da, step))
    ensures Agrees(Next(w.da, step).state)
  {
    hide WorldInv, Agrees, Once, State.WF, DA.AdvanceChallengeOrigin, Read, ChallengeKey;
    var d, next := w.da, w.da.challengeOrigin + 1;
    var d1 := d.(state := d.state.Track(d.cfg, step.comm, step.block));
    TrackedWorld(d, step.comm, step.block, w.hist, w.pruned);
    FailedRead(d1, next, step.events);
    ReadSame(d, d1, next, step.events);
    if News(d, step) == Read(d, next, step.events) {
      AdvanceAgrees(d1, next, step.events, w.hist, w.pruned);
    }
  }

  lemma FinalizeAgrees(d: DA, l1: nat)
    requires d.state.WF() && Inv(d) && Agrees(d.state)
    ensures Agrees(d.Finalize(l1).state)
  {
    hide StateInv, HistInv, Agrees, State.WF, State.PruneCommitments, State.PruneChallenges;
    var o, w := d.challengeOrigin, d.cfg.resolveWindow;
    PruneCommitmentsShape(d.state, l1);
    var s1 := d.state.PruneCommitments(l1);
    SameKeeps(d.state, s1, o, o + w, [], w, 0);
    AgreesSame(d.state, s1);
    PruneAgrees(s1, l1, o, o + w);
  }

  lemma L1OriginAgrees(w: World, step: Step)
    requires step.L1Origin? && w.da.state.WF() && WorldInv(w) && Agrees(w.da.state)
    requires Once(w.hist + Read(w.da, step.block, step.events))
    ensures Agrees(Next(w.da, step).state)
  {
    hide WorldInv, Agrees, Once, State.WF, DA.AdvanceChallengeOrigin, State.ExpireCommitments, Read;
    AdvanceAgrees(w.da, step.block, step.events, w.hist, w.pruned);
    var d1 := w.da.AdvanceChallengeOrigin(step.block, step.events).0;
    ExpireCommitmentsSame(d1.state, step.block);
    AgreesSame(d1.state, d1.state.ExpireCommitments(step.block).0);
  }

  /** If every challenge that was read since the last L1 reset is of a different Keccak commitment
      or block, the table agrees with the queues after the step as it did before. */
  lemma StepAgrees(w: World, step: Step)
    requires w.da.state.WF() && WorldInv(w) && (Once(w.hist) ==> Agrees(w.da.state))
    ensures Once(Do(w, step).hist) ==> Agrees(Do(w, step).da.state)
  {
    hide Inv, HistInv, Agrees, Once, State.WF, DA.AdvanceChallengeOrigin, DA.AdvanceL1Origin, DA.GetInput, DA.Finalize,
      Read;
    if step.ResetTo? && !w.da.resetting {
      EmptyAgrees(w.da.state.Reset());
    } else if Once(Do(w, step).hist) {
      OncePrefix(w.hist, News(w.da, step));
      match step {
        case L1Origin(_, _, _) => L1OriginAgrees(w, step);
        case ChallengeOrigin(block, events) => AdvanceAgrees(w.da, block, events, w.hist, w.pruned);
        case Input(_, _, _, _, _) => InputAgrees(w, step);
        case Finalized(l1) => FinalizeAgrees(w.da, l1);
        case ResetTo(_) => AgreesSame(w.da.state, w.da.state.ClearCommitments());
      }
    }
  }

  lemma EmptyAgrees(s: State)
    requires Queue(s) == [] && s.table == map[]
    ensures Agrees(s)
  {
  }

  lemma {:induction false} RunAgrees(w: World, steps: seq<Step>)
    requires w.da.state.WF() && WorldInv(w) && (Once(w.hist) ==> Agrees(w.da.state))
    ensures Once(Run(w, steps).hist) ==> Agrees(Run(w, steps).da.state)
    decreases |steps|
  {
    hide Agrees, Once, State.WF, WorldInv, Do;
    if steps != [] {
      StepAgrees(w, steps[0]);
      StepKeeps(w, steps[0]);
      RunAgrees(Do(w, steps[0]), steps[1..]);
    }
  }

  /** With at most one challenge per Keccak commitment and block since the last L1 reset, the
      challenge table lists exactly the members of the two queues in every reachable state. */
  lemma TableIsQueues(cfg: Config, steps: seq<Step>)
    requires Once(Run(Start(cfg), steps).hist)
    ensures Agrees(Run(Start(cfg), steps).da.state)
  {
    hide Agrees, Run, WorldInv, Once;
    StartInv(cfg);
    EmptyAgrees(Start(cfg).da.state);
    RunAgrees(Start(cfg), steps);
  }
}

/** A run in which finalization deletes a challenge that is still needed, so that a commitment
    whose challenge was never resolved expires without a reorg. */
module EarlyPrune {
  import opened Options
  import opened Format
  import opened Commitments
  import opened AltDASpec
  import opened AltDARuns
  import opened Reorgs

  const CFG := Config(Keccak256Type, 3, 1)

  /** Commitment a is in block 1 and b in block 2. First b is challenged, then a; only a's
      challenge is resolved. While a is not due, b waits behind it although its challenge has
      expired. If the L1 chain is finalized that far, b's challenge is pruned. */
  function Before(a: Comm, b: Comm, input: seq<Byte>): seq<Step> {
    [L1Origin(1, Some([]), true),
     Input(a, 1, Found(input), true, None),
     L1Origin(2, Some([]), true),
     Input(b, 2, Found(input), true, None),
     L1Origin(3, Some([Challenged(b, 2)]), true),
     L1Origin(4, Some([Challenged(a, 1), ChallengeResolved(a, 1, input)]), true)]
  }

  function CommA(a: Comm): Commitment { Commitment(a, 1, 4) }
  function CommB(b: Comm): Commitment { Commitment(b, 2, 5) }

  function Ka(a: Comm): Key { ChallengeKey(a, 1) }
  function Kb(b: Comm): Key { ChallengeKey(b, 2) }

  function At(s: State, origin: nat): DA { DA(CFG, s, origin, origin, 0, 0, false) }

  /** Commitments without challenges. */
  function Plain(cs: seq<Commitment>): State { State(cs, [], [], [], map[], [], 0) }

  function Three(a: Comm, b: Comm): State {
    State([CommA(a), CommB(b)], [], [0], [], map[Kb(b) := 0], [Challenge(b, 2, 4, [], Active)], 0)
  }

  function Four(a: Comm, b: Comm, input: seq<Byte>): State {
    State([CommA(a), CommB(b)], [], [1], [0], map[Kb(b) := 0, Ka(a) := 1],
          [Challenge(b, 2, 4, [], Expired), Challenge(a, 1, 5, input, Resolved)], 0)
  }

  lemma KeysDiffer(a: Comm, b: Comm)
    requires a.Keccak256? && b.Keccak256? && |a.data| == 32 && |b.data| == 32
    ensures Ka(a) != Kb(b)
  {
    if Ka(a) == Kb(b) {
      KeyInjective(a, 1, b, 2);
    }
  }

  // ---- up to block 4

  lemma ApplyNone(s: State, block: nat)
    requires s.WF()
    ensures ApplyAll(s, CFG, block, []) == s
  {
  }

  lemma ApplyFirst(s: State, block: nat, e: Event, es: seq<Event>)
    requires s.WF()
    ensures ApplyAll(s, CFG, block, [e] + es) == ApplyAll(Apply(s, CFG, block, e), CFG, block, es)
    ensures [e] + [] == [e]
  {
    assert ([e] + es)[1..] == es;
  }

  /** A block at which no commitment is due. */
  lemma NotDue(d: DA, block: nat, es: seq<Event>, s: State)
    requires d.state.WF() && d.cfg == CFG && d.l1FinalizedHead == 0
    requires block > d.challengeOrigin && block > d.commitmentOrigin
    requires ApplyAll(d.state, CFG, block, es).ExpireChallenges(block) == s && s.WF()
    requires s.commitments != [] ==> s.ExpiresAt(s.commitments[0]) > block
    ensures Next(d, L1Origin(block, Some(es), true))
         == d.(state := s, challengeOrigin := block, commitmentOrigin := block)
  {
    hide ApplyAll, State.ExpireChallenges, State.ExpiresAt, State.WF;
  }

  lemma PlainBlock(cs: seq<Commitment>, origin: nat)
    requires cs != [] ==> cs[0].windowEnd > origin + 1
    ensures Next(At(Plain(cs), origin), L1Origin(origin + 1, Some([]), true)) == At(Plain(cs), origin + 1)
  {
    ApplyNone(Plain(cs), origin + 1);
    NotDue(At(Plain(cs), origin), origin + 1, [], Plain(cs));
  }

  lemma PlainInput(cs: seq<Commitment>, origin: nat, comm: Comm, input: seq<Byte>)
    requires comm.Keccak256?
    ensures Next(At(Plain(cs), origin), Input(comm, origin, Found(input), true, None))
         == At(Plain(cs + [Commitment(comm, origin, origin + 3)]), origin)
  {
    hide ChallengeKey;
  }

  lemma Block3(a: Comm, b: Comm)
    requires a.Keccak256? && b.Keccak256? && |a.data| == 32 && |b.data| == 32
    ensures Next(At(Plain([CommA(a), CommB(b)]), 2), L1Origin(3, Some([Challenged(b, 2)]), true)) == At(Three(a, b), 3)
  {
    hide ChallengeKey, Next;
    KeysDiffer(a, b);
    var s, s' := Plain([CommA(a), CommB(b)]), Three(a, b);
    assert s.Create(CFG, b, 3, 2) == s';
    ApplyFirst(s, 3, Challenged(b, 2), []);
    ApplyNone(s', 3);
    assert s'.ExpireChallenges(3) == s' && s'.ExpiresAt(CommA(a)) == 4;
    NotDue(At(s, 2), 3, [Challenged(b, 2)], s');
  }

  lemma Block4(a: Comm, b: Comm, input: seq<Byte>)
    requires a.Keccak256? && b.Keccak256? && |a.data| == 32 && |b.data| == 32
    ensures var es := [Challenged(a, 1), ChallengeResolved(a, 1, input)];
            Three(a, b).WF() && Next(At(Three(a, b), 3), L1Origin(4, Some(es), true)) == At(Four(a, b, input), 4)
  {
    hide Next, State.WF, ApplyAll, State.ExpireChallenges, State.ExpiresAt, Three, Four;
    KeysDiffer(a, b);
    var s, s' := Three(a, b), Four(a, b, input);
    Apply4(a, b, input, s, Both(a, b, input));
    Expire4(a, b, input, Both(a, b, input), s');
    Due5(a, b, input, s');
    NotDue(At(s, 3), 4, [Challenged(a, 1), ChallengeResolved(a, 1, input)], s');
  }

  /** The state after the events of block 4, before challenges expire. */
  function Both(a: Comm, b: Comm, input: seq<Byte>): State {
    State([CommA(a), CommB(b)], [], [0, 1], [], map[Kb(b) := 0, Ka(a) := 1],
          [Challenge(b, 2, 4, [], Active), Challenge(a, 1, 5, input, Resolved)], 0)
  }

  lemma Apply4(a: Comm, b: Comm, input: seq<Byte>, s: State, s': State)
    requires Ka(a) != Kb(b) && s == Three(a, b) && s' == Both(a, b, input)
    ensures s.WF() && ApplyAll(s, CFG, 4, [Challenged(a, 1), ChallengeResolved(a, 1, input)]) == s'
  {
    hide ChallengeKey;
    var s1 := s.Create(CFG, a, 4, 1);
    assert s1.table == map[Kb(b) := 0, Ka(a) := 1];
    assert s1.Resolve(a, 1, input).0 == s';
    ApplyFirst(s, 4, Challenged(a, 1), [ChallengeResolved(a, 1, input)]);
    ApplyFirst(s1, 4, ChallengeResolved(a, 1, input), []);
    ApplyNone(s', 4);
  }

  lemma Expire4(a: Comm, b: Comm, input: seq<Byte>, s: State, s': State)
    requires s == Both(a, b, input) && s' == Four(a, b, input)
    ensures s.WF() && s.ExpireChallenges(4) == s'
  {
    hide ChallengeKey;
    assert s.objs[0 := s.objs[0].(status := Expired)] == s'.objs;
    assert s.challenges[1..] == [1];
    assert s'.ExpireChallenges(4) == s';
  }

  /** The resolved challenge of a lets it expire at 5. */
  lemma Due5(a: Comm, b: Comm, input: seq<Byte>, s: State)
    requires Ka(a) != Kb(b) && s == Four(a, b, input)
    ensures s.WF() && s.commitments != [] && s.ExpiresAt(s.commitments[0]) == 5
  {
    hide ChallengeKey;
  }

  // ---- block 5

  lemma Pruned4(a: Comm, b: Comm, input: seq<Byte>)
    requires a.Keccak256? && b.Keccak256? && |a.data| == 32 && |b.data| == 32
    ensures var s := Four(a, b, input);
            && s.WF()
            && Next(At(s, 4), Finalized(4))
               == At(s.(expiredChallenges := [], table := map[Ka(a) := 1]), 4).(l1FinalizedHead := 4)
  {
    hide ChallengeKey, State.PruneCommitments, State.PruneChallenges;
    var s := Four(a, b, input);
    Prune4(a, b, input, s, s.(expiredChallenges := [], table := map[Ka(a) := 1]));
  }

  lemma Prune4(a: Comm, b: Comm, input: seq<Byte>, s: State, s': State)
    requires a.Keccak256? && b.Keccak256? && |a.data| == 32 && |b.data| == 32
    requires s == Four(a, b, input) && s' == s.(expiredChallenges := [], table := map[Ka(a) := 1])
    ensures s.WF() && s.PruneCommitments(4) == s && s.PruneChallenges(4) == s'
  {
    KeysDiffer(a, b);
    hide ChallengeKey;
    assert s'.table == s.table - {Kb(b)};
    assert s.expiredChallenges[1..] == [];
    assert s'.PruneChallenges(4) == s';
  }

  /** Block 5 expires both commitments without a reorg if finalization came first, and with a
      reorg for b if it did not. */
  lemma Block5(a: Comm, b: Comm, input: seq<Byte>)
    requires a.Keccak256? && b.Keccak256? && |a.data| == 32 && |b.data| == 32
    ensures var d := At(Four(a, b, input), 4);
            && d.state.WF()
            && d.AdvanceL1Origin(5, Some([]), true).1 == ReorgRequired
            && Next(d, Finalized(4)).AdvanceL1Origin(5, Some([]), true).1 == Advanced
  {
    KeysDiffer(a, b);
    Pruned4(a, b, input);
    hide ChallengeKey, DA.AdvanceL1Origin, DA.Finalize, Next;
    var d := At(Four(a, b, input), 4);
    Expire5(a, b, input, d.state, 5);
    Expire5(a, b, input, Next(d, Finalized(4)).state, 5);
    Outcome5(d);
    Outcome5(Next(d, Finalized(4)));
  }

  lemma Outcome5(d: DA)
    requires d.state.WF() && d.cfg == CFG && d.challengeOrigin == 4 && d.commitmentOrigin == 4
    requires d.state.ExpireChallenges(5).WF()
    ensures d.AdvanceL1Origin(5, Some([]), true).1 ==
            if d.state.ExpireChallenges(5).ExpireCommitments(5).1 then ReorgRequired else Advanced
  {
    hide State.ExpireChallenges, State.ExpireCommitments, State.WF;
    ApplyNone(d.state, 5);
  }

  lemma Expire5(a: Comm, b: Comm, input: seq<Byte>, s: State, at: nat)
    requires s.WF() && at == 5 && Ka(a) != Kb(b)
    requires s.commitments == [CommA(a), CommB(b)] && s.challenges == [1]
    requires s.objs == [Challenge(b, 2, 4, [], Expired), Challenge(a, 1, 5, input, Resolved)]
    requires Ka(a) in s.table && s.table[Ka(a)] == 1 && (Kb(b) in s.table ==> s.table[Kb(b)] == 0)
    ensures var s1 := s.ExpireChallenges(at);
            && s1.WF() && s1 == s.(challenges := [], expiredChallenges := s.expiredChallenges + [1])
            && s1.ExpireCommitments(at).1 == (Kb(b) in s.table)
  {
    hide ChallengeKey;
    var s1 := s.(challenges := [], expiredChallenges := s.expiredChallenges + [1]);
    assert s.challenges[1..] == [];
    assert s1.ExpireChallenges(at) == s1;
    var cs := [CommA(a), CommB(b)];
    assert cs[1..] == [cs[1]] && cs[1..][1..] == [];
    var s2 := s1.(commitments := [cs[1]], expiredCommitments := s1.expiredCommitments + [cs[0]]);
    var s3 := s2.(commitments := [], expiredCommitments := s2.expiredCommitments + [cs[1]]);
    assert !s3.ExpireCommitments(at).1;
    assert s2.ExpireCommitments(at).1 == (Kb(b) in s.table);
  }

  // ---- the run

  lemma RunIs(a: Comm, b: Comm, input: seq<Byte>)
    requires a.Keccak256? && b.Keccak256? && |a.data| == 32 && |b.data| == 32
    ensures Run(Start(CFG), Before(a, b, input)).da == At(Four(a, b, input), 4)
  {
    hide Next, Run, ChallengeKey, State.WF, Three, Four;
    var steps := Before(a, b, input);
    var w := Start(CFG);
    assert w.da == At(Plain([]), 0);
    PlainBlock([], 0);
    var w1 := RunFirst(w, steps);
    PlainInput([], 1, a, input);
    var w2 := RunFirst(w1, steps[1..]);
    assert [] + [CommA(a)] == [CommA(a)];
    PlainBlock([CommA(a)], 1);
    var w3 := RunFirst(w2, steps[2..]);
    PlainInput([CommA(a)], 2, b, input);
    var w4 := RunFirst(w3, steps[3..]);
    assert [CommA(a)] + [CommB(b)] == [CommA(a), CommB(b)];
    Block3(a, b);
    var w5 := RunFirst(w4, steps[4..]);
    Block4(a, b, input);
    var w6 := RunFirst(w5, steps[5..]);
    assert steps[6..] == [];
    RunNone(w6);
  }

  lemma RunNone(w: World)
    requires w.da.state.WF()
    ensures Run(w, []) == w
  {
  }

  /** A finalization signal that arrives while an expired challenge still waits for its
      commitment makes the manager miss the reorg. */
  lemma PruneCanLoseReorg(a: Comm, b: Comm, input: seq<Byte>)
    requires a.Keccak256? && b.Keccak256? && |a.data| == 32 && |b.data| == 32
    ensures var d := Run(Start(CFG), Before(a, b, input)).da;
            && d.AdvanceL1Origin(5, Some([]), true).1 == ReorgRequired
            && d.Finalize(4).AdvanceL1Origin(5, Some([]), true).1 == Advanced
  {
    hide AltDARuns.Run, Before, Four, ChallengeKey, DA.AdvanceL1Origin, DA.Finalize, State.WF;
    RunIs(a, b, input);
    Block5(a, b, input);
  }

  /** Without the finalization signal the same run does come to a reorg, for some challenge. */
  lemma ReorgHappens(a: Comm, b: Comm, input: seq<Byte>) returns (k: Key)
    requires a.Keccak256? && b.Keccak256? && |a.data| == 32 && |b.data| == 32
    ensures var d := Run(Start(CFG), Before(a, b, input)).da;
            Inv(d) && Blames(d, L1Origin(5, Some([]), true), k)
  {
    hide WorldInv, Run, Inv, Before, DA.AdvanceL1Origin, Blames, DA.Finalize;
    StartInv(CFG);
    RunKeeps(Start(CFG), Before(a, b, input));
    var w := Run(Start(CFG), Before(a, b, input));
    WorldMeans(w);
    PruneCanLoseReorg(a, b, input);
    k := ReorgHasCulprit(w.da, L1Origin(5, Some([]), true));
  }
}

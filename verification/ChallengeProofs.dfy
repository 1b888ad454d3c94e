/** What every operation on the alt-DA challenge state keeps: the order of the challenge
    queues, the status of each challenge, and the agreement of table and queues. */
module ChallengeProofs {
  import opened Format
  import opened Commitments
  import opened AltDASpec

  /** Both challenge queues, oldest first. */
  function Queue(s: State): seq<Ref> { s.expiredChallenges + s.challenges }

  ghost predicate InRange(q: seq<Ref>, objs: seq<Challenge>) { forall i | 0 <= i < |q| :: q[i] < |objs| }

  /** Challenges are queued in the order of their creation and of their resolve ends. */
  ghost predicate Ordered(q: seq<Ref>, objs: seq<Challenge>) {
    && InRange(q, objs)
    && (forall i, j | 0 <= i < j < |q| :: q[i] < q[j])
    && (forall i, j | 0 <= i < j < |q| :: objs[q[i]].resolveEnd <= objs[q[j]].resolveEnd)
  }

  ghost predicate Late(c: Challenge, origin: nat) { c.resolveEnd <= origin && c.status in {Expired, Resolved} }

  ghost predicate Open(c: Challenge, origin: nat) { c.resolveEnd > origin && c.status in {Active, Resolved} }

  /** The first n challenges are expired and end by `at`; the others end after `was`. All
      resolve ends are at most `bound`. */
  ghost predicate Phased(q: seq<Ref>, n: nat, objs: seq<Challenge>, was: nat, at: nat, bound: nat) {
    && n <= |q| && InRange(q, objs)
    && (forall i | 0 <= i < |q| :: objs[q[i]].resolveEnd <= bound)
    && (forall i | 0 <= i < n :: Late(objs[q[i]], at))
    && (forall i | n <= i < |q| :: Open(objs[q[i]], was))
  }

  /** Table entries lead to queued challenges with the entry's key. */
  ghost predicate TableOk(table: map<Key, Ref>, q: seq<Ref>, objs: seq<Challenge>) {
    forall k | k in table :: table[k] < |objs| && table[k] in q && objs[table[k]].Key() == k
  }

  /** The invariant while challenges are brought from origin `was` to origin `at`. */
  ghost predicate Moving(s: State, was: nat, at: nat, bound: nat) {
    && Ordered(Queue(s), s.objs)
    && Phased(Queue(s), |s.expiredChallenges|, s.objs, was, at, bound)
    && TableOk(s.table, Queue(s), s.objs)
  }

  /** The invariant of the challenge state at an origin. */
  ghost predicate StateInv(s: State, origin: nat, bound: nat) { Moving(s, origin, origin, bound) }

  /** The status of a challenge is a function of the origin and of whether it was resolved. */
  lemma StatusByOrigin(s: State, origin: nat, bound: nat, k: Key)
    requires StateInv(s, origin, bound) && s.WF()
    ensures s.StatusOf(k) == Uninitialized <==> k !in s.table
    ensures s.StatusOf(k) == Active <==> k in s.table && s.StatusOf(k) != Resolved && s.Get(k).value.resolveEnd > origin
    ensures s.StatusOf(k) == Expired
       <==> k in s.table && s.StatusOf(k) != Resolved && s.Get(k).value.resolveEnd <= origin
  {
    hide Ordered;
    if k in s.table {
      var i :| 0 <= i < |Queue(s)| && Queue(s)[i] == s.table[k];
    }
  }

  // ---- create and resolve

  lemma AppendKeeps(q: seq<Ref>, n: nat, objs: seq<Challenge>, c: Challenge, origin: nat, bound: nat)
    requires Ordered(q, objs) && Phased(q, n, objs, origin, origin, bound)
    requires c.status == Active && c.resolveEnd > origin && bound <= c.resolveEnd
    ensures Ordered(q + [|objs|], objs + [c])
    ensures Phased(q + [|objs|], n, objs + [c], origin, origin, c.resolveEnd)
  {
    hide Challenge.Key;
  }

  lemma AppendTable(table: map<Key, Ref>, q: seq<Ref>, objs: seq<Challenge>, c: Challenge)
    requires TableOk(table, q, objs)
    ensures TableOk(table[c.Key() := |objs|], q + [|objs|], objs + [c])
  {
    hide Challenge.Key;
  }

  lemma CreateKeeps(s: State, cfg: Config, comm: Comm, inclusion: nat, block: nat, origin: nat, bound: nat)
    requires StateInv(s, origin, bound)
    requires origin < inclusion && bound <= inclusion + cfg.resolveWindow
    ensures StateInv(s.Create(cfg, comm, inclusion, block), origin, inclusion + cfg.resolveWindow)
  {
    hide Ordered, Phased, TableOk, Challenge.Key;
    var c := Challenge(comm, block, inclusion + cfg.resolveWindow, [], Active);
    AppendKeeps(Queue(s), |s.expiredChallenges|, s.objs, c, origin, bound);
    AppendTable(s.table, Queue(s), s.objs, c);
    assert Queue(s.Create(cfg, comm, inclusion, block)) == Queue(s) + [|s.objs|];
  }

  lemma UpdateKeeps(q: seq<Ref>, n: nat, objs: seq<Challenge>, p: Ref, c: Challenge, was: nat, at: nat, bound: nat)
    requires p < |objs| && c.status == Resolved && c.resolveEnd == objs[p].resolveEnd
    requires Ordered(q, objs) && Phased(q, n, objs, was, at, bound)
    ensures Ordered(q, objs[p := c]) && Phased(q, n, objs[p := c], was, at, bound)
  {
  }

  lemma UpdateTable(table: map<Key, Ref>, q: seq<Ref>, objs: seq<Challenge>, p: Ref, c: Challenge)
    requires p < |objs| && c.Key() == objs[p].Key()
    requires TableOk(table, q, objs)
    ensures TableOk(table, q, objs[p := c])
  {
    hide Challenge.Key;
  }

  lemma ResolveKeeps(s: State, comm: Comm, block: nat, input: seq<Byte>, origin: nat, bound: nat)
    requires StateInv(s, origin, bound) && s.WF()
    ensures StateInv(s.Resolve(comm, block, input).0, origin, bound)
  {
    hide Ordered, Phased, TableOk, ChallengeKey;
    var k := ChallengeKey(comm, block);
    if k in s.table {
      var p := s.table[k];
      var c := s.objs[p].(input := input, status := Resolved);
      UpdateKeeps(Queue(s), |s.expiredChallenges|, s.objs, p, c, origin, origin, bound);
      UpdateTable(s.table, Queue(s), s.objs, p, c);
    }
  }

  lemma ApplyOneKeeps(s: State, cfg: Config, inclusion: nat, e: Event, origin: nat, bound: nat)
    requires StateInv(s, origin, bound) && s.WF()
    requires origin < inclusion && bound <= inclusion + cfg.resolveWindow
    ensures StateInv(Apply(s, cfg, inclusion, e), origin, inclusion + cfg.resolveWindow)
  {
    hide State.Create, State.Resolve, State.WF, StateInv;
    match e {
      case Challenged(comm, block) => CreateKeeps(s, cfg, comm, inclusion, block, origin, bound);
      case ChallengeResolved(comm, block, input) =>
        ResolveKeeps(s, comm, block, input, origin, bound);
        BoundKeeps(s.Resolve(comm, block, input).0, origin, bound, inclusion + cfg.resolveWindow);
      case Skipped => BoundKeeps(s, origin, bound, inclusion + cfg.resolveWindow);
    }
  }

  lemma {:induction false} ApplyKeeps(s: State, cfg: Config, inclusion: nat, es: seq<Event>, origin: nat, bound: nat)
    requires StateInv(s, origin, bound) && s.WF()
    requires origin < inclusion && bound <= inclusion + cfg.resolveWindow
    ensures StateInv(ApplyAll(s, cfg, inclusion, es), origin, inclusion + cfg.resolveWindow)
    decreases |es|
  {
    hide StateInv, State.WF, Apply;
    if es == [] {
      BoundKeeps(s, origin, bound, inclusion + cfg.resolveWindow);
    } else {
      ApplyOneKeeps(s, cfg, inclusion, es[0], origin, bound);
      ApplyKeeps(Apply(s, cfg, inclusion, es[0]), cfg, inclusion, es[1..], origin, inclusion + cfg.resolveWindow);
    }
  }

  lemma BoundKeeps(s: State, origin: nat, bound: nat, larger: nat)
    requires StateInv(s, origin, bound) && bound <= larger
    ensures StateInv(s, origin, larger)
  {
    hide Ordered, TableOk;
  }

  // ---- expiry of challenges

  function End(s: State, p: Ref): nat
    requires p < |s.objs|
  {
    s.objs[p].resolveEnd
  }

  /** The members of a queue that are, or are not, due at `origin`, wherever they stand. */
  function Select(s: State, q: seq<Ref>, origin: nat, due: bool): seq<Ref>
    requires forall i | 0 <= i < |q| :: q[i] < |s.objs|
  {
    if q == [] then []
    else (if (End(s, q[0]) <= origin) == due then [q[0]] else []) + Select(s, q[1..], origin, due)
  }

  /** No challenge that is due stands behind one that is not. */
  ghost predicate DueFirst(s: State, origin: nat)
    requires s.WF()
  {
    forall i, j | 0 <= i < j < |s.challenges| ::
      End(s, s.challenges[i]) > origin ==> End(s, s.challenges[j]) > origin
  }

  function ExpireFirst(s: State): (r: State)
    requires s.WF() && s.challenges != []
    ensures r.WF() && Queue(r) == Queue(s)
    ensures |r.objs| == |s.objs| && forall p | 0 <= p < |s.objs| :: End(r, p) == End(s, p)
  {
    var p := s.challenges[0];
    s.(challenges := s.challenges[1..], expiredChallenges := s.expiredChallenges + [p],
       objs := if s.objs[p].status == Active then s.objs[p := s.objs[p].(status := Expired)] else s.objs)
  }

  lemma {:induction false} SelectFrame(s: State, s': State, q: seq<Ref>, origin: nat, due: bool)
    requires |s'.objs| == |s.objs| && forall p | 0 <= p < |s.objs| :: End(s', p) == End(s, p)
    requires forall i | 0 <= i < |q| :: q[i] < |s.objs|
    ensures Select(s', q, origin, due) == Select(s, q, origin, due)
    decreases |q|
  {
    if q != [] {
      SelectFrame(s, s', q[1..], origin, due);
    }
  }

  lemma {:induction false} SelectNone(s: State, q: seq<Ref>, origin: nat)
    requires forall i | 0 <= i < |q| :: q[i] < |s.objs|
    requires forall i | 0 <= i < |q| :: End(s, q[i]) > origin
    ensures Select(s, q, origin, true) == [] && Select(s, q, origin, false) == q
    decreases |q|
  {
    if q != [] {
      SelectNone(s, q[1..], origin);
      assert q == [q[0]] + q[1..];
    }
  }

  lemma {:induction false} SelectSome(s: State, q: seq<Ref>, origin: nat, j: nat)
    requires forall i | 0 <= i < |q| :: q[i] < |s.objs|
    requires j < |q| && End(s, q[j]) <= origin
    ensures Select(s, q, origin, true) != []
    decreases |q|
  {
    if j > 0 {
      SelectSome(s, q[1..], origin, j - 1);
    }
  }

  /** The scan that stops at the first challenge still open finds exactly the challenges that
      are due, if and only if none of them stands behind an open one. */
  lemma {:induction false} EarlyExitIsFilter(s: State, origin: nat)
    requires s.WF()
    ensures var s' := s.ExpireChallenges(origin);
            s'.expiredChallenges == s.expiredChallenges + Select(s, s.challenges, origin, true) <==> DueFirst(s, origin)
    ensures DueFirst(s, origin) ==> s.ExpireChallenges(origin).challenges == Select(s, s.challenges, origin, false)
    decreases |s.challenges|
  {
    hide DueFirst, Challenge.Key;
    if s.challenges == [] {
      DueFirstStops(s, origin);
    } else if End(s, s.challenges[0]) > origin {
      DueFirstStops(s, origin);
    } else {
      var s1 := ExpireFirst(s);
      EarlyExitIsFilter(s1, origin);
      SelectFrame(s, s1, s1.challenges, origin, true);
      SelectFrame(s, s1, s1.challenges, origin, false);
      DueFirstRest(s, s1, origin);
      var rest := Select(s, s1.challenges, origin, true);
      assert Select(s, s.challenges, origin, true) == [s.challenges[0]] + rest;
      assert s1.expiredChallenges + rest == s.expiredChallenges + ([s.challenges[0]] + rest);
    }
  }

  /** A queue whose first challenge is not due has no due ones if and only if they come first. */
  lemma DueFirstStops(s: State, origin: nat)
    requires s.WF() && (s.challenges == [] || End(s, s.challenges[0]) > origin)
    ensures Select(s, s.challenges, origin, true) == [] <==> DueFirst(s, origin)
    ensures DueFirst(s, origin) ==> s.challenges == Select(s, s.challenges, origin, false)
  {
    if DueFirst(s, origin) {
      SelectNone(s, s.challenges, origin);
    } else {
      var i, j :| 0 <= i < j < |s.challenges| && End(s, s.challenges[i]) > origin >= End(s, s.challenges[j]);
      SelectSome(s, s.challenges, origin, j);
    }
  }

  lemma DueFirstRest(s: State, s1: State, origin: nat)
    requires s.WF() && s.challenges != [] && End(s, s.challenges[0]) <= origin && s1 == ExpireFirst(s)
    ensures DueFirst(s1, origin) <==> DueFirst(s, origin)
  {
    assert forall i | 0 <= i < |s1.challenges| :: s1.challenges[i] == s.challenges[i + 1];
    if DueFirst(s1, origin) {
      forall i, j | 0 <= i < j < |s.challenges| && End(s, s.challenges[i]) > origin
        ensures End(s, s.challenges[j]) > origin
      {
        assert s.challenges[i] == s1.challenges[i - 1] && s.challenges[j] == s1.challenges[j - 1];
      }
    }
  }

  /** An ordered queue has its due challenges first. */
  lemma OrderedMeansDueFirst(s: State, origin: nat)
    requires Ordered(Queue(s), s.objs) && s.WF()
    ensures DueFirst(s, origin)
  {
    forall i, j | 0 <= i < j < |s.challenges| && End(s, s.challenges[i]) > origin
      ensures End(s, s.challenges[j]) > origin
    {
      assert s.challenges[i] == Queue(s)[|s.expiredChallenges| + i];
      assert s.challenges[j] == Queue(s)[|s.expiredChallenges| + j];
    }
  }

  /** Expiry changes no challenge but the status of the due ones that were not resolved. */
  ghost predicate SameButStatus(s: State, s': State) {
    && |s'.objs| == |s.objs|
    && (forall p | 0 <= p < |s.objs| ::
          s'.objs[p] == s.objs[p] || (s.objs[p].status == Active && s'.objs[p] == s.objs[p].(status := Expired)))
  }

  lemma MarkKeeps(q: seq<Ref>, n: nat, objs: seq<Challenge>, was: nat, at: nat, bound: nat)
    requires Ordered(q, objs) && Phased(q, n, objs, was, at, bound)
    requires n < |q| && objs[q[n]].resolveEnd <= at
    ensures var objs' := if objs[q[n]].status == Active then objs[q[n] := objs[q[n]].(status := Expired)] else objs;
            Ordered(q, objs') && Phased(q, n + 1, objs', was, at, bound)
  {
    var objs' := if objs[q[n]].status == Active then objs[q[n] := objs[q[n]].(status := Expired)] else objs;
    assert Open(objs[q[n]], was);
    forall i | 0 <= i < |q| && i != n ensures objs'[q[i]] == objs[q[i]] {
      if i < n { assert q[i] < q[n]; } else { assert q[n] < q[i]; }
    }
  }

  lemma ExpireFirstKeeps(s: State, was: nat, at: nat, bound: nat)
    requires Moving(s, was, at, bound) && s.WF()
    requires s.challenges != [] && End(s, s.challenges[0]) <= at
    ensures Moving(ExpireFirst(s), was, at, bound) && SameButStatus(s, ExpireFirst(s))
  {
    hide Ordered, Phased, TableOk, ChallengeKey;
    var s', n := ExpireFirst(s), |s.expiredChallenges|;
    assert Queue(s)[n] == s.challenges[0];
    MarkKeeps(Queue(s), n, s.objs, was, at, bound);
    UpdateTable(s.table, Queue(s), s.objs, Queue(s)[n], s'.objs[Queue(s)[n]]);
    assert s.objs[Queue(s)[n] := s'.objs[Queue(s)[n]]] == s'.objs;
  }

  lemma SettledPhase(q: seq<Ref>, n: nat, objs: seq<Challenge>, was: nat, at: nat, bound: nat)
    requires Ordered(q, objs) && Phased(q, n, objs, was, at, bound)
    requires n < |q| ==> objs[q[n]].resolveEnd > at
    ensures Phased(q, n, objs, at, at, bound)
  {
  }

  /** Expiring challenges brings their states to a later origin. */
  lemma {:induction false} ExpireKeeps(s: State, was: nat, at: nat, bound: nat)
    requires Moving(s, was, at, bound) && s.WF()
    ensures var s' := s.ExpireChallenges(at);
            && StateInv(s', at, bound) && s'.WF() && SameButStatus(s, s') && Queue(s') == Queue(s)
            && s' == s.(challenges := s'.challenges, expiredChallenges := s'.expiredChallenges, objs := s'.objs)
    decreases |s.challenges|
  {
    hide Ordered, Phased, TableOk, ChallengeKey;
    if s.challenges != [] && End(s, s.challenges[0]) <= at {
      ExpireFirstKeeps(s, was, at, bound);
      ExpireKeeps(ExpireFirst(s), was, at, bound);
    } else {
      if s.challenges != [] {
        assert Queue(s)[|s.expiredChallenges|] == s.challenges[0];
      }
      SettledPhase(Queue(s), |s.expiredChallenges|, s.objs, was, at, bound);
    }
  }

  // ---- pruning

  function DropFirst(s: State): (r: State)
    requires s.WF() && s.expiredChallenges != []
    ensures r.WF()
  {
    s.(expiredChallenges := s.expiredChallenges[1..],
       table := s.table - {s.objs[s.expiredChallenges[0]].Key()})
  }

  lemma TailKeeps(q: seq<Ref>, n: nat, objs: seq<Challenge>, origin: nat, bound: nat)
    requires Ordered(q, objs) && Phased(q, n, objs, origin, origin, bound) && 0 < n
    ensures Ordered(q[1..], objs) && Phased(q[1..], n - 1, objs, origin, origin, bound)
  {
  }

  lemma TailTable(table: map<Key, Ref>, q: seq<Ref>, objs: seq<Challenge>)
    requires TableOk(table, q, objs) && InRange(q, objs) && q != []
    ensures TableOk(table - {objs[q[0]].Key()}, q[1..], objs)
  {
    hide Challenge.Key;
    forall k | k in table - {objs[q[0]].Key()} ensures table[k] in q[1..] {
      var i :| 0 <= i < |q| && q[i] == table[k];
      assert q[1..][i - 1] == q[i];
    }
  }

  lemma DropFirstKeeps(s: State, origin: nat, bound: nat)
    requires StateInv(s, origin, bound) && s.WF() && s.expiredChallenges != []
    ensures StateInv(DropFirst(s), origin, bound) && Queue(DropFirst(s)) == Queue(s)[1..]
  {
    hide Ordered, TableOk, ChallengeKey;
    var q := Queue(s);
    TailKeeps(q, |s.expiredChallenges|, s.objs, origin, bound);
    hide Phased;
    assert q[0] == s.expiredChallenges[0];
    TailTable(s.table, q, s.objs);
    assert Queue(DropFirst(s)) == q[1..];
  }

  /** Pruning drops challenges from the front of the queue. */
  lemma {:induction false} PruneChallengesKeeps(s: State, at: nat, origin: nat, bound: nat)
    requires StateInv(s, origin, bound) && s.WF()
    ensures var s' := s.PruneChallenges(at);
            && StateInv(s', origin, bound) && s'.WF()
            && s' == s.(expiredChallenges := s'.expiredChallenges, table := s'.table)
            && |Queue(s')| <= |Queue(s)| && Queue(s') == Queue(s)[|Queue(s)| - |Queue(s')|..]
    decreases |s.expiredChallenges|
  {
    hide StateInv, Challenge.Key;
    if s.expiredChallenges != [] && End(s, s.expiredChallenges[0]) <= at {
      DropFirstKeeps(s, origin, bound);
      PruneChallengesKeeps(DropFirst(s), at, origin, bound);
    }
  }

  /** Pruning deletes the keys of exactly the expired challenges that end by `at`. */
  lemma {:induction false} PruneChallengesIs(s: State, at: nat, origin: nat, bound: nat, k: Key)
    requires StateInv(s, origin, bound) && s.WF()
    ensures var s' := s.PruneChallenges(at);
            && (k in s'.table <==> k in s.table && !KeyDue(s, at, k))
            && (k in s'.table ==> s'.table[k] == s.table[k])
    decreases |s.expiredChallenges|
  {
    hide StateInv, Challenge.Key, KeyDue;
    if s.expiredChallenges != [] && End(s, s.expiredChallenges[0]) <= at {
      DropFirstKeeps(s, origin, bound);
      PruneChallengesIs(DropFirst(s), at, origin, bound, k);
      KeyDueRest(s, at, k);
    } else {
      NoKeyDue(s, at, origin, bound, k);
    }
  }

  lemma NoKeyDue(s: State, at: nat, origin: nat, bound: nat, k: Key)
    requires StateInv(s, origin, bound) && s.WF()
    requires s.expiredChallenges == [] || End(s, s.expiredChallenges[0]) > at
    ensures !KeyDue(s, at, k)
  {
    hide Phased, TableOk, Challenge.Key;
    forall i | 0 <= i < |s.expiredChallenges| ensures End(s, s.expiredChallenges[i]) > at {
      assert Queue(s)[0] == s.expiredChallenges[0] && Queue(s)[i] == s.expiredChallenges[i];
    }
  }

  /** Some expired challenge with this key ends by `at`. */
  ghost predicate KeyDue(s: State, at: nat, k: Key)
    requires s.WF()
  {
    exists i :: 0 <= i < |s.expiredChallenges| && End(s, s.expiredChallenges[i]) <= at
                && s.objs[s.expiredChallenges[i]].Key() == k
  }

  lemma KeyDueRest(s: State, at: nat, k: Key)
    requires s.WF() && s.expiredChallenges != [] && End(s, s.expiredChallenges[0]) <= at
    ensures KeyDue(s, at, k) <==> k == s.objs[s.expiredChallenges[0]].Key() || KeyDue(DropFirst(s), at, k)
  {
    var e, e' := s.expiredChallenges, DropFirst(s).expiredChallenges;
    assert forall i | 0 <= i < |e'| :: e'[i] == e[i + 1];
    if KeyDue(s, at, k) {
      var i :| 0 <= i < |e| && End(s, e[i]) <= at && s.objs[e[i]].Key() == k;
      if i > 0 {
        assert e'[i - 1] == e[i];
      }
    }
  }

  // ---- agreement of table and queues

  /** Every queued challenge is the one its key leads to. */
  ghost predicate Listed(table: map<Key, Ref>, q: seq<Ref>, objs: seq<Challenge>) {
    && InRange(q, objs)
    && forall i | 0 <= i < |q| :: objs[q[i]].Key() in table && table[objs[q[i]].Key()] == q[i]
  }

  /** The table's entries are exactly the members of the two queues. */
  ghost predicate Agrees(s: State) {
    TableOk(s.table, Queue(s), s.objs) && Listed(s.table, Queue(s), s.objs)
  }

  /** Creating a challenge keeps table and queues in agreement if and only if its key is not
      in the table: otherwise the older challenge stays queued while its key leads elsewhere. */
  lemma CreateAgrees(s: State, cfg: Config, comm: Comm, inclusion: nat, block: nat)
    requires Agrees(s)
    ensures Agrees(s.Create(cfg, comm, inclusion, block)) <==> ChallengeKey(comm, block) !in s.table
  {
    hide ChallengeKey, TableOk;
    var c := Challenge(comm, block, inclusion + cfg.resolveWindow, [], Active);
    AppendTable(s.table, Queue(s), s.objs, c);
    var s' := s.Create(cfg, comm, inclusion, block);
    assert Queue(s') == Queue(s) + [|s.objs|];
    if c.Key() in s.table {
      TableQueued(s, c.Key());
      var i :| 0 <= i < |Queue(s)| && Queue(s)[i] == s.table[c.Key()];
      assert Queue(s')[i] == Queue(s)[i];
      assert s'.objs[Queue(s')[i]].Key() == c.Key();
    } else {
      forall i | 0 <= i < |Queue(s')|
        ensures s'.objs[Queue(s')[i]].Key() in s'.table && s'.table[s'.objs[Queue(s')[i]].Key()] == Queue(s')[i]
      {
        if i < |Queue(s)| {
          assert Queue(s')[i] == Queue(s)[i];
        }
      }
    }
  }

  /** For instance, the second challenge of any commitment in a new state. */
  lemma SecondChallengeDisagrees(cfg: Config, comm: Comm, inclusion: nat, block: nat)
    ensures var s := State([], [], [], [], map[], [], 0).Create(cfg, comm, inclusion, block);
            Agrees(s) && !Agrees(s.Create(cfg, comm, inclusion, block))
  {
    var s0 := State([], [], [], [], map[], [], 0);
    assert Agrees(s0);
    CreateAgrees(s0, cfg, comm, inclusion, block);
    hide Agrees, ChallengeKey;
    CreateAgrees(s0.Create(cfg, comm, inclusion, block), cfg, comm, inclusion, block);
  }

  lemma TableQueued(s: State, k: Key)
    requires TableOk(s.table, Queue(s), s.objs) && k in s.table
    ensures s.table[k] < |s.objs| && s.table[k] in Queue(s) && s.objs[s.table[k]].Key() == k
  {
  }

  lemma UpdateListed(table: map<Key, Ref>, q: seq<Ref>, objs: seq<Challenge>, objs': seq<Challenge>)
    requires |objs'| == |objs| && forall p | 0 <= p < |objs| :: objs'[p].Key() == objs[p].Key()
    ensures Listed(table, q, objs) ==> Listed(table, q, objs')
    ensures TableOk(table, q, objs) ==> TableOk(table, q, objs')
  {
    hide Challenge.Key;
  }

  lemma ResolveAgrees(s: State, comm: Comm, block: nat, input: seq<Byte>)
    requires Agrees(s) && s.WF()
    ensures Agrees(s.Resolve(comm, block, input).0)
  {
    hide Listed, TableOk, ChallengeKey;
    UpdateListed(s.table, Queue(s), s.objs, s.Resolve(comm, block, input).0.objs);
  }

  lemma ExpireAgrees(s: State, was: nat, at: nat, bound: nat)
    requires Agrees(s) && Moving(s, was, at, bound) && s.WF()
    ensures Agrees(s.ExpireChallenges(at))
  {
    hide Listed, TableOk, ChallengeKey, Moving, State.ExpireChallenges;
    ExpireKeeps(s, was, at, bound);
    UpdateListed(s.table, Queue(s), s.objs, s.ExpireChallenges(at).objs);
  }

  lemma TailListed(table: map<Key, Ref>, q: seq<Ref>, objs: seq<Challenge>)
    requires Listed(table, q, objs) && q != [] && forall i | 0 < i < |q| :: q[0] < q[i]
    ensures Listed(table - {objs[q[0]].Key()}, q[1..], objs)
  {
    hide Challenge.Key;
  }

  lemma {:induction false} PruneAgrees(s: State, at: nat, origin: nat, bound: nat)
    requires Agrees(s) && StateInv(s, origin, bound) && s.WF()
    ensures Agrees(s.PruneChallenges(at))
    decreases |s.expiredChallenges|
  {
    hide Listed, TableOk, Phased, Challenge.Key;
    if s.expiredChallenges != [] && End(s, s.expiredChallenges[0]) <= at {
      assert Queue(s)[0] == s.expiredChallenges[0];
      TailListed(s.table, Queue(s), s.objs);
      DropFirstKeeps(s, origin, bound);
      hide Ordered;
      PruneAgrees(DropFirst(s), at, origin, bound);
    }
  }
}

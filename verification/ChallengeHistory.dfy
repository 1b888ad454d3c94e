/** The status of a challenge read off the history of L1 events, without queues or tables. */
module ChallengeHistory {
  import opened Options
  import opened Format
  import opened Commitments
  import opened AltDASpec
  import opened ChallengeProofs

  /** An event and the L1 block it is in. */
  datatype Entry = Entry(block: nat, event: Event)

  /** What the history says about a key: when its last challenge ends, and whether and with
      what input that one was resolved. */
  datatype Record = Record(end: nat, resolved: bool, input: seq<Byte>)

  function Recall(hist: seq<Entry>, window: nat, k: Key): Option<Record> {
    if hist == [] then None
    else
      var last := hist[|hist| - 1];
      var before := Recall(hist[..|hist| - 1], window, k);
      match last.event
      case Challenged(comm, block) =>
        if ChallengeKey(comm, block) == k then Some(Record(last.block + window, false, [])) else before
      case ChallengeResolved(comm, block, input) =>
        if ChallengeKey(comm, block) == k && before.Some? then Some(before.value.(resolved := true, input := input))
        else before
      case Skipped => before
  }

  /** When the first challenge of a key ends. */
  function FirstEnd(hist: seq<Entry>, window: nat, k: Key): (r: Option<nat>)
    ensures r.Some? <==> Recall(hist, window, k).Some?
  {
    if hist == [] then None
    else
      var last := hist[|hist| - 1];
      var before := FirstEnd(hist[..|hist| - 1], window, k);
      if before.None? && last.event.Challenged? && ChallengeKey(last.event.comm, last.event.block) == k
      then Some(last.block + window)
      else before
  }

  function RecordOf(c: Challenge): Record { Record(c.resolveEnd, c.status == Resolved, c.input) }

  /** Table entries say what the history says. */
  ghost predicate Recalled(s: State, hist: seq<Entry>, window: nat) {
    forall k | k in s.table :: s.table[k] < |s.objs| && Recall(hist, window, k) == Some(RecordOf(s.objs[s.table[k]]))
  }

  /** A queued challenge ends no earlier than the first one with its key. */
  ghost predicate Known(q: seq<Ref>, objs: seq<Challenge>, hist: seq<Entry>, window: nat) {
    && InRange(q, objs)
    && forall i | 0 <= i < |q| :: FirstEnd(hist, window, objs[q[i]].Key()).Some?
                                  && FirstEnd(hist, window, objs[q[i]].Key()).value <= objs[q[i]].resolveEnd
  }

  /** Only keys whose first challenge ends by `pruned` are missing from the table. */
  ghost predicate Complete(table: map<Key, Ref>, hist: seq<Entry>, window: nat, pruned: nat) {
    forall k | FirstEnd(hist, window, k).Some? && k !in table :: FirstEnd(hist, window, k).value <= pruned
  }

  ghost predicate HistInv(s: State, hist: seq<Entry>, window: nat, pruned: nat) {
    Recalled(s, hist, window) && Known(Queue(s), s.objs, hist, window) && Complete(s.table, hist, window, pruned)
  }

  /** All resolve ends of the history are at most `bound`. */
  lemma {:induction false} FirstEndBound(hist: seq<Entry>, window: nat, k: Key, bound: nat)
    requires forall i | 0 <= i < |hist| :: hist[i].block + window <= bound
    requires FirstEnd(hist, window, k).Some?
    ensures FirstEnd(hist, window, k).value <= bound
    decreases |hist|
  {
    if FirstEnd(hist[..|hist| - 1], window, k).Some? {
      FirstEndBound(hist[..|hist| - 1], window, k, bound);
    }
  }

  lemma Snoc(hist: seq<Entry>, e: Entry)
    ensures (hist + [e])[..|hist|] == hist
  {
  }

  /** The entries of a block's events. */
  function Tag(block: nat, es: seq<Event>): (r: seq<Entry>)
    ensures |r| == |es| && forall i | 0 <= i < |es| :: r[i] == Entry(block, es[i])
  {
    if es == [] then [] else [Entry(block, es[0])] + Tag(block, es[1..])
  }

  lemma RecallSnoc(hist: seq<Entry>, e: Entry, window: nat, k: Key)
    ensures e.event.Skipped? ==> Recall(hist + [e], window, k) == Recall(hist, window, k)
    ensures e.event.Challenged? ==>
              Recall(hist + [e], window, k) ==
              if ChallengeKey(e.event.comm, e.event.block) == k then Some(Record(e.block + window, false, []))
              else Recall(hist, window, k)
    ensures e.event.ChallengeResolved? ==>
              Recall(hist + [e], window, k) ==
              if ChallengeKey(e.event.comm, e.event.block) == k && Recall(hist, window, k).Some?
              then Some(Recall(hist, window, k).value.(resolved := true, input := e.event.input))
              else Recall(hist, window, k)
    ensures FirstEnd(hist, window, k).Some? ==> FirstEnd(hist + [e], window, k) == FirstEnd(hist, window, k)
    ensures FirstEnd(hist, window, k).None? ==>
              FirstEnd(hist + [e], window, k) ==
              if e.event.Challenged? && ChallengeKey(e.event.comm, e.event.block) == k then Some(e.block + window)
              else None
  {
    hide ChallengeKey;
    Snoc(hist, e);
  }

  lemma ChallengedStep(s: State, hist: seq<Entry>, pruned: nat, cfg: Config, b: nat, comm: Comm, block: nat)
    requires HistInv(s, hist, cfg.resolveWindow, pruned)
    requires forall i | 0 <= i < |hist| :: hist[i].block <= b
    ensures HistInv(s.Create(cfg, comm, b, block), hist + [Entry(b, Challenged(comm, block))], cfg.resolveWindow,
                    pruned)
  {
    hide ChallengeKey, Recall, FirstEnd;
    var e := Entry(b, Challenged(comm, block));
    var w := cfg.resolveWindow;
    var s' := s.Create(cfg, comm, b, block);
    forall k | k in s'.table
      ensures s'.table[k] < |s'.objs| && Recall(hist + [e], w, k) == Some(RecordOf(s'.objs[s'.table[k]]))
    {
      RecallSnoc(hist, e, w, k);
    }
    forall k | FirstEnd(hist + [e], w, k).Some? && k !in s'.table ensures FirstEnd(hist + [e], w, k).value <= pruned {
      RecallSnoc(hist, e, w, k);
    }
    assert Queue(s') == Queue(s) + [|s.objs|];
    forall i | 0 <= i < |Queue(s')|
      ensures var f := FirstEnd(hist + [e], w, s'.objs[Queue(s')[i]].Key());
              f.Some? && f.value <= s'.objs[Queue(s')[i]].resolveEnd
    {
      RecallSnoc(hist, e, w, s'.objs[Queue(s')[i]].Key());
      if i < |Queue(s)| {
        assert Queue(s')[i] == Queue(s)[i];
      } else if FirstEnd(hist, w, ChallengeKey(comm, block)).Some? {
        FirstEndBound(hist, w, ChallengeKey(comm, block), b + w);
      }
    }
  }

  lemma ResolvedStep(s: State, hist: seq<Entry>, pruned: nat, window: nat, b: nat, comm: Comm, block: nat,
                     input: seq<Byte>)
    requires HistInv(s, hist, window, pruned) && s.WF() && TableOk(s.table, Queue(s), s.objs)
    ensures HistInv(s.Resolve(comm, block, input).0, hist + [Entry(b, ChallengeResolved(comm, block, input))], window,
                    pruned)
  {
    hide ChallengeKey, Recall, FirstEnd;
    var e := Entry(b, ChallengeResolved(comm, block, input));
    var s' := s.Resolve(comm, block, input).0;
    forall k | k in s'.table
      ensures Recall(hist + [e], window, k) == Some(RecordOf(s'.objs[s'.table[k]]))
    {
      RecallSnoc(hist, e, window, k);
      TableQueued(s, k);
    }
    forall k ensures FirstEnd(hist + [e], window, k) == FirstEnd(hist, window, k) {
      RecallSnoc(hist, e, window, k);
    }
    assert Queue(s') == Queue(s);
    forall i | 0 <= i < |Queue(s)| ensures s'.objs[Queue(s)[i]].Key() == s.objs[Queue(s)[i]].Key() {}
  }

  lemma SkippedStep(s: State, hist: seq<Entry>, pruned: nat, window: nat, b: nat)
    requires HistInv(s, hist, window, pruned)
    ensures HistInv(s, hist + [Entry(b, Skipped)], window, pruned)
  {
    hide ChallengeKey, Recall, FirstEnd;
    var e := Entry(b, Skipped);
    forall k ensures Recall(hist + [e], window, k) == Recall(hist, window, k)
      && FirstEnd(hist + [e], window, k) == FirstEnd(hist, window, k)
    {
      RecallSnoc(hist, e, window, k);
    }
  }

  lemma EventStep(s: State, hist: seq<Entry>, pruned: nat, cfg: Config, b: nat, e: Event, origin: nat, bound: nat)
    requires HistInv(s, hist, cfg.resolveWindow, pruned) && StateInv(s, origin, bound) && s.WF()
    requires forall i | 0 <= i < |hist| :: hist[i].block <= b
    ensures HistInv(Apply(s, cfg, b, e), hist + [Entry(b, e)], cfg.resolveWindow, pruned)
  {
    hide HistInv, ChallengeKey, State.Create, State.Resolve, State.WF;
    match e {
      case Challenged(comm, block) => ChallengedStep(s, hist, pruned, cfg, b, comm, block);
      case ChallengeResolved(comm, block, input) =>
        ResolvedStep(s, hist, pruned, cfg.resolveWindow, b, comm, block, input);
      case Skipped => SkippedStep(s, hist, pruned, cfg.resolveWindow, b);
    }
  }

  /** Loading the events of a block appends them to the history. */
  lemma {:induction false} LoadStep(s: State, hist: seq<Entry>, pruned: nat, cfg: Config, b: nat, es: seq<Event>,
                                    origin: nat, bound: nat)
    requires HistInv(s, hist, cfg.resolveWindow, pruned) && StateInv(s, origin, bound) && s.WF()
    requires origin < b && bound <= b + cfg.resolveWindow
    requires forall i | 0 <= i < |hist| :: hist[i].block <= b
    ensures HistInv(ApplyAll(s, cfg, b, es), hist + Tag(b, es), cfg.resolveWindow, pruned)
    decreases |es|
  {
    hide HistInv, StateInv, Apply, State.WF;
    if es == [] {
      assert hist + Tag(b, es) == hist;
    } else {
      var e := Entry(b, es[0]);
      ApplyOneKeeps(s, cfg, b, es[0], origin, bound);
      EventStep(s, hist, pruned, cfg, b, es[0], origin, bound);
      LoadStep(Apply(s, cfg, b, es[0]), hist + [e], pruned, cfg, b, es[1..], origin, b + cfg.resolveWindow);
      assert hist + [e] + Tag(b, es[1..]) == hist + Tag(b, es);
    }
  }

  lemma ExpireStep(s: State, s': State, hist: seq<Entry>, window: nat, pruned: nat)
    requires HistInv(s, hist, window, pruned)
    requires SameButStatus(s, s') && Queue(s') == Queue(s) && s'.table == s.table
    ensures HistInv(s', hist, window, pruned)
  {
    hide ChallengeKey, Recall, FirstEnd;
    forall p | 0 <= p < |s.objs|
      ensures s'.objs[p].Key() == s.objs[p].Key() && RecordOf(s'.objs[p]) == RecordOf(s.objs[p])
    {
    }
  }

  lemma PruneStep(s: State, at: nat, hist: seq<Entry>, window: nat, pruned: nat, pruned': nat, origin: nat, bound: nat)
    requires HistInv(s, hist, window, pruned) && StateInv(s, origin, bound) && s.WF()
    requires pruned <= pruned' && at <= pruned'
    ensures HistInv(s.PruneChallenges(at), hist, window, pruned')
  {
    hide ChallengeKey, Recall, FirstEnd, StateInv, State.PruneChallenges;
    PruneChallengesKeeps(s, at, origin, bound);
    var s' := s.PruneChallenges(at);
    var n := |Queue(s)| - |Queue(s')|;
    assert forall i | 0 <= i < |Queue(s')| :: Queue(s')[i] == Queue(s)[n + i];
    forall k ensures && (k in s'.table <==> k in s.table && !KeyDue(s, at, k))
                     && (k in s'.table ==> s'.table[k] == s.table[k])
    {
      PruneChallengesIs(s, at, origin, bound, k);
    }
    forall k | FirstEnd(hist, window, k).Some? && k !in s'.table ensures FirstEnd(hist, window, k).value <= pruned' {
      if k in s.table {
        var i :| 0 <= i < |s.expiredChallenges| && End(s, s.expiredChallenges[i]) <= at
                 && s.objs[s.expiredChallenges[i]].Key() == k;
        assert Queue(s)[i] == s.expiredChallenges[i];
      }
    }
  }
}

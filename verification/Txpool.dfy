/** The protocol by which the publishing loop and the receipts loop of the batcher get rid of a
    transaction that blocks the L1 transaction pool. The two loops, the transaction manager and
    pending DA requests take steps in any order. */
module Txpool {
  import opened Options

  datatype Pool = Good | Blocked | CancelPending

  datatype Tx = Tx(isCancel: bool, isBlob: bool)

  /** The outcome of a transaction; `reserved` if the pool refused it because it holds a
      transaction of the other type. */
  datatype Receipt = Receipt(tx: Tx, reserved: bool)

  /** The publishing loop is about to check the pool, to send a cancellation transaction for a
      blocking transaction of some type, or to publish a batch. */
  datatype Publisher = Checking | Cancelling(blob: bool) | Publishing

  /** The receipts loop waits, or has read a receipt and is about to compare the pool's state
      with Good, to compare it with CancelPending, to set it, or to handle the receipt. */
  datatype Receiver =
    | Waiting
    | TestGood(r: Receipt)
    | TestPending(r: Receipt)
    | SetBlocked(r: Receipt)
    | SetGood(r: Receipt)
    | Handling

  /** What the publishing loop did. A cancellation transaction has the type that the blocking
      one does not have. */
  datatype Act = Checked(saw: Pool) | SentCancel(asBlob: bool) | StartedBatch(tx: Tx)

  /** A receipt that the receipts loop read, and the pool's state that it compared with Good. */
  datatype Seen = Seen(r: Receipt, pool: Pool)

  /** `log`, `failed`, `completed`, `seen` and `refused` are history: what the publishing loop did, the
      batches whose DA request failed, the outcomes of all transactions, the receipts that were read,
      and those that set the state to Blocked. */
  datatype State = State(
    pool: Pool,
    blockedBlob: bool,
    publisher: Publisher,
    receiver: Receiver,
    sent: seq<Tx>,
    receipts: seq<Receipt>,
    requests: seq<Tx>,
    log: seq<Act>,
    failed: seq<Tx>,
    completed: seq<Receipt>,
    seen: seq<Seen>,
    refused: seq<Receipt>)

  const START := State(Good, false, Checking, Waiting, [], [], [], [], [], [], [], [])

  datatype Action =
    | Check
    | SendCancel
    | PublishTx(isBlob: bool)
    | StartRequest
    | NothingToPublish
    | FinishRequest(i: nat, ok: bool)
    | Complete(i: nat, reserved: bool)
    | Receive

  function Without<T>(s: seq<T>, i: nat): seq<T>
    requires i < |s|
  {
    s[..i] + s[i + 1..]
  }

  /** A batch goes to the transaction manager at once, or after a DA request. */
  function PublisherStep(s: State, a: Action): Option<State>
    requires a.Check? || a.SendCancel? || a.PublishTx? || a.StartRequest? || a.NothingToPublish?
  {
    match s.publisher
    case Checking =>
      if !a.Check? then None
      else
        var s' := s.(log := s.log + [Checked(s.pool)]);
        Some(match s.pool
             case Blocked => s'.(pool := CancelPending, publisher := Cancelling(s.blockedBlob))
             case Good => s'.(publisher := Publishing)
             case CancelPending => s')
    case Cancelling(blob) =>
      if !a.SendCancel? then None
      else Some(s.(publisher := Checking, sent := s.sent + [Tx(true, false)], log := s.log + [SentCancel(!blob)]))
    case Publishing =>
      match a
      case PublishTx(isBlob) =>
        var tx := Tx(false, isBlob);
        Some(s.(publisher := Checking, sent := s.sent + [tx], log := s.log + [StartedBatch(tx)]))
      case StartRequest =>
        var tx := Tx(false, false);
        Some(s.(publisher := Checking, requests := s.requests + [tx], log := s.log + [StartedBatch(tx)]))
      case NothingToPublish => Some(s.(publisher := Checking))
      case _ => None
  }

  function ReceiverStep(s: State): Option<State> {
    match s.receiver
    case Waiting =>
      if s.receipts == [] then None
      else Some(s.(receiver := TestGood(s.receipts[0]), receipts := s.receipts[1..]))
    case TestGood(r) =>
      Some(s.(receiver := if r.reserved && s.pool == Good then SetBlocked(r) else TestPending(r),
              seen := s.seen + [Seen(r, s.pool)]))
    case TestPending(r) =>
      Some(s.(receiver := if r.tx.isCancel && s.pool == CancelPending then SetGood(r) else Handling))
    case SetBlocked(r) =>
      Some(s.(pool := Blocked, blockedBlob := r.tx.isBlob, receiver := Handling, refused := s.refused + [r]))
    case SetGood(r) => Some(s.(pool := Good, receiver := Handling))
    case Handling => Some(s.(receiver := Waiting))
  }

  /** None if the action is not possible. */
  function Next(s: State, a: Action): Option<State> {
    match a
    case FinishRequest(i, ok) =>
      if i >= |s.requests| then None
      else
        var s' := s.(requests := Without(s.requests, i));
        Some(if ok then s'.(sent := s.sent + [s.requests[i]]) else s'.(failed := s.failed + [s.requests[i]]))
    case Complete(i, reserved) =>
      if i >= |s.sent| then None
      else
        var r := Receipt(s.sent[i], reserved);
        Some(s.(sent := Without(s.sent, i), receipts := s.receipts + [r], completed := s.completed + [r]))
    case Receive => ReceiverStep(s)
    case _ => PublisherStep(s, a)
  }

  ghost predicate Reaches(s: State, actions: seq<Action>, s': State)
    decreases |actions|
  {
    if actions == [] then s' == s
    else Next(s, actions[0]).Some? && Reaches(Next(s, actions[0]).value, actions[1..], s')
  }

  // ---- the invariant

  function Cancels(txs: seq<Tx>): nat {
    if txs == [] then 0 else (if txs[0].isCancel then 1 else 0) + Cancels(txs[1..])
  }

  function CancelReceipts(rs: seq<Receipt>): nat {
    if rs == [] then 0 else (if rs[0].tx.isCancel then 1 else 0) + CancelReceipts(rs[1..])
  }

  function Processing(r: Receiver): nat {
    match r
    case TestGood(r) => if r.tx.isCancel then 1 else 0
    case TestPending(r) => if r.tx.isCancel then 1 else 0
    case SetGood(r) => 1
    case _ => 0
  }

  /** The cancellation transactions that are about to be sent, are being sent, or whose receipt
      has not been acted on. */
  function Outstanding(s: State): nat {
    (if s.publisher.Cancelling? then 1 else 0) + Cancels(s.sent) + CancelReceipts(s.receipts) + Processing(s.receiver)
  }

  /** A send follows a check that allows it. */
  predicate Allowed(log: seq<Act>, i: nat)
    requires i < |log|
  {
    match log[i]
    case StartedBatch(_) => i > 0 && log[i - 1] == Checked(Good)
    case SentCancel(_) => i > 0 && log[i - 1] == Checked(Blocked)
    case Checked(_) => true
  }

  ghost predicate LogOk(log: seq<Act>) { forall i | 0 <= i < |log| :: Allowed(log, i) }

  ghost predicate Inv(s: State) {
    && Outstanding(s) == (if s.pool == CancelPending then 1 else 0)
    && (s.receiver.SetBlocked? ==> s.pool == Good && !s.receiver.r.tx.isCancel)
    && (s.receiver.SetGood? ==> s.pool == CancelPending && s.receiver.r.tx.isCancel)
    && (forall i | 0 <= i < |s.requests| :: !s.requests[i].isCancel)
    && LogOk(s.log)
    && (s.publisher.Publishing? ==> s.log != [] && s.log[|s.log| - 1] == Checked(Good))
    && (s.publisher.Cancelling? ==> s.log != [] && s.log[|s.log| - 1] == Checked(Blocked)
                                    && s.publisher.blob == s.blockedBlob)
  }

  lemma {:induction false} CancelsConcat(a: seq<Tx>, b: seq<Tx>)
    ensures Cancels(a + b) == Cancels(a) + Cancels(b)
  {
    if a == [] {
      assert a + b == b;
    } else {
      CancelsConcat(a[1..], b);
      assert (a + b)[1..] == a[1..] + b;
    }
  }

  lemma CancelsWithout(txs: seq<Tx>, i: nat)
    requires i < |txs|
    ensures Cancels(txs) == Cancels(Without(txs, i)) + if txs[i].isCancel then 1 else 0
  {
    CancelsConcat(txs[..i], txs[i..]);
    CancelsConcat(txs[..i], txs[i + 1..]);
    assert txs == txs[..i] + txs[i..];
    assert txs[i..][1..] == txs[i + 1..];
  }

  lemma CancelsSnoc(txs: seq<Tx>, tx: Tx)
    ensures Cancels(txs + [tx]) == Cancels(txs) + if tx.isCancel then 1 else 0
  {
    CancelsConcat(txs, [tx]);
  }

  lemma {:induction false} ReceiptsSnoc(rs: seq<Receipt>, r: Receipt)
    ensures CancelReceipts(rs + [r]) == CancelReceipts(rs) + if r.tx.isCancel then 1 else 0
  {
    if rs != [] {
      ReceiptsSnoc(rs[1..], r);
      assert (rs + [r])[1..] == rs[1..] + [r];
    }
  }

  lemma LogSnoc(log: seq<Act>, act: Act)
    requires LogOk(log)
    requires act.StartedBatch? ==> log != [] && log[|log| - 1] == Checked(Good)
    requires act.SentCancel? ==> log != [] && log[|log| - 1] == Checked(Blocked)
    ensures LogOk(log + [act])
  {
    var log' := log + [act];
    assert forall i | 0 <= i < |log| :: log'[i] == log[i];
    forall i | 0 <= i < |log'| ensures Allowed(log', i) {
      if i < |log| {
        assert Allowed(log, i);
      }
    }
  }

  function BatchOf(a: Action): Tx { Tx(false, a.PublishTx? && a.isBlob) }

  lemma PublisherKeeps(s: State, a: Action)
    requires a.Check? || a.SendCancel? || a.PublishTx? || a.StartRequest? || a.NothingToPublish?
    requires Inv(s) && PublisherStep(s, a).Some?
    ensures Inv(PublisherStep(s, a).value)
  {
    hide LogOk, Cancels, CancelReceipts;
    match s.publisher {
      case Checking => LogSnoc(s.log, Checked(s.pool));
      case Cancelling(blob) =>
        CancelsSnoc(s.sent, Tx(true, false));
        LogSnoc(s.log, SentCancel(!blob));
      case Publishing =>
        LogSnoc(s.log, StartedBatch(BatchOf(a)));
        if a.PublishTx? {
          CancelsSnoc(s.sent, Tx(false, a.isBlob));
        }
    }
  }

  lemma ReceiverKeeps(s: State)
    requires Inv(s) && ReceiverStep(s).Some?
    ensures Inv(ReceiverStep(s).value)
  {
    hide LogOk, Cancels, CancelReceipts;
    if s.receiver.Waiting? {
      ReceiptsHead(s.receipts);
    }
  }

  lemma ReceiptsHead(rs: seq<Receipt>)
    requires rs != []
    ensures CancelReceipts(rs) == (if rs[0].tx.isCancel then 1 else 0) + CancelReceipts(rs[1..])
  {
  }

  lemma StepKeeps(s: State, a: Action)
    requires Inv(s) && Next(s, a).Some?
    ensures Inv(Next(s, a).value)
  {
    hide LogOk, Cancels, CancelReceipts, PublisherStep, ReceiverStep;
    match a {
      case FinishRequest(i, ok) => CancelsSnoc(s.sent, s.requests[i]);
      case Complete(i, reserved) =>
        CancelsWithout(s.sent, i);
        hide Without;
        ReceiptsSnoc(s.receipts, Receipt(s.sent[i], reserved));
      case Receive => ReceiverKeeps(s);
      case _ => PublisherKeeps(s, a);
    }
  }

  // ---- what blocks the pool, and with what it is unblocked

  /** The receipts that say that the pool refused a transaction, read while the state was Good. */
  function Refusals(seen: seq<Seen>): seq<Receipt> {
    if seen == [] then []
    else
      var n := |seen| - 1;
      Refusals(seen[..n]) + if seen[n].r.reserved && seen[n].pool == Good then [seen[n].r] else []
  }

  function ReceiptsOf(seen: seq<Seen>): seq<Receipt> {
    if seen == [] then [] else ReceiptsOf(seen[..|seen| - 1]) + [seen[|seen| - 1].r]
  }

  /** The types of the cancellations sent. */
  function CancelTypes(log: seq<Act>): seq<bool> {
    if log == [] then []
    else
      var n := |log| - 1;
      CancelTypes(log[..n]) + if log[n].SentCancel? then [log[n].asBlob] else []
  }

  lemma RefusalsSnoc(seen: seq<Seen>, x: Seen)
    ensures Refusals(seen + [x]) == Refusals(seen) + if x.r.reserved && x.pool == Good then [x.r] else []
    ensures ReceiptsOf(seen + [x]) == ReceiptsOf(seen) + [x.r]
  {
    assert (seen + [x])[..|seen|] == seen;
  }

  lemma CancelTypesSnoc(log: seq<Act>, act: Act)
    ensures CancelTypes(log + [act]) == CancelTypes(log) + if act.SentCancel? then [act.asBlob] else []
  {
    assert (log + [act])[..|log|] == log;
  }

  /** A refusal that has not been answered by a cancellation. */
  predicate Unanswered(s: State) { s.pool == Blocked || s.publisher.Cancelling? }

  /** Every receipt is read, in the order of completion. The state is set to Blocked by exactly the
      refusals that were read while it was Good. Each of these is answered by one cancellation, in
      order and of the other type; the last one may be about to be. */
  ghost predicate Matched(s: State) {
    && s.completed == ReceiptsOf(s.seen) + (if s.receiver.TestGood? then [s.receiver.r] else []) + s.receipts
    && Refusals(s.seen) == s.refused + (if s.receiver.SetBlocked? then [s.receiver.r] else [])
    && |s.refused| == |CancelTypes(s.log)| + (if Unanswered(s) then 1 else 0)
    && (forall j | 0 <= j < |CancelTypes(s.log)| :: CancelTypes(s.log)[j] == !s.refused[j].tx.isBlob)
    && (Unanswered(s) ==> s.blockedBlob == s.refused[|s.refused| - 1].tx.isBlob)
  }

  lemma PublisherMatches(s: State, a: Action)
    requires a.Check? || a.SendCancel? || a.PublishTx? || a.StartRequest? || a.NothingToPublish?
    requires Inv(s) && Matched(s) && PublisherStep(s, a).Some?
    ensures Matched(PublisherStep(s, a).value)
  {
    hide LogOk, Cancels, CancelReceipts, CancelTypes, Refusals, ReceiptsOf;
    match s.publisher {
      case Checking => CancelTypesSnoc(s.log, Checked(s.pool));
      case Cancelling(blob) => CancelTypesSnoc(s.log, SentCancel(!blob));
      case Publishing => CancelTypesSnoc(s.log, StartedBatch(BatchOf(a)));
    }
  }

  lemma ReceiverMatches(s: State)
    requires Inv(s) && Matched(s) && ReceiverStep(s).Some?
    ensures Matched(ReceiverStep(s).value)
  {
    hide LogOk, Cancels, CancelReceipts, CancelTypes, Refusals, ReceiptsOf;
    match s.receiver {
      case Waiting => FirstOf(ReceiptsOf(s.seen), s.receipts);
      case TestGood(r) => RefusalsSnoc(s.seen, Seen(r, s.pool));
      case SetBlocked(r) => assert (s.refused + [r])[|s.refused|] == r;
      case _ =>
    }
  }

  lemma FirstOf(done: seq<Receipt>, rs: seq<Receipt>)
    requires rs != []
    ensures done + [] + rs == done + [rs[0]] + rs[1..]
  {
  }

  lemma StepMatches(s: State, a: Action)
    requires Inv(s) && Matched(s) && Next(s, a).Some?
    ensures Matched(Next(s, a).value)
  {
    hide LogOk, Cancels, CancelReceipts, CancelTypes, Refusals, ReceiptsOf, PublisherStep, ReceiverStep, Without;
    match a {
      case FinishRequest(i, ok) =>
      case Complete(i, reserved) =>
        var hand := if s.receiver.TestGood? then [s.receiver.r] else [];
        MoreReceipts(ReceiptsOf(s.seen) + hand, s.receipts, Receipt(s.sent[i], reserved));
      case Receive => ReceiverMatches(s);
      case _ => PublisherMatches(s, a);
    }
  }

  lemma MoreReceipts(a: seq<Receipt>, b: seq<Receipt>, r: Receipt)
    ensures a + b + [r] == a + (b + [r])
  {
  }

  lemma {:induction false} RunMatches(s: State, actions: seq<Action>, s': State)
    requires Inv(s) && Matched(s) && Reaches(s, actions, s')
    ensures Matched(s')
    decreases |actions|
  {
    hide Inv, Next, Matched;
    if actions != [] {
      StepKeeps(s, actions[0]);
      StepMatches(s, actions[0]);
      RunMatches(Next(s, actions[0]).value, actions[1..], s');
    }
  }

  // ---- nothing that was started is lost

  const CANCEL := Tx(true, false)

  /** The transactions that the publishing loop started. */
  function Started(log: seq<Act>): multiset<Tx> {
    if log == [] then multiset{}
    else
      var n := |log| - 1;
      Started(log[..n]) + match log[n]
                          case Checked(_) => multiset{}
                          case SentCancel(_) => multiset{CANCEL}
                          case StartedBatch(tx) => multiset{tx}
  }

  function TxsOf(rs: seq<Receipt>): multiset<Tx> {
    if rs == [] then multiset{} else TxsOf(rs[..|rs| - 1]) + multiset{rs[|rs| - 1].tx}
  }

  /** Each is requested, has failed there, is being sent, or has completed. */
  ghost predicate Conserved(s: State) {
    Started(s.log) == multiset(s.requests) + multiset(s.failed) + multiset(s.sent) + TxsOf(s.completed)
  }

  lemma StartedSnoc(log: seq<Act>, act: Act)
    ensures Started(log + [act]) == Started(log) + match act
                                                   case Checked(_) => multiset{}
                                                   case SentCancel(_) => multiset{CANCEL}
                                                   case StartedBatch(tx) => multiset{tx}
  {
    assert (log + [act])[..|log|] == log;
  }

  lemma TxsSnoc(rs: seq<Receipt>, r: Receipt)
    ensures TxsOf(rs + [r]) == TxsOf(rs) + multiset{r.tx}
  {
    assert (rs + [r])[..|rs|] == rs;
  }

  lemma WithoutOne(txs: seq<Tx>, i: nat)
    requires i < |txs|
    ensures multiset(txs) == multiset(Without(txs, i)) + multiset{txs[i]}
  {
    assert txs == txs[..i] + [txs[i]] + txs[i + 1..];
  }

  lemma StepConserves(s: State, a: Action)
    requires Conserved(s) && Next(s, a).Some?
    ensures Conserved(Next(s, a).value)
  {
    hide Conserved, PublisherStep, Without;
    match a {
      case FinishRequest(i, ok) => RequestConserves(s, i, ok);
      case Complete(i, reserved) => CompleteConserves(s, i, reserved);
      case Receive => ReceiverConserves(s);
      case _ => PublisherConserves(s, a);
    }
  }

  lemma RequestConserves(s: State, i: nat, ok: bool)
    requires Conserved(s) && i < |s.requests|
    ensures Conserved(Next(s, FinishRequest(i, ok)).value)
  {
    hide Without, Started, TxsOf;
    WithoutOne(s.requests, i);
    var tx := s.requests[i];
    if ok {
      assert multiset(s.sent + [tx]) == multiset(s.sent) + multiset{tx};
    } else {
      assert multiset(s.failed + [tx]) == multiset(s.failed) + multiset{tx};
    }
  }

  lemma CompleteConserves(s: State, i: nat, reserved: bool)
    requires Conserved(s) && i < |s.sent|
    ensures Conserved(Next(s, Complete(i, reserved)).value)
  {
    hide Without, Started, TxsOf;
    WithoutOne(s.sent, i);
    TxsSnoc(s.completed, Receipt(s.sent[i], reserved));
  }

  lemma ReceiverConserves(s: State)
    requires Conserved(s) && ReceiverStep(s).Some?
    ensures Conserved(ReceiverStep(s).value)
  {
    hide Started, TxsOf;
  }

  lemma PublisherConserves(s: State, a: Action)
    requires a.Check? || a.SendCancel? || a.PublishTx? || a.StartRequest? || a.NothingToPublish?
    requires Conserved(s) && PublisherStep(s, a).Some?
    ensures Conserved(PublisherStep(s, a).value)
  {
    hide Conserved;
    var s' := PublisherStep(s, a).value;
    match s.publisher {
      case Checking => NoneStarted(s, s', s.pool);
      case Cancelling(blob) => OneSent(s, s', SentCancel(!blob), CANCEL);
      case Publishing =>
        match a {
          case PublishTx(isBlob) => OneSent(s, s', StartedBatch(Tx(false, isBlob)), Tx(false, isBlob));
          case StartRequest => OneRequested(s, s', Tx(false, false));
          case NothingToPublish => NothingStarted(s, s');
        }
    }
  }

  lemma NothingStarted(s: State, s': State)
    requires Conserved(s) && s' == s.(pool := s'.pool, publisher := s'.publisher)
    ensures Conserved(s')
  {
    hide Started, TxsOf;
  }

  lemma NoneStarted(s: State, s': State, saw: Pool)
    requires Conserved(s) && s' == s.(pool := s'.pool, publisher := s'.publisher, log := s.log + [Checked(saw)])
    ensures Conserved(s')
  {
    hide Started, TxsOf;
    StartedSnoc(s.log, Checked(saw));
  }

  lemma OneSent(s: State, s': State, act: Act, tx: Tx)
    requires Conserved(s) && s' == s.(publisher := s'.publisher, sent := s.sent + [tx], log := s.log + [act])
    requires act == StartedBatch(tx) || (act.SentCancel? && tx == CANCEL)
    ensures Conserved(s')
  {
    hide Started, TxsOf;
    StartedSnoc(s.log, act);
    assert multiset(s'.sent) == multiset(s.sent) + multiset{tx};
  }

  lemma OneRequested(s: State, s': State, tx: Tx)
    requires Conserved(s)
    requires s' == s.(publisher := s'.publisher, requests := s.requests + [tx], log := s.log + [StartedBatch(tx)])
    ensures Conserved(s')
  {
    hide Started, TxsOf;
    StartedSnoc(s.log, StartedBatch(tx));
    assert multiset(s'.requests) == multiset(s.requests) + multiset{tx};
  }

  lemma {:induction false} NothingStartedIsLost(s: State, actions: seq<Action>, s': State)
    requires Conserved(s) && Reaches(s, actions, s')
    ensures Conserved(s')
    decreases |actions|
  {
    hide Next, Conserved;
    if actions != [] {
      StepConserves(s, actions[0]);
      NothingStartedIsLost(Next(s, actions[0]).value, actions[1..], s');
    }
  }

  /** In every interleaving: the refusals that were read while the state was Good, and no other
      receipts, block the pool; and each is answered by one cancellation of the other type. */
  lemma RefusalsAreCancelled(actions: seq<Action>, s: State)
    requires Reaches(START, actions, s)
    ensures Matched(s) && Conserved(s)
    ensures s.publisher.Cancelling? ==>
              s.refused != [] && s.publisher.blob == s.refused[|s.refused| - 1].tx.isBlob
    ensures s.receiver.TestGood? ==>
              (ReceiverStep(s).value.receiver.SetBlocked? <==> s.receiver.r.reserved && s.pool == Good)
  {
    hide Reaches;
    assert Inv(START) && Matched(START) && Conserved(START);
    RunKeeps(START, actions, s);
    RunMatches(START, actions, s);
    NothingStartedIsLost(START, actions, s);
  }

  lemma {:induction false} RunKeeps(s: State, actions: seq<Action>, s': State)
    requires Inv(s) && Reaches(s, actions, s')
    ensures Inv(s')
    decreases |actions|
  {
    hide Inv, Next;
    if actions != [] {
      StepKeeps(s, actions[0]);
      RunKeeps(Next(s, actions[0]).value, actions[1..], s');
    }
  }

  /** In every interleaving, a cancellation transaction is outstanding exactly while the state is
      CancelPending, and then there is one; every batch was started right after a check that saw
      Good, and every cancellation sent right after one that saw Blocked. */
  lemma CancelProtocol(actions: seq<Action>, s: State)
    requires Reaches(START, actions, s)
    ensures Outstanding(s) <= 1
    ensures Outstanding(s) == 1 <==> s.pool == CancelPending
    ensures LogOk(s.log)
    ensures s.publisher.Cancelling? ==> s.publisher.blob == s.blockedBlob
  {
    hide Reaches;
    assert Inv(START);
    RunKeeps(START, actions, s);
  }

  /** In every interleaving the receipt of a cancellation, whatever its outcome, makes the
      receipts loop set the state to Good: no test passes it over. */
  lemma CancelReceiptUnblocks(actions: seq<Action>, s: State)
    requires Reaches(START, actions, s)
    ensures s.receiver.TestGood? && s.receiver.r.tx.isCancel ==>
              ReceiverStep(s).value.receiver == TestPending(s.receiver.r)
    ensures s.receiver.TestPending? && s.receiver.r.tx.isCancel ==>
              ReceiverStep(s).value.receiver == SetGood(s.receiver.r)
    ensures s.receiver.SetGood? ==> s.receiver.r.tx.isCancel && s.pool == CancelPending
    ensures s.receiver.SetBlocked? ==> !s.receiver.r.tx.isCancel && s.pool == Good
  {
    hide Reaches;
    assert Inv(START);
    RunKeeps(START, actions, s);
  }
}

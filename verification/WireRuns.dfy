/** Client and server at the two ends of a channel. Each end writes and reads in pieces of any
    size, in any order that the two streams allow. */
module WireRuns {
  import opened Options
  import opened Wire

  /** How requests and replies are delimited. */
  datatype Protocol = Protocol(request: Framing, reply: Framing)

  /** What the server does on a complete request: write a reply, or give up. */
  datatype Answer = Reply(msg: Bytes) | Fail

  datatype Client = Idle | Sending(rest: Bytes) | Receiving(got: Bytes)

  datatype Server = Listening(got: Bytes) | Answering(rest: Bytes) | Stopped

  /** The client works on the first request of `todo`; `results` are the replies it has read,
      and `seen` the requests that the server has read. */
  datatype Session = Session(
    todo: seq<Bytes>,
    client: Client,
    toServer: Bytes,
    server: Server,
    toClient: Bytes,
    results: seq<Bytes>,
    seen: seq<Bytes>)

  function Begin(todo: seq<Bytes>): Client { if todo == [] then Idle else Sending(todo[0]) }

  function Start(requests: seq<Bytes>): Session { Session(requests, Begin(requests), [], Listening([]), [], [], []) }

  /** One end gets to move up to n bytes. */
  datatype Move = ClientMoves(n: nat) | ServerMoves(n: nat)

  function ClientStep(s: Session, p: Protocol, n: nat): Session
    requires s.client.Receiving? ==> s.todo != []
  {
    match s.client
    case Idle => s
    case Sending(rest) =>
      var k := Min(n, |rest|);
      s.(toServer := s.toServer + rest[..k],
         client := if k == |rest| then Receiving([]) else Sending(rest[k..]))
    case Receiving(got) =>
      var k := Min(Min(n, p.reply.Need(got)), |s.toClient|);
      var got' := got + s.toClient[..k];
      var s' := s.(toClient := s.toClient[k..]);
      if p.reply.Need(got') > 0 then s'.(client := Receiving(got'))
      else s'.(client := Begin(s.todo[1..]), todo := s.todo[1..], results := s.results + [got'])
  }

  function ServerStep(s: Session, p: Protocol, answer: Bytes -> Answer, n: nat): Session {
    match s.server
    case Stopped => s
    case Listening(got) =>
      var k := Min(Min(n, p.request.Need(got)), |s.toServer|);
      var got' := got + s.toServer[..k];
      var s' := s.(toServer := s.toServer[k..]);
      if p.request.Need(got') > 0 then s'.(server := Listening(got'))
      else
        s'.(server := if answer(got').Reply? then Answering(answer(got').msg) else Stopped, seen := s.seen + [got'])
    case Answering(rest) =>
      var k := Min(n, |rest|);
      s.(toClient := s.toClient + rest[..k],
         server := if k == |rest| then Listening([]) else Answering(rest[k..]))
  }

  function Step(s: Session, p: Protocol, answer: Bytes -> Answer, m: Move): Session
    requires s.client.Receiving? ==> s.todo != []
  {
    match m
    case ClientMoves(n) => ClientStep(s, p, n)
    case ServerMoves(n) => ServerStep(s, p, answer, n)
  }

  // ---- the invariant

  /** A reader that has read nothing waits for something. */
  ghost predicate Sound(p: Protocol) { p.request.Need([]) > 0 && p.reply.Need([]) > 0 }

  /** The request and its reply are told by their framing. */
  ghost predicate Framable(p: Protocol, answer: Bytes -> Answer, r: Bytes) {
    && r != [] && Delimits(p.request, r)
    && (answer(r).Reply? ==> answer(r).msg != [] && Delimits(p.reply, answer(r).msg))
  }

  /** The bytes of the current request and reply are where they should be. */
  ghost predicate InFlight(s: Session, answer: Bytes -> Answer)
    requires s.todo != []
  {
    var r := s.todo[0];
    match s.client
    case Idle => false
    case Sending(rest) => rest != [] && s.server.Listening? && s.server.got + s.toServer + rest == r && s.toClient == []
    case Receiving(got) =>
      match s.server
      case Listening(sgot) =>
        || (got == [] && s.toClient == [] && sgot + s.toServer == r && s.toServer != [])
        || (sgot == [] && s.toServer == [] && answer(r).Reply? && got + s.toClient == answer(r).msg && s.toClient != [])
      case Answering(rest) =>
        s.toServer == [] && rest != [] && answer(r).Reply? && got + s.toClient + rest == answer(r).msg
      case Stopped => s.toServer == [] && s.toClient == [] && got == [] && answer(r).Fail?
  }

  ghost predicate SessionInv(s: Session, p: Protocol, answer: Bytes -> Answer) {
    && Sound(p) && (forall i | 0 <= i < |s.todo| :: Framable(p, answer, s.todo[i]))
    && if s.todo == [] then s == Session([], Idle, [], Listening([]), [], s.results, s.seen) else InFlight(s, answer)
  }

  predicate Unanswered(s: Session) {
    s.client.Sending? || (s.server.Listening? && |s.server.got| + |s.toServer| > 0)
  }

  /** The results so far are the server's replies to the requests so far, and the server has
      read those requests and no others, except the current one if it was answered. */
  ghost predicate Served(requests: seq<Bytes>, s: Session, answer: Bytes -> Answer) {
    && |s.results| + |s.todo| == |requests|
    && s.todo == requests[|s.results|..]
    && s.seen == requests[..if s.todo == [] || Unanswered(s) then |s.results| else |s.results| + 1]
    && forall i | 0 <= i < |s.results| :: answer(requests[i]) == Reply(s.results[i])
  }

  lemma MoveBytes(a: Bytes, b: Bytes, k: nat)
    requires k <= |b|
    ensures (a + b[..k]) + b[k..] == a + b
    ensures (a + b)[..|a| + k] == a + b[..k]
  {
  }

  /** A read that is part of a delimited message ends with the message, not before. */
  lemma ReadStep(f: Framing, msg: Bytes, got: Bytes, stream: Bytes, rest: Bytes, k: nat)
    requires Delimits(f, msg) && got + stream + rest == msg && k <= |stream| && (stream != [] || rest != [])
    ensures 0 < f.Need(got) <= |stream| + |rest|
    ensures f.Need(got + stream[..k]) == 0 <==> got + stream[..k] == msg
  {
    assert got == msg[..|got|];
    assert got + stream[..k] == msg[..|got| + k];
    assert msg[..|msg|] == msg;
  }

  lemma ClientSends(s: Session, p: Protocol, answer: Bytes -> Answer, n: nat, requests: seq<Bytes>)
    requires SessionInv(s, p, answer) && s.client.Sending? && Served(requests, s, answer)
    ensures var s' := ClientStep(s, p, n); SessionInv(s', p, answer) && Served(requests, s', answer)
  {
    hide Delimits, Framing.Need;
    var rest := s.client.rest;
    var k := Min(n, |rest|);
    MoveBytes(s.server.got + s.toServer, rest, k);
    assert s.server.got + (s.toServer + rest[..k]) == (s.server.got + s.toServer) + rest[..k];
    assert k == |rest| ==> rest[..k] == rest;
  }

  lemma ClientReceives(s: Session, p: Protocol, answer: Bytes -> Answer, n: nat, requests: seq<Bytes>)
    requires SessionInv(s, p, answer) && s.client.Receiving? && Served(requests, s, answer)
    ensures var s' := ClientStep(s, p, n); SessionInv(s', p, answer) && Served(requests, s', answer)
  {
    hide *;
    if s.toClient == [] {
      NothingToReceive(s, p, answer, n);
    } else {
      var k, rest := ReplyRead(s, p, answer, n);
      var m := answer(s.todo[0]).msg;
      if s.client.got + s.toClient[..k] == m {
        Completes(s.client.got, s.toClient, rest, k, m);
        NextRequest(s, ClientStep(s, p, n), p, answer, requests);
      } else {
        ReplyPart(s, ClientStep(s, p, n), p, answer, k, rest, requests);
      }
    }
  }

  ghost function ServerRest(s: Session): Bytes { if s.server.Answering? then s.server.rest else [] }

  /** What the client has, what is on its way and what the server has left make up the reply. */
  lemma ReplyRead(s: Session, p: Protocol, answer: Bytes -> Answer, n: nat) returns (k: nat, rest: Bytes)
    requires SessionInv(s, p, answer) && s.client.Receiving? && s.toClient != []
    ensures s.todo != [] && k <= |s.toClient| && s.toServer == [] && answer(s.todo[0]).Reply?
    ensures s.client.got + s.toClient + rest == answer(s.todo[0]).msg && rest == ServerRest(s)
    ensures rest == [] ==> s.server == Listening([])
    ensures var got := s.client.got + s.toClient[..k]; var s' := s.(toClient := s.toClient[k..]);
            ClientStep(s, p, n) ==
            if got != answer(s.todo[0]).msg then s'.(client := Receiving(got))
            else s'.(client := Begin(s.todo[1..]), todo := s.todo[1..], results := s.results + [got])
  {
    hide Sound, Delimits, Framing.Need;
    rest := ServerRest(s);
    k := Min(Min(n, p.reply.Need(s.client.got)), |s.toClient|);
    assert s.client.got + s.toClient + rest == answer(s.todo[0]).msg && Framable(p, answer, s.todo[0]);
    ReadStep(p.reply, answer(s.todo[0]).msg, s.client.got, s.toClient, rest, k);
  }

  /** A client without bytes to read waits. */
  lemma NothingToReceive(s: Session, p: Protocol, answer: Bytes -> Answer, n: nat)
    requires SessionInv(s, p, answer) && s.client.Receiving?
    ensures s.toClient == [] ==> ClientStep(s, p, n) == s
  {
    hide Sound, Framable, Framing.Need;
    if s.toClient == [] {
      ReplyAwaited(s, p, answer);
      assert s.client.got + s.toClient[..0] == s.client.got;
    }
  }

  lemma ReplyPart(s: Session, s': Session, p: Protocol, answer: Bytes -> Answer, k: nat, rest: Bytes,
                  requests: seq<Bytes>)
    requires SessionInv(s, p, answer) && Served(requests, s, answer) && s.client.Receiving?
    requires s.toClient != [] && s.todo != [] && k <= |s.toClient| && rest == ServerRest(s)
    requires s.client.got + s.toClient + rest == answer(s.todo[0]).msg
    requires s.client.got + s.toClient[..k] != answer(s.todo[0]).msg
    requires s' == s.(toClient := s.toClient[k..], client := Receiving(s.client.got + s.toClient[..k]))
    ensures SessionInv(s', p, answer) && Served(requests, s', answer)
  {
    hide Sound, Framable;
    MoveBytes(s.client.got, s.toClient, k);
    Unread(s.client.got, s.toClient, rest, k, answer(s.todo[0]).msg);
  }

  /** With nothing to read, the client's read waits. */
  lemma ReplyAwaited(s: Session, p: Protocol, answer: Bytes -> Answer)
    requires SessionInv(s, p, answer) && s.client.Receiving? && s.toClient == []
    ensures p.reply.Need(s.client.got) > 0
  {
    if s.client.got != [] {
      assert Framable(p, answer, s.todo[0]);
      assert s.client.got == answer(s.todo[0]).msg[..|s.client.got|];
    }
  }

  lemma Unread(got: Bytes, stream: Bytes, rest: Bytes, k: nat, msg: Bytes)
    requires k <= |stream| && got + stream + rest == msg && got + stream[..k] != msg
    ensures stream[k..] != [] || rest != []
    ensures (got + stream[..k]) + stream[k..] + rest == msg
  {
    assert stream == stream[..k] + stream[k..];
  }

  lemma Completes(got: Bytes, stream: Bytes, rest: Bytes, k: nat, msg: Bytes)
    requires k <= |stream| && got + stream + rest == msg && got + stream[..k] == msg
    ensures stream[k..] == [] && rest == []
  {
  }

  lemma NextRequest(s: Session, s': Session, p: Protocol, answer: Bytes -> Answer, requests: seq<Bytes>)
    requires SessionInv(s, p, answer) && s.client.Receiving? && Served(requests, s, answer)
    requires s.server == Listening([]) && s.toServer == [] && answer(s.todo[0]).Reply?
    requires s' == Session(s.todo[1..], Begin(s.todo[1..]), [], Listening([]), [],
                           s.results + [answer(s.todo[0]).msg], s.seen)
    ensures SessionInv(s', p, answer) && Served(requests, s', answer)
  {
    hide Delimits;
    var i := |s.results|;
    assert s.todo[0] == requests[i];
    assert s.todo[1..] == requests[i + 1..];
    assert forall j | 0 <= j < |s'.todo| :: s'.todo[j] == s.todo[j + 1];
    if s'.todo != [] {
      assert Framable(p, answer, s'.todo[0]);
      assert [] + [] + s'.todo[0] == s'.todo[0];
    }
  }

  lemma ServerListens(s: Session, p: Protocol, answer: Bytes -> Answer, n: nat, requests: seq<Bytes>)
    requires SessionInv(s, p, answer) && s.server.Listening? && Served(requests, s, answer)
    ensures var s' := ServerStep(s, p, answer, n); SessionInv(s', p, answer) && Served(requests, s', answer)
  {
    hide *;
    if s.toServer == [] {
      NothingToRead(s, p, answer, n);
    } else {
      var k, rest := RequestRead(s, p, answer, n);
      if s.server.got + s.toServer[..k] == s.todo[0] {
        Completes(s.server.got, s.toServer, rest, k, s.todo[0]);
        RequestComplete(s, ServerStep(s, p, answer, n), p, answer, requests);
      } else {
        RequestPart(s, ServerStep(s, p, answer, n), p, answer, k, rest, requests);
      }
    }
  }

  ghost function ClientRest(s: Session): Bytes { if s.client.Sending? then s.client.rest else [] }

  /** What the server has, what is on its way and what the client has left make up the request. */
  lemma RequestRead(s: Session, p: Protocol, answer: Bytes -> Answer, n: nat) returns (k: nat, rest: Bytes)
    requires SessionInv(s, p, answer) && s.server.Listening? && s.toServer != []
    ensures s.todo != [] && k <= |s.toServer| && s.server.got + s.toServer + rest == s.todo[0]
    ensures rest == ClientRest(s)
    ensures var got := s.server.got + s.toServer[..k]; var s' := s.(toServer := s.toServer[k..]);
            ServerStep(s, p, answer, n) ==
            if got != s.todo[0] then s'.(server := Listening(got))
            else s'.(server := if answer(got).Reply? then Answering(answer(got).msg) else Stopped,
                     seen := s.seen + [got])
  {
    hide Sound, Delimits, Framing.Need;
    rest := ClientRest(s);
    k := Min(Min(n, p.request.Need(s.server.got)), |s.toServer|);
    assert s.server.got + s.toServer + rest == s.todo[0] && Framable(p, answer, s.todo[0]);
    ReadStep(p.request, s.todo[0], s.server.got, s.toServer, rest, k);
  }

  lemma RequestPart(s: Session, s': Session, p: Protocol, answer: Bytes -> Answer, k: nat, rest: Bytes,
                    requests: seq<Bytes>)
    requires SessionInv(s, p, answer) && Served(requests, s, answer) && s.server.Listening?
    requires s.toServer != [] && s.todo != [] && k <= |s.toServer| && rest == ClientRest(s)
    requires s.server.got + s.toServer + rest == s.todo[0] && s.server.got + s.toServer[..k] != s.todo[0]
    requires s' == s.(toServer := s.toServer[k..], server := Listening(s.server.got + s.toServer[..k]))
    ensures SessionInv(s', p, answer) && Served(requests, s', answer)
  {
    hide Sound, Framable;
    MoveBytes(s.server.got, s.toServer, k);
    Unread(s.server.got, s.toServer, rest, k, s.todo[0]);
  }

  lemma RequestComplete(s: Session, s': Session, p: Protocol, answer: Bytes -> Answer, requests: seq<Bytes>)
    requires SessionInv(s, p, answer) && Served(requests, s, answer) && s.server.Listening?
    requires s.toServer != [] && s.todo != [] && ClientRest(s) == []
    requires var r := s.todo[0];
             s' == s.(toServer := [], server := if answer(r).Reply? then Answering(answer(r).msg) else Stopped,
                      seen := s.seen + [r])
    ensures SessionInv(s', p, answer) && Served(requests, s', answer)
  {
    hide Sound, Delimits;
    assert Framable(p, answer, s.todo[0]);
    assert s.client.Receiving? && s.client.got == [] && s.toClient == [];
    if answer(s.todo[0]).Reply? {
      assert [] + [] + answer(s.todo[0]).msg == answer(s.todo[0]).msg;
    }
    assert s.todo[0] == requests[|s.results|];
  }

  /** With nothing to read, the server's read waits. */
  lemma RequestAwaited(s: Session, p: Protocol, answer: Bytes -> Answer)
    requires SessionInv(s, p, answer) && s.server.Listening? && s.toServer == []
    ensures p.request.Need(s.server.got) > 0
  {
    if s.server.got != [] {
      assert Framable(p, answer, s.todo[0]);
      assert s.server.got == s.todo[0][..|s.server.got|];
    }
  }

  lemma ServerAnswers(s: Session, p: Protocol, answer: Bytes -> Answer, n: nat, requests: seq<Bytes>)
    requires SessionInv(s, p, answer) && s.server.Answering? && Served(requests, s, answer)
    ensures var s' := ServerStep(s, p, answer, n); SessionInv(s', p, answer) && Served(requests, s', answer)
  {
    hide Delimits, Framing.Need;
    var rest := s.server.rest;
    var k := Min(n, |rest|);
    MoveBytes(s.client.got + s.toClient, rest, k);
    assert s.client.got + (s.toClient + rest[..k]) == (s.client.got + s.toClient) + rest[..k];
    assert k == |rest| ==> rest[..k] == rest;
  }

  lemma StepKeeps(s: Session, p: Protocol, answer: Bytes -> Answer, m: Move, requests: seq<Bytes>)
    requires SessionInv(s, p, answer) && Served(requests, s, answer)
    ensures var s' := Step(s, p, answer, m); SessionInv(s', p, answer) && Served(requests, s', answer)
  {
    match m {
      case ClientMoves(n) =>
        if s.client.Sending? {
          ClientSends(s, p, answer, n, requests);
        } else if s.client.Receiving? {
          ClientReceives(s, p, answer, n, requests);
        }
      case ServerMoves(n) =>
        if s.server.Listening? {
          ServerListens(s, p, answer, n, requests);
        } else if s.server.Answering? {
          ServerAnswers(s, p, answer, n, requests);
        }
    }
  }

  // ---- whole sessions

  /** The moves take the session from `s` to `s'`. A client that waits for a reply has a request
      to be answered, which the invariant makes sure of. */
  ghost predicate Reaches(s: Session, p: Protocol, answer: Bytes -> Answer, moves: seq<Move>, s': Session)
    decreases |moves|
  {
    if moves == [] then s' == s
    else (s.client.Receiving? ==> s.todo != []) && Reaches(Step(s, p, answer, moves[0]), p, answer, moves[1..], s')
  }

  lemma StartKeeps(requests: seq<Bytes>, p: Protocol, answer: Bytes -> Answer)
    requires Sound(p) && forall i | 0 <= i < |requests| :: Framable(p, answer, requests[i])
    ensures SessionInv(Start(requests), p, answer) && Served(requests, Start(requests), answer)
  {
    hide Delimits;
    if requests != [] {
      assert Framable(p, answer, requests[0]);
      assert [] + [] + requests[0] == requests[0];
    }
  }

  lemma {:induction false} RunKeeps(s: Session, p: Protocol, answer: Bytes -> Answer, moves: seq<Move>, s': Session,
                                    requests: seq<Bytes>)
    requires SessionInv(s, p, answer) && Served(requests, s, answer) && Reaches(s, p, answer, moves, s')
    ensures SessionInv(s', p, answer) && Served(requests, s', answer)
    decreases |moves|
  {
    hide SessionInv, Served, Step;
    if moves != [] {
      StepKeeps(s, p, answer, moves[0], requests);
      RunKeeps(Step(s, p, answer, moves[0]), p, answer, moves[1..], s', requests);
    }
  }

  /** Neither end can move. */
  predicate Stuck(s: Session, p: Protocol, answer: Bytes -> Answer)
    requires s.client.Receiving? ==> s.todo != []
  {
    Step(s, p, answer, ClientMoves(1)) == s && Step(s, p, answer, ServerMoves(1)) == s
  }

  /** A session is only stuck when it is over, or when the server gave up on a request. */
  lemma StuckIsOver(s: Session, p: Protocol, answer: Bytes -> Answer)
    requires SessionInv(s, p, answer) && Stuck(s, p, answer)
    ensures s.todo == [] || (s.server.Stopped? && answer(s.todo[0]).Fail?)
    ensures s.toServer == [] && s.toClient == []
  {
    if s.todo != [] && !s.server.Stopped? {
      assert Framable(p, answer, s.todo[0]);
      NotStuck(s, p, answer);
    }
  }

  lemma NotStuck(s: Session, p: Protocol, answer: Bytes -> Answer)
    requires SessionInv(s, p, answer) && s.todo != [] && !s.server.Stopped?
    ensures !Stuck(s, p, answer)
  {
    if s.client.Sending? {
      assert |Step(s, p, answer, ClientMoves(1)).toServer| == |s.toServer| + 1;
    } else if s.server.Answering? {
      assert |Step(s, p, answer, ServerMoves(1)).toClient| == |s.toClient| + 1;
    } else if s.toServer != [] {
      assert Framable(p, answer, s.todo[0]);
      ReadStep(p.request, s.todo[0], s.server.got, s.toServer, [], 0);
      assert |Step(s, p, answer, ServerMoves(1)).toServer| == |s.toServer| - 1;
    } else {
      assert Framable(p, answer, s.todo[0]);
      ReadStep(p.reply, answer(s.todo[0]).msg, s.client.got, s.toClient, [], 0);
      assert |Step(s, p, answer, ClientMoves(1)).toClient| == |s.toClient| - 1;
    }
  }

  // ---- every session ends

  function ReplySize(answer: Bytes -> Answer, r: Bytes): nat { if answer(r).Reply? then |answer(r).msg| else 0 }

  /** Every byte of a request and its reply is written once and read once. */
  function Cost(todo: seq<Bytes>, answer: Bytes -> Answer): nat {
    if todo == [] then 0 else 2 * |todo[0]| + 2 * ReplySize(answer, todo[0]) + Cost(todo[1..], answer)
  }

  /** The writes and reads of single bytes that are left. */
  function Left(s: Session, answer: Bytes -> Answer): nat {
    if s.todo == [] then 0
    else
      Cost(s.todo[1..], answer)
      + (if s.client.Sending? then 2 * |s.client.rest| else 0) + |s.toServer|
      + (if s.server.Answering? then 2 * |s.server.rest| else 0) + |s.toClient|
      + (if Unanswered(s) then 2 * ReplySize(answer, s.todo[0]) else 0)
  }

  lemma SendProgress(s: Session, p: Protocol, answer: Bytes -> Answer, n: nat)
    requires SessionInv(s, p, answer) && s.client.Sending? && ClientStep(s, p, n) != s
    ensures Left(ClientStep(s, p, n), answer) < Left(s, answer)
  {
    hide Framable, Cost, Sound;
    var rest := s.client.rest;
    var k := Min(n, |rest|);
  }

  lemma ClientProgress(s: Session, p: Protocol, answer: Bytes -> Answer, n: nat)
    requires SessionInv(s, p, answer) && ClientStep(s, p, n) != s
    ensures Left(ClientStep(s, p, n), answer) < Left(s, answer)
  {
    hide Delimits, Framing.Need, Left, InFlight;
    if s.client.Sending? {
      SendProgress(s, p, answer, n);
    } else {
      ReceiveProgress(s, p, answer, n);
    }
  }

  lemma ReceiveProgress(s: Session, p: Protocol, answer: Bytes -> Answer, n: nat)
    requires SessionInv(s, p, answer) && s.client.Receiving? && ClientStep(s, p, n) != s
    ensures Left(ClientStep(s, p, n), answer) < Left(s, answer)
  {
    hide Sound, Framable, InFlight, Cost, Framing.Need, ClientStep;
    NothingToReceive(s, p, answer, n);
    var k, rest := ReplyRead(s, p, answer, n);
    var m := answer(s.todo[0]).msg;
    if s.client.got + s.toClient[..k] == m {
      Completes(s.client.got, s.toClient, rest, k, m);
      hide Left;
      BeginCost(s, ClientStep(s, p, n), answer);
      LeftAtLeast(s, answer);
    } else {
      assert s.client.got + s.toClient[..0] == s.client.got && s.toClient[0..] == s.toClient;
    }
  }

  lemma LeftAtLeast(s: Session, answer: Bytes -> Answer)
    requires s.todo != []
    ensures Left(s, answer) >= Cost(s.todo[1..], answer) + |s.toClient|
  {
    hide Cost;
  }

  lemma BeginCost(s: Session, s': Session, answer: Bytes -> Answer)
    requires s.todo != [] && s'.todo == s.todo[1..] && s'.client == Begin(s'.todo)
    requires s'.toServer == [] && s'.toClient == [] && s'.server == Listening([])
    ensures Left(s', answer) == Cost(s.todo[1..], answer)
  {
  }

  lemma ServerProgress(s: Session, p: Protocol, answer: Bytes -> Answer, n: nat)
    requires SessionInv(s, p, answer) && ServerStep(s, p, answer, n) != s
    ensures Left(ServerStep(s, p, answer, n), answer) < Left(s, answer)
  {
    hide Sound, Framable, InFlight, Left, Min, Framing.Need;
    if s.server.Answering? {
      AnswerProgress(s, p, answer, n);
    } else {
      NothingToRead(s, p, answer, n);
      ListenProgress(s, p, answer, n);
    }
  }

  lemma AnswerProgress(s: Session, p: Protocol, answer: Bytes -> Answer, n: nat)
    requires SessionInv(s, p, answer) && s.server.Answering? && ServerStep(s, p, answer, n) != s
    ensures Left(ServerStep(s, p, answer, n), answer) < Left(s, answer)
  {
    hide Sound, Framable, Cost, Framing.Need;
    var rest := s.server.rest;
    assert s.toClient + rest[..0] == s.toClient && rest[0..] == rest;
  }

  /** A server without bytes to read waits. */
  lemma NothingToRead(s: Session, p: Protocol, answer: Bytes -> Answer, n: nat)
    requires SessionInv(s, p, answer) && s.server.Listening?
    ensures s.toServer == [] ==> ServerStep(s, p, answer, n) == s
  {
    hide Sound, Framable, InFlight, Framing.Need;
    if s.toServer == [] {
      RequestAwaited(s, p, answer);
      assert s.server.got + s.toServer[..0] == s.server.got;
    }
  }

  lemma ListenProgress(s: Session, p: Protocol, answer: Bytes -> Answer, n: nat)
    requires SessionInv(s, p, answer) && s.server.Listening? && s.toServer != []
    requires ServerStep(s, p, answer, n) != s
    ensures Left(ServerStep(s, p, answer, n), answer) < Left(s, answer)
  {
    hide Sound, Framable, Cost, Framing.Need, ServerStep;
    var k, rest := RequestRead(s, p, answer, n);
    assert s.server.got + s.toServer[..0] == s.server.got && s.toServer[0..] == s.toServer;
  }

  /** Each of the moves has an effect. */
  ghost predicate Effective(s: Session, p: Protocol, answer: Bytes -> Answer, moves: seq<Move>)
    decreases |moves|
  {
    moves == [] ||
    (&& (s.client.Receiving? ==> s.todo != [])
     && Step(s, p, answer, moves[0]) != s
     && Effective(Step(s, p, answer, moves[0]), p, answer, moves[1..]))
  }

  lemma {:induction false} BoundedRun(s: Session, p: Protocol, answer: Bytes -> Answer, moves: seq<Move>,
                                      requests: seq<Bytes>)
    requires SessionInv(s, p, answer) && Served(requests, s, answer) && Effective(s, p, answer, moves)
    ensures |moves| <= Left(s, answer)
    decreases |moves|
  {
    hide SessionInv, Served, ClientStep, ServerStep, Left;
    if moves != [] {
      StepKeeps(s, p, answer, moves[0], requests);
      match moves[0] {
        case ClientMoves(n) => ClientProgress(s, p, answer, n);
        case ServerMoves(n) => ServerProgress(s, p, answer, n);
      }
      BoundedRun(Step(s, p, answer, moves[0]), p, answer, moves[1..], requests);
    }
  }

  /** No schedule keeps a session going for ever: it has at most as many moves as there are
      bytes to write and to read. */
  lemma SessionEnds(requests: seq<Bytes>, p: Protocol, answer: Bytes -> Answer, moves: seq<Move>)
    requires Sound(p) && forall i | 0 <= i < |requests| :: Framable(p, answer, requests[i])
    requires Effective(Start(requests), p, answer, moves)
    ensures |moves| <= Cost(requests, answer)
  {
    StartKeeps(requests, p, answer);
    hide SessionInv, Served, Framable, Effective, Sound;
    BoundedRun(Start(requests), p, answer, moves, requests);
  }

  /** However the two ends are scheduled and their reads and writes are cut up, the client reads
      exactly the server's replies, in order; and when nothing can move any more, every request
      was answered or the server gave up on the next one, and both streams are empty. */
  lemma InSync(requests: seq<Bytes>, p: Protocol, answer: Bytes -> Answer, moves: seq<Move>, s: Session)
    requires Sound(p) && forall i | 0 <= i < |requests| :: Framable(p, answer, requests[i])
    requires Reaches(Start(requests), p, answer, moves, s)
    ensures |s.results| <= |requests|
    ensures forall i | 0 <= i < |s.results| :: answer(requests[i]) == Reply(s.results[i])
    ensures |s.results| <= |s.seen| && s.seen <= requests
    ensures s.client.Receiving? ==> s.todo != []
    ensures Stuck(s, p, answer) ==>
              && s.toServer == [] && s.toClient == []
              && (|s.results| == |requests| || answer(requests[|s.results|]).Fail?)
  {
    hide Framable, Sound;
    StartKeeps(requests, p, answer);
    RunKeeps(Start(requests), p, answer, moves, s, requests);
    if Stuck(s, p, answer) {
      StuckIsOver(s, p, answer);
    }
  }
}

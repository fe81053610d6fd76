/**
 One RPC flow and the server connection behind it (sandook/rpc/rpc.cc, rpc.h) as
 a state machine: callers, the client's sender and receiver threads, the server's
 receiver, handlers and sender thread.  Every critical section under a lock is one
 step; the two directions of the TCP connection are FIFO queues.  Counters are
 32-bit and wrap.
 */
module RpcFlow {
  const CREDITS: nat := 128
  const WORD: nat := 0x1_0000_0000

  type Data = seq<int>

  datatype Reply = Reply(token: nat, resp: Data)

  /** Client sender: about to take the lock, parked with its waker armed, transmitting, gone. */
  datatype Sender = Ready | Parked | Sending(batch: seq<nat>) | Exited(lost: seq<nat>)
  datatype Receiver = Reading | Got(reply: Reply)
  datatype ServerSender = SReady | SParked | SSending(replies: seq<Reply>)

  datatype State = State(
    nCalls: nat,                  // calls so far; the k-th call has token k
    close: bool,
    sentCount: nat, recvCount: nat,   // 32-bit counters
    queue: seq<nat>,              // reqs_
    sender: Sender,
    wire: seq<nat>,               // requests on the connection
    handlers: seq<nat>,           // spawned handlers that have not returned
    completions: seq<Reply>,      // completions_ of the server
    server: ServerSender,
    back: seq<Reply>,             // replies on the connection
    receiver: Receiver,
    done: seq<Reply>,             // completed calls, in order
    transmitted: seq<nat>,        // all requests written to the connection, in order
    nRecv: nat,                   // replies whose header has been read
    answer: nat -> Data)          // what the handler returned for each token

  /** `sent_count_ - recv_count_` in unsigned 32-bit arithmetic. */
  function Inflight(s: State): nat {
    (s.sentCount - s.recvCount) % WORD
  }

  function Wake(t: Sender): Sender {
    if t.Parked? then Ready else t
  }

  datatype Action = Call | SenderRun | Transmit | ServerReceive | Handle(i: nat, resp: Data) | ServerRun
                  | ServerTransmit | Receive | Complete | CloseFlow

  /** The wait condition of lines 258-259. */
  predicate MustWait(s: State) {
    (s.queue == [] || Inflight(s) >= CREDITS) && !(s.close && s.queue == [])
  }

  /** How many queued requests the credit window admits. */
  function Admitted(s: State): nat {
    if Inflight(s) >= CREDITS then 0
    else if |s.queue| < CREDITS - Inflight(s) then |s.queue| else CREDITS - Inflight(s)
  }

  predicate Enabled(s: State, a: Action) {
    match a
    case Call => !s.close
    case SenderRun => s.sender.Ready?
    case Transmit => s.sender.Sending?
    case ServerReceive => s.wire != []
    case Handle(i, resp) => i < |s.handlers|
    case ServerRun => s.server.SReady?
    case ServerTransmit => s.server.SSending?
    case Receive => s.receiver.Reading? && s.back != []
    case Complete => s.receiver.Got?
    case CloseFlow => true
  }

  /** The sender waits, or gathers what the window admits (lines 254-278). */
  function SenderRan(s: State): State {
    if MustWait(s) then s.(sender := Parked)
    else
      var n := Admitted(s);
      var batch, rest := s.queue[..n], s.queue[n..];
      s.(queue := rest, sentCount := (s.sentCount + n) % WORD,
         sender := if s.close && rest == [] then Exited(batch) else Sending(batch))
  }

  /** A handler returns its response (RPCServer::Return). */
  ghost function Handled(s: State, i: nat, resp: Data): State
    requires i < |s.handlers|
  {
    var token := s.handlers[i];
    s.(handlers := s.handlers[..i] + s.handlers[i + 1..],
       completions := s.completions + [Reply(token, resp)],
       answer := (t: nat) => if t == token then resp else s.answer(t),
       server := if s.server.SParked? then SReady else s.server)
  }

  /** The server's sender waits, or gathers all completions (lines 100-111). */
  function ServerGathered(s: State): State {
    if s.completions == [] then s.(server := SParked)
    else s.(server := SSending(s.completions), completions := [])
  }

  /** The client's receiver reads a reply header (lines 315-334). */
  function Received(s: State): State
    requires s.back != []
  {
    var s1 := s.(recvCount := (s.recvCount + 1) % WORD, nRecv := s.nRecv + 1,
                 back := s.back[1..], receiver := Got(s.back[0]));
    s1.(sender := if CREDITS > Inflight(s1) && s.queue != [] then Wake(s.sender) else s.sender)
  }

  /** The waiting call is completed with its reply. */
  function Completed(s: State): State
    requires s.receiver.Got?
  {
    s.(done := s.done + [s.receiver.reply], receiver := Reading)
  }

  ghost function Step(s: State, a: Action): State
    requires Enabled(s, a)
  {
    match a
    case Call =>
      s.(nCalls := s.nCalls + 1, queue := s.queue + [s.nCalls],
         sender := if Inflight(s) < CREDITS then Wake(s.sender) else s.sender)
    case SenderRun => SenderRan(s)
    case Transmit =>
      s.(wire := s.wire + s.sender.batch, transmitted := s.transmitted + s.sender.batch, sender := Ready)
    case ServerReceive => s.(handlers := s.handlers + [s.wire[0]], wire := s.wire[1..])
    case Handle(i, resp) => Handled(s, i, resp)
    case ServerRun => ServerGathered(s)
    case ServerTransmit => s.(back := s.back + s.server.replies, server := SReady)
    case Receive => Received(s)
    case Complete => Completed(s)
    case CloseFlow => s.(close := true, sender := Wake(s.sender))
  }

  ghost predicate Initial(s: State) {
    && s.nCalls == 0 && !s.close && s.sentCount == 0 && s.recvCount == 0 && s.queue == [] && s.sender == Ready
    && s.wire == [] && s.handlers == [] && s.completions == [] && s.server == SReady && s.back == []
    && s.receiver == Reading && s.done == [] && s.transmitted == [] && s.nRecv == 0
  }

  // ---------------------------------------------------------------- wakeups

  /** A parked sender has nothing it may send, and is not needed for closing; likewise at the server. */
  ghost predicate NoLostWakeup(s: State) {
    && (s.sender.Parked? ==> (s.queue == [] || Inflight(s) >= CREDITS) && !(s.close && s.queue == []))
    && (s.server.SParked? ==> s.completions == [])
    && (s.sender.Exited? ==> s.close && s.queue == [])
  }

  // ---------------------------------------------------------------- order and counting

  /** Requests taken from the queue but not on the connection. */
  function Gathered(t: Sender): seq<nat> {
    match t
    case Sending(batch) => batch
    case Exited(lost) => lost
    case _ => []
  }

  function Upto(n: nat): (r: seq<nat>)
    ensures |r| == n
    ensures forall i :: 0 <= i < n ==> r[i] == i
  {
    seq(n, i requires 0 <= i => i)
  }

  /** Calls are the transmitted requests, then the gathered ones, then the queued ones, in call order. */
  ghost predicate InOrder(s: State) {
    s.transmitted + Gathered(s.sender) + s.queue == Upto(s.nCalls)
  }

  function ServerBatch(t: ServerSender): seq<Reply> {
    if t.SSending? then t.replies else []
  }

  /** Requests gathered by the sender whose reply header has not been read. */
  function Outstanding(s: State): nat {
    |Gathered(s.sender)| + |s.wire| + |s.handlers| + |s.completions| + |ServerBatch(s.server)| + |s.back|
  }

  function Sent(s: State): nat {
    |s.transmitted| + |Gathered(s.sender)|
  }

  /** The wrapping counters agree with the true counts, and the window is respected. */
  ghost predicate Counted(s: State) {
    && s.sentCount == Sent(s) % WORD && s.recvCount == s.nRecv % WORD
    && Sent(s) == s.nRecv + Outstanding(s)
    && Outstanding(s) <= CREDITS
  }

  lemma WrappedDifference(a: nat, b: nat)
    requires b <= a < b + WORD
    ensures (a % WORD - b % WORD) % WORD == a - b
  {
  }

  lemma InflightIsOutstanding(s: State)
    requires Counted(s)
    ensures Inflight(s) == Outstanding(s) <= CREDITS
  {
    WrappedDifference(Sent(s), s.nRecv);
  }

  // ---------------------------------------------------------------- each token once

  function Occ(s: seq<nat>, t: nat): nat {
    if s == [] then 0 else Occ(s[..|s| - 1], t) + (if s[|s| - 1] == t then 1 else 0)
  }

  function OccReply(s: seq<Reply>, t: nat): nat {
    if s == [] then 0 else OccReply(s[..|s| - 1], t) + (if s[|s| - 1].token == t then 1 else 0)
  }

  /** Occurrences at the server: with a handler, or answered and not yet picked up. */
  function AtServer(handlers: seq<nat>, completions: seq<Reply>, t: nat): nat {
    Occ(handlers, t) + OccReply(completions, t)
  }

  /** Occurrences of a transmitted token between the connection and the completed calls. */
  function Travelling(s: State, t: nat): nat {
    Occ(s.wire, t) + AtServer(s.handlers, s.completions, t) + OccReply(ServerBatch(s.server), t)
    + OccReply(s.back, t) + AtClient(s.receiver, s.done, t)
  }

  /** Occurrences at the client: being received, or completed. */
  function AtClient(receiver: Receiver, done: seq<Reply>, t: nat): nat {
    (if receiver.Got? && receiver.reply.token == t then 1 else 0) + OccReply(done, t)
  }

  ghost predicate Conserved(s: State) {
    forall t :: Travelling(s, t) == Occ(s.transmitted, t)
  }

  lemma {:induction false} OccConcat(a: seq<nat>, b: seq<nat>, t: nat)
    ensures Occ(a + b, t) == Occ(a, t) + Occ(b, t)
  {
    if b == [] {
      assert a + b == a;
    } else {
      OccConcat(a, b[..|b| - 1], t);
      assert (a + b)[..|a + b| - 1] == a + b[..|b| - 1];
    }
  }

  lemma {:induction false} OccReplyConcat(a: seq<Reply>, b: seq<Reply>, t: nat)
    ensures OccReply(a + b, t) == OccReply(a, t) + OccReply(b, t)
  {
    if b == [] {
      assert a + b == a;
    } else {
      OccReplyConcat(a, b[..|b| - 1], t);
      assert (a + b)[..|a + b| - 1] == a + b[..|b| - 1];
    }
  }

  lemma {:induction false} OccUpto(n: nat, t: nat)
    ensures Occ(Upto(n), t) == if t < n then 1 else 0
  {
    if n > 0 {
      OccUpto(n - 1, t);
      assert Upto(n)[..n - 1] == Upto(n - 1);
    }
  }

  lemma {:induction false} OccReplyHas(s: seq<Reply>, i: nat)
    requires i < |s|
    ensures OccReply(s, s[i].token) >= 1
  {
    if i < |s| - 1 {
      OccReplyHas(s[..|s| - 1], i);
    }
  }

  lemma {:induction false} OccHas(s: seq<nat>, i: nat)
    requires i < |s|
    ensures Occ(s, s[i]) >= 1
  {
    if i < |s| - 1 {
      OccHas(s[..|s| - 1], i);
    }
  }

  lemma OccRemove(s: seq<nat>, i: nat, t: nat)
    requires i < |s|
    ensures Occ(s, t) == Occ(s[..i] + s[i + 1..], t) + (if s[i] == t then 1 else 0)
  {
    assert s == s[..i] + ([s[i]] + s[i + 1..]);
    OccConcat(s[..i], [s[i]] + s[i + 1..], t);
    OccConcat([s[i]], s[i + 1..], t);
    OccConcat(s[..i], s[i + 1..], t);
  }

  lemma OccReplyFirst(s: seq<Reply>, t: nat)
    requires s != []
    ensures OccReply(s, t) == (if s[0].token == t then 1 else 0) + OccReply(s[1..], t)
  {
    assert s == [s[0]] + s[1..];
    OccReplyConcat([s[0]], s[1..], t);
  }

  /** A token has been transmitted at most once, and only if it was called. */
  lemma TransmittedOnce(s: State, t: nat)
    requires InOrder(s)
    ensures Occ(s.transmitted, t) + Occ(Gathered(s.sender), t) + Occ(s.queue, t) == if t < s.nCalls then 1 else 0
  {
    OccConcat(s.transmitted, Gathered(s.sender), t);
    OccConcat(s.transmitted + Gathered(s.sender), s.queue, t);
    OccUpto(s.nCalls, t);
  }

  lemma TransmitConserves(s: State, t: nat)
    requires s.sender.Sending? && Travelling(s, t) == Occ(s.transmitted, t)
    ensures Travelling(Step(s, Transmit), t) == Occ(Step(s, Transmit).transmitted, t)
  {
    OccConcat(s.wire, s.sender.batch, t);
    OccConcat(s.transmitted, s.sender.batch, t);
  }

  /** The first element of one queue moves to the end of another. */
  lemma OccMove(from: seq<nat>, to: seq<nat>, t: nat)
    requires from != []
    ensures Occ(from[1..], t) + Occ(to + [from[0]], t) == Occ(from, t) + Occ(to, t)
  {
    OccRemove(from, 0, t);
    assert from[..0] + from[1..] == from[1..];
    OccConcat(to, [from[0]], t);
  }

  lemma ServerReceiveConserves(s: State, t: nat)
    requires s.wire != []
    ensures Travelling(Step(s, ServerReceive), t) == Travelling(s, t)
  {
    OccMove(s.wire, s.handlers, t);
  }

  /** A handler's token becomes a reply. */
  lemma OccAnswer(from: seq<nat>, i: nat, to: seq<Reply>, resp: Data, t: nat)
    requires i < |from|
    ensures AtServer(from[..i] + from[i + 1..], to + [Reply(from[i], resp)], t) == AtServer(from, to, t)
  {
    OccRemove(from, i, t);
    OccReplyConcat(to, [Reply(from[i], resp)], t);
  }

  lemma HandleConserves(s: State, i: nat, resp: Data, t: nat)
    requires i < |s.handlers|
    ensures Travelling(Handled(s, i, resp), t) == Travelling(s, t)
  {
    OccAnswer(s.handlers, i, s.completions, resp, t);
  }

  lemma ServerTransmitConserves(s: State, t: nat)
    requires s.server.SSending?
    ensures Travelling(Step(s, ServerTransmit), t) == Travelling(s, t)
  {
    OccReplyConcat(s.back, s.server.replies, t);
  }

  lemma ReceiveConserves(s: State, t: nat)
    requires s.receiver.Reading? && s.back != []
    ensures Travelling(Received(s), t) == Travelling(s, t)
  {
    OccReplyFirst(s.back, t);
  }

  lemma OccComplete(reply: Reply, done: seq<Reply>, t: nat)
    ensures AtClient(Reading, done + [reply], t) == AtClient(Got(reply), done, t)
  {
    OccReplyConcat(done, [reply], t);
  }

  lemma CompleteConserves(s: State, t: nat)
    requires s.receiver.Got?
    ensures Travelling(Completed(s), t) == Travelling(s, t)
  {
    OccComplete(s.receiver.reply, s.done, t);
  }

  /** Steps that touch nothing between the connection and the completed calls. */
  lemma QuietConserves(s: State, s': State, t: nat)
    requires s'.wire == s.wire && s'.handlers == s.handlers && s'.completions == s.completions && s'.server == s.server
    requires s'.back == s.back && s'.receiver == s.receiver && s'.done == s.done
    ensures Travelling(s', t) == Travelling(s, t)
  {
  }

  lemma ServerRunConserves(s: State, t: nat)
    requires s.server.SReady?
    ensures Travelling(ServerGathered(s), t) == Travelling(s, t)
  {
    assert OccReply([], t) == 0;
  }

  lemma StepConserves(s: State, a: Action, t: nat)
    requires Enabled(s, a) && Travelling(s, t) == Occ(s.transmitted, t)
    ensures Travelling(Step(s, a), t) == Occ(Step(s, a).transmitted, t)
  {
    match a
    case Transmit => TransmitConserves(s, t);
    case ServerReceive => ServerReceiveConserves(s, t);
    case Handle(i, resp) => HandleConserves(s, i, resp, t);
    case ServerTransmit => ServerTransmitConserves(s, t);
    case Receive => ReceiveConserves(s, t);
    case Complete => CompleteConserves(s, t);
    case ServerRun => ServerRunConserves(s, t);
    case Call => QuietConserves(s, Step(s, a), t);
    case SenderRun => QuietConserves(s, Step(s, a), t);
    case CloseFlow => QuietConserves(s, Step(s, a), t);
  }

  // ---------------------------------------------------------------- replies carry the handler's answer

  ghost predicate Answered(s: State, rs: seq<Reply>) {
    forall i :: 0 <= i < |rs| ==> rs[i].resp == s.answer(rs[i].token)
  }

  ghost predicate Answers(s: State) {
    && Answered(s, s.completions) && Answered(s, ServerBatch(s.server)) && Answered(s, s.back) && Answered(s, s.done)
    && (s.receiver.Got? ==> s.receiver.reply.resp == s.answer(s.receiver.reply.token))
  }

  /** A token still with its handler has no reply anywhere, so recording its answer disturbs no other reply. */
  lemma HandleKeepsAnswers(s: State, i: nat, resp: Data)
    requires InOrder(s) && Conserved(s) && Answers(s) && Enabled(s, Handle(i, resp))
    ensures Answers(Step(s, Handle(i, resp)))
  {
    var token, s' := s.handlers[i], Step(s, Handle(i, resp));
    TransmittedOnce(s, token);
    OccHas(s.handlers, i);
    assert Travelling(s, token) == Occ(s.transmitted, token);
    NoReply(s, s', s.completions, token);
    NoReply(s, s', ServerBatch(s.server), token);
    NoReply(s, s', s.back, token);
    NoReply(s, s', s.done, token);
  }

  lemma NoReply(s: State, s': State, rs: seq<Reply>, token: nat)
    requires Answered(s, rs) && OccReply(rs, token) == 0
    requires forall t :: t != token ==> s'.answer(t) == s.answer(t)
    ensures Answered(s', rs)
  {
    forall i | 0 <= i < |rs| ensures rs[i].resp == s'.answer(rs[i].token) {
      OccReplyHas(rs, i);
    }
  }

  // ---------------------------------------------------------------- the invariant

  ghost predicate Inv(s: State) {
    NoLostWakeup(s) && InOrder(s) && Counted(s) && Conserved(s) && Answers(s)
  }

  lemma CallOrders(s: State)
    requires Enabled(s, Call) && InOrder(s)
    ensures InOrder(Step(s, Call))
  {
    assert Upto(s.nCalls + 1) == Upto(s.nCalls) + [s.nCalls];
  }

  lemma SenderRunOrders(s: State)
    requires Enabled(s, SenderRun) && InOrder(s)
    ensures InOrder(Step(s, SenderRun))
  {
    var s' := Step(s, SenderRun);
    assert s.transmitted + [] == s.transmitted;
    if !MustWait(s) {
      assert s.queue == Gathered(s'.sender) + s'.queue;
      assert s.transmitted + (Gathered(s'.sender) + s'.queue) == s.transmitted + Gathered(s'.sender) + s'.queue;
    }
  }

  lemma TransmitOrders(s: State)
    requires Enabled(s, Transmit) && InOrder(s)
    ensures InOrder(Step(s, Transmit))
  {
    var sent := s.transmitted + s.sender.batch;
    assert sent + [] == sent;
  }

  lemma StepOrders(s: State, a: Action)
    requires Enabled(s, a) && InOrder(s)
    ensures InOrder(Step(s, a))
  {
    match a
    case Call => CallOrders(s);
    case SenderRun => SenderRunOrders(s);
    case Transmit => TransmitOrders(s);
    case _ => assert Gathered(Step(s, a).sender) == Gathered(s.sender);
  }

  lemma WrappedSum(a: nat, n: nat)
    ensures (a % WORD + n) % WORD == (a + n) % WORD
  {
    var q, r := a / WORD, a % WORD;
    assert a + n == (r + n) + q * WORD;
    WrappedShift(r + n, q);
  }

  lemma {:induction false} WrappedShift(x: nat, q: nat)
    ensures (x + q * WORD) % WORD == x % WORD
  {
    if q > 0 {
      WrappedShift(x, q - 1);
      assert x + q * WORD == (x + (q - 1) * WORD) + WORD;
      OneLap(x + (q - 1) * WORD);
    }
  }

  lemma OneLap(x: nat)
    ensures (x + WORD) % WORD == x % WORD
  {
  }

  lemma StepCounts(s: State, a: Action)
    requires Enabled(s, a) && Counted(s)
    ensures Counted(Step(s, a))
  {
    InflightIsOutstanding(s);
    WrappedSum(Sent(s), Admitted(s));
    WrappedSum(s.nRecv, 1);
    CountersFollow(s, a);
  }

  /** The true counts move together; only gathering and reading a reply header change the counters. */
  lemma CountersFollow(s: State, a: Action)
    requires Enabled(s, a) && Sent(s) == s.nRecv + Outstanding(s) && Outstanding(s) <= CREDITS
    requires Inflight(s) == Outstanding(s)
    ensures
      var s' := Step(s, a);
      && Sent(s') == s'.nRecv + Outstanding(s') && Outstanding(s') <= CREDITS
      && Sent(s') == Sent(s) + (if a.SenderRun? && !MustWait(s) then Admitted(s) else 0)
      && s'.nRecv == s.nRecv + (if a.Receive? then 1 else 0)
  {
  }

  lemma StepWakes(s: State, a: Action)
    requires Enabled(s, a) && Counted(s) && NoLostWakeup(s)
    ensures NoLostWakeup(Step(s, a))
  {
    InflightIsOutstanding(s);
    StepCounts(s, a);
    InflightIsOutstanding(Step(s, a));
  }

  lemma StepKeepsInv(s: State, a: Action)
    requires Inv(s) && Enabled(s, a)
    ensures Inv(Step(s, a))
  {
    var s' := Step(s, a);
    StepOrders(s, a);
    StepCounts(s, a);
    StepWakes(s, a);
    forall t ensures Travelling(s', t) == Occ(s'.transmitted, t) {
      StepConserves(s, a, t);
    }
    StepAnswers(s, a);
  }

  lemma StepAnswers(s: State, a: Action)
    requires InOrder(s) && Conserved(s) && Answers(s) && Enabled(s, a)
    ensures Answers(Step(s, a))
  {
    if a.Handle? {
      HandleKeepsAnswers(s, a.i, a.resp);
    }
  }

  // ---------------------------------------------------------------- runs

  ghost predicate Next(s: State, a: Action, s': State) {
    Enabled(s, a) && s' == Step(s, a)
  }

  ghost predicate IsRun(states: seq<State>, actions: seq<Action>) {
    && |states| == |actions| + 1 && Initial(states[0])
    && forall i :: 0 <= i < |actions| ==> Next(states[i], actions[i], states[i + 1])
  }

  /** Every reachable state: no lost wakeup, call order, window of 128, each token once, right answers. */
  lemma {:induction false} RunKeepsInv(states: seq<State>, actions: seq<Action>, n: nat)
    requires IsRun(states, actions) && n <= |actions|
    ensures Inv(states[n])
  {
    if n > 0 {
      var i := n - 1;
      RunKeepsInv(states, actions, i);
      assert Next(states[i], actions[i], states[i + 1]);
      StepKeepsInv(states[i], actions[i]);
    } else {
      assert Upto(0) == [];
    }
  }

  /** While the flow is open: calls are the transmitted requests, then the batch being sent, then the queue. */
  lemma OpenFlowLosesNothing(states: seq<State>, actions: seq<Action>, n: nat)
    requires IsRun(states, actions) && n <= |actions| && !states[n].close
    ensures
      var s := states[n];
      && s.transmitted + (if s.sender.Sending? then s.sender.batch else []) + s.queue == Upto(s.nCalls)
      && Inflight(s) == Sent(s) - s.nRecv <= CREDITS
  {
    RunKeepsInv(states, actions, n);
    InflightIsOutstanding(states[n]);
    assert states[n].transmitted + [] == states[n].transmitted;
  }

  /** A call completes at most once, only after it was made, and with its own handler's answer. */
  lemma CompletedAtMostOnce(states: seq<State>, actions: seq<Action>, n: nat, i: nat)
    requires IsRun(states, actions) && n <= |actions| && i < |states[n].done|
    ensures
      var s, r := states[n], states[n].done[i];
      r.token < s.nCalls && OccReply(s.done, r.token) == 1 && r.resp == s.answer(r.token)
  {
    RunKeepsInv(states, actions, n);
    var s := states[n];
    var token := s.done[i].token;
    OccReplyHas(s.done, i);
    TransmittedOnce(s, token);
    assert Travelling(s, token) == Occ(s.transmitted, token);
  }

  /** Only the callers could still act: the sender and both server threads wait and nothing is in transit. */
  ghost predicate Quiescent(s: State) {
    s.sender.Parked? && s.wire == [] && s.handlers == [] && s.server.SParked? && s.back == [] && s.receiver.Reading?
  }

  /** No deadlock: a flow that has come to rest has completed every call exactly once. */
  lemma QuiescentFlowIsDone(states: seq<State>, actions: seq<Action>, n: nat, t: nat)
    requires IsRun(states, actions) && n <= |actions| && Quiescent(states[n])
    ensures states[n].queue == [] && !states[n].close
    ensures t < states[n].nCalls ==> OccReply(states[n].done, t) == 1
  {
    RunKeepsInv(states, actions, n);
    var s := states[n];
    InflightIsOutstanding(s);
    TransmittedOnce(s, t);
    assert Travelling(s, t) == Occ(s.transmitted, t);
  }

  // ---------------------------------------------------------------- coming to rest

  /** Steps a request still has ahead of it, weighted so that every step makes progress. */
  function Work(s: State): nat {
    18 * |s.queue| + 16 * |Gathered(s.sender)| + 14 * |s.wire| + 12 * |s.handlers| + 10 * |s.completions|
    + 8 * |ServerBatch(s.server)| + 6 * |s.back| + (if s.receiver.Got? then 3 else 0)
    + (if s.sender.Ready? then 1 else 0) + (if s.server.SReady? then 1 else 0)
  }

  /** Nobody transmits an empty batch. */
  ghost predicate Batched(s: State) {
    (s.sender.Sending? ==> s.sender.batch != []) && (s.server.SSending? ==> s.server.replies != [])
  }

  predicate Internal(a: Action) {
    !a.Call? && !a.CloseFlow?
  }

  lemma StepBatches(s: State, a: Action)
    requires Counted(s) && Batched(s) && Enabled(s, a)
    ensures Batched(Step(s, a))
  {
    InflightIsOutstanding(s);
  }

  lemma {:induction false} RunBatches(states: seq<State>, actions: seq<Action>, n: nat)
    requires IsRun(states, actions) && n <= |actions|
    ensures Batched(states[n])
  {
    if n > 0 {
      var i := n - 1;
      RunBatches(states, actions, i);
      RunKeepsInv(states, actions, i);
      assert Next(states[i], actions[i], states[i + 1]);
      StepBatches(states[i], actions[i]);
    }
  }

  lemma SenderRunWorks(s: State)
    requires s.sender.Ready?
    ensures Work(SenderRan(s)) < Work(s)
  {
    if !MustWait(s) {
      var n := Admitted(s);
      assert |s.queue[..n]| == n && |s.queue[n..]| == |s.queue| - n;
    }
  }

  lemma TransmitWorks(s: State)
    requires s.sender.Sending? && s.sender.batch != []
    ensures Work(Step(s, Transmit)) < Work(s)
  {
  }

  lemma HandleWorks(s: State, i: nat, resp: Data)
    requires i < |s.handlers|
    ensures Work(Handled(s, i, resp)) < Work(s)
  {
  }

  lemma ServerTransmitWorks(s: State)
    requires s.server.SSending? && s.server.replies != []
    ensures Work(Step(s, ServerTransmit)) < Work(s)
  {
  }

  lemma ReceiveWorks(s: State)
    requires s.receiver.Reading? && s.back != []
    ensures Work(Received(s)) < Work(s)
  {
  }

  lemma StepWorks(s: State, a: Action)
    requires Batched(s) && Enabled(s, a) && Internal(a)
    ensures Work(Step(s, a)) < Work(s)
  {
    match a
    case SenderRun => SenderRunWorks(s);
    case Transmit => TransmitWorks(s);
    case Handle(i, resp) => HandleWorks(s, i, resp);
    case ServerTransmit => ServerTransmitWorks(s);
    case Receive => ReceiveWorks(s);
    case _ =>
  }

  /** Under any schedule the threads of a flow take at most Work steps between two actions of its callers. */
  lemma {:induction false} BoundedSteps(states: seq<State>, actions: seq<Action>, m: nat, n: nat)
    requires IsRun(states, actions) && m <= n <= |actions| && forall i :: m <= i < n ==> Internal(actions[i])
    ensures n - m + Work(states[n]) <= Work(states[m])
    decreases n
  {
    if m < n {
      var i := n - 1;
      BoundedSteps(states, actions, m, i);
      RunBatches(states, actions, i);
      assert Next(states[i], actions[i], states[i + 1]);
      StepWorks(states[i], actions[i]);
    }
  }

  /** No thread of the flow can take a step. */
  ghost predicate AtRest(s: State) {
    forall a :: Enabled(s, a) ==> !Internal(a)
  }

  lemma RestIsQuiescent(s: State)
    ensures AtRest(s) && s.sender.Parked? <==> Quiescent(s)
    ensures AtRest(s) ==> (s.sender.Parked? || s.sender.Exited?) && s.wire == [] && s.handlers == []
                          && s.server.SParked? && s.back == [] && s.receiver.Reading?
  {
    if AtRest(s) {
      assert !Enabled(s, SenderRun) && !Enabled(s, Transmit) && !Enabled(s, ServerReceive) && !Enabled(s, Handle(0, []));
      assert !Enabled(s, ServerRun) && !Enabled(s, ServerTransmit) && !Enabled(s, Complete) && !Enabled(s, Receive);
    }
  }

  lemma NoWorkIsRest(s: State)
    requires Batched(s) && Work(s) == 0
    ensures AtRest(s)
  {
  }

  /** Once the callers pause, any schedule of the threads comes to rest within Work steps.  At rest every
      transmitted call has completed exactly once, a closed flow has no sender left, and an open one has
      completed every call. */
  lemma EveryCallCompletes(states: seq<State>, actions: seq<Action>, m: nat, n: nat, t: nat)
    requires IsRun(states, actions) && m <= n <= |actions| && forall i :: m <= i < n ==> Internal(actions[i])
    ensures n - m <= Work(states[m])
    ensures n - m == Work(states[m]) ==> AtRest(states[n])
    ensures AtRest(states[n]) ==>
      OccReply(states[n].done, t) == Occ(states[n].transmitted, t) && (states[n].close <==> states[n].sender.Exited?)
    ensures AtRest(states[n]) && !states[n].close && t < states[n].nCalls ==> OccReply(states[n].done, t) == 1
  {
    var s := states[n];
    BoundedSteps(states, actions, m, n);
    if n - m == Work(states[m]) {
      RunBatches(states, actions, n);
      NoWorkIsRest(s);
    }
    if AtRest(s) {
      RestIsDone(states, actions, n, t);
    }
  }

  lemma RestIsDone(states: seq<State>, actions: seq<Action>, n: nat, t: nat)
    requires IsRun(states, actions) && n <= |actions| && AtRest(states[n])
    ensures OccReply(states[n].done, t) == Occ(states[n].transmitted, t)
    ensures states[n].close <==> states[n].sender.Exited?
    ensures !states[n].close && t < states[n].nCalls ==> OccReply(states[n].done, t) == 1
  {
    var s := states[n];
    RunKeepsInv(states, actions, n);
    RestIsQuiescent(s);
    if s.sender.Parked? {
      QuiescentFlowIsDone(states, actions, n, t);
    }
    assert Travelling(s, t) == Occ(s.transmitted, t);
  }

  /** What the queue was when the flow was closed decides what the exiting sender still holds. */
  ghost predicate Closing(s: State, queued: bool) {
    s.close && (if s.sender.Exited? then (s.sender.lost != [] <==> queued) else (s.queue != [] <==> queued))
  }

  lemma StepCloses(s: State, a: Action, queued: bool)
    requires Inv(s) && Enabled(s, a) && Closing(s, queued)
    ensures Closing(Step(s, a), queued)
  {
    InflightIsOutstanding(s);
    assert a.SenderRun? && s.queue != [] && !MustWait(s) ==> Admitted(s) > 0;
  }

  lemma {:induction false} RunCloses(states: seq<State>, actions: seq<Action>, c: nat, n: nat)
    requires IsRun(states, actions) && c < n <= |actions| && actions[c] == CloseFlow && !states[c].close
    ensures Closing(states[n], states[c].queue != [])
    decreases n
  {
    var i := n - 1;
    RunKeepsInv(states, actions, i);
    assert Next(states[i], actions[i], states[i + 1]);
    if c < i {
      RunCloses(states, actions, c, i);
      StepCloses(states[i], actions[i], states[c].queue != []);
    }
  }

  /** A flow whose sender has gone lost calls if and only if requests were queued when it was closed;
      what is lost are exactly the calls that were never transmitted. */
  lemma ClosingLosesCallsIff(states: seq<State>, actions: seq<Action>, c: nat, n: nat)
    requires IsRun(states, actions) && c < n <= |actions| && actions[c] == CloseFlow && !states[c].close
    requires states[n].sender.Exited?
    ensures states[n].sender.lost == [] <==> states[c].queue == []
    ensures states[n].transmitted + states[n].sender.lost == Upto(states[n].nCalls)
  {
    RunCloses(states, actions, c, n);
    RunKeepsInv(states, actions, n);
    var s := states[n];
    assert s.transmitted + s.sender.lost + [] == s.transmitted + s.sender.lost;
  }

  /** A call made just before the flow is closed is never transmitted. */
  lemma ClosingLosesACall(states: seq<State>, s: State)
    requires Initial(s)
    requires states == [s, Step(s, Call), Step(Step(s, Call), CloseFlow), Step(Step(Step(s, Call), CloseFlow), SenderRun)]
    ensures IsRun(states, [Call, CloseFlow, SenderRun])
    ensures states[3].sender == Exited([0]) && states[3].transmitted == [] && states[3].nCalls == 1
  {
    var actions := [Call, CloseFlow, SenderRun];
    forall i | 0 <= i < |actions| ensures Next(states[i], actions[i], states[i + 1]) {
      assert i == 0 || i == 1 || i == 2;
    }
    assert states[2].queue == [0];
    assert states[2].queue[..1] == [0];
  }
}

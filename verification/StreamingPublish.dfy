/**
 One session of the streaming Publish RPC: the server's goroutine
 (internal/server/server.go) and the provider's loop
 (internal/provider/connectors/amqp091/amqp091.go) meet on two unbuffered
 channels, `mc` for messages and `errChan` for results. A transfer on an
 unbuffered channel is one joint step of sender and receiver.
 */
module StreamingPublish {
  import opened Runs
  import opened Wrappers

  /** What the rendezvous depends on: the address carries exactly one subject, and a confirmation is asked for. */
  datatype Message = Message(oneSubject: bool, confirm: bool)

  /** The server goroutine; numbers are positions in the client's stream. */
  datatype Server =
    | Receiving
    | Offering(i: nat)                          // select: errChan, mc <- msg, timer
    | Awaiting(i: nat)                          // sent on mc, blocked on errChan
    | Responding(i: nat, ok: bool, stop: bool)  // about to stream.Send
    | Gone                                      // returned, mc is closed

  /** The goroutine of the RPC handler, inside provider.Publish until it fails. */
  datatype Provider =
    | Selecting
    | Refusing(i: nat)                          // errChan <- "does not support publish confirmation"
    | Sending(i: nat)                           // prepareAndSend
    | Replying(i: nat, ok: bool)                // errChan <- result
    | Failing                                   // provider.Publish returned an error, errChan <- err
    | Returned

  datatype Response = Response(i: nat, ok: bool)
  datatype Attempt = Attempt(i: nat, ok: bool)

  datatype State = State(
    inbox: seq<Message>,          // what the client will send
    received: nat,
    server: Server,
    provider: Provider,
    responses: seq<Response>,     // delivered to the client
    published: seq<Attempt>,      // what the broker saw
    dropped: bool)                // a stream.Send failed

  datatype Event =
    | Receive                     // stream.Recv returns the next message
    | ReceiveEnds                 // io.EOF or a stream error
    | HandOver                    // mc <- msg meets <-messageChannel
    | TimeOut                     // 30 seconds without a provider
    | BrokerAnswers(ok: bool)     // prepareAndSend returns
    | Deliver                     // errChan: sender meets receiver
    | SendResponse(ok: bool)      // stream.Send
    | ProviderStops(error: bool)  // context, channel or connection ends provider.Publish
    | ProviderSeesClose           // nil message from the closed mc

  function Init(inbox: seq<Message>): State {
    State(inbox, 0, Receiving, Selecting, [], [], false)
  }

  function Step(s: State, e: Event): Option<State> {
    match e
    case Receive =>
      if !s.server.Receiving? || s.received >= |s.inbox| then None
      else
        var i := s.received;
        Some(s.(received := i + 1,
                server := if s.inbox[i].oneSubject then Offering(i) else Responding(i, false, false)))
    case ReceiveEnds => if s.server.Receiving? then Some(s.(server := Gone)) else None
    case HandOver =>
      if !s.server.Offering? || !s.provider.Selecting? || s.server.i >= |s.inbox| then None
      else
        var i := s.server.i;
        Some(s.(server := Awaiting(i), provider := if s.inbox[i].confirm then Refusing(i) else Sending(i)))
    case TimeOut => if s.server.Offering? then Some(s.(server := Responding(s.server.i, false, true))) else None
    case BrokerAnswers(ok) =>
      if !s.provider.Sending? then None
      else Some(s.(provider := Replying(s.provider.i, ok), published := s.published + [Attempt(s.provider.i, ok)]))
    case Deliver =>
      if !(s.server.Awaiting? || s.server.Offering?) then None
      else
        var i := s.server.i;
        // An error that arrives while a message is still on offer ends the goroutine, whatever the error is.
        var stop := s.server.Offering?;
        (match s.provider
         case Refusing(j) => Some(s.(server := Responding(i, false, stop), provider := Sending(j)))
         case Replying(j, ok) => Some(s.(server := Responding(i, ok && !stop, stop), provider := Selecting))
         case Failing => Some(s.(server := Responding(i, false, stop), provider := Returned))
         case _ => None)
    case SendResponse(ok) =>
      if !s.server.Responding? then None
      else if !ok then Some(s.(server := Gone, dropped := true))
      else Some(s.(responses := s.responses + [Response(s.server.i, s.server.ok)],
                   server := if s.server.stop then Gone else Receiving))
    case ProviderStops(error) =>
      if s.provider.Selecting? then Some(s.(provider := if error then Failing else Returned)) else None
    case ProviderSeesClose =>
      if s.provider.Selecting? && s.server.Gone? then Some(s.(provider := Returned)) else None
  }

  /** A message that reaches the provider asks for a confirmation. */
  predicate Confirms(m: Message) { m.oneSubject && m.confirm }

  predicate NoConfirm(inbox: seq<Message>) {
    forall i :: 0 <= i < |inbox| ==> !Confirms(inbox[i])
  }

  predicate Succeeded(s: State, i: nat) { Attempt(i, true) in s.published }

  /** The k-th response is about the k-th message and says success exactly when the broker took that message. */
  predicate Correct(s: State) {
    forall k :: 0 <= k < |s.responses| ==>
      s.responses[k].i == k && (s.responses[k].ok <==> Succeeded(s, k))
  }

  /** The provider tries every message at most once and in order. */
  predicate InOrder(s: State) {
    forall a, b :: 0 <= a < b < |s.published| ==> s.published[a].i < s.published[b].i
  }

  /** One response per received message; at most the last is missing, because Send failed or is still to come. */
  predicate Answered(s: State) {
    match s.server
    case Receiving => |s.responses| == s.received && !s.dropped
    case Gone => s.received == |s.responses| + if s.dropped then 1 else 0
    case _ => s.received == |s.responses| + 1 && s.server.i == |s.responses| && !s.dropped
  }

  /** Nothing was tried for message i or later. */
  predicate Untried(s: State, i: nat) {
    forall a :: 0 <= a < |s.published| ==> s.published[a].i < i
  }

  /** What the two program counters say about the message in flight. */
  predicate InFlight(s: State) {
    var n := |s.responses|;
    && s.received <= |s.inbox|
    && !s.provider.Refusing?
    && (s.server.Awaiting? <==> s.provider.Sending? || s.provider.Replying?)
    && (s.server.Awaiting? || s.server.Offering? ==> s.server.i < |s.inbox| && s.inbox[s.server.i].oneSubject)
    && (s.provider.Sending? ==> s.provider.i == n)
    && (s.provider.Replying? ==> s.provider.i == n && (s.provider.ok <==> Succeeded(s, n)) && Untried(s, n + 1))
    && (s.server.Responding? ==> (s.server.ok <==> Succeeded(s, n)) && Untried(s, n + 1))
    && (s.server.Gone? ==> Untried(s, s.received))
    && (!s.provider.Replying? && !s.server.Responding? && !s.server.Gone? ==> Untried(s, n))
  }

  predicate Inv(s: State) {
    NoConfirm(s.inbox) && Answered(s) && InFlight(s) && Correct(s) && InOrder(s)
  }

  lemma StepAnswered(s: State, e: Event)
    requires Inv(s) && Step(s, e).Some?
    ensures Answered(Step(s, e).value)
  {
  }

  lemma StepInFlight(s: State, e: Event)
    requires Inv(s) && Step(s, e).Some?
    ensures InFlight(Step(s, e).value)
  {
    var n := Step(s, e).value;
    if e.HandOver? {
      assert !Confirms(s.inbox[s.server.i]);
    }
    if e.BrokerAnswers? {
      var i := |s.responses|;
      assert n.published[|s.published|] == Attempt(i, e.ok);
      assert Succeeded(n, i) <==> e.ok;
    }
  }

  lemma StepCorrect(s: State, e: Event)
    requires Inv(s) && Step(s, e).Some?
    ensures Correct(Step(s, e).value) && InOrder(Step(s, e).value)
  {
    var n := Step(s, e).value;
    forall k | 0 <= k < |n.responses|
      ensures n.responses[k].i == k && (n.responses[k].ok <==> Succeeded(n, k))
    {
      assert Succeeded(n, k) <==> Succeeded(s, k);
    }
  }

  lemma {:induction false} ExecInv(s: State, es: seq<Event>)
    requires Inv(s) && Exec(Step, s, es).Some?
    ensures Inv(Exec(Step, s, es).value) && Exec(Step, s, es).value.inbox == s.inbox
    decreases |es|
  {
    if es != [] {
      StepAnswered(s, es[0]);
      StepInFlight(s, es[0]);
      StepCorrect(s, es[0]);
      ExecInv(Step(s, es[0]).value, es[1..]);
    }
  }

  /**
   In every interleaving of a session whose messages ask for no confirmation, responses come in order,
   say success exactly for what was published, and none is missing while sends succeed.
   */
  lemma SessionIsFaithful(inbox: seq<Message>, es: seq<Event>)
    requires NoConfirm(inbox) && Exec(Step, Init(inbox), es).Some?
    ensures var s := Exec(Step, Init(inbox), es).value;
      && Correct(s) && InOrder(s)
      && |s.responses| <= s.received <= |s.responses| + 1
      && ((s.server.Receiving? || s.server.Gone?) && !s.dropped ==> |s.responses| == s.received)
  {
    ExecInv(Init(inbox), es);
  }

  // Confirm == true: the provider answers twice for one message.

  /** Both sides are at rest and the first k messages have been answered. */
  predicate AtRest(s: State, inbox: seq<Message>, k: nat) {
    && s.inbox == inbox && s.received == k && |s.responses| == k
    && s.server.Receiving? && s.provider.Selecting?
  }

  /** Messages that ask for no confirmation can be driven through, one after the other. */
  lemma {:induction false} DriveTo(inbox: seq<Message>, k: nat) returns (es: seq<Event>)
    requires k <= |inbox| && forall i :: 0 <= i < k ==> !Confirms(inbox[i])
    ensures Exec(Step, Init(inbox), es).Some? && AtRest(Exec(Step, Init(inbox), es).value, inbox, k)
    decreases k
  {
    if k == 0 {
      es := [];
    } else {
      es := DriveTo(inbox, k - 1);
      es := DriveOne(inbox, k - 1, es);
    }
  }

  lemma DriveOne(inbox: seq<Message>, k: nat, before: seq<Event>) returns (es: seq<Event>)
    requires k < |inbox| && !Confirms(inbox[k])
    requires Exec(Step, Init(inbox), before).Some? && AtRest(Exec(Step, Init(inbox), before).value, inbox, k)
    ensures Exec(Step, Init(inbox), es).Some? && AtRest(Exec(Step, Init(inbox), es).value, inbox, k + 1)
  {
    var s := Init(inbox);
    es := before;
    ExecMore(Step, s, es, Receive); es := es + [Receive];
    if inbox[k].oneSubject {
      ExecMore(Step, s, es, HandOver); es := es + [HandOver];
      ExecMore(Step, s, es, BrokerAnswers(true)); es := es + [BrokerAnswers(true)];
      ExecMore(Step, s, es, Deliver); es := es + [Deliver];
    }
    ExecMore(Step, s, es, SendResponse(true)); es := es + [SendResponse(true)];
  }

  /** The first message that asks for a confirmation is published, yet answered with a failure. */
  lemma ConfirmMisreports(inbox: seq<Message>, k: nat) returns (es: seq<Event>)
    requires k < |inbox| && Confirms(inbox[k]) && forall i :: 0 <= i < k ==> !Confirms(inbox[i])
    ensures Exec(Step, Init(inbox), es).Some? && !Correct(Exec(Step, Init(inbox), es).value)
  {
    var s := Init(inbox);
    es := DriveTo(inbox, k);
    ExecMore(Step, s, es, Receive); es := es + [Receive];
    ExecMore(Step, s, es, HandOver); es := es + [HandOver];
    ExecMore(Step, s, es, Deliver); es := es + [Deliver];
    ExecMore(Step, s, es, SendResponse(true)); es := es + [SendResponse(true)];
    assert Exec(Step, s, es).value.responses[k] == Response(k, false);
    ExecMore(Step, s, es, BrokerAnswers(true)); es := es + [BrokerAnswers(true)];
    var end := Exec(Step, s, es).value;
    assert end.published[|end.published| - 1] == Attempt(k, true);
    assert Succeeded(end, k);
  }

  predicate Faithful(inbox: seq<Message>, es: seq<Event>) {
    Exec(Step, Init(inbox), es).Some? ==> Correct(Exec(Step, Init(inbox), es).value)
  }

  lemma FirstConfirm(inbox: seq<Message>) returns (k: nat)
    requires !NoConfirm(inbox)
    ensures k < |inbox| && Confirms(inbox[k]) && forall i :: 0 <= i < k ==> !Confirms(inbox[i])
  {
    k := 0;
    while !Confirms(inbox[k])
      invariant k < |inbox| && forall i :: 0 <= i < k ==> !Confirms(inbox[i])
      decreases |inbox| - k
    {
      assert k + 1 < |inbox| by {
        if k + 1 == |inbox| { assert NoConfirm(inbox); }
      }
      k := k + 1;
    }
  }

  /** All schedules report faithfully exactly when no message with a single subject asks for a confirmation. */
  lemma FaithfulIffNoConfirm(inbox: seq<Message>)
    ensures (forall es :: Faithful(inbox, es)) <==> NoConfirm(inbox)
  {
    if NoConfirm(inbox) {
      forall es ensures Faithful(inbox, es) {
        if Exec(Step, Init(inbox), es).Some? { SessionIsFaithful(inbox, es); }
      }
    } else {
      var k := FirstConfirm(inbox);
      var es := ConfirmMisreports(inbox, k);
      assert !Faithful(inbox, es);
    }
  }

  // The end of a session.

  /** The stream ended or broke, nobody took the message on offer in time, or an error came instead of a taker. */
  predicate LastWord(s: State, e: Event) {
    || e.ReceiveEnds? || e == SendResponse(false)
    || (s.server.Offering? && (e.TimeOut? || e.Deliver?))
    || e.ProviderSeesClose?
  }

  /** The server goroutine has returned, or is about to after one more response. */
  predicate Over(s: State) { s.server.Gone? || (s.server.Responding? && s.server.stop && !s.server.ok) }

  lemma {:induction false} OverForGood(s: State, es: seq<Event>)
    requires Over(s) && Exec(Step, s, es).Some?
    ensures var end := Exec(Step, s, es).value;
      && Over(end) && end.received == s.received
      && (end.responses == s.responses
          || (s.server.Responding? && end.responses == s.responses + [Response(s.server.i, false)]))
    ensures forall i :: 0 <= i < |es| ==> !es[i].Receive? && !es[i].HandOver?
    decreases |es|
  {
    if es != [] {
      OverForGood(Step(s, es[0]).value, es[1..]);
      assert forall i :: 1 <= i < |es| ==> es[i] == es[1..][i - 1];
    }
  }

  /**
   In every run, after such an event no message is received or handed over any more. At most one response follows, a
   failure for the message that was on offer, and only when there was one.
   */
  lemma SessionEnds(inbox: seq<Message>, es: seq<Event>, e: Event, later: seq<Event>)
    requires Exec(Step, Init(inbox), es).Some?
    requires LastWord(Exec(Step, Init(inbox), es).value, e) && Step(Exec(Step, Init(inbox), es).value, e).Some?
    requires Exec(Step, Step(Exec(Step, Init(inbox), es).value, e).value, later).Some?
    ensures forall i :: 0 <= i < |later| ==> !later[i].Receive? && !later[i].HandOver?
    ensures var s := Exec(Step, Init(inbox), es).value;
      var end := Exec(Step, Step(s, e).value, later).value;
      && end.received == s.received
      && (end.responses == s.responses
          || (s.server.Offering? && end.responses == s.responses + [Response(s.server.i, false)]))
  {
    var s := Exec(Step, Init(inbox), es).value;
    LastWordEnds(s, e);
    OverForGood(Step(s, e).value, later);
  }

  lemma LastWordEnds(s: State, e: Event)
    requires LastWord(s, e) && Step(s, e).Some?
    ensures var n := Step(s, e).value;
      && Over(n) && n.received == s.received && n.responses == s.responses
      && (n.server.Responding? ==> s.server.Offering? && n.server.i == s.server.i)
  {
  }

  lemma {:induction false} NothingMorePublished(s: State, es: seq<Event>)
    requires (s.provider.Failing? || s.provider.Returned?) && Exec(Step, s, es).Some?
    ensures Exec(Step, s, es).value.published == s.published
    ensures forall i :: 0 <= i < |es| ==> !es[i].HandOver? && !es[i].BrokerAnswers?
    decreases |es|
  {
    if es != [] {
      NothingMorePublished(Step(s, es[0]).value, es[1..]);
      assert forall i :: 1 <= i < |es| ==> es[i] == es[1..][i - 1];
    }
  }

  /** Once the provider stops, nothing more is handed over or published, however the run goes on. */
  lemma ProviderStopIsFinal(s: State, error: bool, later: seq<Event>)
    requires Step(s, ProviderStops(error)).Some? && Exec(Step, Step(s, ProviderStops(error)).value, later).Some?
    ensures Exec(Step, Step(s, ProviderStops(error)).value, later).value.published == s.published
    ensures forall i :: 0 <= i < |later| ==> !later[i].HandOver? && !later[i].BrokerAnswers?
  {
    NothingMorePublished(Step(s, ProviderStops(error)).value, later);
  }

  /** If it stops with an error while a message is on offer, that message is answered with a failure and the session is over. */
  lemma ProviderErrorEndsSession(s: State)
    requires s.server.Offering? && s.provider.Selecting?
    ensures Exec(Step, s, [ProviderStops(true), Deliver, SendResponse(true)])
      == Some(s.(server := Gone, provider := Returned, responses := s.responses + [Response(s.server.i, false)]))
  {
    var run := [ProviderStops(true)];
    assert run[1..] == [];
    ExecMore(Step, s, run, Deliver); run := run + [Deliver];
    ExecMore(Step, s, run, SendResponse(true)); run := run + [SendResponse(true)];
    assert run == [ProviderStops(true), Deliver, SendResponse(true)];
  }
}

/**
 One client's BrokerDetails and the provider's operations on it, as the source has
 them: fields updated step by step, loops over options, filters and bindings
 (internal/provider/connectors/amqp091/amqp091.go). The broker is part of the
 object's state. Every method is proved equal to the function of the same step in
 Topology, RetryTopology, DeadLetters and Settlement, where the properties are proved.
 */
module BrokerDetails {
  import opened Amqp
  import opened ConcurrentMaps
  import opened Counters
  import opened DeadLetters
  import opened Filters
  import opened RetryTopology
  import opened Settlement
  import opened Text
  import opened Topology
  import opened Wrappers

  /** One more request. */
  lemma AcceptedMore(b: Broker, reqs: seq<Binding>, refused: set<nat>, x: Binding)
    ensures Accepted(b, reqs + [x], refused)
      == Accepted(b, reqs, refused) + if |reqs| !in refused && Bindable(b, x) then {x} else {}
  {
    var more := reqs + [x];
    assert forall i :: 0 <= i < |reqs| ==> more[i] == reqs[i];
    assert more[|reqs|] == x;
    forall y | y in Accepted(b, reqs, refused) ensures y in Accepted(b, more, refused) {
      var i :| 0 <= i < |reqs| && i !in refused && Bindable(b, reqs[i]) && reqs[i] == y;
      assert more[i] == y;
    }
  }

  /** Republish, put together from publishing and settling. */
  lemma RepublishIs(w: World, exchange: string, key: string, uuid: string, f: Faults,
                    w1: World, published: bool, w2: World, done: bool)
    requires uuid in w.active && w1.active == w.active
    requires Publish(w, exchange, key, w.active[uuid], f.publish) == (w1, published)
    requires Settle(w1, w.active[uuid], if published then Moved else RequeueVerb(w, w.active[uuid]), f.settle) == (w2, done)
    ensures Republish(w, exchange, key, uuid, f)
      == w2.(active := w2.active - {uuid}, doubtful := w.doubtful || !done || f.publish == Unconfirmed(true))
  {
  }

  /** The histories of the settlement machine. */
  datatype History = History(
    attempts: seq<Attempt>,
    used: set<string>,
    arrived: set<nat>,
    finished: set<nat>,
    buried: seq<Burial>,
    hindered: bool,
    doubtful: bool)

  class BrokerDetails {
    // The client.
    var knownExchanges: set<string>
    var knownQueues: set<string>
    var knownBindings: set<(string, seq<string>)>
    var activeMessages: map<string, Active>
    var retryChannel: bool
    const maxAcquiredCount: nat

    // The broker.
    var broker: Broker
    var pending: set<Binding>            // bind requests that it has yet to act on
    var content: map<Copy, Held>
    var nextPublication: nat
    var nextTag: nat

    ghost var history: History

    function Topo(): Topology
      reads `broker, `pending, `knownExchanges, `knownQueues, `knownBindings
    {
      Topology(broker, pending, knownExchanges, knownQueues, knownBindings)
    }

    ghost function Abstract(): World
      reads this
    {
      World(Topo(), content, nextPublication, nextTag, activeMessages, retryChannel, maxAcquiredCount,
            history.attempts, history.used, history.arrived, history.finished, history.buried, history.hindered, history.doubtful)
    }

    constructor (b: Broker, cap: nat)
      ensures Abstract() == Start(b, cap)
    {
      knownExchanges, knownQueues, knownBindings := {}, {}, {};
      activeMessages, retryChannel, maxAcquiredCount := map[], false, cap;
      broker, pending, content, nextPublication, nextTag := b, {}, map[], 0, 0;
      history := History([], {}, {}, {}, [], false, false);
    }

    /** The broker notices that the connection is gone. */
    method TakeBackAll()
      modifies `content
      ensures Abstract() == old(Abstract()).(content := TakenBack(old(content), AllTags(old(content))))
    {
      content := TakenBack(content, AllTags(content));
    }

    /** The part of connect that resets the client. */
    method Reconnect()
      modifies `content, `knownExchanges, `knownQueues, `knownBindings, `activeMessages, `retryChannel
      ensures Abstract() == Reconnecting(old(Abstract()))
    {
      TakeBackAll();
      knownExchanges, knownQueues, knownBindings := {}, {}, {};
      activeMessages := map[];
      retryChannel := false;
    }

    // Declarations.

    method DeclareExchange(address: Address, channel: bool, accepted: bool) returns (ok: bool)
      modifies `broker, `knownExchanges
      ensures (Topo(), ok) == ExchangeDeclared(old(Topo()), address, channel, accepted)
    {
      if Contains(address.name, "amq.") {
        return true;
      }
      if !channel {
        return false;
      }
      var known := address.name in knownExchanges;
      if !known {
        var exchangeType := ExchangeTypeOf(address.kind);
        if !accepted || address.name == "" {
          return false;
        }
        if address.name !in broker.exchanges {
          if exchangeType.None? {
            return false;
          }
          broker := broker.(exchanges := broker.exchanges[address.name := exchangeType.value]);
        }
        knownExchanges := knownExchanges + {address.name};
      }
      ok := true;
    }

    method DeclareQueue(src: Source, force: bool, channel: bool, accepted: bool) returns (ok: bool)
      modifies `broker, `knownQueues
      ensures (Topo(), ok) == QueueDeclared(old(Topo()), src, force, channel, accepted)
    {
      var known := src.name in knownQueues;
      if known && !force {
        return true;
      }
      if !channel {
        return false;
      }
      var args := ReadArguments(src);
      if args.None? {
        return false;
      }
      if accepted && src.name !in broker.queues {
        broker := broker.(queues := broker.queues[src.name := args.value]);
      }
      knownQueues := knownQueues + {src.name};
      ok := true;
    }

    static predicate OptionsRead(src: Source, todo: set<string>, args: Queue) {
      && args.ttl == (if "MessageTTL" in todo then None else Number(src.options, "MessageTTL"))
      && args.expires == (if "Expires" in todo then None else Number(src.options, "Expires"))
      && args.deadLetterExchange == (if "DeadLetterAddress" in todo then None else Lookup(src.options, "DeadLetterAddress"))
      && args.deadLetterKey == (if "DeadLetterSubject" in todo then None else Lookup(src.options, "DeadLetterSubject"))
    }

    static lemma OptionNamesDiffer()
      ensures "MessageTTL" != "Expires" && "DeadLetterAddress" != "DeadLetterSubject"
      ensures "MessageTTL" != "DeadLetterAddress" && "MessageTTL" != "DeadLetterSubject"
      ensures "Expires" != "DeadLetterAddress" && "Expires" != "DeadLetterSubject"
    {
      assert "DeadLetterAddress"[10] != "DeadLetterSubject"[10];
    }

    /** The switch over one option. */
    static method ReadOption(src: Source, todo: set<string>, args: Queue, option: string) returns (read: Option<Queue>)
      requires todo <= src.options.Keys && option in todo && OptionsRead(src, todo, args)
      ensures read.Some? <==> OptionOk(option, src.options[option])
      ensures read.Some? ==> OptionsRead(src, todo - {option}, read.value)
      ensures read.Some? ==> read.value.kind == args.kind && read.value.singleActive == args.singleActive
    {
      OptionNamesDiffer();
      var value := src.options[option];
      if option == "MessageTTL" {
        var val := Atoi(value);
        if val.None? {
          return None;
        }
        read := Some(args.(ttl := val));
      } else if option == "Expires" {
        var val := Atoi(value);
        if val.None? {
          return None;
        }
        read := Some(args.(expires := val));
      } else if option == "DeadLetterAddress" {
        read := Some(args.(deadLetterExchange := Some(value)));
      } else if option == "DeadLetterSubject" {
        read := Some(args.(deadLetterKey := Some(value)));
      } else {
        read := None;
      }
    }

    /** The part of declareQueue that fills the argument table; options come in no particular order. */
    static method ReadArguments(src: Source) returns (r: Option<Queue>)
      ensures r == QueueArgs(src)
    {
      var kind := QueueKind(src);
      if kind.None? {
        return None;
      }
      var args := Queue(kind.value, None, None, None, None, false);
      var todo := src.options.Keys;
      while todo != {}
        invariant todo <= src.options.Keys
        invariant forall o :: o in src.options && o !in todo ==> OptionOk(o, src.options[o])
        invariant OptionsRead(src, todo, args) && args.kind == kind.value && !args.singleActive
      {
        var option :| option in todo;
        var read := ReadOption(src, todo, args, option);
        if read.None? {
          return None;
        }
        args := read.value;
        todo := todo - {option};
      }
      if src.singleActive {
        args := args.(singleActive := true);
      }
      if (src.autoDelete || src.exclusive) && args.expires.None? {
        args := args.(expires := Some(5 * 60 * 1000));
      }
      r := Some(args);
    }

    /** The request is sent without waiting for an answer. */
    method QueueBind(x: Binding, accepted: bool, late: bool)
      modifies `broker, `pending
      ensures var added := if accepted && Bindable(old(broker), x) then {x} else {};
        && broker == old(broker).(bindings := old(broker.bindings) + if late then {} else added)
        && pending == old(pending) + if late then added else {}
    {
      if accepted && x.exchange in broker.exchanges && x.queue in broker.queues {
        if late {
          pending := pending + {x};
        } else {
          broker := broker.(bindings := broker.bindings + {x});
        }
      }
    }

    /** cleanupBindings: what the management interface lists between queue and exchange, minus the wanted keys. */
    method CleanupBindings(src: Source, subjects: seq<string>, f: BindFaults)
      modifies `broker
      ensures broker == old(broker).(bindings := Cleaned(old(broker.bindings), src, subjects, f))
    {
      var listed := if f.listed then set x | x in broker.bindings && InPair(x, src) else {};
      ghost var start := broker.bindings;
      var todo := listed;
      while todo != {}
        invariant todo <= listed
        invariant broker == old(broker).(bindings := broker.bindings)
        invariant broker.bindings == start - set x | x in listed - todo && x.key !in subjects && x !in f.refusedDeletes
      {
        var binding :| binding in todo;
        var bindingExpected := false;
        for i := 0 to |subjects|
          invariant bindingExpected <==> binding.key in subjects[..i]
        {
          if binding.key == subjects[i] {
            bindingExpected := true;
            assert subjects[i] in subjects;
            break;
          }
        }
        assert bindingExpected <==> binding.key in subjects;
        if !bindingExpected && binding !in f.refusedDeletes {
          broker := broker.(bindings := broker.bindings - {binding});
        }
        todo := todo - {binding};
      }
    }

    /** The loop over the filters of a FILTER address. */
    static method CompileFilters(src: Source) returns (matchHeadersList: seq<Table>)
      ensures matchHeadersList == Tables(src)
    {
      matchHeadersList := [];
      if src.address.kind == FilterAddress {
        for i := 0 to |src.filters|
          invariant matchHeadersList == FilterTables(src.filters[..i])
        {
          var matchHeaders := CompileFilter(src.filters[i]);
          matchHeadersList := matchHeadersList + [matchHeaders];
          assert src.filters[..i + 1][..i] == src.filters[..i];
        }
        assert src.filters[..|src.filters|] == src.filters;
      }
    }

    method DeclareBinding(src: Source, force: bool, f: BindFaults) returns (ok: bool)
      modifies `broker, `pending, `knownBindings
      ensures (Topo(), ok) == BindingDeclared(old(Topo()), src, force, f)
    {
      var key := (src.name, src.address.subjects);
      if key in knownBindings && !force {
        return true;
      }
      var matchHeadersList := CompileFilters(src);
      var subjects := src.address.subjects;
      if |subjects| == 0 && |matchHeadersList| > 0 {
        subjects := subjects + [""];
      }
      assert subjects == Wanted(src);
      if !f.channel {
        return false;
      }
      BindAll(src, subjects, matchHeadersList, f);
      CleanupBindings(src, subjects, f);
      knownBindings := knownBindings + {key};
      ok := true;
    }

    /** The bindings in effect, and those pending, after these requests have been sent. */
    static ghost function InEffectAfter(b: Broker, reqs: seq<Binding>, f: BindFaults): set<Binding> {
      b.bindings + if f.late then {} else Accepted(b, reqs, f.refusedBinds)
    }

    static ghost function PendingAfter(b: Broker, waiting: set<Binding>, reqs: seq<Binding>, f: BindFaults): set<Binding> {
      waiting + if f.late then Accepted(b, reqs, f.refusedBinds) else {}
    }

    ghost predicate Bound(b: Broker, waiting: set<Binding>, reqs: seq<Binding>, f: BindFaults)
      reads `broker, `pending
    {
      broker == b.(bindings := InEffectAfter(b, reqs, f)) && pending == PendingAfter(b, waiting, reqs, f)
    }

    /** The loops over subjects and tables; refused requests are only logged. */
    method BindAll(src: Source, subjects: seq<string>, tables: seq<Table>, f: BindFaults)
      requires tables == Tables(src)
      modifies `broker, `pending
      ensures Bound(old(broker), old(pending), Rows(src, subjects), f)
    {
      ghost var b, waiting := broker, pending;
      var request: nat := 0;
      for i := 0 to |subjects|
        invariant request == |Rows(src, subjects[..i])|
        invariant Bound(b, waiting, Rows(src, subjects[..i]), f)
      {
        request := BindRow(src, subjects[i], tables, request, f, b, waiting, Rows(src, subjects[..i]));
        assert subjects[..i + 1][..i] == subjects[..i];
      }
      assert subjects[..|subjects|] == subjects;
    }

    /** The inner loop: one request for each table, or one without a table; `request` counts them all. */
    method BindRow(src: Source, subject: string, tables: seq<Table>, request: nat, f: BindFaults,
                   ghost b: Broker, ghost waiting: set<Binding>, ghost before: seq<Binding>) returns (next: nat)
      requires tables == Tables(src) && request == |before| && Bound(b, waiting, before, f)
      modifies `broker, `pending
      ensures next == |before + Row(src, subject)| && Bound(b, waiting, before + Row(src, subject), f)
    {
      next := request;
      if |tables| > 0 {
        assert before + RowOf(src, subject, tables[..0]) == before;
        for j := 0 to |tables|
          invariant next == |before + RowOf(src, subject, tables[..j])|
          invariant Bound(b, waiting, before + RowOf(src, subject, tables[..j]), f)
        {
          BindMore(b, waiting, before, src, subject, tables, j, f);
          QueueBind(Binding(src.address.name, src.name, subject, tables[j]), next !in f.refusedBinds, f.late);
          next := next + 1;
        }
        assert tables[..|tables|] == tables;
      } else {
        var none: seq<Table> := [map[]];
        assert before + RowOf(src, subject, none[..0]) == before && none[..1] == none;
        BindMore(b, waiting, before, src, subject, none, 0, f);
        QueueBind(Binding(src.address.name, src.name, subject, map[]), next !in f.refusedBinds, f.late);
        next := next + 1;
      }
    }

    /** The requests up to a table, one more, and what the broker does with it. */
    static lemma BindMore(b: Broker, waiting: set<Binding>, before: seq<Binding>, src: Source, subject: string,
                          tables: seq<Table>, j: nat, f: BindFaults)
      requires j < |tables|
      ensures var x := Binding(src.address.name, src.name, subject, tables[j]);
        var done := before + RowOf(src, subject, tables[..j]);
        var added := if |done| !in f.refusedBinds && Bindable(b, x) then {x} else {};
        && before + RowOf(src, subject, tables[..j + 1]) == done + [x]
        && InEffectAfter(b, done + [x], f) == InEffectAfter(b, done, f) + (if f.late then {} else added)
        && PendingAfter(b, waiting, done + [x], f) == PendingAfter(b, waiting, done, f) + (if f.late then added else {})
    {
      var x := Binding(src.address.name, src.name, subject, tables[j]);
      assert tables[..j + 1][..j] == tables[..j];
      assert RowOf(src, subject, tables[..j + 1]) == RowOf(src, subject, tables[..j]) + [x];
      AcceptedMore(b, before + RowOf(src, subject, tables[..j]), f.refusedBinds, x);
    }

    /** Exchange, queue and binding in a row, as setupDeadLetter and Retry declare them: only the last result matters. */
    method DeclareAll(src: Source, force: bool, f: DeclareFaults) returns (ok: bool)
      modifies `broker, `pending, `knownExchanges, `knownQueues, `knownBindings
      ensures (Topo(), ok) == Declared(old(Topo()), src, force, f)
    {
      ok := DeclareExchange(src.address, f.exchangeChannel, f.exchange);
      ok := DeclareQueue(src, force, f.queueChannel, f.queue);
      ok := DeclareBinding(src, force, f.bind);
    }

    /** The declarations of queueSubscribe, setupDeadLetter included. */
    method Subscribe(source: Source, home: DeclareFaults, dead: DeclareFaults) returns (ok: bool)
      modifies `broker, `pending, `knownExchanges, `knownQueues, `knownBindings
      ensures (Topo(), ok) == Subscribed(old(Topo()), Subscribing(source), home, dead)
    {
      var src := source;
      if src.autoDelete {
        src := src.(kind := TemporarySource);
      }
      src := src.(name := SourceName(src));
      assert src == Subscribing(source);
      var ignored := DeclareExchange(src.address, home.exchangeChannel, home.exchange);
      var queued := DeclareQueue(src, true, home.queueChannel, home.queue);
      if !queued {
        return false;
      }
      var bound := DeclareBinding(src, true, home.bind);
      if !bound {
        return false;
      }
      SetupDeadLetter(src, dead);
      ok := true;
    }

    method SetupDeadLetter(src: Source, f: DeclareFaults)
      modifies `broker, `pending, `knownExchanges, `knownQueues, `knownBindings
      ensures Topo() == DeadLetterDeclared(old(Topo()), src, f)
    {
      if "DeadLetterAddress" !in src.options {
        return;
      }
      var subject := src.name;
      if "DeadLetterSubject" in src.options {
        subject := src.options["DeadLetterSubject"];
      }
      var address := Address(src.options["DeadLetterAddress"], TopicAddress, [subject]);
      var name := RemoveFirst(src.name, ".quorum") + ".dlq";
      var dead := Source(name, TemporarySource, address, false, false, false, map[], []);
      assert dead == DeadLetterSource(src, src.options["DeadLetterAddress"]);
      var ignored := DeclareAll(dead, true, f);
    }

    // Settling.

    /** message.Ack: the broker drops the message, if it still waits for this delivery. */
    method MessageAck(rm: Active, ok: bool, ghost moved: bool) returns (done: bool)
      modifies `content, `history
      ensures (Abstract(), done) == Settle(old(Abstract()), rm, if moved then Moved else Acked, ok)
    {
      done := ok && rm.copy in content && content[rm.copy].unacked == Some(rm.tag);
      history := history.(attempts := history.attempts + [Attempt(rm.tag, if moved then Moved else Acked, done)]);
      if done {
        content := content - {rm.copy};
        if !moved {
          history := history.(finished := history.finished + {rm.lid});
        }
      }
    }

    /** message.Nack: the cap overrides a requeue. */
    method MessageNack(rm: Active, requeue: bool, ok: bool) returns (done: bool)
      modifies `content, `history
      ensures (Abstract(), done)
        == Settle(old(Abstract()), rm, if requeue then RequeueVerb(old(Abstract()), rm) else Rejected, ok)
    {
      var again := requeue;
      if again {
        var maxed := MaxAcquiredCountHit(rm.acquired, maxAcquiredCount);
        if maxed {
          again := false;
        }
      }
      done := ok && rm.copy in content && content[rm.copy].unacked == Some(rm.tag);
      history := history.(attempts := history.attempts + [Attempt(rm.tag, if again then Requeued else Rejected, done)]);
      if done {
        if again {
          content := content[rm.copy := content[rm.copy].(unacked := None)];
        } else {
          history := history.(finished := history.finished + {rm.lid},
                              buried := history.buried + [BurialOf(Abstract(), rm)]);
          content := content - {rm.copy};
        }
      }
    }

    method Ack(msgid: string, f: Faults) returns (ok: bool)
      modifies `content, `history, `activeMessages
      ensures (Abstract(), ok) == Settlement.Ack(old(Abstract()), msgid, f)
    {
      if !f.client || msgid !in activeMessages {
        return false;
      }
      var done := MessageAck(activeMessages[msgid], f.settle, false);
      if !done {
        activeMessages := Without(activeMessages, msgid);
        return false;
      }
      activeMessages := Without(activeMessages, msgid);
      ok := true;
    }

    method Nack(msgid: string, f: Faults) returns (ok: bool)
      modifies `content, `history, `activeMessages
      ensures (Abstract(), ok) == Settlement.Nack(old(Abstract()), msgid, f)
    {
      if !f.client || msgid !in activeMessages {
        return false;
      }
      var done := MessageNack(activeMessages[msgid], false, f.settle);
      if !done {
        activeMessages := Without(activeMessages, msgid);
        return false;
      }
      activeMessages := Without(activeMessages, msgid);
      ok := true;
    }

    method DeadLetter(msgid: string, f: Faults) returns (ok: bool)
      modifies `content, `history, `activeMessages
      ensures (Abstract(), ok) == Settlement.DeadLetter(old(Abstract()), msgid, f)
    {
      if !f.client || msgid !in activeMessages {
        return false;
      }
      var ignored := MessageNack(activeMessages[msgid], false, f.settle);
      activeMessages := Without(activeMessages, msgid);
      ok := true;
    }

    /** Publishing with confirmation. */
    method ChannelPublish(exchange: string, key: string, rm: Active, header: HeaderValue, p: Publishing) returns (ok: bool)
      requires header == Bumped(rm.retries)
      modifies `content, `nextPublication
      ensures (Abstract(), ok) == Publish(old(Abstract()), exchange, key, rm, p)
    {
      if exchange !in broker.exchanges || p == Unconfirmed(false) {
        return false;
      }
      var queues := Route(broker, exchange, key, map[]);
      var m := Held(rm.lid, rm.home, key, 0, 0, header, Trail(rm.trail.first, rm.trail.hops + 1), None);
      content := content + map q | q in queues :: Copy(nextPublication, q) := m;
      nextPublication := nextPublication + 1;
      ok := p.Confirmed?;
    }

    /** The exchange, queue and binding of a delayed retry. */
    method DeclareRetry(address: string, delay: nat, f: DeclareFaults) returns (name: string, bound: bool)
      modifies `broker, `pending, `knownExchanges, `knownQueues, `knownBindings
      ensures name == RetryName(address, delay)
      ensures (Topo(), bound) == Declared(old(Topo()), RetrySource(address, delay), false, f)
    {
      var options := map["MessageTTL" := Itoa(delay * 1000), "DeadLetterAddress" := ""];
      name := address + ".retry." + Itoa(delay) + "s";
      var retryAddress := Address(name, TopicAddress, ["#"]);
      var retrySource := Source(name, QueueSource, retryAddress, false, false, false, options, []);
      assert retrySource == RetrySource(address, delay);
      bound := DeclareAll(retrySource, false, f);
    }

    /** The same, with a record of whether something went wrong. */
    method PrepareRetry(address: string, delay: nat, f: DeclareFaults) returns (name: string, bound: bool)
      modifies `broker, `pending, `knownExchanges, `knownQueues, `knownBindings, `history
      ensures name == RetryName(address, delay)
      ensures var (t, b) := Declared(old(Topo()), RetrySource(address, delay), false, f);
        bound == b && Abstract() == old(Abstract()).(topo := t, hindered := old(history.hindered) || !Accepting(f))
    {
      name, bound := DeclareRetry(address, delay, f);
      history := history.(hindered := history.hindered || !Accepting(f));
    }

    method Retry(src: Source, msgid: string, delay: nat, f: Faults) returns (ok: bool)
      modifies this
      ensures (Abstract(), ok) == Settlement.Retry(old(Abstract()), src, msgid, delay, f)
    {
      if !f.client {
        return false;
      }
      var name := SourceName(src);
      if msgid !in activeMessages {
        return false;
      }
      var rm := activeMessages[msgid];
      if !retryChannel {
        if !f.channel {
          return false;
        }
        retryChannel := true;
      }
      var retryName, bound := PrepareRetry(src.address.name, delay, f.declare);
      if !bound {
        return false;
      }
      PublishAndSettle(retryName, name, msgid, rm, f);
      ok := true;
    }

    /** Requeue the original when publishing failed, acknowledge it otherwise. */
    method SettleOriginal(rm: Active, published: bool, ok: bool) returns (done: bool)
      modifies `content, `history
      ensures (Abstract(), done)
        == Settle(old(Abstract()), rm, if published then Moved else RequeueVerb(old(Abstract()), rm), ok)
    {
      if !published {
        done := MessageNack(rm, true, ok);
      } else {
        done := MessageAck(rm, ok, true);
      }
    }

    /** The end of Retry: publish again, then requeue or acknowledge the original, and forget it. */
    method PublishAndSettle(exchange: string, key: string, msgid: string, rm: Active, f: Faults)
      requires msgid in activeMessages && activeMessages[msgid] == rm
      modifies `content, `nextPublication, `history, `activeMessages
      ensures Abstract() == Republish(old(Abstract()), exchange, key, msgid, f)
    {
      var header := UpdateRetryCountHeader(rm.retries);
      ghost var w := Abstract();
      var published := ChannelPublish(exchange, key, rm, header, f.publish);
      ghost var w1 := Abstract();
      var done := SettleOriginal(rm, published, f.settle);
      ghost var w2 := Abstract();
      RepublishIs(w, exchange, key, msgid, f, w1, published, w2, done);
      activeMessages := Without(activeMessages, msgid);
      history := history.(doubtful := w.doubtful || !done || f.publish == Unconfirmed(true));
    }

    /** The server's ack dispatch for one request on the stream of `src`. */
    method HandleAck(src: Source, req: AckRequest, f: Faults) returns (success: bool)
      modifies this
      ensures (Abstract(), success) == Dispatch(old(Abstract()), src, req, f)
    {
      if req.uuid == "" {
        success := false;
      } else if req.nack && req.delay > 0 {
        success := Retry(src, req.uuid, req.delay, f);
        if !success {
          success := Nack(req.uuid, f);
        }
      } else if req.nack {
        var deadLettering := "DeadLetterAddress" in src.options;
        success := true;
        if deadLettering {
          success := DeadLetter(req.uuid, f);
        }
        if !deadLettering || !success {
          success := Nack(req.uuid, f);
        }
      } else {
        success := Ack(req.uuid, f);
      }
    }

    // Deliveries.

    /** One turn of the consumer's loop: the broker hands out a message, the loop checks the cap. */
    method Deliver(c: Copy, messageUUID: string, ok: bool)
      requires c in content
      modifies `content, `nextTag, `history, `activeMessages
      ensures Abstract() == Delivered(old(Abstract()), c, messageUUID, ok)
    {
      var m := content[c];
      var msg := Active(c, nextTag, m.lid, m.home, Int64(m.acquired), m.retries, m.trail);
      history := history.(used := history.used + {messageUUID});
      nextTag := nextTag + 1;
      var maxed := MaxAcquiredCountHit(msg.acquired, maxAcquiredCount);
      content := content[c := m.(acquired := m.acquired + 1,
                                 delivered := if maxed then m.delivered else m.delivered + 1,
                                 unacked := Some(msg.tag))];
      assert Abstract() == HandedOut(old(Abstract()), c, messageUUID) && msg == ActiveOf(old(Abstract()), c);
      if maxed {
        var ignored := MessageNack(msg, false, ok);
        return;
      }
      activeMessages := activeMessages[messageUUID := msg];
    }
  }
}

/**
 The exchange, queue and binding behind a delayed retry, and what the broker and the
 client's caches look like after they have been declared (Retry in
 internal/provider/connectors/amqp091/amqp091.go).
 */
module RetryTopology {
  import opened Amqp
  import opened Counters
  import opened Text
  import opened Topology
  import opened Wrappers

  /** The name shared by the retry exchange and the retry queue of an address and a delay in seconds. */
  function RetryName(address: string, delay: nat): string {
    address + ".retry." + Itoa(delay) + "s"
  }

  predicate IsDelay(d: nat) { 0 < d < TWO_31 }

  ghost predicate IsRetryName(name: string) {
    exists address: string, d: nat :: IsDelay(d) && name == RetryName(address, d)
  }

  /** The source Retry builds; its name is used as it is, without the ".quorum" suffix. */
  function RetrySource(address: string, delay: nat): Source {
    var n := RetryName(address, delay);
    Source(n, QueueSource, Address(n, TopicAddress, ["#"]), false, false, false,
           map["MessageTTL" := Itoa(delay * 1000), "DeadLetterAddress" := ""], [])
  }

  /** The retry queue: messages expire after the delay and are dead-lettered to the default exchange. */
  function RetryQueue(delay: nat): Queue {
    Queue("quorum", Some(delay * 1000), None, Some(""), None, false)
  }

  function HashBinding(name: string): Binding { Binding(name, name, "#", map[]) }

  /** Outcomes of the requests that declare an exchange, a queue and a binding. */
  datatype DeclareFaults = DeclareFaults(
    exchangeChannel: bool, exchange: bool,
    queueChannel: bool, queue: bool,
    bind: BindFaults)

  /** Nothing was refused or late; the binding's channel may still have been unavailable, which is reported. */
  predicate Accepting(f: DeclareFaults) {
    f.exchangeChannel && f.exchange && f.queueChannel && f.queue && f.bind.refusedBinds == {} && !f.bind.late
  }

  /** Errors of the exchange and queue declarations are dropped; a refused bind request is only logged. */
  function Declared(t: Topology, src: Source, force: bool, f: DeclareFaults): (Topology, bool) {
    var t1 := ExchangeDeclared(t, src.address, f.exchangeChannel, f.exchange).0;
    var t2 := QueueDeclared(t1, src, force, f.queueChannel, f.queue).0;
    BindingDeclared(t2, src, force, f.bind)
  }

  /** Declaring takes no queue away and changes no arguments. */
  predicate QueuesStay(t: Topology, t1: Topology) {
    forall q :: q in t.broker.queues ==> q in t1.broker.queues && t1.broker.queues[q] == t.broker.queues[q]
  }

  lemma ExchangeKeepsQueues(t: Topology, a: Address, channel: bool, accepted: bool)
    ensures QueuesStay(t, ExchangeDeclared(t, a, channel, accepted).0)
  {
  }

  lemma QueueKeepsQueues(t: Topology, src: Source, force: bool, channel: bool, accepted: bool)
    ensures QueuesStay(t, QueueDeclared(t, src, force, channel, accepted).0)
  {
  }

  lemma BindingKeepsQueues(t: Topology, src: Source, force: bool, f: BindFaults)
    ensures QueuesStay(t, BindingDeclared(t, src, force, f).0)
  {
  }

  lemma DeclaredKeepsQueues(t: Topology, src: Source, force: bool, f: DeclareFaults)
    ensures QueuesStay(t, Declared(t, src, force, f).0)
  {
    var t1 := ExchangeDeclared(t, src.address, f.exchangeChannel, f.exchange).0;
    var t2 := QueueDeclared(t1, src, force, f.queueChannel, f.queue).0;
    ExchangeKeepsQueues(t, src.address, f.exchangeChannel, f.exchange);
    QueueKeepsQueues(t1, src, force, f.queueChannel, f.queue);
    BindingKeepsQueues(t2, src, force, f.bind);
  }

  // Names.

  lemma DotComesNoLater(a: string, m: string, b: string, n: string)
    requires AllDigits(m) && a + "." + m == b + "." + n
    ensures |b| <= |a|
  {
    var s := a + "." + m;
    assert forall i :: |a| < i < |s| ==> s[i] == m[i - |a| - 1];
    assert s[|b|] == '.';
  }

  /** The last dot is where the number starts. */
  lemma DigitsAreSplitOff(a: string, m: string, b: string, n: string)
    requires AllDigits(m) && AllDigits(n) && a + "." + m == b + "." + n
    ensures a == b && m == n
  {
    DotComesNoLater(a, m, b, n);
    DotComesNoLater(b, n, a, m);
    var s := a + "." + m;
    assert s[..|a|] == a && s[..|a|] == b;
    assert s[|a| + 1..] == m && s[|a| + 1..] == n;
  }

  /** Different delays and different addresses never share a retry queue. */
  lemma RetryNameInjective(a: string, c: nat, b: string, d: nat)
    requires RetryName(a, c) == RetryName(b, d)
    ensures a == b && c == d
  {
    var m, n := Itoa(c), Itoa(d);
    ItoaValue(c);
    ItoaValue(d);
    var s := RetryName(a, c);
    assert s == (a + ".retry" + "." + m) + "s" && s == (b + ".retry" + "." + n) + "s";
    assert s[..|s| - 1] == a + ".retry" + "." + m && s[..|s| - 1] == b + ".retry" + "." + n;
    DigitsAreSplitOff(a + ".retry", m, b + ".retry", n);
    assert (a + ".retry")[..|a|] == a && (b + ".retry")[..|b|] == b;
    ItoaInjective(c, d);
  }

  /** The options of a retry source are acceptable and give the retry queue. */
  lemma RetryQueueArgs(address: string, d: nat)
    requires IsDelay(d)
    ensures QueueArgs(RetrySource(address, d)) == Some(RetryQueue(d))
  {
    AtoiItoa(d * 1000);
    var src := RetrySource(address, d);
    assert forall o :: o in src.options ==> OptionOk(o, src.options[o]);
  }

  lemma RetryRequests(address: string, d: nat)
    ensures Requests(RetrySource(address, d)) == [HashBinding(RetryName(address, d))]
  {
    var src := RetrySource(address, d);
    assert Wanted(src) == ["#"] && ["#"][..0] == [];
    var none: seq<Table> := [];
    assert [map[]][..0] == none;
    assert RowOf(src, "#", [map[]]) == [HashBinding(src.name)];
    assert Row(src, "#") == [HashBinding(src.name)];
    assert Rows(src, ["#"]) == Rows(src, []) + Row(src, "#");
  }

  // What one name looks like to the broker and the client.

  datatype View = View(
    exchange: Option<ExchangeType>,
    queue: Option<Queue>,
    bindings: set<Binding>,           // of the exchange
    pending: set<Binding>,
    knownExchange: bool,
    knownQueue: bool,
    knownBinding: bool)               // of the queue, for the key "#"

  function At<V>(m: map<string, V>, name: string): Option<V> {
    if name in m then Some(m[name]) else None
  }

  function ViewOf(t: Topology, name: string): View {
    View(At(t.broker.exchanges, name), At(t.broker.queues, name),
         (set x | x in t.broker.bindings && x.exchange == name), (set x | x in t.pending && x.exchange == name),
         name in t.knownExchanges, name in t.knownQueues, (name, ["#"]) in t.knownBindings)
  }

  /** Declaring under other names changes nothing here. */
  lemma OtherNamesUntouched(t: Topology, src: Source, force: bool, f: DeclareFaults, name: string)
    requires src.name != name && src.address.name != name
    ensures ViewOf(Declared(t, src, force, f).0, name) == ViewOf(t, name)
  {
    var t1 := ExchangeDeclared(t, src.address, f.exchangeChannel, f.exchange).0;
    var t2 := QueueDeclared(t1, src, force, f.queueChannel, f.queue).0;
    OtherExchangeUntouched(t, src.address, f.exchangeChannel, f.exchange, name);
    OtherQueueUntouched(t1, src, force, f.queueChannel, f.queue, name);
    OtherBindingUntouched(t2, src, force, f.bind, name);
  }

  lemma OtherExchangeUntouched(t: Topology, a: Address, channel: bool, accepted: bool, name: string)
    requires a.name != name
    ensures ViewOf(ExchangeDeclared(t, a, channel, accepted).0, name) == ViewOf(t, name)
  {
  }

  lemma OtherQueueUntouched(t: Topology, src: Source, force: bool, channel: bool, accepted: bool, name: string)
    requires src.name != name
    ensures ViewOf(QueueDeclared(t, src, force, channel, accepted).0, name) == ViewOf(t, name)
  {
  }

  lemma OtherBindingUntouched(t: Topology, src: Source, force: bool, f: BindFaults, name: string)
    requires src.name != name && src.address.name != name
    ensures ViewOf(BindingDeclared(t, src, force, f).0, name) == ViewOf(t, name)
  {
    var t1 := BindingDeclared(t, src, force, f).0;
    DeclareIsLocal(t, src, force, f);
    assert forall x: Binding :: x.exchange == name ==> !InPair(x, src);
    assert ViewOf(t1, name).bindings == ViewOf(t, name).bindings;
  }

  /** What a retry sees after declaring, computed from what was there before. */
  function ViewDeclared(v: View, name: string, d: nat, f: DeclareFaults): View {
    var newExchange := !Contains(name, "amq.") && f.exchangeChannel && !v.knownExchange && f.exchange;
    var newQueue := !v.knownQueue && f.queueChannel;
    var exchange := if newExchange && v.exchange.None? then Some(Topic) else v.exchange;
    var queue := if newQueue && f.queue && v.queue.None? then Some(RetryQueue(d)) else v.queue;
    var binds := !v.knownBinding && f.bind.channel;
    var asked := if binds && 0 !in f.bind.refusedBinds && exchange.Some? && queue.Some? then {HashBinding(name)} else {};
    View(exchange, queue,
         if f.bind.late then v.bindings else v.bindings + asked, if f.bind.late then v.pending + asked else v.pending,
         v.knownExchange || newExchange, v.knownQueue || newQueue, v.knownBinding || binds)
  }

  /** Only the retry binding leaves the exchange, now and when pending requests take effect. */
  predicate OnlyHash(v: View, name: string) { v.bindings + v.pending <= {HashBinding(name)} }

  lemma RetryExchangeView(t: Topology, address: string, d: nat, f: DeclareFaults)
    ensures var n, a := RetryName(address, d), RetrySource(address, d).address;
      var v := ViewOf(t, n);
      var newExchange := !Contains(n, "amq.") && f.exchangeChannel && !v.knownExchange && f.exchange;
      ViewOf(ExchangeDeclared(t, a, f.exchangeChannel, f.exchange).0, n)
        == v.(exchange := if newExchange && v.exchange.None? then Some(Topic) else v.exchange,
              knownExchange := v.knownExchange || newExchange)
  {
  }

  lemma RetryQueueView(t: Topology, address: string, d: nat, f: DeclareFaults)
    requires IsDelay(d)
    ensures var n := RetryName(address, d);
      var v := ViewOf(t, n);
      var newQueue := !v.knownQueue && f.queueChannel;
      ViewOf(QueueDeclared(t, RetrySource(address, d), false, f.queueChannel, f.queue).0, n)
        == v.(queue := if newQueue && f.queue && v.queue.None? then Some(RetryQueue(d)) else v.queue,
              knownQueue := v.knownQueue || newQueue)
  {
    RetryQueueArgs(address, d);
  }

  /** What the broker accepts of a retry's one bind request. */
  lemma RetryAccepted(b: Broker, address: string, d: nat, refused: set<nat>)
    ensures var n := RetryName(address, d);
      Accepted(b, Requests(RetrySource(address, d)), refused)
        == if 0 !in refused && n in b.exchanges && n in b.queues then {HashBinding(n)} else {}
  {
    var n := RetryName(address, d);
    RetryRequests(address, d);
    assert [HashBinding(n)][0] == HashBinding(n);
  }

  /** The cleanup spares the retry binding. */
  lemma CleanedKeepsHash(bindings: set<Binding>, address: string, d: nat, f: BindFaults)
    requires forall x :: x in bindings && x.exchange == RetryName(address, d) ==> x == HashBinding(RetryName(address, d))
    ensures var n := RetryName(address, d);
      (set x | x in Cleaned(bindings, RetrySource(address, d), ["#"], f) && x.exchange == n)
        == (set x | x in bindings && x.exchange == n)
  {
  }

  lemma RetryBindingView(t: Topology, address: string, d: nat, f: BindFaults)
    requires OnlyHash(ViewOf(t, RetryName(address, d)), RetryName(address, d))
    ensures var n := RetryName(address, d);
      var v := ViewOf(t, n);
      var binds := !v.knownBinding && f.channel;
      var asked := if binds && 0 !in f.refusedBinds && v.exchange.Some? && v.queue.Some? then {HashBinding(n)} else {};
      var (t1, ok) := BindingDeclared(t, RetrySource(address, d), false, f);
      && ViewOf(t1, n) == v.(bindings := if f.late then v.bindings else v.bindings + asked,
                             pending := if f.late then v.pending + asked else v.pending,
                             knownBinding := v.knownBinding || binds)
      && ok == (v.knownBinding || f.channel)
  {
    var n, src := RetryName(address, d), RetrySource(address, d);
    var v := ViewOf(t, n);
    if !v.knownBinding && f.channel {
      RetryAccepted(t.broker, address, d, f.refusedBinds);
      var accepted := Accepted(t.broker, Requests(src), f.refusedBinds);
      var bound := t.broker.bindings + if f.late then {} else accepted;
      forall x | x in bound && x.exchange == n ensures x == HashBinding(n) {
        assert x in v.bindings || x in accepted;
      }
      CleanedKeepsHash(bound, address, d, f);
    }
  }

  /** What a retry's declarations achieve, whatever was refused. */
  lemma RetryDeclared(t: Topology, address: string, d: nat, f: DeclareFaults)
    requires IsDelay(d) && OnlyHash(ViewOf(t, RetryName(address, d)), RetryName(address, d))
    ensures var n := RetryName(address, d);
      var (t1, ok) := Declared(t, RetrySource(address, d), false, f);
      && ViewOf(t1, n) == ViewDeclared(ViewOf(t, n), n, d, f)
      && ok == (ViewOf(t, n).knownBinding || f.bind.channel)
  {
    var src := RetrySource(address, d);
    var t1 := ExchangeDeclared(t, src.address, f.exchangeChannel, f.exchange).0;
    var t2 := QueueDeclared(t1, src, false, f.queueChannel, f.queue).0;
    RetryExchangeView(t, address, d, f);
    RetryQueueView(t1, address, d, f);
    RetryBindingView(t2, address, d, f.bind);
  }

  // What holds of every retry name in every run.

  /** Whatever exists under a retry name was put there by a retry. */
  predicate Shaped(v: View, name: string, d: nat) {
    && (v.queue.Some? ==> v.queue.value == RetryQueue(d))
    && (v.exchange.Some? ==> v.exchange.value == Topic && !Contains(name, "amq."))
    && (v.knownExchange ==> v.exchange.Some?)
    && OnlyHash(v, name)
  }

  /** What the client remembers is there. */
  predicate Remembered(v: View, name: string) {
    && (v.knownQueue ==> v.queue.Some?)
    && (v.knownBinding ==> v.queue.Some? && (Contains(name, "amq.") || HashBinding(name) in v.bindings))
  }

  ghost predicate AllShaped(t: Topology) {
    forall a: string, d: nat :: IsDelay(d) ==> Shaped(ViewOf(t, RetryName(a, d)), RetryName(a, d), d)
  }

  ghost predicate AllRemembered(t: Topology) {
    forall a: string, d: nat :: IsDelay(d) ==> Remembered(ViewOf(t, RetryName(a, d)), RetryName(a, d))
  }

  /** A retry's declarations keep both, the second one as long as nothing is refused. */
  lemma RetryDeclaredKeeps(t: Topology, address: string, d: nat, f: DeclareFaults)
    requires IsDelay(d) && AllShaped(t)
    ensures AllShaped(Declared(t, RetrySource(address, d), false, f).0)
    ensures AllRemembered(t) && Accepting(f) ==> AllRemembered(Declared(t, RetrySource(address, d), false, f).0)
  {
    var t1 := Declared(t, RetrySource(address, d), false, f).0;
    forall a: string, c: nat | IsDelay(c)
      ensures Shaped(ViewOf(t1, RetryName(a, c)), RetryName(a, c), c)
      ensures AllRemembered(t) && Accepting(f) ==> Remembered(ViewOf(t1, RetryName(a, c)), RetryName(a, c))
    {
      if RetryName(a, c) == RetryName(address, d) {
        RetryNameInjective(a, c, address, d);
        RetryDeclared(t, address, d, f);
      } else {
        OtherNamesUntouched(t, RetrySource(address, d), false, f, RetryName(a, c));
      }
    }
  }

  /** Declarations under other names keep both. */
  lemma OtherDeclaredKeeps(t: Topology, t1: Topology)
    requires forall n :: IsRetryName(n) ==> ViewOf(t1, n) == ViewOf(t, n)
    ensures AllShaped(t) ==> AllShaped(t1)
    ensures AllRemembered(t) ==> AllRemembered(t1)
  {
    forall a: string, d: nat | IsDelay(d) ensures ViewOf(t1, RetryName(a, d)) == ViewOf(t, RetryName(a, d)) {
      assert IsRetryName(RetryName(a, d));
    }
  }

  /** A retry exchange feeds its own queue and no other, and only when that queue is bound. */
  lemma RetryRoute(b: Broker, name: string, key: string)
    requires name in b.exchanges && b.exchanges[name] == Topic && name != ""
    requires forall x :: x in b.bindings && x.exchange == name ==> x == HashBinding(name)
    ensures Route(b, name, key, map[]) == if name in b.queues && HashBinding(name) in b.bindings then {name} else {}
  {
    HashIsOneWord();
    HashMatchesAll(Words(key));
  }

  /** A message that expires in a retry queue goes, by the default exchange, to the queue named by its key and no other. */
  lemma ExpiryRoute(b: Broker, d: nat, key: string, headers: Table)
    ensures DeadLetterRoute(b, RetryQueue(d), key, headers) == if key in b.queues then {key} else {}
  {
  }
}

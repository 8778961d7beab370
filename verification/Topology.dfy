/**
 Exchanges, queues and bindings that the connector declares, together with its
 caches of what it has declared (declareExchange, declareQueue, declareBinding,
 cleanupBindings in internal/provider/connectors/amqp091/amqp091.go), as
 functions on values. Every request the broker can refuse has its own outcome.
 */
module Topology {
  import opened Amqp
  import opened Filters
  import opened Text
  import opened Wrappers

  datatype AddressType = TopicAddress | QueueAddress | FilterAddress | StreamAddress
  datatype Address = Address(name: string, kind: AddressType, subjects: seq<string>)

  datatype SourceType = QueueSource | TemporarySource | StreamSource
  datatype Source = Source(
    name: string,
    kind: SourceType,
    address: Address,
    autoDelete: bool,
    exclusive: bool,
    singleActive: bool,
    options: map<string, string>,
    filters: seq<Filter>)

  /**
   The broker and what one client remembers of it. A known binding is the queue name with the address's subjects.
   Bind requests are sent without waiting for an answer: `pending` holds those the broker has yet to act on.
   */
  datatype Topology = Topology(
    broker: Broker,
    pending: set<Binding>,
    knownExchanges: set<string>,
    knownQueues: set<string>,
    knownBindings: set<(string, seq<string>)>)

  /** Outcomes of the requests one binding declaration makes. */
  datatype BindFaults = BindFaults(
    channel: bool,                    // StandbyChannel
    refusedBinds: set<nat>,           // QueueBind requests, by position
    late: bool,                       // the others take effect later, not at once
    listed: bool,                     // the management GET
    refusedDeletes: set<Binding>)     // the management DELETEs

  const NO_BIND_FAULTS := BindFaults(true, {}, false, true, {})

  // Names.

  const QUORUM := ".quorum"

  predicate HasSuffix(s: string, suffix: string) {
    |s| >= |suffix| && s[|s| - |suffix|..] == suffix
  }

  predicate IsQuorum(src: Source) { !src.autoDelete && src.kind.QueueSource? }

  /** sourceName: durable queues carry the suffix ".quorum". */
  function SourceName(src: Source): string {
    if IsQuorum(src) && !HasSuffix(src.name, QUORUM) then src.name + QUORUM else src.name
  }

  /** Naming a source twice changes nothing more, so Retry finds the queue that Subscribe declared. */
  lemma SourceNameIdempotent(src: Source)
    ensures SourceName(src.(name := SourceName(src))) == SourceName(src)
  {
    if IsQuorum(src) && !HasSuffix(src.name, QUORUM) {
      var n := src.name + QUORUM;
      assert n[|n| - |QUORUM|..] == QUORUM;
    }
  }

  // Exchanges.

  /** addressTypeToAmqpType; no exchange type exists for streams, so the broker refuses that declaration. */
  function ExchangeTypeOf(kind: AddressType): Option<ExchangeType> {
    match kind
    case TopicAddress => Some(Topic)
    case FilterAddress => Some(Headers)
    case QueueAddress => Some(Direct)
    case StreamAddress => None
  }

  /** The default exchange "" is there already and cannot be declared. */
  function ExchangeDeclared(t: Topology, a: Address, channel: bool, accepted: bool): (Topology, bool) {
    if Contains(a.name, "amq.") then (t, true)
    else if !channel then (t, false)
    else if a.name in t.knownExchanges then (t, true)
    else if !accepted || a.name == "" then (t, false)
    else if a.name in t.broker.exchanges then (t.(knownExchanges := t.knownExchanges + {a.name}), true)
    else if ExchangeTypeOf(a.kind).None? then (t, false)
    else (t.(knownExchanges := t.knownExchanges + {a.name},
             broker := t.broker.(exchanges := t.broker.exchanges[a.name := ExchangeTypeOf(a.kind).value])), true)
  }

  // Queues.

  function QueueKind(src: Source): Option<string> {
    if src.autoDelete then Some("classic")
    else match src.kind
      case QueueSource => Some("quorum")
      case TemporarySource => Some("classic")
      case StreamSource => None
  }

  predicate OptionOk(name: string, value: string) {
    || name == "DeadLetterAddress" || name == "DeadLetterSubject"
    || ((name == "MessageTTL" || name == "Expires") && Atoi(value).Some?)
  }

  function Lookup(options: map<string, string>, name: string): Option<string> {
    if name in options then Some(options[name]) else None
  }

  function Number(options: map<string, string>, name: string): Option<int> {
    if name in options then Atoi(options[name]) else None
  }

  const FIVE_MINUTES := 300_000

  /** The arguments of the queue declaration, or None when the source is not acceptable. */
  function QueueArgs(src: Source): Option<Queue> {
    if QueueKind(src).None? || exists o :: o in src.options && !OptionOk(o, src.options[o]) then None
    else
      var expires := Number(src.options, "Expires");
      Some(Queue(
        QueueKind(src).value,
        Number(src.options, "MessageTTL"),
        if expires.None? && (src.autoDelete || src.exclusive) then Some(FIVE_MINUTES) else expires,
        Lookup(src.options, "DeadLetterAddress"),
        Lookup(src.options, "DeadLetterSubject"),
        src.singleActive))
  }

  /** A refused declaration is only logged: the queue counts as known all the same. */
  function QueueDeclared(t: Topology, src: Source, force: bool, channel: bool, accepted: bool): (Topology, bool) {
    if src.name in t.knownQueues && !force then (t, true)
    else if !channel || QueueArgs(src).None? then (t, false)
    else
      var known := t.(knownQueues := t.knownQueues + {src.name});
      if accepted && src.name !in t.broker.queues
      then (known.(broker := t.broker.(queues := t.broker.queues[src.name := QueueArgs(src).value])), true)
      else (known, true)
  }

  // Bindings.

  function FilterTables(filters: seq<Filter>): seq<Table> {
    if filters == [] then [] else FilterTables(filters[..|filters| - 1]) + [TableOf(filters[|filters| - 1])]
  }

  /** One table per filter of a FILTER address; without any, bindings carry no table. */
  function Tables(src: Source): seq<Table> {
    if src.address.kind.FilterAddress? then FilterTables(src.filters) else []
  }

  /** The routing keys the source asks for. */
  function Wanted(src: Source): seq<string> {
    if src.address.subjects == [] && Tables(src) != [] then [""] else src.address.subjects
  }

  function RowOf(src: Source, subject: string, tables: seq<Table>): seq<Binding> {
    if tables == [] then []
    else
      var last := Binding(src.address.name, src.name, subject, tables[|tables| - 1]);
      RowOf(src, subject, tables[..|tables| - 1]) + [last]
  }

  function Row(src: Source, subject: string): seq<Binding> {
    RowOf(src, subject, if Tables(src) == [] then [map[]] else Tables(src))
  }

  function Rows(src: Source, subjects: seq<string>): seq<Binding> {
    if subjects == [] then [] else Rows(src, subjects[..|subjects| - 1]) + Row(src, subjects[|subjects| - 1])
  }

  /** The QueueBind requests of a declaration, in order. */
  function Requests(src: Source): seq<Binding> { Rows(src, Wanted(src)) }

  /** The broker binds existing queues to existing exchanges only. */
  predicate Bindable(b: Broker, x: Binding) { x.exchange in b.exchanges && x.queue in b.queues }

  function Accepted(b: Broker, reqs: seq<Binding>, refused: set<nat>): set<Binding> {
    set i | 0 <= i < |reqs| && i !in refused && Bindable(b, reqs[i]) :: reqs[i]
  }

  predicate InPair(x: Binding, src: Source) { x.exchange == src.address.name && x.queue == src.name }

  /** cleanupBindings: delete what is bound between queue and exchange under an unwanted key. */
  function Cleaned(bindings: set<Binding>, src: Source, wanted: seq<string>, f: BindFaults): set<Binding> {
    if !f.listed then bindings
    else set x | x in bindings && (!InPair(x, src) || x.key in wanted || x in f.refusedDeletes)
  }

  function BindingDeclared(t: Topology, src: Source, force: bool, f: BindFaults): (Topology, bool) {
    var key := (src.name, src.address.subjects);
    if key in t.knownBindings && !force then (t, true)
    else if !f.channel then (t, false)
    else
      var accepted := Accepted(t.broker, Requests(src), f.refusedBinds);
      var bound := t.broker.bindings + if f.late then {} else accepted;
      (t.(broker := t.broker.(bindings := Cleaned(bound, src, Wanted(src), f)),
          pending := t.pending + if f.late then accepted else {},
          knownBindings := t.knownBindings + {key}), true)
  }

  // What a forced declaration achieves.

  /** The routing keys bound between the source's queue and its exchange. */
  ghost function BoundKeys(bindings: set<Binding>, src: Source): set<string> {
    set x | x in bindings && InPair(x, src) :: x.key
  }

  /** The argument tables a binding of this source may carry. */
  predicate Carries(src: Source, args: Table) {
    if Tables(src) == [] then args == map[] else args in Tables(src)
  }

  lemma {:induction false} RowOfContains(src: Source, subject: string, tables: seq<Table>)
    ensures |RowOf(src, subject, tables)| == |tables|
    ensures forall x :: x in RowOf(src, subject, tables) <==> InPair(x, src) && x.key == subject && x.args in tables
  {
    if tables != [] {
      var n := |tables| - 1;
      RowOfContains(src, subject, tables[..n]);
      assert tables == tables[..n] + [tables[n]];
    }
  }

  lemma {:induction false} RowsContain(src: Source, subjects: seq<string>)
    ensures forall x :: x in Rows(src, subjects) <==> InPair(x, src) && x.key in subjects && Carries(src, x.args)
  {
    if subjects != [] {
      var n := |subjects| - 1;
      RowsContain(src, subjects[..n]);
      RowOfContains(src, subjects[n], if Tables(src) == [] then [map[]] else Tables(src));
      assert subjects == subjects[..n] + [subjects[n]];
    }
  }

  /** A request that is accepted for sure. */
  lemma AcceptedContains(b: Broker, reqs: seq<Binding>, refused: set<nat>, x: Binding)
    requires x in reqs && refused == {} && Bindable(b, x)
    ensures x in Accepted(b, reqs, refused)
  {
    var i :| 0 <= i < |reqs| && reqs[i] == x;
    assert i !in refused;
  }

  /** Somebody to bind every wanted key with. */
  lemma WantedIsRequested(src: Source, key: string) returns (x: Binding)
    requires key in Wanted(src)
    ensures x in Requests(src) && InPair(x, src) && x.key == key
  {
    RowsContain(src, Wanted(src));
    x := Binding(src.address.name, src.name, key, if Tables(src) == [] then map[] else Tables(src)[0]);
  }

  lemma WantedKeys(src: Source)
    ensures (set k | k in Wanted(src))
      == (if src.address.subjects != [] then (set k | k in src.address.subjects)
          else if src.address.kind.FilterAddress? && src.filters != [] then {""} else {})
  {
    if src.address.subjects == [] && src.filters != [] {
      TablesOfFilters(src.filters);
    }
  }

  /**
   A forced declaration on an accepting broker leaves exactly these keys bound between queue and exchange: the subjects
   of the address; without subjects, the empty key if there are filters on a filter address, and none otherwise.
   It does nothing when repeated.
   */
  lemma ForcedDeclareReconciles(t: Topology, src: Source)
    requires src.address.name in t.broker.exchanges && src.name in t.broker.queues
    ensures var t1 := BindingDeclared(t, src, true, NO_BIND_FAULTS).0;
      && BoundKeys(t1.broker.bindings, src)
         == (if src.address.subjects != [] then (set k | k in src.address.subjects)
             else if src.address.kind.FilterAddress? && src.filters != [] then {""} else {})
      && BindingDeclared(t1, src, true, NO_BIND_FAULTS) == (t1, true)
  {
    WantedKeys(src);
    var t1 := BindingDeclared(t, src, true, NO_BIND_FAULTS).0;
    RowsContain(src, Wanted(src));
    forall k | k in Wanted(src) ensures k in BoundKeys(t1.broker.bindings, src) {
      var x := WantedIsRequested(src, k);
      AcceptedContains(t.broker, Requests(src), {}, x);
      assert x in t1.broker.bindings;
    }
    var t2 := BindingDeclared(t1, src, true, NO_BIND_FAULTS).0;
    forall x | x in Accepted(t.broker, Requests(src), {}) ensures x in t1.broker.bindings {
    }
    assert Accepted(t1.broker, Requests(src), {}) == Accepted(t.broker, Requests(src), {});
    assert t2.broker.bindings == t1.broker.bindings;
    assert t2.knownBindings == t1.knownBindings;
  }

  /** Whatever is refused or late, a declaration never deletes a wanted key, touches no other pair, and asks for wanted keys only. */
  lemma DeclareIsLocal(t: Topology, src: Source, force: bool, f: BindFaults)
    ensures var after, pending := BindingDeclared(t, src, force, f).0.broker.bindings, BindingDeclared(t, src, force, f).0.pending;
      && t.pending <= pending
      && (forall x :: x in pending && x !in t.pending ==> InPair(x, src) && x.key in Wanted(src))
      && (forall x :: x in t.broker.bindings && InPair(x, src) && x.key in Wanted(src) ==> x in after)
      && (forall x :: !InPair(x, src) ==> (x in after <==> x in t.broker.bindings))
      && (forall x :: x in after && x !in t.broker.bindings ==> x.key in Wanted(src) && x in Requests(src))
  {
    RowsContain(src, Wanted(src));
  }

  /** A declaration whose bind requests are late differs from a prompt one only in when they take effect. */
  lemma LateIsOnlyLate(t: Topology, src: Source, force: bool, f: BindFaults)
    ensures var (late, ok) := BindingDeclared(t, src, force, f.(late := true));
      var (prompt, done) := BindingDeclared(t, src, force, f.(late := false));
      && ok == done && prompt.pending == t.pending
      && late.broker.bindings + late.pending == prompt.broker.bindings + t.pending
      && prompt == late.(pending := t.pending, broker := late.broker.(bindings := prompt.broker.bindings))
  {
    RowsContain(src, Wanted(src));
  }

  lemma {:induction false} TablesOfFilters(filters: seq<Filter>)
    ensures |FilterTables(filters)| == |filters|
    ensures forall i :: 0 <= i < |filters| ==> FilterTables(filters)[i] == TableOf(filters[i])
  {
    if filters != [] {
      TablesOfFilters(filters[..|filters| - 1]);
    }
  }

  /** What a set of filters lets through: a message that one of them accepts. */
  predicate SomeFilterAccepts(filters: seq<Filter>, headers: Table) {
    exists i :: 0 <= i < |filters| && Accepts(filters[i], headers)
  }

  predicate SomeBindingMatches(bindings: set<Binding>, src: Source, headers: Table) {
    exists x :: x in bindings && InPair(x, src) && HeadersMatch(x.args, headers)
  }

  /**
   Filtered delivery: after a forced declaration on an accepting broker, a headers exchange delivers a message to
   the queue exactly when a filter accepts it, or a binding kept from an earlier declaration under a wanted key does.
   On a fresh queue there is no such binding, and the filters alone decide.
   */
  lemma FilteredDelivery(t: Topology, src: Source, key: string, headers: Table)
    requires src.address.kind.FilterAddress? && src.filters != [] && src.address.name != ""
    requires forall i :: 0 <= i < |src.filters| ==> Expressible(src.filters[i])
    requires src.address.name in t.broker.exchanges && t.broker.exchanges[src.address.name] == Headers
    requires src.name in t.broker.queues
    ensures var after := BindingDeclared(t, src, true, NO_BIND_FAULTS).0.broker;
      src.name in Route(after, src.address.name, key, headers) <==>
        SomeFilterAccepts(src.filters, headers) || SomeBindingMatches(Kept(t, src), src, headers)
  {
    var after := BindingDeclared(t, src, true, NO_BIND_FAULTS).0.broker;
    assert src.name in Route(after, src.address.name, key, headers) <==> SomeBindingMatches(after.bindings, src, headers);
    if SomeBindingMatches(after.bindings, src, headers) {
      DeliveredHasReason(t, src, headers);
    }
    if SomeBindingMatches(Kept(t, src), src, headers) {
      DeclareIsLocal(t, src, true, NO_BIND_FAULTS);
    }
    if SomeFilterAccepts(src.filters, headers) {
      AcceptedIsBound(t, src, headers);
    }
  }

  /** On a fresh queue the filters alone decide. */
  lemma FreshQueueIsFiltered(t: Topology, src: Source, key: string, headers: Table)
    requires src.address.kind.FilterAddress? && src.filters != [] && src.address.name != ""
    requires forall i :: 0 <= i < |src.filters| ==> Expressible(src.filters[i])
    requires src.address.name in t.broker.exchanges && t.broker.exchanges[src.address.name] == Headers
    requires src.name in t.broker.queues
    requires forall x :: x in t.broker.bindings ==> !InPair(x, src)
    ensures src.name in Route(BindingDeclared(t, src, true, NO_BIND_FAULTS).0.broker, src.address.name, key, headers)
      <==> SomeFilterAccepts(src.filters, headers)
  {
    FilteredDelivery(t, src, key, headers);
  }

  /** Bindings of an earlier declaration that a declaration of `src` keeps. */
  ghost function Kept(t: Topology, src: Source): set<Binding> {
    set x | x in t.broker.bindings && x.key in Wanted(src)
  }

  lemma DeliveredHasReason(t: Topology, src: Source, headers: Table)
    requires src.address.kind.FilterAddress? && src.filters != []
    requires forall i :: 0 <= i < |src.filters| ==> Expressible(src.filters[i])
    requires SomeBindingMatches(BindingDeclared(t, src, true, NO_BIND_FAULTS).0.broker.bindings, src, headers)
    ensures SomeFilterAccepts(src.filters, headers) || SomeBindingMatches(Kept(t, src), src, headers)
  {
    var after := BindingDeclared(t, src, true, NO_BIND_FAULTS).0.broker;
    var x :| x in after.bindings && InPair(x, src) && HeadersMatch(x.args, headers);
    if x in t.broker.bindings {
      assert x in Kept(t, src);
    } else {
      TablesOfFilters(src.filters);
      RowsContain(src, Wanted(src));
      var i :| 0 <= i < |src.filters| && x.args == TableOf(src.filters[i]);
      ExpressibleIsPreserved(src.filters[i], headers);
    }
  }

  lemma AcceptedIsBound(t: Topology, src: Source, headers: Table)
    requires src.address.kind.FilterAddress? && SomeFilterAccepts(src.filters, headers)
    requires forall i :: 0 <= i < |src.filters| ==> Expressible(src.filters[i])
    requires src.address.name in t.broker.exchanges && src.name in t.broker.queues
    ensures SomeBindingMatches(BindingDeclared(t, src, true, NO_BIND_FAULTS).0.broker.bindings, src, headers)
  {
    var i :| 0 <= i < |src.filters| && Accepts(src.filters[i], headers);
    ExpressibleIsPreserved(src.filters[i], headers);
    TablesOfFilters(src.filters);
    var x := Binding(src.address.name, src.name, Wanted(src)[0], Tables(src)[i]);
    RequestedIsBound(t, src, x);
  }

  lemma RequestedIsBound(t: Topology, src: Source, x: Binding)
    requires src.address.name in t.broker.exchanges && src.name in t.broker.queues
    requires InPair(x, src) && x.key in Wanted(src) && Carries(src, x.args)
    ensures x in BindingDeclared(t, src, true, NO_BIND_FAULTS).0.broker.bindings
  {
    RowsContain(src, Wanted(src));
    AcceptedContains(t.broker, Requests(src), {}, x);
  }

  /** A kept key keeps its old table: narrowing the filter of a subscription does not narrow what is delivered. */
  lemma OldFilterSurvives(t: Topology, src: Source, prior: Filter, headers: Table)
    requires src.address.kind.FilterAddress? && src.filters != [] && src.address.name != ""
    requires forall i :: 0 <= i < |src.filters| ==> Expressible(src.filters[i])
    requires Expressible(prior) && Accepts(prior, headers)
    requires src.address.name in t.broker.exchanges && t.broker.exchanges[src.address.name] == Headers
    requires src.name in t.broker.queues
    ensures var before := BindingDeclared(t, src.(filters := [prior]), true, NO_BIND_FAULTS).0;
      src.name in Route(BindingDeclared(before, src, true, NO_BIND_FAULTS).0.broker, src.address.name, "", headers)
  {
    var first := src.(filters := [prior]);
    var before := BindingDeclared(t, first, true, NO_BIND_FAULTS).0;
    assert first.filters[0] == prior;
    AcceptedIsBound(t, first, headers);
    var x :| x in before.broker.bindings && InPair(x, first) && HeadersMatch(x.args, headers);
    assert Wanted(first) == Wanted(src);
    assert x in Kept(before, src) by {
      RowsContain(first, Wanted(first));
    }
    assert SomeBindingMatches(Kept(before, src), src, headers);
    FilteredDelivery(before, src, "", headers);
  }
}

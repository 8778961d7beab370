/**
 The broker's routing rules that the connector relies on: AMQP 0-9-1 sections
 3.1.3.1 (direct and default exchange), 3.1.3.3 (topic) and 3.1.3.4 (headers),
 and RabbitMQ's per-queue TTL and dead-letter arguments.
 */
module Amqp {
  import opened Text
  import opened Wrappers

  type Table = map<string, string>

  datatype ExchangeType = Direct | Topic | Headers

  /** The arguments of a queue declaration that the connector sets. */
  datatype Queue = Queue(
    kind: string,                       // x-queue-type
    ttl: Option<int>,                   // x-message-ttl
    expires: Option<int>,               // x-expires
    deadLetterExchange: Option<string>, // x-dead-letter-exchange
    deadLetterKey: Option<string>,      // x-dead-letter-routing-key
    singleActive: bool)                 // x-single-active-consumer

  datatype Binding = Binding(exchange: string, queue: string, key: string, args: Table)

  datatype Broker = Broker(
    exchanges: map<string, ExchangeType>,
    queues: map<string, Queue>,
    bindings: set<Binding>)

  /** The words of a routing key or topic pattern. */
  function Words(key: string): seq<string> { Split(key, ".") }

  /** Topic pattern matching: "*" stands for one word, "#" for zero or more. */
  predicate TopicMatch(pattern: seq<string>, key: seq<string>)
    decreases |pattern| + |key|
  {
    if pattern == [] then key == []
    else if pattern[0] == "#" then TopicMatch(pattern[1..], key) || (key != [] && TopicMatch(pattern, key[1..]))
    else key != [] && (pattern[0] == "*" || pattern[0] == key[0]) && TopicMatch(pattern[1..], key[1..])
  }

  /** Names that start with "x-" carry options and take no part in header matching. */
  predicate Reserved(name: string) { "x-" <= name }

  predicate Agrees(args: Table, headers: Table, name: string) {
    name in args && !Reserved(name) && name in headers && headers[name] == args[name]
  }

  /** Headers matching: "any" asks for one agreeing header, everything else for all of them. */
  predicate HeadersMatch(args: Table, headers: Table) {
    if "x-match" in args && args["x-match"] == "any" then exists name :: name in args && Agrees(args, headers, name)
    else forall name :: name in args && !Reserved(name) ==> Agrees(args, headers, name)
  }

  predicate BindingMatches(t: ExchangeType, b: Binding, key: string, headers: Table) {
    match t
    case Direct => b.key == key
    case Topic => TopicMatch(Words(b.key), Words(key))
    case Headers => HeadersMatch(b.args, headers)
  }

  /** The queues a message published to `exchange` with this key reaches; "" is the default exchange. */
  function Route(b: Broker, exchange: string, key: string, headers: Table): set<string> {
    if exchange == "" then if key in b.queues then {key} else {}
    else if exchange !in b.exchanges then {}
    else set x | x in b.bindings && x.exchange == exchange && x.queue in b.queues
           && BindingMatches(b.exchanges[exchange], x, key, headers) :: x.queue
  }

  /** Where the broker puts a message that expires in, or is rejected from, queue `q`. */
  function DeadLetterRoute(b: Broker, q: Queue, key: string, headers: Table): set<string> {
    if q.deadLetterExchange.None? then {}
    else Route(b, q.deadLetterExchange.value, if q.deadLetterKey.Some? then q.deadLetterKey.value else key, headers)
  }

  /** The pattern "#" matches every key. */
  lemma {:induction false} HashMatchesAll(key: seq<string>)
    ensures TopicMatch(["#"], key)
  {
    assert ["#"][1..] == [];
    if key != [] {
      HashMatchesAll(key[1..]);
    }
  }

  lemma HashIsOneWord()
    ensures Words("#") == ["#"]
  {
    assert "#"[1..] == "" && "#"[0] != "."[0];
    assert [""][1..] == [] && ['#'] + "" == "#";
  }

  /** Every pattern matches itself read as a key, wildcards included. */
  lemma {:induction false} TopicMatchesItself(words: seq<string>)
    ensures TopicMatch(words, words)
  {
    if words != [] {
      TopicMatchesItself(words[1..]);
    }
  }

  // The meaning of topic patterns: the key can be cut so that every word of the pattern takes its part.

  /** "#" takes any words, "*" any one word, and every other word itself. */
  predicate TakesPart(word: string, part: seq<string>) {
    word == "#" || (|part| == 1 && (word == "*" || part[0] == word))
  }

  ghost predicate Cut(pattern: seq<string>, key: seq<string>, lengths: seq<nat>)
    decreases |pattern|
  {
    && |lengths| == |pattern|
    && if pattern == [] then key == []
       else
         var n := lengths[0];
         n <= |key| && TakesPart(pattern[0], key[..n]) && Cut(pattern[1..], key[n..], lengths[1..])
  }

  lemma {:induction false} MatchHasCut(pattern: seq<string>, key: seq<string>) returns (lengths: seq<nat>)
    requires TopicMatch(pattern, key)
    ensures Cut(pattern, key, lengths)
    decreases |pattern| + |key|
  {
    if pattern == [] {
      lengths := [];
    } else if pattern[0] == "#" && !TopicMatch(pattern[1..], key) {
      var rest := MatchHasCut(pattern, key[1..]);
      lengths := [rest[0] + 1] + rest[1..];
      assert key[rest[0] + 1..] == key[1..][rest[0]..];
    } else {
      var n := if pattern[0] == "#" then 0 else 1;
      var rest := MatchHasCut(pattern[1..], key[n..]);
      lengths := [n] + rest;
      assert key[0..] == key && lengths[1..] == rest;
    }
  }

  lemma {:induction false} CutMatches(pattern: seq<string>, key: seq<string>, lengths: seq<nat>)
    requires Cut(pattern, key, lengths)
    ensures TopicMatch(pattern, key)
    decreases |pattern| + |key|
  {
    if pattern == [] {
    } else if pattern[0] == "#" && lengths[0] > 0 {
      var rest := [lengths[0] - 1] + lengths[1..];
      assert key[1..][rest[0]..] == key[lengths[0]..] && rest[1..] == lengths[1..];
      CutMatches(pattern, key[1..], rest);
    } else {
      assert key[0..] == key;
      CutMatches(pattern[1..], key[lengths[0]..], lengths[1..]);
    }
  }

  ghost predicate CanBeCut(pattern: seq<string>, key: seq<string>) {
    exists lengths: seq<nat> :: Cut(pattern, key, lengths)
  }

  /** A pattern matches exactly the keys that can be cut for it. */
  lemma TopicMatchIffCut(pattern: seq<string>, key: seq<string>)
    ensures TopicMatch(pattern, key) <==> CanBeCut(pattern, key)
  {
    if TopicMatch(pattern, key) {
      var lengths := MatchHasCut(pattern, key);
      assert CanBeCut(pattern, key);
    } else if CanBeCut(pattern, key) {
      var lengths: seq<nat> :| Cut(pattern, key, lengths);
      CutMatches(pattern, key, lengths);
    }
  }
}

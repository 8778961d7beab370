/**
 Compiling a source's filters to the argument tables of headers-exchange
 bindings (declareBinding in internal/provider/connectors/amqp091/amqp091.go).
 */
module Filters {
  import opened Amqp
  import opened Text
  import opened Wrappers

  datatype Match = Match(name: string, value: string)
  datatype MatchType = All | Any
  datatype Filter = Filter(matches: seq<Match>, kind: MatchType)

  predicate Holds(m: Match, headers: Table) { m.name in headers && headers[m.name] == m.value }

  /** What a filter means: all its matches hold, or one of them does. */
  predicate Accepts(f: Filter, headers: Table) {
    match f.kind
    case All => forall i :: 0 <= i < |f.matches| ==> Holds(f.matches[i], headers)
    case Any => exists i :: 0 <= i < |f.matches| && Holds(f.matches[i], headers)
  }

  /** The matches written into one map, later ones over earlier ones. */
  function MatchTable(ms: seq<Match>): Table {
    if ms == [] then map[] else MatchTable(ms[..|ms| - 1])[ms[|ms| - 1].name := ms[|ms| - 1].value]
  }

  function TableOf(f: Filter): Table {
    var t := MatchTable(f.matches);
    if t == map[] then t else t["x-match" := if f.kind.Any? then "any" else "all"]
  }

  /** The body of the filter loop in declareBinding. */
  method CompileFilter(f: Filter) returns (matchHeaders: Table)
    ensures matchHeaders == TableOf(f)
  {
    matchHeaders := map[];
    for i := 0 to |f.matches|
      invariant matchHeaders == MatchTable(f.matches[..i])
    {
      matchHeaders := matchHeaders[f.matches[i].name := f.matches[i].value];
      assert f.matches[..i + 1][..i] == f.matches[..i];
    }
    assert f.matches[..|f.matches|] == f.matches;
    if |matchHeaders| > 0 {
      matchHeaders := matchHeaders["x-match" := "all"];
      if f.kind == Any {
        matchHeaders := matchHeaders["x-match" := "any"];
      }
    }
  }

  lemma {:induction false} MatchTableHasAll(ms: seq<Match>)
    ensures forall k :: k in MatchTable(ms) ==> Match(k, MatchTable(ms)[k]) in ms
    ensures forall i :: 0 <= i < |ms| ==> ms[i].name in MatchTable(ms)
  {
    if ms != [] {
      MatchTableHasAll(ms[..|ms| - 1]);
    }
  }

  predicate SameNameSameValue(ms: seq<Match>) {
    forall i, j :: 0 <= i < |ms| && 0 <= j < |ms| && ms[i].name == ms[j].name ==> ms[i].value == ms[j].value
  }

  /** What a caller can check: no reserved name, no contradicting matches, and an ANY filter is not empty. */
  predicate Expressible(f: Filter) {
    && (forall i :: 0 <= i < |f.matches| ==> !Reserved(f.matches[i].name))
    && SameNameSameValue(f.matches)
    && (f.kind.Any? ==> f.matches != [])
  }

  ghost predicate Preserved(f: Filter) {
    forall headers :: HeadersMatch(TableOf(f), headers) <==> Accepts(f, headers)
  }

  lemma ReservedMatch()
    ensures Reserved("x-match")
  {
  }

  lemma ExpressibleIsPreserved(f: Filter, headers: Table)
    requires Expressible(f)
    ensures HeadersMatch(TableOf(f), headers) <==> Accepts(f, headers)
  {
    var t, table := MatchTable(f.matches), TableOf(f);
    MatchTableHasAll(f.matches);
    ReservedMatch();
    forall i | 0 <= i < |f.matches|
      ensures Agrees(table, headers, f.matches[i].name) <==> Holds(f.matches[i], headers)
    {
      var m := f.matches[i];
      assert m.name in t && Match(m.name, t[m.name]) in f.matches;
      assert m.name != "x-match";
    }
    if f.kind.All? {
      if Accepts(f, headers) {
        forall k | k in table && !Reserved(k) ensures Agrees(table, headers, k) {
          var i :| 0 <= i < |f.matches| && f.matches[i] == Match(k, t[k]);
        }
      }
    } else {
      assert f.matches[0].name in t;
      if HeadersMatch(table, headers) {
        var k :| k in table && Agrees(table, headers, k);
        var i :| 0 <= i < |f.matches| && f.matches[i] == Match(k, t[k]);
      }
    }
  }

  /** Headers that tell a filter that is not expressible apart from its table. */
  lemma InexpressibleDiffers(f: Filter) returns (headers: Table)
    requires !Expressible(f)
    ensures HeadersMatch(TableOf(f), headers) != Accepts(f, headers)
  {
    MatchTableHasAll(f.matches);
    ReservedMatch();
    if f.kind.All? {
      headers := AllDiffers(f);
    } else if f.matches == [] {
      headers := map[];
    } else if i :| 0 <= i < |f.matches| && Reserved(f.matches[i].name) {
      headers := map[f.matches[i].name := f.matches[i].value];
      assert Holds(f.matches[i], headers);
      assert f.matches[i].name in MatchTable(f.matches);
    } else {
      var i, j :| 0 <= i < |f.matches| && 0 <= j < |f.matches|
        && f.matches[i].name == f.matches[j].name && f.matches[i].value != f.matches[j].value;
      var n := f.matches[i].name;
      assert n in MatchTable(f.matches) && n != "x-match";
      var k := if MatchTable(f.matches)[n] == f.matches[i].value then j else i;
      headers := map[n := f.matches[k].value];
      assert Holds(f.matches[k], headers);
    }
  }

  /** The headers an ALL table asks for, and no others. */
  lemma AllDiffers(f: Filter) returns (headers: Table)
    requires !Expressible(f) && f.kind.All?
    ensures HeadersMatch(TableOf(f), headers) != Accepts(f, headers)
  {
    MatchTableHasAll(f.matches);
    ReservedMatch();
    var table := TableOf(f);
    headers := map k | k in table && !Reserved(k) :: table[k];
    if i :| 0 <= i < |f.matches| && Reserved(f.matches[i].name) {
      assert !Holds(f.matches[i], headers);
    } else {
      var i, j :| 0 <= i < |f.matches| && 0 <= j < |f.matches|
        && f.matches[i].name == f.matches[j].name && f.matches[i].value != f.matches[j].value;
      assert !Holds(f.matches[i], headers) || !Holds(f.matches[j], headers);
    }
    assert !Accepts(f, headers);
  }

  /** A filter's table accepts exactly the headers the filter accepts if and only if the filter is expressible. */
  lemma PreservedIffExpressible(f: Filter)
    ensures Preserved(f) <==> Expressible(f)
  {
    if Expressible(f) {
      forall headers ensures HeadersMatch(TableOf(f), headers) <==> Accepts(f, headers) {
        ExpressibleIsPreserved(f, headers);
      }
    } else {
      var headers := InexpressibleDiffers(f);
    }
  }
}

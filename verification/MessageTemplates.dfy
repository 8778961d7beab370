/**
 The load tool's "@id@" template (tools/anarkey/types.go): body and headers are
 cut at every marker once, when the file is loaded, and joined around a fresh id
 for each message.
 */
module MessageTemplates {
  import opened Text
  import opened Wrappers

  const MARK := "@id@"

  /** The simple meaning of a template: replace every marker, left to right. */
  function Fill(s: string, id: string): string { ReplaceAll(s, MARK, id) }

  /** The headers that hold a marker, cut at every one of them. */
  function CutHeaders(headers: map<string, string>, keys: set<string>): map<string, seq<string>> {
    map k | k in keys && k in headers && Contains(headers[k], MARK) :: Split(headers[k], MARK)
  }

  lemma CutOneMore(headers: map<string, string>, keys: set<string>, key: string)
    requires key in headers && key !in keys
    ensures CutHeaders(headers, keys + {key}) == if Contains(headers[key], MARK)
      then CutHeaders(headers, keys)[key := Split(headers[key], MARK)] else CutHeaders(headers, keys)
  {
  }

  function FilledHeaders(headers: map<string, string>, keys: set<string>, id: string): map<string, string> {
    map k | k in keys && k in headers :: Fill(headers[k], id)
  }

  lemma FillOneMore(headers: map<string, string>, keys: set<string>, key: string, id: string)
    requires key in headers && key !in keys
    ensures FilledHeaders(headers, keys + {key}, id) == FilledHeaders(headers, keys, id)[key := Fill(headers[key], id)]
  {
  }

  lemma NothingToFill(headers: map<string, string>, id: string)
    requires forall k :: k in headers ==> !Contains(headers[k], MARK)
    ensures FilledHeaders(headers, headers.Keys, id) == headers
  {
    forall k | k in headers ensures Fill(headers[k], id) == headers[k] {
      ReplaceAbsent(headers[k], MARK, id);
    }
  }

  class MessageTemplate {
    var headers: map<string, string>
    var body: string
    var hasUUIDPlaceholder: bool
    var bodyParts: Option<seq<string>>
    var headerParts: map<string, seq<string>>
    var headersWithUUID: seq<string>

    ghost predicate Valid()
      reads this
    {
      && bodyParts == (if Contains(body, MARK) then Some(Split(body, MARK)) else None)
      && headerParts == CutHeaders(headers, headers.Keys)
      && (hasUUIDPlaceholder <==> bodyParts.Some? || headerParts != map[])
      && (forall k :: k in headersWithUUID <==> k in headerParts)
    }

    /** LoadMessageFromFile, after the JSON has been parsed into a body and a header map. */
    constructor Load(parsedBody: string, parsedHeaders: map<string, string>)
      ensures Valid() && body == parsedBody && headers == parsedHeaders
    {
      body, headers := parsedBody, parsedHeaders;
      hasUUIDPlaceholder, bodyParts := false, None;
      headerParts, headersWithUUID := map[], [];
      new;
      if Contains(body, MARK) {
        hasUUIDPlaceholder := true;
        bodyParts := Some(Split(body, MARK));
      }
      var todo := headers.Keys;
      while todo != {}
        invariant body == parsedBody && headers == parsedHeaders && todo <= headers.Keys
        invariant bodyParts == (if Contains(body, MARK) then Some(Split(body, MARK)) else None)
        invariant headerParts == CutHeaders(headers, headers.Keys - todo)
        invariant hasUUIDPlaceholder <==> bodyParts.Some? || headerParts != map[]
        invariant forall k :: k in headersWithUUID <==> k in headerParts
        decreases todo
      {
        var key :| key in todo;
        CutOneMore(headers, headers.Keys - todo, key);
        assert headers.Keys - (todo - {key}) == headers.Keys - todo + {key};
        todo := todo - {key};
        var value := headers[key];
        if Contains(value, MARK) {
          hasUUIDPlaceholder := true;
          headerParts := headerParts[key := Split(value, MARK)];
          headersWithUUID := headersWithUUID + [key];
          assert key in headerParts;
        }
      }
      assert headers.Keys - todo == headers.Keys;
    }

    /** GetBodyAndHeaders: `id` is the UUID generated for this message. */
    method GetBodyAndHeaders(id: string) returns (filledBody: string, filledHeaders: map<string, string>)
      requires Valid()
      ensures filledBody == Fill(body, id)
      ensures filledHeaders == FilledHeaders(headers, headers.Keys, id)
    {
      if !hasUUIDPlaceholder {
        ReplaceAbsent(body, MARK, id);
        forall k | k in headers ensures !Contains(headers[k], MARK) {
          assert k !in headerParts;
        }
        NothingToFill(headers, id);
        return body, headers;
      }
      filledBody := body;
      if bodyParts.Some? {
        filledBody := Join(bodyParts.value, id);
        JoinSplit(body, MARK, id);
      } else {
        ReplaceAbsent(body, MARK, id);
      }
      filledHeaders := map[];
      var todo := headers.Keys;
      while todo != {}
        invariant todo <= headers.Keys
        invariant filledHeaders == FilledHeaders(headers, headers.Keys - todo, id)
        decreases todo
      {
        var key :| key in todo;
        FillOneMore(headers, headers.Keys - todo, key, id);
        assert headers.Keys - (todo - {key}) == headers.Keys - todo + {key};
        todo := todo - {key};
        if key in headerParts {
          JoinSplit(headers[key], MARK, id);
          filledHeaders := filledHeaders[key := Join(headerParts[key], id)];
        } else {
          ReplaceAbsent(headers[key], MARK, id);
          filledHeaders := filledHeaders[key := headers[key]];
        }
      }
      assert headers.Keys - todo == headers.Keys;
    }
  }

  /** Overlapping markers: the left one wins and the rest is plain text. */
  lemma OverlapKeepsTheRest(id: string)
    ensures Fill("@id@id@", id) == id + "id@"
  {
    assert "@id@id@" == MARK + "id@";
    ReplaceFront("id@", MARK, id);
    assert "id@"[1..] == "d@" && "d@"[1..] == "@" && "@"[1..] == "";
  }

  /** The ids that can complete a marker with the text around them. */
  predicate CompletesMarker(id: string) { id == "" || id == "i" || id == "d" || id == "id" }

  /**
   An id without '@' leaves no marker in any filled text exactly when it is not a piece of "id"
   (a 36 character UUID never is).
   */
  lemma NoMarkerRemains(id: string)
    requires '@' !in id
    ensures (forall s :: !Contains(Fill(s, id), MARK)) <==> !CompletesMarker(id)
  {
    if CompletesMarker(id) {
      MarkerReappears(id);
    } else {
      forall s ensures !Contains(Fill(s, id), MARK) {
        NoMarkerIn(s, id);
      }
    }
  }

  lemma MarkerReappears(id: string)
    requires CompletesMarker(id)
    ensures exists s :: Contains(Fill(s, id), MARK)
  {
    if id == "" {
      Rebuilds("", "id@", id);
    } else if id == "i" {
      Rebuilds("", "d@", id);
    } else if id == "d" {
      Rebuilds("i", "@", id);
    } else {
      Rebuilds("", "@", id);
    }
  }

  lemma Rebuilds(pre: string, post: string, id: string)
    requires pre == "" || pre == "i"
    requires |post| < 4 && "@" + pre + id + post == MARK
    ensures exists s :: Contains(Fill(s, id), MARK)
  {
    FillAround(pre, post, id);
    ShortTextUnchanged(post, id);
    var s := ['@'] + (pre + (MARK + post));
    assert ['@'] + (pre + (id + post)) == "@" + pre + id + post;
    MarkContainsItself(s, id);
  }

  lemma FillAround(pre: string, post: string, id: string)
    requires pre == "" || pre == "i"
    ensures Fill(['@'] + (pre + (MARK + post)), id) == ['@'] + (pre + (id + Fill(post, id)))
  {
    var tail := pre + (MARK + post);
    assert (['@'] + tail)[|pre| + 1] == '@';
    ReplaceStep('@', tail, MARK, id);
    ReplaceSkips(pre, MARK + post, MARK, id);
    ReplaceFront(post, MARK, id);
  }

  lemma ShortTextUnchanged(post: string, id: string)
    requires |post| < 4
    ensures Fill(post, id) == post
  {
    ReplaceAbsent(post, MARK, id);
  }

  lemma MarkContainsItself(s: string, id: string)
    requires Fill(s, id) == MARK
    ensures Contains(Fill(s, id), MARK)
  {
    assert MARK[0..] == MARK;
  }

  /** An id that completes no marker never supplies the end of one. */
  lemma IdIsNoTail(id: string, rest: string)
    requires '@' !in id && !CompletesMarker(id)
    ensures !("@" <= id + rest) && !("d@" <= id + rest) && !("id@" <= id + rest)
  {
    var r := id + rest;
    assert r[0] == id[0] && id[0] in id;
    assert "d@" <= r <==> |r| >= 2 && r[0] == 'd' && r[1] == '@';
    assert "id@" <= r <==> |r| >= 3 && r[0] == 'i' && r[1] == 'd' && r[2] == '@';
    if |id| == 1 {
      assert id == [id[0]];
    } else {
      assert r[1] == id[1] && id[1] in id;
      if |id| == 2 {
        assert id == [id[0], id[1]];
      } else {
        assert r[2] == id[2] && id[2] in id;
      }
    }
  }

  lemma ConsPrefix(c: char, p: string, d: char, t: string)
    ensures [c] + p <= [d] + t <==> c == d && p <= t
  {
    var x, y := [c] + p, [d] + t;
    assert x[1..] == p && y[1..] == t;
    if x <= y {
      assert x[0] == y[0];
      assert forall k :: 0 <= k < |p| ==> p[k] == x[k + 1] == y[k + 1] == t[k];
    }
    if c == d && p <= t {
      assert y == x + t[|p|..];
    }
  }

  /** What the filled text starts with, the text started with already. */
  lemma {:induction false} FilledTailWasThere(s: string, id: string, p: string)
    requires '@' !in id && !CompletesMarker(id)
    requires p == "@" || p == "d@" || p == "id@"
    ensures p <= Fill(s, id) ==> p <= s
  {
    if s != "" {
      if MARK <= s {
        IdIsNoTail(id, Fill(s[|MARK|..], id));
      } else {
        assert p == [p[0]] + p[1..] && s == [s[0]] + s[1..];
        ConsPrefix(p[0], p[1..], s[0], Fill(s[1..], id));
        ConsPrefix(p[0], p[1..], s[0], s[1..]);
        if |p| > 1 {
          FilledTailWasThere(s[1..], id, p[1..]);
        }
      }
    }
  }

  lemma NoFreshMarker(s: string, tail: string)
    requires s != "" && !(MARK <= s)
    requires "id@" <= tail ==> "id@" <= s[1..]
    ensures !(MARK <= [s[0]] + tail)
  {
    assert MARK == ['@'] + "id@" && s == [s[0]] + s[1..];
    ConsPrefix('@', "id@", s[0], tail);
    ConsPrefix('@', "id@", s[0], s[1..]);
  }

  lemma {:induction false} NoMarkerIn(s: string, id: string)
    requires '@' !in id && !CompletesMarker(id)
    ensures !Contains(Fill(s, id), MARK)
    decreases |s|
  {
    var r := Fill(s, id);
    if s == "" {
    } else if MARK <= s {
      var rest := s[|MARK|..];
      NoMarkerIn(rest, id);
      forall i | 0 <= i <= |r| ensures !(MARK <= r[i..]) {
        if i < |id| {
          assert r[i..][0] == id[i] && id[i] in id;
        } else {
          assert r[i..] == Fill(rest, id)[i - |id|..];
        }
      }
    } else {
      NoMarkerIn(s[1..], id);
      FilledTailWasThere(s[1..], id, "id@");
      forall i | 0 <= i <= |r| ensures !(MARK <= r[i..]) {
        if i == 0 {
          assert r[0..] == r && r == [s[0]] + Fill(s[1..], id);
          NoFreshMarker(s, Fill(s[1..], id));
        } else {
          assert r[i..] == Fill(s[1..], id)[i - 1..];
        }
      }
    }
  }
}

/**
 Message translation (i18n/message_loader.go): a template is looked up and its
 "{n}" placeholders are filled by one ReplaceAll per argument. The reference
 meaning is a single left-to-right pass that fills all placeholders at once.
 */
module I18n {
  import opened Text

  function Placeholder(i: nat): string { "{" + Itoa(i) + "}" }

  /** The argument whose placeholder starts `s`, or |args| when none does. */
  function HoleAt(s: string, n: nat): (i: nat)
    ensures i <= n
    ensures i < n ==> Placeholder(i) <= s
  {
    if n == 0 then 0
    else
      var i := HoleAt(s, n - 1);
      if i < n - 1 then i else if Placeholder(n - 1) <= s then n - 1 else n
  }

  lemma {:induction false} HoleFound(s: string, n: nat, j: nat)
    requires j < n && Placeholder(j) <= s
    ensures HoleAt(s, n) < n
  {
    if j < n - 1 { HoleFound(s, n - 1, j); }
  }

  /** One simultaneous substitution: argument text is never looked at again. */
  function Substitute(s: string, args: seq<string>): string
    decreases |s|
  {
    if s == "" then ""
    else
      var i := HoleAt(s, |args|);
      if i < |args| then args[i] + Substitute(s[|Placeholder(i)|..], args)
      else [s[0]] + Substitute(s[1..], args)
  }

  predicate BraceFree(s: string) { '{' !in s && '}' !in s }

  /** Position of the first closing brace, or |s|. */
  function Closing(s: string): (k: nat)
    ensures k <= |s| && '}' !in s[..k]
    ensures k < |s| ==> s[k] == '}'
  {
    if s == "" || s[0] == '}' then 0
    else
      var k := Closing(s[1..]);
      assert s[..k + 1] == [s[0]] + s[1..][..k];
      k + 1
  }

  /** Every opening brace starts a "{name}" group with a brace-free name. */
  predicate WellBraced(s: string)
    decreases |s|
  {
    if s == "" then true
    else if s[0] != '{' then WellBraced(s[1..])
    else
      var k := Closing(s);
      k < |s| && '{' !in s[1..k] && WellBraced(s[k + 1..])
  }

  /** Two brace-free labels followed by a closing brace: one is a prefix of the other only if they are equal. */
  lemma {:induction false} DelimitedPrefix(d: string, name: string, rest: string)
    requires '}' !in d && '}' !in name
    ensures d + "}" <= name + ("}" + rest) <==> d == name
  {
    var p, s := d + "}", name + ("}" + rest);
    if d == "" || name == "" {
      assert d != "" ==> p[0] == d[0] && d[0] in d;
      assert name != "" ==> s[0] == name[0] && name[0] in name;
      assert p <= s ==> p[0] == s[0];
      assert "}" <= "}" + rest;
    } else {
      DelimitedPrefix(d[1..], name[1..], rest);
      assert p == [d[0]] + (d[1..] + "}") && s == [name[0]] + (name[1..] + ("}" + rest));
      assert p <= s <==> d[0] == name[0] && p[1..] <= s[1..];
      assert d == name <==> d[0] == name[0] && d[1..] == name[1..] by {
        assert d == [d[0]] + d[1..] && name == [name[0]] + name[1..];
      }
    }
  }

  /** A placeholder that starts "{name}..." is that very group. */
  lemma PrefixIsGroup(i: nat, name: string, rest: string)
    requires BraceFree(name)
    ensures Placeholder(i) <= "{" + name + "}" + rest <==> Itoa(i) == name
  {
    ItoaValue(i);
    DelimitedPrefix(Itoa(i), name, rest);
    var p, s := Placeholder(i), "{" + name + "}" + rest;
    assert p == ['{'] + (Itoa(i) + "}");
    assert s == ['{'] + (name + ("}" + rest));
    assert p <= s <==> p[1..] <= s[1..];
  }

  /** No placeholder starts a text whose first character is not an opening brace. */
  lemma NoHole(s: string, n: nat)
    requires s != "" && s[0] != '{'
    ensures HoleAt(s, n) == n
  {
  }

  /** The pass fills a group that names an argument ... */
  lemma GroupFilled(i: nat, rest: string, args: seq<string>)
    requires i < |args|
    ensures Substitute(Placeholder(i) + rest, args) == args[i] + Substitute(rest, args)
  {
    ItoaValue(i);
    var s := Placeholder(i) + rest;
    var h := HoleAt(s, |args|);
    HoleFound(s, |args|, i);
    PrefixIsGroup(h, Itoa(i), rest);
    ItoaInjective(h, i);
    assert s[|Placeholder(i)|..] == rest;
  }

  /** A character at which no placeholder starts is copied. */
  lemma SubstituteStep(c: char, b: string, args: seq<string>)
    requires c == '{' ==> HoleAt([c] + b, |args|) == |args|
    ensures Substitute([c] + b, args) == [c] + Substitute(b, args)
  {
    if c != '{' { NoHole([c] + b, |args|); }
    assert ([c] + b)[1..] == b;
  }

  /** Text without an opening brace is copied. */
  lemma {:induction false} SubstituteSkips(a: string, b: string, args: seq<string>)
    requires '{' !in a
    ensures Substitute(a + b, args) == a + Substitute(b, args)
  {
    if a == "" {
      assert a + b == b && a + Substitute(b, args) == Substitute(b, args);
    } else {
      var c, t := a[0], a[1..] + b;
      assert a == [c] + a[1..] && a + b == [c] + t;
      assert c in a;
      SubstituteSkips(a[1..], b, args);
      SubstituteStep(c, t, args);
      assert a + Substitute(b, args) == [c] + (a[1..] + Substitute(b, args));
    }
  }

  /** ... and copies any other group. */
  lemma GroupKept(name: string, rest: string, args: seq<string>)
    requires BraceFree(name)
    requires forall i :: 0 <= i < |args| ==> Itoa(i) != name
    ensures Substitute("{" + name + "}" + rest, args) == "{" + name + "}" + Substitute(rest, args)
  {
    var inner := name + "}";
    assert "{" + name + "}" + rest == ['{'] + (inner + rest);
    PrefixIsGroup(HoleAt(['{'] + (inner + rest), |args|), name, rest);
    SubstituteStep('{', inner + rest, args);
    assert '{' !in inner;
    SubstituteSkips(inner, rest, args);
    assert ['{'] + (inner + Substitute(rest, args)) == "{" + name + "}" + Substitute(rest, args);
  }

  /** One round of the loop: replacing "{n}" in a text filled with n arguments fills the next one. */
  lemma {:induction false} ReplaceFillsNext(s: string, args: seq<string>, n: nat)
    requires WellBraced(s) && n < |args|
    requires forall j :: 0 <= j < n ==> '{' !in args[j]
    ensures ReplaceAll(Substitute(s, args[..n]), Placeholder(n), args[n]) == Substitute(s, args[..n + 1])
    decreases |s|
  {
    if s == "" {
    } else if s[0] != '{' {
      ReplaceFillsNext(s[1..], args, n);
      assert s == [s[0]] + s[1..];
      SubstituteSkips([s[0]], s[1..], args[..n]);
      SubstituteSkips([s[0]], s[1..], args[..n + 1]);
      ReplaceSkips([s[0]], Substitute(s[1..], args[..n]), Placeholder(n), args[n]);
    } else {
      var k := Closing(s);
      var name, rest := s[1..k], s[k + 1..];
      assert '}' !in name by {
        assert forall c :: c in name ==> c in s[..k];
      }
      assert s == "{" + name + "}" + rest;
      ReplaceFillsNext(rest, args, n);
      GroupRound(name, rest, args, n);
    }
  }

  lemma GroupRound(name: string, rest: string, args: seq<string>, n: nat)
    requires BraceFree(name) && n < |args|
    requires forall j :: 0 <= j < n ==> '{' !in args[j]
    requires ReplaceAll(Substitute(rest, args[..n]), Placeholder(n), args[n]) == Substitute(rest, args[..n + 1])
    ensures var s := "{" + name + "}" + rest;
      ReplaceAll(Substitute(s, args[..n]), Placeholder(n), args[n]) == Substitute(s, args[..n + 1])
  {
    var pat, rep, tail := Placeholder(n), args[n], Substitute(rest, args[..n]);
    if i :| 0 <= i < n && Itoa(i) == name {
      GroupFilled(i, rest, args[..n]);
      GroupFilled(i, rest, args[..n + 1]);
      ReplaceSkips(args[i], tail, pat, rep);
    } else if Itoa(n) == name {
      GroupKept(name, rest, args[..n]);
      GroupFilled(n, rest, args[..n + 1]);
      ReplaceFront(tail, pat, rep);
    } else {
      GroupKept(name, rest, args[..n]);
      GroupKept(name, rest, args[..n + 1]);
      GroupNotReplaced(name, tail, n, rep);
    }
  }

  lemma GroupNotReplaced(name: string, tail: string, n: nat, rep: string)
    requires BraceFree(name) && Itoa(n) != name
    ensures ReplaceAll("{" + name + "}" + tail, Placeholder(n), rep)
         == "{" + name + "}" + ReplaceAll(tail, Placeholder(n), rep)
  {
    var inner, pat := name + "}", Placeholder(n);
    var text := "{" + name + "}" + tail;
    PrefixIsGroup(n, name, tail);
    assert text == ['{'] + (inner + tail);
    ReplaceStep('{', inner + tail, pat, rep);
    assert pat[0] == '{' && '{' !in inner;
    ReplaceSkips(inner, tail, pat, rep);
    assert ['{'] + (inner + ReplaceAll(tail, pat, rep)) == "{" + name + "}" + ReplaceAll(tail, pat, rep);
  }

  lemma {:induction false} SubstituteNothing(s: string)
    ensures Substitute(s, []) == s
  {
    if s != "" { SubstituteNothing(s[1..]); }
  }

  /** The arguments that are scanned again by a later round: all but the last. */
  predicate SafeArguments(args: seq<string>) {
    forall j :: 0 <= j < |args| - 1 ==> '{' !in args[j]
  }

  /** What the loop computes on any input: one full replacement per argument, in order. */
  function Rounds(template: string, args: seq<string>): string {
    if args == [] then template
    else ReplaceAll(Rounds(template, args[..|args| - 1]), Placeholder(|args| - 1), args[|args| - 1])
  }

  /** On well-braced templates and safe arguments the rounds are one simultaneous substitution. */
  lemma {:induction false} RoundsAreSimultaneous(template: string, args: seq<string>)
    requires WellBraced(template) && SafeArguments(args)
    ensures Rounds(template, args) == Substitute(template, args)
  {
    if args == [] {
      SubstituteNothing(template);
    } else {
      var n := |args| - 1;
      RoundsAreSimultaneous(template, args[..n]);
      ReplaceFillsNext(template, args, n);
      assert args[..n + 1] == args;
    }
  }

  /** T: look the template up, fall back to the id, then fill one argument after the other. */
  method T(messages: map<string, string>, messageID: string, args: seq<string>) returns (msg: string)
    ensures var template := if messageID in messages then messages[messageID] else messageID;
      && msg == Rounds(template, args)
      && (WellBraced(template) && SafeArguments(args) ==> msg == Substitute(template, args))
  {
    msg := messageID;
    if messageID in messages {
      msg := messages[messageID];
    }
    ghost var template := msg;
    for i := 0 to |args|
      invariant msg == Rounds(template, args[..i])
    {
      var placeholder := Placeholder(i);
      msg := ReplaceAll(msg, placeholder, args[i]);
      assert args[..i + 1][..i] == args[..i];
    }
    assert args[..|args|] == args;
    if WellBraced(template) && SafeArguments(args) {
      RoundsAreSimultaneous(template, args);
    }
  }

  /** Placeholders beyond the arguments stay as they are. */
  lemma OutOfRangeStays(n: nat, rest: string, args: seq<string>)
    requires n >= |args|
    ensures Substitute(Placeholder(n) + rest, args) == Placeholder(n) + Substitute(rest, args)
  {
    ItoaValue(n);
    forall i | 0 <= i < |args| ensures Itoa(i) != Itoa(n) {
      if Itoa(i) == Itoa(n) { ItoaInjective(i, n); }
    }
    GroupKept(Itoa(n), rest, args);
  }

  /** The assumption on arguments matters: text that an argument brought in is filled again. */
  lemma ArgumentTextIsRescanned()
    ensures var args := ["{1}", "x"];
      WellBraced("{0}") && Rounds("{0}", args) == "x" && Substitute("{0}", args) == "{1}"
  {
    var args := ["{1}", "x"];
    assert Placeholder(0) == "{0}" && Placeholder(1) == "{1}";
    GroupFilled(0, "", args);
    assert Placeholder(0) + "" == "{0}";
    ReplaceFront("", "{0}", "{1}");
    ReplaceFront("", "{1}", "x");
    assert args[..1] == ["{1}"] && args[..1][..0] == [] && "{1}" + "" == "{1}";
    assert Rounds("{0}", args[..1]) == "{1}";
    assert Closing("{0}") == 2 by {
      assert "{0}"[1..] == "0}" && "0}"[1..] == "}";
    }
    assert "{0}"[1..2] == "0" && "{0}"[3..] == "";
  }

  /** The assumption on templates matters: nested braces form a new placeholder once the inner one is filled. */
  lemma NestedBracesAreRescanned()
    ensures var args := ["1", "x"];
      !WellBraced("{{0}}") && SafeArguments(args) && Rounds("{{0}}", args) == "x" && Substitute("{{0}}", args) == "{1}"
  {
    NestedRounds();
    NestedSubstitute();
    var s := "{{0}}";
    assert Closing(s) == 3 by {
      assert s[1..] == "{0}}" && "{0}}"[1..] == "0}}" && "0}}"[1..] == "}}";
    }
    assert s[1..3][0] == '{';
  }

  lemma NestedRounds()
    ensures Rounds("{{0}}", ["1", "x"]) == "x"
  {
    var args := ["1", "x"];
    assert Placeholder(0) == "{0}" && Placeholder(1) == "{1}";
    assert "{{0}}" == ['{'] + ("{0}" + "}") && "{{0}}"[1] == '{';
    ReplaceStep('{', "{0}" + "}", "{0}", "1");
    ReplaceFront("}", "{0}", "1");
    assert "}" == ['}'] + "";
    ReplaceStep('}', "", "{0}", "1");
    assert ['{'] + ("1" + "}") == "{1}" && "{1}" + "" == "{1}";
    ReplaceFront("", "{1}", "x");
    assert args[..1] == ["1"] && args[..1][..0] == [];
    assert Rounds("{{0}}", args[..1]) == "{1}";
  }

  lemma NestedSubstitute()
    ensures Substitute("{{0}}", ["1", "x"]) == "{1}"
  {
    var args := ["1", "x"];
    assert Placeholder(0) == "{0}" && Placeholder(1) == "{1}";
    assert "{{0}}" == ['{'] + ("{0}" + "}") && "{{0}}"[1] == '{';
    SubstituteStep('{', "{0}" + "}", args);
    GroupFilled(0, "}", args);
    assert "}" == ['}'] + "";
    SubstituteStep('}', "", args);
    assert ['{'] + ("1" + "}") == "{1}";
  }
}

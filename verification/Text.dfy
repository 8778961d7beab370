/**
 String operations of the Go standard library that the modelled code leans on,
 over unbounded `seq<char>`: leftmost non-overlapping replacement, splitting,
 joining, substring search and decimal formatting.
 */
module Text {
  import opened Wrappers

  /** `sub` occurs somewhere in `s`. */
  predicate Contains(s: string, sub: string) {
    exists i :: 0 <= i <= |s| && sub <= s[i..]
  }

  /** Go's strings.ReplaceAll for a non-empty pattern: scan left to right, never rescan a replacement. */
  function ReplaceAll(s: string, pat: string, rep: string): string
    requires pat != ""
    decreases |s|
  {
    if s == "" then ""
    else if pat <= s then rep + ReplaceAll(s[|pat|..], pat, rep)
    else [s[0]] + ReplaceAll(s[1..], pat, rep)
  }

  /** Go's strings.Split for a non-empty separator. */
  function Split(s: string, sep: string): (parts: seq<string>)
    requires sep != ""
    ensures parts != []
    decreases |s|
  {
    if s == "" then [""]
    else if sep <= s then [""] + Split(s[|sep|..], sep)
    else
      var rest := Split(s[1..], sep);
      [[s[0]] + rest[0]] + rest[1..]
  }

  /** Go's strings.Join for a non-empty list. */
  function Join(parts: seq<string>, glue: string): string
    requires parts != []
  {
    if |parts| == 1 then parts[0] else parts[0] + glue + Join(parts[1..], glue)
  }

  /** Text glued to the front of the first part comes out in front. */
  lemma JoinFront(c: string, parts: seq<string>, glue: string)
    requires parts != []
    ensures Join([c + parts[0]] + parts[1..], glue) == c + Join(parts, glue)
  {
    var longer := [c + parts[0]] + parts[1..];
    assert longer[1..] == parts[1..];
    if |parts| > 1 {
      var rest := Join(parts[1..], glue);
      assert (c + parts[0]) + glue + rest == c + (parts[0] + glue + rest);
    }
  }

  /** Cutting once at every separator and gluing with `rep` is left-to-right replacement. */
  lemma {:induction false} JoinSplit(s: string, sep: string, rep: string)
    requires sep != ""
    ensures Join(Split(s, sep), rep) == ReplaceAll(s, sep, rep)
    decreases |s|
  {
    if s == "" {
    } else if sep <= s {
      var rest := Split(s[|sep|..], sep);
      JoinSplit(s[|sep|..], sep, rep);
      assert ([""] + rest)[1..] == rest;
      assert "" + rep + Join(rest, rep) == rep + Join(rest, rep);
    } else {
      JoinSplit(s[1..], sep, rep);
      JoinFront([s[0]], Split(s[1..], sep), rep);
    }
  }

  /** Text without the pattern is left alone. */
  lemma {:induction false} ReplaceAbsent(s: string, pat: string, rep: string)
    requires pat != "" && !Contains(s, pat)
    ensures ReplaceAll(s, pat, rep) == s
    decreases |s|
  {
    if s != "" {
      assert s[0..] == s;
      assert !(pat <= s);
      forall i | 0 <= i <= |s[1..]| ensures !(pat <= s[1..][i..]) {
        assert s[1..][i..] == s[i + 1..];
      }
      ReplaceAbsent(s[1..], pat, rep);
    }
  }

  /** A character at which no occurrence starts is copied. */
  lemma ReplaceStep(c: char, b: string, pat: string, rep: string)
    requires pat != "" && !(pat <= [c] + b)
    ensures ReplaceAll([c] + b, pat, rep) == [c] + ReplaceAll(b, pat, rep)
  {
    assert ([c] + b)[1..] == b;
  }

  /** A stretch that lacks the pattern's first character is copied unchanged. */
  lemma {:induction false} ReplaceSkips(a: string, b: string, pat: string, rep: string)
    requires pat != "" && pat[0] !in a
    ensures ReplaceAll(a + b, pat, rep) == a + ReplaceAll(b, pat, rep)
  {
    if a == "" {
      assert a + b == b && a + ReplaceAll(b, pat, rep) == ReplaceAll(b, pat, rep);
    } else {
      var c, t := a[0], a[1..] + b;
      assert a == [c] + a[1..] && a + b == [c] + t;
      assert c in a && ([c] + t)[0] == c;
      ReplaceSkips(a[1..], b, pat, rep);
      ReplaceStep(c, t, pat, rep);
      assert a + ReplaceAll(b, pat, rep) == [c] + (a[1..] + ReplaceAll(b, pat, rep));
    }
  }

  /** An occurrence at the front is replaced and the scan goes on after it. */
  lemma ReplaceFront(b: string, pat: string, rep: string)
    requires pat != ""
    ensures ReplaceAll(pat + b, pat, rep) == rep + ReplaceAll(b, pat, rep)
  {
    assert (pat + b)[|pat|..] == b;
  }

  function Digit(d: nat): char
    requires d < 10
  {
    '0' + d as char
  }

  /** Decimal formatting of a natural number, as %d and strconv.Itoa print it. */
  function Itoa(n: nat): string {
    if n < 10 then [Digit(n)] else Itoa(n / 10) + [Digit(n % 10)]
  }

  predicate AllDigits(s: string) {
    forall i :: 0 <= i < |s| ==> '0' <= s[i] <= '9'
  }

  /** Value of a digit string, the left inverse of `Itoa`. */
  function Value(s: string): nat
    requires AllDigits(s)
  {
    if s == "" then 0 else 10 * Value(s[..|s| - 1]) + (s[|s| - 1] - '0') as nat
  }

  lemma {:induction false} ItoaValue(n: nat)
    ensures AllDigits(Itoa(n)) && Itoa(n) != "" && Value(Itoa(n)) == n
  {
    if n >= 10 {
      ItoaValue(n / 10);
      assert Itoa(n)[..|Itoa(n)| - 1] == Itoa(n / 10);
    } else {
      assert Itoa(n)[..0] == "";
    }
  }

  /** Different numbers print differently. */
  lemma ItoaInjective(m: nat, n: nat)
    requires Itoa(m) == Itoa(n)
    ensures m == n
  {
    ItoaValue(m);
    ItoaValue(n);
  }

  /** strconv.Atoi: an optional sign and digits, within 64 bits. */
  function Atoi(s: string): Option<int> {
    var digits := if s != "" && (s[0] == '-' || s[0] == '+') then s[1..] else s;
    if digits == "" || !AllDigits(digits) then None
    else
      var v := if s[0] == '-' then -(Value(digits) as int) else Value(digits);
      if -0x8000_0000_0000_0000 <= v < 0x8000_0000_0000_0000 then Some(v) else None
  }

  lemma AtoiItoa(n: nat)
    requires n < 0x8000_0000_0000_0000
    ensures Atoi(Itoa(n)) == Some(n)
  {
    ItoaValue(n);
    assert '0' <= Itoa(n)[0] <= '9';
  }

  predicate Fits(v: int) { -0x8000_0000_0000_0000 <= v < 0x8000_0000_0000_0000 }

  /** A sign in front is read, and nothing that leaves 64 bits. */
  lemma AtoiSigned(digits: string)
    requires AllDigits(digits) && digits != ""
    ensures Atoi("-" + digits) == if Fits(-(Value(digits) as int)) then Some(-(Value(digits) as int)) else None
    ensures Atoi("+" + digits) == if Fits(Value(digits)) then Some(Value(digits)) else None
    ensures Atoi(digits) == if Fits(Value(digits)) then Some(Value(digits)) else None
  {
    assert '0' <= digits[0] <= '9';
    assert ("-" + digits)[1..] == digits && ("+" + digits)[1..] == digits;
  }

  /** Nothing but digits is read after the first character. */
  lemma AtoiReadsDigitsOnly(s: string, i: nat)
    requires 1 <= i < |s| && !('0' <= s[i] <= '9')
    ensures Atoi(s).None?
  {
    if s[0] == '-' || s[0] == '+' {
      assert s[1..][i - 1] == s[i];
    }
  }
}

/**
 * Dotted document paths: the index stripping and the wildcard-aware allow-list
 * membership of internal/discovery/discovery.go, and the path building shared by
 * the Go and Python prune walks.
 */
module Paths {
  import opened Wrappers
  import opened Strings

  /** The path of member `k` below `dotted` (no leading dot at the root). */
  function Here(dotted: string, k: string): string {
    if dotted != "" then dotted + "." + k else k
  }

  /** The path of element `i` of the array at `dotted`. */
  function Indexed(dotted: string, i: nat): string {
    dotted + "[" + NatToString(i) + "]"
  }

  /** Length of the run of ASCII digits that `s` starts with. */
  function DigitsPrefix(s: string): (d: nat)
    ensures d <= |s| && (d < |s| ==> !IsDigit(s[d]))
    ensures forall i :: 0 <= i < d ==> IsDigit(s[i])
  {
    if |s| > 0 && IsDigit(s[0]) then 1 + DigitsPrefix(s[1..]) else 0
  }

  /** Length of the `\[\d+]` match at the start of `s`, or 0 when there is none. */
  function IndexTokenLength(s: string): (n: nat)
    ensures n <= |s|
    ensures n > 0 ==> n >= 3 && s[0] == '[' && s[n - 1] == ']'
  {
    if |s| > 0 && s[0] == '[' then
      var d := DigitsPrefix(s[1..]);
      if d > 0 && 1 + d < |s| && s[1 + d] == ']' then d + 2 else 0
    else 0
  }

  /** StripIndices: every `[digits]` group removed, scanning left to right
      as a regular-expression replace-all does. */
  function StripIndices(s: string): (r: string)
    ensures |r| <= |s|
    decreases |s|
  {
    if s == [] then []
    else
      var n := IndexTokenLength(s);
      if n > 0 then StripIndices(s[n..]) else [s[0]] + StripIndices(s[1..])
  }

  /** A string with no `[` is left unchanged by StripIndices. */
  lemma {:induction false} StripNoBracket(s: string)
    requires '[' !in s
    ensures StripIndices(s) == s
  {
    if s != [] {
      assert '[' !in s[1..];
      StripNoBracket(s[1..]);
      assert s == [s[0]] + s[1..];
    }
  }

  /** The separator after a path piece cannot continue an index token. */
  predicate Boundary(b: string) {
    b == [] || (!IsDigit(b[0]) && b[0] != ']')
  }

  lemma {:induction false} DigitsPrefixConcat(a: string, b: string)
    requires b == [] || !IsDigit(b[0])
    ensures DigitsPrefix(a + b) == DigitsPrefix(a)
  {
    if |a| > 0 {
      assert (a + b)[1..] == a[1..] + b;
      if IsDigit(a[0]) {
        DigitsPrefixConcat(a[1..], b);
      }
    } else {
      assert a + b == b;
    }
  }

  lemma IndexTokenConcat(a: string, b: string)
    requires a != [] && Boundary(b)
    ensures IndexTokenLength(a + b) == IndexTokenLength(a)
  {
    if a[0] == '[' {
      assert (a + b)[1..] == a[1..] + b;
      DigitsPrefixConcat(a[1..], b);
    }
  }

  /** Index stripping distributes over a concatenation whose second part
      cannot continue an index token of the first. */
  lemma {:induction false} StripConcat(a: string, b: string)
    requires Boundary(b)
    ensures StripIndices(a + b) == StripIndices(a) + StripIndices(b)
    decreases |a|
  {
    if a == [] {
      assert a + b == b;
    } else {
      IndexTokenConcat(a, b);
      var n := IndexTokenLength(a);
      var m := if n > 0 then n else 1;
      ConcatDrop(a, b, m);
      StripConcat(a[m..], b);
      StripStep(a);
      StripStep(a + b);
      if n == 0 {
        ConsAssoc(a[0], StripIndices(a[1..]), StripIndices(b));
      }
    }
  }

  lemma ConcatDrop(a: string, b: string, m: nat)
    requires 0 < m <= |a|
    ensures (a + b)[m..] == a[m..] + b && (a + b)[0] == a[0]
  {
  }

  lemma ConsAssoc(c: char, x: string, y: string)
    ensures [c] + (x + y) == ([c] + x) + y
  {
  }

  /** One step of StripIndices. */
  lemma StripStep(s: string)
    requires s != []
    ensures IndexTokenLength(s) > 0 ==> StripIndices(s) == StripIndices(s[IndexTokenLength(s)..])
    ensures IndexTokenLength(s) == 0 ==> StripIndices(s) == [s[0]] + StripIndices(s[1..])
  {
  }

  lemma {:induction false} AllDigits(d: string)
    requires forall i :: 0 <= i < |d| ==> IsDigit(d[i])
    ensures DigitsPrefix(d) == |d|
  {
    if |d| > 0 {
      AllDigits(d[1..]);
    }
  }

  /** A rendered index `[i]` is removed entirely. */
  lemma StripIndexToken(i: nat)
    ensures StripIndices("[" + NatToString(i) + "]") == ""
  {
    var t := "[" + NatToString(i) + "]";
    var d := NatToString(i);
    assert t[1..] == d + "]";
    DigitsPrefixConcat(d, "]");
    AllDigits(d);
    assert IndexTokenLength(t) == |t|;
    assert t[|t|..] == [];
  }

  /** An array index inserted anywhere before a boundary vanishes after
      stripping: `spec.rules[0].host` and `spec.rules[12].host` both compare
      as `spec.rules.host`. */
  lemma StripIndexed(p: string, i: nat, rest: string)
    requires Boundary(rest)
    ensures StripIndices(Indexed(p, i) + rest) == StripIndices(p + rest)
  {
    var t := "[" + NatToString(i) + "]";
    assert Indexed(p, i) + rest == p + (t + rest);
    assert Boundary(t + rest) by {
      assert (t + rest)[0] == '[';
    }
    assert Boundary(t);
    StripConcat(p, t + rest);
    StripConcat(t, rest);
    StripIndexToken(i);
    StripConcat(p, rest);
    calc {
      StripIndices(Indexed(p, i) + rest);
      StripIndices(p + (t + rest));
      StripIndices(p) + (StripIndices(t) + StripIndices(rest));
      { assert StripIndices(t) + StripIndices(rest) == StripIndices(rest); }
      StripIndices(p) + StripIndices(rest);
      StripIndices(p + rest);
    }
  }

  /** Stripping a member path: the separator dot is kept. */
  lemma StripHere(dotted: string, k: string)
    ensures StripIndices(Here(dotted, k)) ==
      if dotted != "" then StripIndices(dotted) + "." + StripIndices(k) else StripIndices(k)
  {
    if dotted != "" {
      var dk := "." + k;
      assert Here(dotted, k) == dotted + dk;
      assert Boundary(dk) by {
        assert dk[0] == '.';
      }
      StripConcat(dotted, dk);
      assert IndexTokenLength(dk) == 0;
      assert dk[1..] == k;
      assert StripIndices(dk) == "." + StripIndices(k);
    }
  }

  lemma NoBracketRulesHost()
    ensures '[' !in "spec.rules" + ".host"
  {
    assert '[' !in "spec.rules";
    assert '[' !in ".host";
  }

  /** `spec.rules[0].host`, `spec.rules[12].host`, ... all compare as `spec.rules.host`. */
  lemma StripRulesExample(i: nat)
    ensures StripIndices("spec.rules[" + NatToString(i) + "].host") == "spec.rules.host"
  {
    var p, rest, n := "spec.rules", ".host", NatToString(i);
    StripIndexed(p, i, rest);
    assert "spec.rules[" == p + "[";
    assert "].host" == "]" + rest;
    assert Indexed(p, i) + rest == (p + "[") + n + ("]" + rest);
    NoBracketRulesHost();
    StripNoBracket(p + rest);
    assert p + rest == "spec.rules.host";
  }


  // ---- allow-list membership

  /** The allow-list entry `k` is a wildcard `base.*` that covers `clean`:
      `clean` is the base itself or lies below it. */
  predicate WildcardCovers(k: string, clean: string) {
    HasSuffix(k, ".*") &&
    var base := TrimSuffix(k, ".*");
    clean == base || HasPrefix(clean, base + ".")
  }

  /** IsAllowed: false for a nil set; exact membership or a covering wildcard otherwise. */
  predicate IsAllowed(allowed: Option<set<string>>, clean: string) {
    allowed.Some? &&
    (clean in allowed.value || exists k :: k in allowed.value && WildcardCovers(k, clean))
  }

  /** With a single wildcard entry `b.*`, exactly `b` and the paths below `b.` are allowed. */
  lemma WildcardEntry(b: string, clean: string)
    ensures IsAllowed(Some({b + ".*"}), clean) <==> clean == b || HasPrefix(clean, b + ".")
  {
    var k := b + ".*";
    assert HasSuffix(k, ".*");
    assert TrimSuffix(k, ".*") == b;
    if clean == k {
      assert (b + ".")[..] == k[..|b| + 1];
    }
  }

  /** The example of a wildcard entry `spec.foo.*`. */
  lemma WildcardExample()
    ensures IsAllowed(Some({"spec.foo.*"}), "spec.foo")
    ensures IsAllowed(Some({"spec.foo.*"}), "spec.foo.bar.baz")
    ensures !IsAllowed(Some({"spec.foo.*"}), "spec.fooz")
  {
    WildcardEntry("spec.foo", "spec.foo");
    WildcardEntry("spec.foo", "spec.foo.bar.baz");
    WildcardEntry("spec.foo", "spec.fooz");
    assert "spec.foo.bar.baz"[..9] == "spec.foo.";
    assert "spec.fooz"[8] != '.';
  }

  /** A larger allow-list allows at least as much. */
  lemma IsAllowedMonotone(a: set<string>, b: set<string>, clean: string)
    requires a <= b && IsAllowed(Some(a), clean)
    ensures IsAllowed(Some(b), clean)
  {
  }
}

/** Token-bounded suffix rewriting, for any coherent vocabulary.

    A rule replaces one surface by its canonical token, padded with spaces, wherever the
    surface stands between whitespace or the ends of the text. `ReSub` is one pass of one rule
    over a text; `Scan` is the reference that rewrites a whole set of rules in a single
    left-to-right sweep. The central result is that a sweep after a sweep is the sweep of the
    union, from which order independence and idempotence follow. */
module SuffixRewriting {

  datatype Rule = Rule(surface: string, canonical: string)

  // What `\s` matches in a text pattern: the space and the ranges below.
  predicate IsSpace(c: char) {
    c == ' ' || InRanges(c, 0)
  }

  const OTHER_SPACES: seq<(char, char)> := [
    ('\U{0009}', '\U{000D}'), ('\U{001C}', '\U{001F}'), ('\U{0085}', '\U{0085}'), ('\U{00A0}', '\U{00A0}'),
    ('\U{1680}', '\U{1680}'), ('\U{2000}', '\U{200A}'), ('\U{2028}', '\U{2029}'), ('\U{202F}', '\U{202F}'),
    ('\U{205F}', '\U{205F}'), ('\U{3000}', '\U{3000}')]

  predicate InRanges(c: char, i: nat)
    decreases |OTHER_SPACES| - i
  {
    i < |OTHER_SPACES| && (OTHER_SPACES[i].0 <= c <= OTHER_SPACES[i].1 || InRanges(c, i + 1))
  }

  // p stands at the head of t and is followed by whitespace or by the end of the text.
  predicate Bounded(p: string, t: string) {
    p <= t && (|p| == |t| || IsSpace(t[|p|]))
  }

  predicate MatchesAt(v: Rule, t: string, atBoundary: bool) {
    atBoundary && v.surface != "" && Bounded(v.surface, t)
  }

  // One pass of one rule. The flag says whether the text before t is empty or ends in
  // whitespace: the look-behind reads the input, not the output.
  function ReSub(v: Rule, t: string, atBoundary: bool := true): string
    decreases |t|
  {
    if t == "" then ""
    else if MatchesAt(v, t, atBoundary) then
      " " + v.canonical + " " + ReSub(v, t[|v.surface|..], false)
    else [t[0]] + ReSub(v, t[1..], IsSpace(t[0]))
  }

  function Passes(order: seq<Rule>, text: string): string {
    if order == [] then text else Passes(order[1..], ReSub(order[0], text))
  }

  // ----- coherence: what the vocabulary must satisfy for its passes not to interfere -----

  predicate NoSpace(s: string) {
    forall i :: 0 <= i < |s| ==> !IsSpace(s[i])
  }

  predicate Shaped(s: string) {
    s != "" && !IsSpace(s[0]) && !IsSpace(s[|s| - 1])
    && forall j :: 0 < j < |s| ==> !(IsSpace(s[j - 1]) && IsSpace(s[j]))
  }

  predicate Comparable(p: string, q: string) {
    p <= q || q <= p
  }

  // No surface starts another, none starts inside another's later tokens, and no canonical
  // token starts a surface.
  predicate Compatible(v: Rule, w: Rule) {
    && (Comparable(v.surface, w.surface) ==> v == w)
    && (forall j :: 0 < j < |v.surface| && IsSpace(v.surface[j - 1]) ==> !Comparable(v.surface[j..], w.surface))
    && !Comparable(v.canonical + " ", w.surface)
  }

  ghost predicate Coherent(U: set<Rule>) {
    && (forall v :: v in U ==> Shaped(v.surface) && v.canonical != "" && NoSpace(v.canonical))
    && (forall v, w :: v in U && w in U ==> Compatible(v, w))
  }

  ghost predicate SomeMatch(V: set<Rule>, t: string, atBoundary: bool) {
    exists v :: v in V && MatchesAt(v, t, atBoundary)
  }

  ghost function Scan(V: set<Rule>, t: string, atBoundary: bool): string
    decreases |t|
  {
    if t == "" then ""
    else if SomeMatch(V, t, atBoundary) then
      var v :| v in V && MatchesAt(v, t, atBoundary);
      " " + v.canonical + " " + Scan(V, t[|v.surface|..], false)
    else [t[0]] + Scan(V, t[1..], IsSpace(t[0]))
  }

  // ----- one sweep -----

  lemma PrefixesCompare(p: string, q: string, t: string)
    requires p <= t && q <= t
    ensures Comparable(p, q)
  {
    if |p| <= |q| { assert p == q[..|p|]; } else { assert q == p[..|q|]; }
  }

  lemma ScanAtMatch(V: set<Rule>, v: Rule, t: string, atBoundary: bool)
    requires Coherent(V) && v in V && MatchesAt(v, t, atBoundary)
    ensures Scan(V, t, atBoundary) == " " + v.canonical + " " + Scan(V, t[|v.surface|..], false)
  {
    assert Shaped(v.surface) && SomeMatch(V, t, atBoundary);
    var u :| u in V && MatchesAt(u, t, atBoundary)
      && Scan(V, t, atBoundary) == " " + u.canonical + " " + Scan(V, t[|u.surface|..], false);
    PrefixesCompare(u.surface, v.surface, t);
    assert Compatible(u, v);
  }

  // A surface never starts with whitespace, so before whitespace the flag does not matter.
  lemma FlagIrrelevant(V: set<Rule>, t: string)
    requires Coherent(V) && (t == "" || IsSpace(t[0]))
    ensures !SomeMatch(V, t, true)
    ensures Scan(V, t, true) == Scan(V, t, false)
    ensures Scan(V, t, false) == "" || IsSpace(Scan(V, t, false)[0])
  {
    forall v | v in V ensures !MatchesAt(v, t, true) {
      assert Shaped(v.surface);
    }
  }

  // Matches never overlap: inside a matched surface no other match begins.
  lemma NoInnerMatch(V: set<Rule>, v: Rule, t: string, j: nat)
    requires Bounded(v.surface, t) && 0 < j < |v.surface|
    requires forall w :: w in V ==> Compatible(v, w)
    ensures !SomeMatch(V, t[j..], IsSpace(t[j - 1]))
  {
    assert v.surface[j - 1] == t[j - 1];
    forall w | w in V ensures !MatchesAt(w, t[j..], IsSpace(t[j - 1])) {
      assert Compatible(v, w);
      if w.surface <= t[j..] {
        assert v.surface[j..] <= t[j..];
        PrefixesCompare(v.surface[j..], w.surface, t[j..]);
      }
    }
  }

  // Text in which nothing starts is copied.
  lemma {:induction false} CopyFrom(V: set<Rule>, t: string, n: nat, j: nat)
    requires 0 < j <= n <= |t| && !IsSpace(t[n - 1])
    requires forall i :: 0 < i < n ==> !SomeMatch(V, t[i..], IsSpace(t[i - 1]))
    ensures Scan(V, t[j..], IsSpace(t[j - 1])) == t[j..n] + Scan(V, t[n..], false)
    decreases n - j
  {
    if j < n {
      CopyFrom(V, t, n, j + 1);
      assert t[j..][1..] == t[j + 1..] && t[j..n] == [t[j]] + t[j + 1..n];
    } else {
      assert t[j..n] == "";
    }
  }

  lemma CopyHead(V: set<Rule>, p: string, t: string, atBoundary: bool)
    requires p != "" && p <= t && !IsSpace(p[|p| - 1]) && !SomeMatch(V, t, atBoundary)
    requires forall i :: 0 < i < |p| ==> !SomeMatch(V, t[i..], IsSpace(t[i - 1]))
    ensures Scan(V, t, atBoundary) == p + Scan(V, t[|p|..], false)
  {
    assert t[|p| - 1] == p[|p| - 1];
    CopyFrom(V, t, |p|, 1);
    assert p == t[..|p|] == [t[0]] + t[1..|p|];
  }

  // A surface that a sweep does not rewrite comes out untouched.
  lemma PassThrough(V: set<Rule>, v: Rule, t: string, atBoundary: bool)
    requires Bounded(v.surface, t) && Shaped(v.surface) && !SomeMatch(V, t, atBoundary)
    requires forall w :: w in V ==> Compatible(v, w)
    ensures Scan(V, t, atBoundary) == v.surface + Scan(V, t[|v.surface|..], false)
  {
    forall i | 0 < i < |v.surface| ensures !SomeMatch(V, t[i..], IsSpace(t[i - 1])) {
      NoInnerMatch(V, v, t, i);
    }
    CopyHead(V, v.surface, t, atBoundary);
  }

  // A sweep never creates a surface it does not already find in its input.
  lemma {:induction false} NoCreation(V: set<Rule>, p: string, t: string, atBoundary: bool)
    requires Coherent(V)
    requires p != "" ==> !IsSpace(p[|p| - 1])
    requires forall j :: 0 < j < |p| ==> !(IsSpace(p[j - 1]) && IsSpace(p[j]))
    requires atBoundary ==> p != "" && !IsSpace(p[0])
    requires Bounded(p, Scan(V, t, atBoundary))
    ensures Bounded(p, t)
    decreases |t|
  {
    var out := Scan(V, t, atBoundary);
    if t != "" && !SomeMatch(V, t, atBoundary) && p != "" {
      var rest := Scan(V, t[1..], IsSpace(t[0]));
      assert out == [t[0]] + rest && p[0] == out[0];
      assert out[1..] == rest && p[1..] <= rest;
      NoCreation(V, p[1..], t[1..], IsSpace(t[0]));
      assert p == [p[0]] + p[1..] && t == [t[0]] + t[1..];
    }
  }

  lemma {:induction false} CopyToken(V: set<Rule>, token: string, rest: string)
    requires NoSpace(token)
    ensures Scan(V, token + " " + rest, false) == token + " " + Scan(V, rest, true)
  {
    var t := token + " " + rest;
    if token == "" {
      assert t[0] == ' ' && t[1..] == rest;
    } else {
      assert t[0] == token[0] && t[1..] == token[1..] + " " + rest;
      CopyToken(V, token[1..], rest);
    }
  }

  lemma NothingStartsAtCanonical(V: set<Rule>, v: Rule, rest: string)
    requires forall w :: w in V ==> Compatible(v, w)
    ensures !SomeMatch(V, v.canonical + " " + rest, true)
  {
    var c := v.canonical + " ";
    forall w | w in V ensures !MatchesAt(w, c + rest, true) {
      assert Compatible(v, w);
      if w.surface <= c + rest {
        PrefixesCompare(c, w.surface, c + rest);
      }
    }
  }

  lemma CopyPadded(V: set<Rule>, c: string, rest: string, atBoundary: bool)
    requires c != "" && NoSpace(c) && (rest == "" || IsSpace(rest[0]))
    requires !SomeMatch(V, " " + c + " " + rest, true) && !SomeMatch(V, c + " " + rest, true)
    requires Scan(V, rest, true) == Scan(V, rest, false)
    ensures Scan(V, " " + c + " " + rest, atBoundary) == " " + c + " " + Scan(V, rest, false)
  {
    var u := c + " " + rest;
    var t := " " + c + " " + rest;
    assert t[0] == ' ' && t[1..] == u;
    assert u[0] == c[0] && u[1..] == c[1..] + " " + rest;
    assert !SomeMatch(V, t, atBoundary);
    CopyToken(V, c[1..], rest);
    assert c == [c[0]] + c[1..];
  }

  lemma InertToken(V: set<Rule>, v: Rule, rest: string, atBoundary: bool)
    requires Coherent(V) && v.canonical != "" && NoSpace(v.canonical)
    requires forall w :: w in V ==> Compatible(v, w)
    requires rest == "" || IsSpace(rest[0])
    ensures Scan(V, " " + v.canonical + " " + rest, atBoundary) == " " + v.canonical + " " + Scan(V, rest, false)
  {
    FlagIrrelevant(V, " " + v.canonical + " " + rest);
    FlagIrrelevant(V, rest);
    NothingStartsAtCanonical(V, v, rest);
    CopyPadded(V, v.canonical, rest, atBoundary);
  }

  // ----- the composition law -----

  // Sweeping with W after V is sweeping once with both.
  lemma {:induction false} SweepAfterSweep(V: set<Rule>, W: set<Rule>, t: string, atBoundary: bool)
    requires Coherent(V) && Coherent(W) && Coherent(V + W)
    ensures Scan(W, Scan(V, t, atBoundary), atBoundary) == Scan(V + W, t, atBoundary)
    decreases |t|, 1
  {
    if t == "" {
    } else if SomeMatch(V, t, atBoundary) {
      var v :| v in V && MatchesAt(v, t, atBoundary);
      var after := t[|v.surface|..];
      ScanAtMatch(V, v, t, atBoundary);
      ScanAtMatch(V + W, v, t, atBoundary);
      FlagIrrelevant(V, after);
      InertToken(W, v, Scan(V, after, false), atBoundary);
      SweepAfterSweep(V, W, after, false);
    } else if SomeMatch(W, t, atBoundary) {
      SecondSweepMatches(V, W, t, atBoundary);
    } else {
      NoSecondMatch(V, W, t, atBoundary);
      SecondSweepCopies(V, W, t, atBoundary);
      SweepAfterSweep(V, W, t[1..], IsSpace(t[0]));
    }
  }

  lemma {:induction false} SecondSweepMatches(V: set<Rule>, W: set<Rule>, t: string, atBoundary: bool)
    requires Coherent(V) && Coherent(W) && Coherent(V + W)
    requires t != "" && !SomeMatch(V, t, atBoundary) && SomeMatch(W, t, atBoundary)
    ensures Scan(W, Scan(V, t, atBoundary), atBoundary) == Scan(V + W, t, atBoundary)
    decreases |t|, 0
  {
    var w :| w in W && MatchesAt(w, t, atBoundary);
    var p := w.surface;
    var after := t[|p|..];
    ScanAtMatch(V + W, w, t, atBoundary);
    assert w in V + W;
    PassThrough(V, w, t, atBoundary);
    FlagIrrelevant(V, after);
    var out := p + Scan(V, after, false);
    assert out[|p|..] == Scan(V, after, false);
    ScanAtMatch(W, w, out, atBoundary);
    SweepAfterSweep(V, W, after, false);
  }

  lemma NoSecondMatch(V: set<Rule>, W: set<Rule>, t: string, atBoundary: bool)
    requires Coherent(V) && Coherent(W)
    requires t != "" && !SomeMatch(V, t, atBoundary) && !SomeMatch(W, t, atBoundary)
    ensures !SomeMatch(W, Scan(V, t, atBoundary), atBoundary)
  {
    var out := Scan(V, t, atBoundary);
    forall w | w in W ensures !MatchesAt(w, out, atBoundary) {
      assert !MatchesAt(w, t, atBoundary) && Shaped(w.surface);
      if MatchesAt(w, out, atBoundary) {
        NoCreation(V, w.surface, t, atBoundary);
      }
    }
  }

  lemma SecondSweepCopies(V: set<Rule>, W: set<Rule>, t: string, atBoundary: bool)
    requires t != "" && !SomeMatch(V, t, atBoundary) && !SomeMatch(W, t, atBoundary)
    requires !SomeMatch(W, Scan(V, t, atBoundary), atBoundary)
    ensures !SomeMatch(V + W, t, atBoundary)
    ensures Scan(W, Scan(V, t, atBoundary), atBoundary)
         == [t[0]] + Scan(W, Scan(V, t[1..], IsSpace(t[0])), IsSpace(t[0]))
  {
    var out := Scan(V, t, atBoundary);
    assert out[0] == t[0] && out[1..] == Scan(V, t[1..], IsSpace(t[0]));
  }

  // ----- passes -----

  lemma {:induction false} PassIsSweep(v: Rule, t: string, atBoundary: bool)
    requires Coherent({v})
    ensures ReSub(v, t, atBoundary) == Scan({v}, t, atBoundary)
    decreases |t|
  {
    if t == "" {
    } else if MatchesAt(v, t, atBoundary) {
      ScanAtMatch({v}, v, t, atBoundary);
      PassIsSweep(v, t[|v.surface|..], false);
    } else {
      PassIsSweep(v, t[1..], IsSpace(t[0]));
    }
  }

  lemma {:induction false} EmptySweep(t: string, atBoundary: bool)
    ensures Scan({}, t, atBoundary) == t
    decreases |t|
  {
    if t != "" {
      EmptySweep(t[1..], IsSpace(t[0]));
    }
  }

  ghost function Applied(order: seq<Rule>): set<Rule> {
    set v | v in order
  }

  lemma {:induction false} PassesAfterSweep(V: set<Rule>, order: seq<Rule>, text: string)
    requires Coherent(V + Applied(order)) && Coherent(V)
    ensures Passes(order, Scan(V, text, true)) == Scan(V + Applied(order), text, true)
    decreases |order|
  {
    if order == [] {
      assert V + Applied(order) == V;
    } else {
      assert order[0] in Applied(order);
      assert order == [order[0]] + order[1..];
      assert V + {order[0]} + Applied(order[1..]) == V + Applied(order);
      PassIsSweep(order[0], Scan(V, text, true), true);
      SweepAfterSweep(V, {order[0]}, text, true);
      PassesAfterSweep(V + {order[0]}, order[1..], text);
    }
  }

  // The passes of a coherent vocabulary compute its sweep, in whatever order they are made.
  lemma OrderIndependence(U: set<Rule>, order: seq<Rule>, text: string)
    requires Coherent(U) && Applied(order) == U
    ensures Passes(order, text) == Scan(U, text, true)
  {
    EmptySweep(text, true);
    assert {} + Applied(order) == U;
    PassesAfterSweep({}, order, text);
  }

  lemma Idempotence(U: set<Rule>, text: string)
    requires Coherent(U)
    ensures Scan(U, Scan(U, text, true), true) == Scan(U, text, true)
  {
    assert U + U == U;
    SweepAfterSweep(U, U, text, true);
  }

  // ----- where surfaces occur -----

  predicate StartsToken(text: string, i: nat)
    requires i <= |text|
  {
    i == 0 || IsSpace(text[i - 1])
  }

  ghost predicate OccursAt(v: Rule, text: string, i: nat) {
    i <= |text| && MatchesAt(v, text[i..], StartsToken(text, i))
  }

  ghost predicate SuffixFree(U: set<Rule>, text: string) {
    forall v, i: nat :: v in U ==> !OccursAt(v, text, i)
  }

  lemma {:induction false} FreeTextIsFixed(U: set<Rule>, text: string, i: nat)
    requires Coherent(U) && SuffixFree(U, text) && i <= |text|
    ensures Scan(U, text[i..], StartsToken(text, i)) == text[i..]
    decreases |text| - i
  {
    if i < |text| {
      forall v | v in U ensures !MatchesAt(v, text[i..], StartsToken(text, i)) {
        assert !OccursAt(v, text, i);
      }
      FreeTextIsFixed(U, text, i + 1);
      assert text[i..][1..] == text[i + 1..];
      assert text[i..] == [text[i]] + text[i + 1..];
    }
  }

  lemma {:induction false} FixedTextHasNoMatch(U: set<Rule>, v: Rule, text: string, i: nat, k: nat)
    requires Coherent(U) && v in U && i <= k <= |text|
    requires Scan(U, text[i..], StartsToken(text, i)) == text[i..]
    ensures !OccursAt(v, text, k)
    decreases k - i
  {
    var b := StartsToken(text, i);
    if i < |text| {
      assert Shaped(v.surface);
      if u :| u in U && MatchesAt(u, text[i..], b) {
        assert Shaped(u.surface) && text[i..][0] == u.surface[0];
        ScanAtMatch(U, u, text[i..], b);
      }
      if i < k {
        assert text[i..][1..] == text[i + 1..];
        FixedTextHasNoMatch(U, v, text, i + 1, k);
      }
    }
  }

  // A text is unchanged by the sweep exactly when no surface occurs in it.
  lemma FixedIffFree(U: set<Rule>, text: string)
    requires Coherent(U)
    ensures Scan(U, text, true) == text <==> SuffixFree(U, text)
  {
    assert text[0..] == text;
    if SuffixFree(U, text) {
      FreeTextIsFixed(U, text, 0);
    } else if Scan(U, text, true) == text {
      var v, i: nat :| v in U && OccursAt(v, text, i);
      FixedTextHasNoMatch(U, v, text, 0, i);
    }
  }

  // No token-bounded surface survives the sweep, and none is created by it.
  lemma NothingSurvives(U: set<Rule>, text: string)
    requires Coherent(U)
    ensures SuffixFree(U, Scan(U, text, true))
  {
    Idempotence(U, text);
    FixedIffFree(U, Scan(U, text, true));
  }

  // ----- a text made of a head and known suffixes -----

  lemma OneSurface(U: set<Rule>, v: Rule)
    requires Coherent(U) && v in U
    ensures Scan(U, v.surface, true) == " " + v.canonical + " "
  {
    assert Shaped(v.surface);
    ScanAtMatch(U, v, v.surface, true);
    assert v.surface[|v.surface|..] == "";
  }

  lemma SpaceFirst(U: set<Rule>, rest: string, atBoundary: bool)
    requires Coherent(U)
    ensures Scan(U, " " + rest, atBoundary) == " " + Scan(U, rest, true)
  {
    var t := " " + rest;
    FlagIrrelevant(U, t);
    assert t[0] == ' ' && t[1..] == rest;
  }

  lemma MatchesBefore(v: Rule, rest: string)
    requires v.surface != ""
    ensures MatchesAt(v, v.surface + " " + rest, true)
    ensures (v.surface + " " + rest)[|v.surface|..] == " " + rest
  {
    assert (v.surface + " " + rest)[|v.surface|] == ' ';
  }

  lemma SurfaceBefore(U: set<Rule>, v: Rule, rest: string)
    requires Coherent(U) && v in U
    ensures Scan(U, v.surface + " " + rest, true) == " " + v.canonical + "  " + Scan(U, rest, true)
  {
    assert Shaped(v.surface);
    MatchesBefore(v, rest);
    ScanAtMatch(U, v, v.surface + " " + rest, true);
    SpaceFirst(U, rest, false);
  }

  lemma TwoSurfaces(U: set<Rule>, v: Rule, w: Rule)
    requires Coherent(U) && v in U && w in U
    ensures Scan(U, v.surface + " " + w.surface, true) == " " + v.canonical + "   " + w.canonical + " "
  {
    SurfaceBefore(U, v, w.surface);
    OneSurface(U, w);
  }

  // tail cannot be the continuation of a surface that begins before it.
  ghost predicate StartsAfresh(U: set<Rule>, tail: string) {
    tail != "" && forall v, j :: v in U && 0 < j < |v.surface| && IsSpace(v.surface[j - 1]) ==>
      !Comparable(v.surface[j..], tail)
  }

  lemma SurfaceStartsAfresh(U: set<Rule>, w: Rule, tail: string)
    requires Coherent(U) && w in U && w.surface <= tail
    ensures StartsAfresh(U, tail)
  {
    assert Shaped(w.surface);
    forall v, j | v in U && 0 < j < |v.surface| && IsSpace(v.surface[j - 1])
      ensures !Comparable(v.surface[j..], tail)
    {
      assert Compatible(v, w);
      if v.surface[j..] <= tail {
        PrefixesCompare(v.surface[j..], w.surface, tail);
      }
    }
  }

  lemma Contained(s: string, head: string, tail: string)
    requires Bounded(s, head + " " + tail) && |s| <= |head|
    ensures Bounded(s, head)
  {
    var t := head + " " + tail;
    assert s == t[..|s|] == head[..|s|];
    assert |s| < |head| ==> t[|s|] == head[|s|];
  }

  lemma Straddling(s: string, head: string, tail: string)
    requires s <= head + " " + tail && |s| > |head|
    ensures s[|head|] == ' ' && s[|head| + 1..] <= tail
  {}

  lemma NoStraddling(U: set<Rule>, v: Rule, head: string, tail: string, i: nat)
    requires v in U && Shaped(v.surface) && StartsAfresh(U, tail)
    requires i < |head| && !OccursAt(v, head, i)
    ensures !MatchesAt(v, head[i..] + " " + tail, StartsToken(head, i))
  {
    var s := v.surface;
    if MatchesAt(v, head[i..] + " " + tail, StartsToken(head, i)) {
      if |s| <= |head| - i {
        Contained(s, head[i..], tail);
      } else {
        Straddling(s, head[i..], tail);
      }
    }
  }

  lemma NothingStartsInHead(U: set<Rule>, head: string, tail: string, i: nat)
    requires Coherent(U) && SuffixFree(U, head) && StartsAfresh(U, tail) && i <= |head|
    ensures !SomeMatch(U, head[i..] + " " + tail, StartsToken(head, i))
  {
    if i == |head| {
      FlagIrrelevant(U, head[i..] + " " + tail);
    } else {
      forall v | v in U ensures !MatchesAt(v, head[i..] + " " + tail, StartsToken(head, i)) {
        NoStraddling(U, v, head, tail, i);
      }
    }
  }

  // A sweep leaves a suffix-free head alone and rewrites the suffix after it on its own.
  lemma {:induction false} HeadSurvives(U: set<Rule>, head: string, tail: string, i: nat)
    requires Coherent(U) && SuffixFree(U, head) && StartsAfresh(U, tail) && i <= |head|
    ensures Scan(U, head[i..] + " " + tail, StartsToken(head, i)) == head[i..] + " " + Scan(U, tail, true)
    decreases |head| - i
  {
    if i == |head| {
      SpaceFirst(U, tail, StartsToken(head, i));
      assert head[i..] + " " + tail == " " + tail;
    } else {
      NothingStartsInHead(U, head, tail, i);
      HeadSurvives(U, head, tail, i + 1);
      CopyOne(U, head, tail, i);
    }
  }

  lemma CopyOne(U: set<Rule>, head: string, tail: string, i: nat)
    requires i < |head| && !SomeMatch(U, head[i..] + " " + tail, StartsToken(head, i))
    ensures Scan(U, head[i..] + " " + tail, StartsToken(head, i))
         == [head[i]] + Scan(U, head[i + 1..] + " " + tail, StartsToken(head, i + 1))
  {
    var t := head[i..] + " " + tail;
    assert t[0] == head[i] && t[1..] == head[i + 1..] + " " + tail;
  }
}

/** The legal-suffix vocabulary: its entries, longest surface first, and the proof that it is
    coherent, so that the rewriting theory applies to it. */
module LegalSuffixes {
  import opened SuffixRewriting

  // Longest surface first; equal lengths keep the vocabulary's own order.
  const LONGEST_FIRST: seq<Rule> := [
    Rule("sanayi ve ticaret", "san_tic"),
    Rule("limited şirketi", "ltd_sti"),
    Rule("anonim şirketi", "as"),
    Rule("san. ve tic.", "san_tic"),
    Rule("san ve tic", "san_tic"),
    Rule("ltd. şti.", "ltd_sti"),
    Rule("ltd. sti.", "ltd_sti"),
    Rule("ltd şti", "ltd_sti"),
    Rule("ltd sti", "ltd_sti"),
    Rule("a.ş.", "as"),
    Rule("a.s.", "as"),
    Rule("a ş", "as")]

  ghost const VOCABULARY: set<Rule> := Applied(LONGEST_FIRST)

  // canonicalize_suffixes: one pass per surface, longest first.
  method CanonicalizeSuffixes(text: string) returns (r: string)
    ensures r == Canonicalize(text)
  {
    r := text;
    for i := 0 to |LONGEST_FIRST|
      invariant Passes(LONGEST_FIRST, text) == Passes(LONGEST_FIRST[i..], r)
    {
      assert LONGEST_FIRST[i..][1..] == LONGEST_FIRST[i + 1..];
      r := ReSub(LONGEST_FIRST[i], r);
    }
    AnyOrder(LONGEST_FIRST, text);
  }

  // The reference: the whole vocabulary rewritten in one sweep.
  ghost function Canonicalize(text: string): (r: string) {
    VocabularyIsCoherent();
    Scan(VOCABULARY, text, true)
  }

  // Any order of passes that applies exactly the vocabulary computes the same text.
  lemma AnyOrder(order: seq<Rule>, text: string)
    requires Applied(order) == VOCABULARY
    ensures Passes(order, text) == Canonicalize(text)
  {
    VocabularyIsCoherent();
    OrderIndependence(VOCABULARY, order, text);
  }

  lemma CanonicalizeIsIdempotent(text: string)
    ensures Canonicalize(Canonicalize(text)) == Canonicalize(text)
    ensures SuffixFree(VOCABULARY, Canonicalize(text))
    ensures Canonicalize(text) == text <==> SuffixFree(VOCABULARY, text)
  {
    VocabularyIsCoherent();
    Idempotence(VOCABULARY, text);
    NothingSurvives(VOCABULARY, text);
    FixedIffFree(VOCABULARY, text);
  }

  // ----- coherence of this vocabulary -----

  // A surface begins with l, a, or "sa"; a later token of a surface never does.
  predicate Opens(s: string) {
    s != "" && (s[0] == 'l' || s[0] == 'a' || (s[0] == 's' && (|s| == 1 || s[1] == 'a')))
  }

  // A run of letters and dots of the vocabulary; none of them is whitespace.
  predicate IsToken(s: string) {
    s == "" || (('!' <= s[0] <= '~' || s[0] == 'ş') && IsToken(s[1..]))
  }

  // Every token after the first is one that could not open a surface.
  predicate Closed(s: string) {
    forall j :: 0 < j < |s| && IsSpace(s[j - 1]) ==> !IsSpace(s[j]) && !Opens(s[j..])
  }

  ghost predicate SurfaceShape(s: string) {
    |s| >= 3 && Opens(s) && Shaped(s) && Closed(s)
  }

  lemma {:induction false} TokenIsSolid(s: string)
    requires IsToken(s)
    ensures NoSpace(s)
  {
    if s != "" { TokenIsSolid(s[1..]); }
  }

  lemma TokenBefore(token: string, rest: string, text: string)
    requires token != "" && IsToken(token) && text == token + " " + rest
    requires Shaped(rest) && Closed(rest) && !Opens(rest)
    ensures Shaped(text) && Closed(text)
  {
    TokenIsSolid(token);
    var n := |token| + 1;
    assert forall i :: 0 <= i < |token| ==> text[i] == token[i];
    assert text[|token|] == ' ' && text[n..] == rest;
    assert forall i :: n <= i < |text| ==> text[i] == rest[i - n];
    forall j | 0 < j < |text| && IsSpace(text[j - 1])
      ensures !IsSpace(text[j]) && !Opens(text[j..])
    {
      if j > n {
        assert text[j - 1] == rest[j - n - 1] && text[j..] == rest[j - n..];
      }
    }
  }

  lemma OneToken(text: string)
    requires IsToken(text) && Opens(text) && |text| >= 3
    ensures SurfaceShape(text)
  {
    TokenIsSolid(text);
  }

  lemma TwoTokens(first: string, second: string, text: string)
    requires Opens(first) && IsToken(first) && IsToken(second) && second != "" && !Opens(second)
    requires text == first + " " + second && (first[0] == 's' ==> |first| > 1)
    ensures SurfaceShape(text)
  {
    TokenIsSolid(second);
    TokenBefore(first, second, text);
    assert text[0] == first[0] && (|first| > 1 ==> text[1] == first[1]);
  }

  lemma ThreeTokens(first: string, last: string, text: string)
    requires Opens(first) && |first| > 1 && IsToken(first) && IsToken(last) && last != "" && !Opens(last)
    requires text == first + " ve " + last
    ensures SurfaceShape(text)
  {
    var rest := "ve" + " " + last;
    TokenIsSolid(last);
    TokenBefore("ve", last, rest);
    assert text == first + " " + rest && rest[0] == 'v';
    TokenBefore(first, rest, text);
    assert text[0] == first[0] && text[1] == first[1];
  }

  lemma SanayiVeTicaret() ensures SurfaceShape("sanayi ve ticaret") {
    ThreeTokens("sanayi", "ticaret", "sanayi ve ticaret");
  }

  lemma LimitedSirketi() ensures SurfaceShape("limited şirketi") {
    TwoTokens("limited", "şirketi", "limited şirketi");
  }

  lemma AnonimSirketi() ensures SurfaceShape("anonim şirketi") {
    TwoTokens("anonim", "şirketi", "anonim şirketi");
  }

  lemma SanVeTic() ensures SurfaceShape("san. ve tic.") && SurfaceShape("san ve tic") {
    ThreeTokens("san.", "tic.", "san. ve tic.");
    ThreeTokens("san", "tic", "san ve tic");
  }

  lemma DottedLtdSti() ensures SurfaceShape("ltd. şti.") && SurfaceShape("ltd. sti.") {
    TwoTokens("ltd.", "şti.", "ltd. şti.");
    TwoTokens("ltd.", "sti.", "ltd. sti.");
  }

  lemma LtdSti() ensures SurfaceShape("ltd şti") && SurfaceShape("ltd sti") {
    TwoTokens("ltd", "şti", "ltd şti");
    TwoTokens("ltd", "sti", "ltd sti");
  }

  lemma AnonimShort() ensures SurfaceShape("a.ş.") && SurfaceShape("a.s.") && SurfaceShape("a ş") {
    OneToken("a.ş.");
    OneToken("a.s.");
    TwoTokens("a", "ş", "a ş");
  }

  lemma EntryShape(i: nat)
    requires i < |LONGEST_FIRST|
    ensures SurfaceShape(LONGEST_FIRST[i].surface)
  {
    SanayiVeTicaret();
    LimitedSirketi();
    AnonimSirketi();
    SanVeTic();
    DottedLtdSti();
    LtdSti();
    AnonimShort();
  }

  predicate IsCanonical(c: string) {
    c in {"san_tic", "ltd_sti", "as"}
  }

  lemma EntryCanonical(i: nat)
    requires i < |LONGEST_FIRST|
    ensures IsCanonical(LONGEST_FIRST[i].canonical)
  {}

  lemma CanonicalShape(c: string)
    requires IsCanonical(c)
    ensures c != "" && NoSpace(c)
  {
    if c == "san_tic" { TokenIsSolid("san_tic"); }
    else if c == "ltd_sti" { TokenIsSolid("ltd_sti"); }
    else { TokenIsSolid("as"); }
  }

  // The surfaces are a prefix code: reading at most six characters identifies the entry.
  function Identify(t: string): nat
    requires |t| >= 3
  {
    if t[0] == 'l' then
      if t[1] == 'i' then 1
      else if |t| < 6 then 8
      else if t[3] == '.' then (if t[5] == 's' then 6 else 5)
      else (if t[4] == 's' then 8 else 7)
    else if t[0] == 'a' then
      if t[1] == 'n' then 2
      else if t[1] == ' ' then 11
      else (if t[2] == 's' then 10 else 9)
    else if |t| < 4 then 4
    else if t[3] == 'a' then 0
    else if t[3] == '.' then 3
    else 4
  }

  lemma HeadIdentifies(i: nat, t: string)
    requires i < |LONGEST_FIRST| && LONGEST_FIRST[i].surface <= t
    ensures |t| >= 3 && Identify(t) == i
    ensures t[0] == 'l' ==> t[1] == 'i' || (|t| > 3 && t[3] != '_')
    ensures t[0] == 'a' ==> t[1] != 's'
    ensures t[0] == 's' ==> |t| > 3 && t[3] != '_'
  {
    var p := LONGEST_FIRST[i].surface;
    assert forall k :: 0 <= k < |p| ==> t[k] == p[k];
    if i == 0 { assert p[0] == 's' && p[3] == 'a'; }
    else if i == 1 { assert p[0] == 'l' && p[1] == 'i'; }
    else if i == 2 { assert p[0] == 'a' && p[1] == 'n'; }
    else if i == 3 { assert p[0] == 's' && p[3] == '.'; }
    else if i == 4 { assert p[0] == 's' && p[3] == ' '; }
    else if i == 5 { assert p[0] == 'l' && p[1] == 't' && p[3] == '.' && p[5] == 'ş'; }
    else if i == 6 { assert p[0] == 'l' && p[1] == 't' && p[3] == '.' && p[5] == 's'; }
    else if i == 7 { assert p[0] == 'l' && p[1] == 't' && p[3] == ' ' && p[4] == 'ş'; }
    else if i == 8 { assert p[0] == 'l' && p[1] == 't' && p[3] == ' ' && p[4] == 's'; }
    else if i == 9 { assert p[0] == 'a' && p[1] == '.' && p[2] == 'ş'; }
    else if i == 10 { assert p[0] == 'a' && p[1] == '.' && p[2] == 's'; }
    else { assert p[0] == 'a' && p[1] == ' '; }
  }

  lemma NotComparableInside(s: string, q: string)
    requires s != "" && !Opens(s) && Opens(q) && |q| >= 2
    ensures !Comparable(s, q)
  {
  }

  lemma NotComparableCanonical(c: string, i: nat)
    requires IsCanonical(c) && i < |LONGEST_FIRST|
    ensures !Comparable(c + " ", LONGEST_FIRST[i].surface)
  {
    var q := LONGEST_FIRST[i].surface;
    var t := c + " ";
    EntryShape(i);
    if c == "as" { assert t[0] == 'a' && t[1] == 's'; } else { assert t[3] == '_' && t[0] == c[0] && t[1] == c[1]; }
    if q <= t {
      HeadIdentifies(i, t);
    } else if t <= q {
      assert q[0] == t[0] && q[1] == t[1] && (|t| > 3 ==> q[3] == t[3]);
      HeadIdentifies(i, q);
    }
  }

  lemma EntriesAreCompatible(i: nat, k: nat)
    requires i < |LONGEST_FIRST| && k < |LONGEST_FIRST|
    ensures Compatible(LONGEST_FIRST[i], LONGEST_FIRST[k])
  {
    var v, w := LONGEST_FIRST[i], LONGEST_FIRST[k];
    EntryShape(i);
    EntryShape(k);
    EntryCanonical(i);
    NotComparableCanonical(v.canonical, k);
    if v.surface <= w.surface {
      HeadIdentifies(i, w.surface);
      HeadIdentifies(k, w.surface);
    } else if w.surface <= v.surface {
      HeadIdentifies(i, v.surface);
      HeadIdentifies(k, v.surface);
    }
    forall j | 0 < j < |v.surface| && IsSpace(v.surface[j - 1])
      ensures !Comparable(v.surface[j..], w.surface)
    {
      NotComparableInside(v.surface[j..], w.surface);
    }
  }

  lemma VocabularyIsCoherent()
    ensures Coherent(VOCABULARY)
  {
    forall v | v in VOCABULARY
      ensures Shaped(v.surface) && v.canonical != "" && NoSpace(v.canonical)
    {
      var i :| 0 <= i < |LONGEST_FIRST| && LONGEST_FIRST[i] == v;
      EntryShape(i);
      EntryCanonical(i);
      CanonicalShape(v.canonical);
    }
    forall v, w | v in VOCABULARY && w in VOCABULARY ensures Compatible(v, w) {
      var i :| 0 <= i < |LONGEST_FIRST| && LONGEST_FIRST[i] == v;
      var k :| 0 <= k < |LONGEST_FIRST| && LONGEST_FIRST[k] == w;
      EntriesAreCompatible(i, k);
    }
  }
}

/** The fixed points of the matching key: a text is its own key exactly when it has the shape of a key
    and no legal suffix can be read in it. A key may still spell a suffix, so taking it twice can
    change it. */
module MatchingKeys {
  import opened SuffixRewriting
  import opened LegalSuffixes
  import opened Turkish

  // Key characters and single inner spaces, none at either end.
  predicate KeyShaped(k: string) {
    Tidied(k) && (k != "" ==> k[0] != ' ' && k[|k| - 1] != ' ')
  }

  predicate KeyText(t: string) {
    forall i :: 0 <= i < |t| ==> IsKeyChar(t[i]) || t[i] == ' '
  }

  // ----- a key without a suffix is its own key -----

  lemma LettersAreFixed(t: string)
    requires KeyText(t)
    ensures TurkishLower(t) == t && Fold(t) == t
  {
    forall i | 0 <= i < |t| ensures TurkishLowerLetter(t[i]) == t[i] && FoldLetter(t[i]) == t[i] {}
  }

  lemma {:induction false} JunkIsFixed(t: string, inRun: bool)
    requires Tidied(t) && (inRun && t != "" ==> t[0] != ' ')
    ensures SqueezeJunk(t, inRun) == t
    decreases |t|
  {
    if t != "" {
      JunkIsFixed(t[1..], t[0] == ' ');
      assert t == [t[0]] + t[1..];
    }
  }

  lemma ShapedIsTidy(k: string)
    requires KeyShaped(k)
    ensures Tidy(k) == k
  {
    JunkIsFixed(k, false);
    TidiedIsFixed(k, false);
    if k != "" {
      KeyCharsAreNotSpaces(k[0]);
      KeyCharsAreNotSpaces(k[|k| - 1]);
    }
  }

  // ----- a suffix costs a space and brings an underscore -----

  function Underscores(t: string): nat {
    if t == "" then 0 else (if t[0] == '_' then 1 else 0) + Underscores(t[1..])
  }

  lemma {:induction false} UnderscoresJoin(a: string, b: string)
    ensures Underscores(a + b) == Underscores(a) + Underscores(b)
  {
    if a == "" {
      assert a + b == b;
    } else {
      assert (a + b)[0] == a[0] && (a + b)[1..] == a[1..] + b;
      UnderscoresJoin(a[1..], b);
    }
  }

  // The surfaces with a dot or a letter outside the key alphabet.
  lemma OtherSurfaces(i: nat)
    requires i < |LONGEST_FIRST| && i !in {0, 4, 8}
    ensures !KeyText(LONGEST_FIRST[i].surface)
  {
    var s := LONGEST_FIRST[i].surface;
    if i == 1 { assert s[8] == 'ş'; }
    else if i == 2 { assert s[7] == 'ş'; }
    else if i == 3 || i == 5 || i == 6 { assert s[3] == '.'; }
    else if i == 7 { assert s[4] == 'ş'; }
    else if i == 9 || i == 10 { assert s[1] == '.'; }
    else { assert s[2] == 'ş'; }
  }

  // A surface that fits the key alphabet has no underscore, and its token has one.
  lemma PlainSurfaces(i: nat)
    requires i < |LONGEST_FIRST| && KeyText(LONGEST_FIRST[i].surface)
    ensures forall k :: 0 <= k < |LONGEST_FIRST[i].surface| ==> LONGEST_FIRST[i].surface[k] != '_'
    ensures LONGEST_FIRST[i].canonical in {"san_tic", "ltd_sti"}
  {
    if i !in {0, 4, 8} {
      OtherSurfaces(i);
    }
  }

  lemma {:induction false} NoUnderscore(t: string)
    requires forall i :: 0 <= i < |t| ==> t[i] != '_'
    ensures Underscores(t) == 0
  {
    if t != "" {
      NoUnderscore(t[1..]);
    }
  }

  lemma SurfaceCounts(v: Rule)
    requires v in VOCABULARY && KeyText(v.surface)
    ensures Underscores(v.surface) == 0 && Underscores(" " + v.canonical + " ") == 1
  {
    var i :| 0 <= i < |LONGEST_FIRST| && LONGEST_FIRST[i] == v;
    PlainSurfaces(i);
    NoUnderscore(v.surface);
    TokenCounts(v.canonical);
  }

  lemma TokenCounts(c: string)
    requires c in {"san_tic", "ltd_sti"}
    ensures Underscores(" " + c + " ") == 1
  {
    var t := " " + c + " ";
    assert t[..4] + "_" + t[5..] == t;
    NoUnderscore(t[..4]);
    NoUnderscore(t[5..]);
    UnderscoresJoin(t[..4] + "_", t[5..]);
    UnderscoresJoin(t[..4], "_");
    assert "_"[1..] == "";
  }

  // Over the key alphabet the sweep never loses an underscore, and gains one if it changes anything.
  lemma {:induction false} SweepCounts(t: string, atBoundary: bool)
    requires KeyText(t)
    ensures Underscores(Scan(VOCABULARY, t, atBoundary)) >= Underscores(t)
    ensures Scan(VOCABULARY, t, atBoundary) != t ==> Underscores(Scan(VOCABULARY, t, atBoundary)) > Underscores(t)
    decreases |t|
  {
    hide VOCABULARY, SomeMatch, MatchesAt, Underscores;
    if t != "" {
      if SomeMatch(VOCABULARY, t, atBoundary) {
        var v := MatchOf(t, atBoundary);
        SweepCounts(t[|v.surface|..], false);
        MatchCounts(v, t, atBoundary);
      } else {
        SweepCounts(t[1..], IsSpace(t[0]));
        CopyCounts(t, Scan(VOCABULARY, t[1..], IsSpace(t[0])));
      }
    }
  }

  lemma MatchOf(t: string, atBoundary: bool) returns (v: Rule)
    requires SomeMatch(VOCABULARY, t, atBoundary)
    ensures v in VOCABULARY && v.surface != "" && v.surface <= t && MatchesAt(v, t, atBoundary)
  {
    v :| v in VOCABULARY && MatchesAt(v, t, atBoundary);
  }

  lemma MatchCounts(v: Rule, t: string, atBoundary: bool)
    requires KeyText(t) && v in VOCABULARY && v.surface <= t && MatchesAt(v, t, atBoundary)
    ensures Underscores(Scan(VOCABULARY, t, atBoundary)) == 1 + Underscores(Scan(VOCABULARY, t[|v.surface|..], false))
    ensures Underscores(t) == Underscores(t[|v.surface|..])
  {
    hide VOCABULARY, MatchesAt, Underscores, Coherent, Scan;
    VocabularyIsCoherent();
    var n := |v.surface|;
    assert forall i :: 0 <= i < n ==> v.surface[i] == t[i];
    ScanAtMatch(VOCABULARY, v, t, atBoundary);
    SurfaceCounts(v);
    assert t == v.surface + t[n..];
    UnderscoresJoin(v.surface, t[n..]);
    UnderscoresJoin(" " + v.canonical + " ", Scan(VOCABULARY, t[n..], false));
  }

  lemma CopyCounts(t: string, rest: string)
    requires t != ""
    ensures Underscores([t[0]] + rest) - Underscores(t) == Underscores(rest) - Underscores(t[1..])
    ensures rest == t[1..] ==> [t[0]] + rest == t
  {
    assert ([t[0]] + rest)[1..] == rest;
  }

  // ----- folding and tidying keep underscores -----

  lemma {:induction false} FoldCounts(t: string)
    ensures Underscores(Fold(t)) == Underscores(t)
  {
    if t != "" {
      FoldCounts(t[1..]);
      assert Fold(t)[0] == FoldLetter(t[0]) && Fold(t)[1..] == Fold(t[1..]);
      assert FoldLetter(t[0]) == '_' <==> t[0] == '_';
    }
  }

  lemma {:induction false} JunkCounts(t: string, inRun: bool)
    ensures Underscores(SqueezeJunk(t, inRun)) == Underscores(t)
    decreases |t|
  {
    if t != "" {
      JunkCounts(t[1..], !IsKeyChar(t[0]));
      var rest := SqueezeJunk(t[1..], !IsKeyChar(t[0]));
      UnderscoresJoin([t[0]], rest);
      UnderscoresJoin(" ", rest);
      assert [t[0]][1..] == "" && " "[1..] == "" && "" + rest == rest;
    }
  }

  lemma {:induction false} SpacesCounts(t: string, inRun: bool)
    ensures Underscores(SqueezeSpaces(t, inRun)) == Underscores(t)
    decreases |t|
  {
    if t != "" {
      SpacesCounts(t[1..], IsSpace(t[0]));
      var rest := SqueezeSpaces(t[1..], IsSpace(t[0]));
      UnderscoresJoin([t[0]], rest);
      UnderscoresJoin(" ", rest);
      assert [t[0]][1..] == "" && " "[1..] == "" && "" + rest == rest;
    }
  }

  lemma {:induction false} StripRightCounts(t: string)
    ensures Underscores(StripRight(t)) == Underscores(t)
  {
    if t != "" && IsSpace(t[|t| - 1]) {
      var n := |t| - 1;
      StripRightCounts(t[..n]);
      assert t == t[..n] + [t[n]] && [t[n]][1..] == "";
      UnderscoresJoin(t[..n], [t[n]]);
    }
  }

  lemma {:induction false} StripLeftCounts(t: string)
    ensures Underscores(StripLeft(t)) == Underscores(t)
  {
    if t != "" && IsSpace(t[0]) {
      StripLeftCounts(t[1..]);
    }
  }

  lemma TidyCounts(t: string)
    ensures Underscores(Tidy(t)) == Underscores(t)
  {
    var j := SqueezeJunk(t, false);
    var s := SqueezeSpaces(j, false);
    JunkCounts(t, false);
    SpacesCounts(j, false);
    StripRightCounts(s);
    StripLeftCounts(StripRight(s));
  }

  // ----- the fixed points -----

  // The key of a key is the tidied sweep of it.
  lemma KeyOfKey(k: string)
    requires KeyShaped(k)
    ensures Underscores(MatchingKey(k)) == Underscores(Canonicalize(k))
    ensures SuffixFree(VOCABULARY, k) ==> MatchingKey(k) == k
  {
    hide *;
    ShapedIsText(k);
    LettersAreFixed(k);
    KeyIsSweep(k);
    FoldCounts(Canonicalize(k));
    TidyCounts(Fold(Canonicalize(k)));
    CanonicalizeIsIdempotent(k);
    ShapedIsTidy(k);
  }

  lemma ShapedIsText(k: string)
    requires KeyShaped(k)
    ensures KeyText(k)
  {}

  lemma KeyHasShape(text: string)
    ensures KeyShaped(MatchingKey(text))
  {
    hide MatchingKey, Tidied;
    KeyShape(text);
  }

  // A text is its own key if and only if it has the shape of a key and no legal suffix of the
  // vocabulary occurs in it.
  lemma FixedIffShapedAndFree(k: string)
    ensures MatchingKey(k) == k <==> KeyShaped(k) && SuffixFree(VOCABULARY, k)
  {
    hide MatchingKey, KeyShaped, SuffixFree, VOCABULARY, Scan;
    KeyHasShape(k);
    if KeyShaped(k) {
      KeyOfKey(k);
      ShapedIsText(k);
      CanonicalizeIsIdempotent(k);
      SweepCounts(k, true);
    }
  }

  // Hence taking the key twice changes nothing exactly when the key spells no legal suffix.
  lemma IdempotentIffFree(text: string)
    ensures MatchingKey(MatchingKey(text)) == MatchingKey(text) <==> SuffixFree(VOCABULARY, MatchingKey(text))
  {
    hide *;
    KeyHasShape(text);
    FixedIffShapedAndFree(MatchingKey(text));
  }

  // ----- a key that spells a suffix -----

  predicate KeyWord(w: string) {
    w != "" && forall i :: 0 <= i < |w| ==> IsKeyChar(w[i])
  }

  lemma {:induction false} WordCopied(w: string, rest: string, inRun: bool)
    requires KeyWord(w)
    ensures SqueezeJunk(w + rest, inRun) == w + SqueezeJunk(rest, false)
    decreases |w|
  {
    var t := w + rest;
    assert t[0] == w[0] && t[1..] == w[1..] + rest;
    if w[1..] != "" {
      WordCopied(w[1..], rest, false);
    } else {
      assert t[1..] == rest;
    }
    assert w == [w[0]] + w[1..];
    assert [w[0]] + (w[1..] + SqueezeJunk(rest, false)) == w + SqueezeJunk(rest, false);
  }

  // A dot between two words becomes a space.
  lemma DotBecomesSpace(a: string, b: string)
    requires KeyWord(a) && KeyWord(b)
    ensures Tidy(a + "." + b) == a + " " + b
  {
    var t, k := a + "." + b, a + " " + b;
    assert t == a + ("." + b) && ("." + b)[0] == '.' && ("." + b)[1..] == b && b + "" == b;
    WordCopied(a, "." + b, false);
    WordCopied(b, "", true);
    assert SqueezeJunk("." + b, false) == " " + b;
    assert SqueezeJunk(t, false) == k;
    JunkIsTidied(t, false);
    assert k[0] == a[0] && k[|k| - 1] == b[|b| - 1];
    KeyCharsAreNotSpaces(k[0]);
    KeyCharsAreNotSpaces(k[|k| - 1]);
    ShapedIsTidy(k);
    TidiedIsFixed(k, false);
  }

  lemma DottedHasNoSuffix()
    ensures SuffixFree(VOCABULARY, "ltd.sti")
  {
    var t := "ltd.sti";
    forall v, i: nat | v in VOCABULARY ensures !OccursAt(v, t, i) {
      var e :| 0 <= e < |LONGEST_FIRST| && LONGEST_FIRST[e] == v;
      if OccursAt(v, t, i) {
        DottedMatch(e, i);
      }
    }
  }

  lemma DottedMatch(e: nat, i: nat)
    requires e < |LONGEST_FIRST|
    ensures !OccursAt(LONGEST_FIRST[e], "ltd.sti", i)
  {
    var t := "ltd.sti";
    assert LONGEST_FIRST[5].surface[4] == ' ' && t[4] == 's';
    if i == 0 && LONGEST_FIRST[e].surface <= t {
      HeadIdentifies(e, t);
    } else if 0 < i <= |t| {
      assert !IsSpace(t[i - 1]);
    }
    assert t[0..] == t;
  }

  // "ltd.sti" holds no suffix, and its key "ltd sti" is one: the key of the key is "ltd_sti".
  lemma KeyMayChangeAgain()
    ensures MatchingKey("ltd.sti") == "ltd sti" && MatchingKey("ltd sti") != "ltd sti"
  {
    DottedKey();
    LtdStiOccurs();
    FixedIffShapedAndFree("ltd sti");
  }

  lemma DottedKey()
    ensures MatchingKey("ltd.sti") == "ltd sti"
  {
    var t := "ltd.sti";
    hide SuffixFree, VOCABULARY, MatchingKey, Tidy, TurkishLower, Fold, Canonicalize;
    DottedHasNoSuffix();
    KeyIsSweep(t);
    CanonicalizeIsIdempotent(t);
    LowerCaseIsFixed(t);
    DotBecomesSpace("ltd", "sti");
    assert "ltd" + "." + "sti" == t && "ltd" + " " + "sti" == "ltd sti";
  }

  lemma LowerCaseIsFixed(t: string)
    requires forall i :: 0 <= i < |t| ==> 'a' <= t[i] <= 'z' || t[i] == '.'
    ensures TurkishLower(t) == t && Fold(t) == t
  {
    forall i | 0 <= i < |t| ensures TurkishLowerLetter(t[i]) == t[i] && FoldLetter(t[i]) == t[i] {}
  }

  lemma LtdStiOccurs()
    ensures !SuffixFree(VOCABULARY, "ltd sti")
  {
    var v := LONGEST_FIRST[8];
    assert v in VOCABULARY;
    assert "ltd sti"[0..] == v.surface;
    assert OccursAt(v, "ltd sti", 0);
  }
}

/** The generator's spelling transforms and what the matching key does with them: an all-caps
    spelling and a degraded-scan spelling have the key of the proper spelling. */
module SpellingVariants {
  import opened SuffixRewriting
  import opened LegalSuffixes
  import opened Turkish

  function UpperLetter(c: char): char {
    if c < 'a' then c
    else if c <= 'z' then c - '\U{0020}'
    else if c < '\U{0080}' then c
    else match c
      case 'ş' => 'Ş' case 'ğ' => 'Ğ' case 'ü' => 'Ü' case 'ö' => 'Ö' case 'ç' => 'Ç'
      case 'â' => 'Â' case 'î' => 'Î' case 'û' => 'Û' case 'ı' => 'I'
      case _ => c
  }

  // tr_upper: i becomes İ and ı becomes I before generic uppercasing.
  function TrUpperLetter(c: char): char {
    UpperLetter(if c == 'i' then 'İ' else if c == 'ı' then 'I' else c)
  }

  function TrUpper(t: string): string {
    seq(|t|, i requires 0 <= i < |t| => TrUpperLetter(t[i]))
  }

  function AsciiLetter(c: char): char {
    if c < '\U{0080}' then c
    else match c
      case 'İ' => 'I' case 'ı' => 'i' case 'Ş' => 'S' case 'ş' => 's' case 'Ğ' => 'G' case 'ğ' => 'g'
      case 'Ü' => 'U' case 'ü' => 'u' case 'Ö' => 'O' case 'ö' => 'o' case 'Ç' => 'C' case 'ç' => 'c'
      case _ => c
  }

  // ascii_degrade
  function AsciiDegrade(t: string): string {
    seq(|t|, i requires 0 <= i < |t| => AsciiLetter(t[i]))
  }

  // A letter and its capital in the Turkish alphabet, with q, w, x and the circumflexed vowels.
  ghost predicate Pair(small: char, capital: char) {
    || ('a' <= small <= 'z' && small != 'i' && small as int - capital as int == 32)
    || (small, capital)
       in {('i', 'İ'), ('ı', 'I'), ('ş', 'Ş'), ('ğ', 'Ğ'), ('ü', 'Ü'), ('ö', 'Ö'), ('ç', 'Ç'),
           ('â', 'Â'), ('î', 'Î'), ('û', 'Û')}
  }

  // Upper-casing and lower-casing exchange the letters of such a pair and change nothing else.
  lemma CasesPair(c: char, d: char)
    requires c != d
    ensures TrUpperLetter(c) == d <==> Pair(c, d)
    ensures TurkishLowerLetter(d) == c <==> Pair(c, d)
  {}

  // Degrading drops the marks of twelve letters, and folding those of the small letters, the dotless
  // i and the circumflexes included; both change nothing else.
  lemma MarksDrop(c: char, d: char)
    requires c != d
    ensures AsciiLetter(c) == d
      <==> (c, d)
           in {('İ', 'I'), ('ı', 'i'), ('Ş', 'S'), ('ş', 's'), ('Ğ', 'G'), ('ğ', 'g'), ('Ü', 'U'), ('ü', 'u'),
               ('Ö', 'O'), ('ö', 'o'), ('Ç', 'C'), ('ç', 'c')}
    ensures FoldLetter(c) == d
      <==> (c, d)
           in {('ş', 's'), ('ğ', 'g'), ('ü', 'u'), ('ö', 'o'), ('ç', 'c'), ('ı', 'i'), ('â', 'a'), ('î', 'i'),
               ('û', 'u')}
  {}

  // For every text over ASCII, the Turkish letters and the circumflexed vowels, the letters the
  // casing functions here know. Outside of them upper() can be longer than its argument.
  lemma LowerUndoesUpper(t: string)
    ensures TurkishLower(TrUpper(t)) == TurkishLower(t)
  {
    assert forall c: char :: TurkishLowerLetter(TrUpperLetter(c)) == TurkishLowerLetter(c);
  }

  // The key does not see the capitals of a text over that alphabet.
  lemma KeyIgnoresCapitals(t: string)
    ensures MatchingKey(TrUpper(t)) == MatchingKey(t)
  {
    LowerUndoesUpper(t);
  }

  lemma FoldUndoesDegrade(t: string)
    ensures Fold(TurkishLower(AsciiDegrade(t))) == Fold(TurkishLower(t))
  {
    assert forall c: char :: FoldLetter(TurkishLowerLetter(AsciiLetter(c))) == FoldLetter(TurkishLowerLetter(c));
  }

  // Neither the text nor its degraded spelling contains a legal suffix.
  ghost predicate Plain(t: string) {
    SuffixFree(VOCABULARY, TurkishLower(t)) && SuffixFree(VOCABULARY, TurkishLower(AsciiDegrade(t)))
  }

  lemma KeyIgnoresDegrading(t: string)
    requires Plain(t)
    ensures MatchingKey(AsciiDegrade(t)) == MatchingKey(t)
  {
    KeyIsSweep(t);
    KeyIsSweep(AsciiDegrade(t));
    CanonicalizeIsIdempotent(TurkishLower(t));
    CanonicalizeIsIdempotent(TurkishLower(AsciiDegrade(t)));
    FoldUndoesDegrade(t);
  }

  // ----- the three spellings of one legal name -----

  // (full form, all-caps abbreviation, degraded spelling)
  const LEGAL_SUFFIXES: seq<(string, string, string)> := [
    ("Sanayi ve Ticaret Ltd. Şti.", "SAN. VE TİC. LTD. ŞTİ.", "San ve Tic Ltd Sti"),
    ("Limited Şirketi", "LTD. ŞTİ.", "Ltd Sti"),
    ("Sanayi ve Ticaret A.Ş.", "SAN. VE TİC. A.Ş.", "San ve Tic AS"),
    ("Anonim Şirketi", "A.Ş.", "AS")]

  lemma LoweredLimited()
    ensures TurkishLower(LEGAL_SUFFIXES[0].0) == "sanayi ve ticaret ltd. şti."
  {}

  lemma LoweredCapsLimited()
    ensures TurkishLower(LEGAL_SUFFIXES[0].1) == "san. ve tic. ltd. şti."
    ensures TurkishLower(LEGAL_SUFFIXES[0].2) == "san ve tic ltd sti"
  {}

  lemma LoweredShortLimited()
    ensures TurkishLower(LEGAL_SUFFIXES[1].0) == "limited şirketi"
    ensures TurkishLower(LEGAL_SUFFIXES[1].1) == "ltd. şti."
    ensures TurkishLower(LEGAL_SUFFIXES[1].2) == "ltd sti"
  {}

  lemma LoweredJointStock()
    ensures TurkishLower(LEGAL_SUFFIXES[2].0) == "sanayi ve ticaret a.ş."
    ensures TurkishLower(LEGAL_SUFFIXES[2].1) == "san. ve tic. a.ş."
    ensures TurkishLower(LEGAL_SUFFIXES[2].2) == "san ve tic as"
  {}

  lemma LoweredShortJointStock()
    ensures TurkishLower(LEGAL_SUFFIXES[3].0) == "anonim şirketi"
    ensures TurkishLower(LEGAL_SUFFIXES[3].1) == "a.ş."
    ensures TurkishLower(LEGAL_SUFFIXES[3].2) == "as"
  {}

  // A lowercased suffix that a head may precede, and what the sweep makes of it.
  ghost predicate SuffixText(U: set<Rule>, lowered: string, swept: string) {
    StartsAfresh(U, lowered) && Scan(U, lowered, true) == swept
  }

  lemma SweptTwo(U: set<Rule>, v: Rule, w: Rule, text: string, swept: string)
    requires Coherent(U) && v in U && w in U
    requires text == v.surface + " " + w.surface && swept == " " + v.canonical + "   " + w.canonical + " "
    ensures SuffixText(U, text, swept)
  {
    TwoSurfaces(U, v, w);
    SurfaceStartsAfresh(U, v, text);
  }

  lemma SweptOne(U: set<Rule>, v: Rule, swept: string)
    requires Coherent(U) && v in U && swept == " " + v.canonical + " "
    ensures SuffixText(U, v.surface, swept)
  {
    OneSurface(U, v);
    SurfaceStartsAfresh(U, v, v.surface);
  }

  lemma SweptLimited(U: set<Rule>)
    requires Coherent(U) && Rule("sanayi ve ticaret", "san_tic") in U && Rule("ltd. şti.", "ltd_sti") in U
    ensures SuffixText(U, "sanayi ve ticaret ltd. şti.", " san_tic   ltd_sti ")
  {
    SweptTwo(U, Rule("sanayi ve ticaret", "san_tic"), Rule("ltd. şti.", "ltd_sti"), "sanayi ve ticaret ltd. şti.",
      " san_tic   ltd_sti ");
  }

  lemma SweptCapsLimited(U: set<Rule>)
    requires Coherent(U) && Rule("san. ve tic.", "san_tic") in U && Rule("ltd. şti.", "ltd_sti") in U
    ensures SuffixText(U, "san. ve tic. ltd. şti.", " san_tic   ltd_sti ")
  {
    SweptTwo(U, Rule("san. ve tic.", "san_tic"), Rule("ltd. şti.", "ltd_sti"), "san. ve tic. ltd. şti.",
      " san_tic   ltd_sti ");
  }

  lemma SweptAsciiLimited(U: set<Rule>)
    requires Coherent(U) && Rule("san ve tic", "san_tic") in U && Rule("ltd sti", "ltd_sti") in U
    ensures SuffixText(U, "san ve tic ltd sti", " san_tic   ltd_sti ")
  {
    SweptTwo(U, Rule("san ve tic", "san_tic"), Rule("ltd sti", "ltd_sti"), "san ve tic ltd sti", " san_tic   ltd_sti ");
  }

  lemma SweptShortLimited(U: set<Rule>)
    requires Coherent(U)
    requires Rule("limited şirketi", "ltd_sti") in U && Rule("ltd. şti.", "ltd_sti") in U
    requires Rule("ltd sti", "ltd_sti") in U
    ensures SuffixText(U, "limited şirketi", " ltd_sti ")
    ensures SuffixText(U, "ltd. şti.", " ltd_sti ")
    ensures SuffixText(U, "ltd sti", " ltd_sti ")
  {
    SweptOne(U, Rule("limited şirketi", "ltd_sti"), " ltd_sti ");
    SweptOne(U, Rule("ltd. şti.", "ltd_sti"), " ltd_sti ");
    SweptOne(U, Rule("ltd sti", "ltd_sti"), " ltd_sti ");
  }

  lemma SweptJointStock(U: set<Rule>)
    requires Coherent(U) && Rule("sanayi ve ticaret", "san_tic") in U && Rule("a.ş.", "as") in U
    ensures SuffixText(U, "sanayi ve ticaret a.ş.", " san_tic   as ")
  {
    SweptTwo(U, Rule("sanayi ve ticaret", "san_tic"), Rule("a.ş.", "as"), "sanayi ve ticaret a.ş.", " san_tic   as ");
  }

  lemma SweptCapsJointStock(U: set<Rule>)
    requires Coherent(U) && Rule("san. ve tic.", "san_tic") in U && Rule("a.ş.", "as") in U
    ensures SuffixText(U, "san. ve tic. a.ş.", " san_tic   as ")
  {
    SweptTwo(U, Rule("san. ve tic.", "san_tic"), Rule("a.ş.", "as"), "san. ve tic. a.ş.", " san_tic   as ");
  }

  // A bare "as" is not in the vocabulary; it is already the canonical token.
  lemma BareAs(U: set<Rule>)
    requires Coherent(U) && forall v :: v in U ==> |v.surface| >= 3 && Closed(v.surface)
    ensures SuffixText(U, "as", "as")
  {
    assert SuffixFree(U, "as");
    FixedIffFree(U, "as");
    forall v, j | v in U && 0 < j < |v.surface| && IsSpace(v.surface[j - 1])
      ensures !Comparable(v.surface[j..], "as")
    {
      NotComparableInside(v.surface[j..], "as");
    }
  }

  lemma SweptBeforeToken(U: set<Rule>, v: Rule, token: string, text: string, swept: string)
    requires Coherent(U) && v in U && Scan(U, token, true) == token
    requires text == v.surface + " " + token && swept == " " + v.canonical + "  " + token
    ensures SuffixText(U, text, swept)
  {
    SurfaceBefore(U, v, token);
    SurfaceStartsAfresh(U, v, text);
  }

  lemma SweptAsciiJointStock(U: set<Rule>)
    requires Coherent(U) && Rule("san ve tic", "san_tic") in U && Scan(U, "as", true) == "as"
    ensures SuffixText(U, "san ve tic as", " san_tic  as")
  {
    SweptBeforeToken(U, Rule("san ve tic", "san_tic"), "as", "san ve tic as", " san_tic  as");
  }

  lemma SweptShortJointStock(U: set<Rule>)
    requires Coherent(U) && Rule("anonim şirketi", "as") in U && Rule("a.ş.", "as") in U
    ensures SuffixText(U, "anonim şirketi", " as ")
    ensures SuffixText(U, "a.ş.", " as ")
  {
    SweptOne(U, Rule("anonim şirketi", "as"), " as ");
    SweptOne(U, Rule("a.ş.", "as"), " as ");
  }

  lemma FormsAreKnown()
    ensures Coherent(VOCABULARY)
    ensures Rule("sanayi ve ticaret", "san_tic") in VOCABULARY && Rule("san. ve tic.", "san_tic") in VOCABULARY
    ensures Rule("san ve tic", "san_tic") in VOCABULARY && Rule("limited şirketi", "ltd_sti") in VOCABULARY
    ensures Rule("ltd. şti.", "ltd_sti") in VOCABULARY && Rule("ltd sti", "ltd_sti") in VOCABULARY
    ensures Rule("anonim şirketi", "as") in VOCABULARY && Rule("a.ş.", "as") in VOCABULARY
  {
    VocabularyIsCoherent();
    assert LONGEST_FIRST[0] in VOCABULARY && LONGEST_FIRST[1] in VOCABULARY && LONGEST_FIRST[2] in VOCABULARY;
    assert LONGEST_FIRST[3] in VOCABULARY && LONGEST_FIRST[4] in VOCABULARY && LONGEST_FIRST[5] in VOCABULARY;
    assert LONGEST_FIRST[8] in VOCABULARY && LONGEST_FIRST[9] in VOCABULARY;
  }

  lemma BareAsIsFixed()
    ensures SuffixText(VOCABULARY, "as", "as")
  {
    VocabularyIsCoherent();
    forall v | v in VOCABULARY ensures |v.surface| >= 3 && Closed(v.surface) {
      var e :| 0 <= e < |LONGEST_FIRST| && LONGEST_FIRST[e] == v;
      EntryShape(e);
    }
    BareAs(VOCABULARY);
  }

  // ----- from the suffixes to the keys -----

  lemma TidyTail(h: string, a: string)
    ensures Tidy(h + " " + (" " + a + " ")) == Tidy(h + " " + a)
  {
    assert h + " " + (" " + a + " ") == h + "  " + a + " ";
    TidyTrailing(h + "  " + a);
    TidyDouble(h, a);
  }

  lemma TidyTwoTokens(h: string)
    ensures Tidy(h + " " + " san_tic   as ") == Tidy(h + " " + " san_tic  as")
  {
    var g := h + "  san_tic ";
    assert h + " " + " san_tic   as " == g + "  " + "as" + " ";
    TidyTrailing(g + "  " + "as");
    TidyDouble(g, "as");
    assert g + " " + "as" == h + " " + " san_tic  as";
  }

  lemma SweepOfSpelling(U: set<Rule>, head: string, suffix: string, swept: string)
    requires Coherent(U) && SuffixFree(U, TurkishLower(head)) && SuffixText(U, TurkishLower(suffix), swept)
    ensures Scan(U, TurkishLower(head + " " + suffix), true) == TurkishLower(head) + " " + swept
  {
    var h := TurkishLower(head);
    assert TurkishLower(head + " " + suffix) == h + " " + TurkishLower(suffix);
    HeadSurvives(U, h, TurkishLower(suffix), 0);
    assert h[0..] == h;
  }

  // The key of a name spelled as a head and a suffix, before tidying.
  lemma KeyOfSpelling(head: string, suffix: string, swept: string)
    requires SuffixFree(VOCABULARY, TurkishLower(head)) && SuffixText(VOCABULARY, TurkishLower(suffix), swept)
    requires Fold(swept) == swept
    ensures MatchingKey(head + " " + suffix) == Tidy(Fold(TurkishLower(head)) + " " + swept)
  {
    VocabularyIsCoherent();
    SweepOfSpelling(VOCABULARY, head, suffix, swept);
    KeyIsSweep(head + " " + suffix);
    FoldAround(TurkishLower(head), swept);
  }

  lemma FoldAround(h: string, swept: string)
    requires Fold(swept) == swept
    ensures Fold(h + " " + swept) == Fold(h) + " " + swept
  {
    assert forall i :: 0 <= i < |swept| ==> FoldLetter(swept[i]) == swept[i] by {
      forall i | 0 <= i < |swept| ensures FoldLetter(swept[i]) == swept[i] { assert Fold(swept)[i] == swept[i]; }
    }
  }

  lemma SweptTextsAreFolded()
    ensures Fold(" san_tic   ltd_sti ") == " san_tic   ltd_sti " && Fold(" ltd_sti ") == " ltd_sti "
    ensures Fold(" san_tic   as ") == " san_tic   as " && Fold(" san_tic  as") == " san_tic  as"
    ensures Fold(" as ") == " as " && Fold("as") == "as"
  {}

  // What the three spellings of a legal form become; the degraded one may lose spaces.
  ghost predicate SpelledForm(form: (string, string, string), swept: string, sweptAscii: string) {
    && SuffixText(VOCABULARY, TurkishLower(form.0), swept)
    && SuffixText(VOCABULARY, TurkishLower(form.1), swept)
    && SuffixText(VOCABULARY, TurkishLower(form.2), sweptAscii)
  }

  lemma LimitedForms()
    ensures SpelledForm(LEGAL_SUFFIXES[0], " san_tic   ltd_sti ", " san_tic   ltd_sti ")
    ensures SpelledForm(LEGAL_SUFFIXES[1], " ltd_sti ", " ltd_sti ")
  {
    FormsAreKnown();
    LoweredLimited();
    LoweredCapsLimited();
    SweptLimited(VOCABULARY);
    SweptCapsLimited(VOCABULARY);
    SweptAsciiLimited(VOCABULARY);
    LoweredShortLimited();
    SweptShortLimited(VOCABULARY);
  }

  lemma JointStockForms()
    ensures SpelledForm(LEGAL_SUFFIXES[2], " san_tic   as ", " san_tic  as")
    ensures SpelledForm(LEGAL_SUFFIXES[3], " as ", "as")
  {
    FormsAreKnown();
    BareAsIsFixed();
    LoweredJointStock();
    SweptJointStock(VOCABULARY);
    SweptCapsJointStock(VOCABULARY);
    SweptAsciiJointStock(VOCABULARY);
    LoweredShortJointStock();
    SweptShortJointStock(VOCABULARY);
  }

  lemma SpelledFormsShareOneKey(head: string, form: (string, string, string), swept: string, sweptAscii: string)
    requires Plain(head) && SpelledForm(form, swept, sweptAscii) && Fold(swept) == swept
    requires Fold(sweptAscii) == sweptAscii
    requires Tidy(Fold(TurkishLower(head)) + " " + swept) == Tidy(Fold(TurkishLower(head)) + " " + sweptAscii)
    ensures MatchingKey(TrUpper(head) + " " + form.1) == MatchingKey(head + " " + form.0)
    ensures MatchingKey(AsciiDegrade(head) + " " + form.2) == MatchingKey(head + " " + form.0)
  {
    LowerUndoesUpper(head);
    FoldUndoesDegrade(head);
    KeyOfSpelling(head, form.0, swept);
    KeyOfSpelling(TrUpper(head), form.1, swept);
    KeyOfSpelling(AsciiDegrade(head), form.2, sweptAscii);
  }

  // The proper, the all-caps and the degraded spelling of a legal name have one key, for
  // every head without a legal suffix of its own and every legal form.
  lemma SpellingsShareOneKey(head: string, form: nat)
    requires Plain(head) && form < |LEGAL_SUFFIXES|
    ensures MatchingKey(TrUpper(head) + " " + LEGAL_SUFFIXES[form].1)
      == MatchingKey(head + " " + LEGAL_SUFFIXES[form].0)
    ensures MatchingKey(AsciiDegrade(head) + " " + LEGAL_SUFFIXES[form].2)
      == MatchingKey(head + " " + LEGAL_SUFFIXES[form].0)
  {
    var h := Fold(TurkishLower(head));
    SweptTextsAreFolded();
    if form < 2 {
      LimitedForms();
      var swept := if form == 0 then " san_tic   ltd_sti " else " ltd_sti ";
      SpelledFormsShareOneKey(head, LEGAL_SUFFIXES[form], swept, swept);
    } else if form == 2 {
      JointStockForms();
      TidyTwoTokens(h);
      SpelledFormsShareOneKey(head, LEGAL_SUFFIXES[form], " san_tic   as ", " san_tic  as");
    } else {
      JointStockForms();
      TidyTail(h, "as");
      assert " " + "as" + " " == " as ";
      SpelledFormsShareOneKey(head, LEGAL_SUFFIXES[form], " as ", "as");
    }
  }
}

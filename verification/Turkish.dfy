/** Turkish-aware normalization: lowercasing, match-only folding, the matching key, and the
    two name predicates. Casing is modelled for ASCII, the Turkish letters, and the
    circumflexed vowels; every other character is left as it is. */
module Turkish {
  import opened SuffixRewriting
  import opened LegalSuffixes

  // Generic lowercasing of one letter, which gets the dotted and dotless i wrong for Turkish.
  function LowerLetter(c: char): char {
    if c < 'A' then c
    else if c <= 'Z' then c + '\U{0020}'
    else if c < '\U{0080}' then c
    else match c
      case 'Ş' => 'ş' case 'Ğ' => 'ğ' case 'Ü' => 'ü' case 'Ö' => 'ö' case 'Ç' => 'ç'
      case 'Â' => 'â' case 'Î' => 'î' case 'Û' => 'û'
      case _ => c
  }

  function Lower(t: string): string {
    seq(|t|, i requires 0 <= i < |t| => LowerLetter(t[i]))
  }

  function Replace(t: string, from: char, to: char): string {
    seq(|t|, i requires 0 <= i < |t| => if t[i] == from then to else t[i])
  }

  const TR_UPPER_TO_LOWER: seq<(char, char)> := [('İ', 'i'), ('I', 'ı')]

  // The specification of turkish_lower: every letter on its own.
  function TurkishLowerLetter(c: char): char {
    if c == 'İ' then 'i' else if c == 'I' then 'ı' else LowerLetter(c)
  }

  function TurkishLower(t: string): string {
    seq(|t|, i requires 0 <= i < |t| => TurkishLowerLetter(t[i]))
  }

  // turkish_lower: the explicit replacements first, then generic lowercasing.
  method TurkishLowering(text: string) returns (r: string)
    ensures r == TurkishLower(text)
  {
    r := text;
    for i := 0 to |TR_UPPER_TO_LOWER|
      invariant |r| == |text|
      invariant forall k :: 0 <= k < |r| ==>
        r[k] == if i > 0 && text[k] == 'İ' then 'i' else if i > 1 && text[k] == 'I' then 'ı' else text[k]
    {
      r := Replace(r, TR_UPPER_TO_LOWER[i].0, TR_UPPER_TO_LOWER[i].1);
    }
    r := Lower(r);
  }

  function FoldLetter(c: char): char {
    if c < '\U{0080}' then c
    else match c
      case 'ş' => 's' case 'ğ' => 'g' case 'ü' => 'u' case 'ö' => 'o' case 'ç' => 'c'
      case 'ı' => 'i' case 'â' => 'a' case 'î' => 'i' case 'û' => 'u'
      case _ => c
  }

  // diacritic_fold
  function Fold(t: string): string {
    seq(|t|, i requires 0 <= i < |t| => FoldLetter(t[i]))
  }

  // ----- the last steps of the key: punctuation out, whitespace collapsed, ends stripped -----

  predicate IsKeyChar(c: char) {
    'a' <= c <= 'z' || '0' <= c <= '9' || c == '_'
  }

  // Every maximal run of characters outside the key alphabet becomes one space.
  function SqueezeJunk(t: string, inRun: bool): string
    decreases |t|
  {
    if t == "" then ""
    else if IsKeyChar(t[0]) then [t[0]] + SqueezeJunk(t[1..], false)
    else (if inRun then "" else " ") + SqueezeJunk(t[1..], true)
  }

  // Every maximal run of whitespace becomes one space.
  function SqueezeSpaces(t: string, inRun: bool): string
    decreases |t|
  {
    if t == "" then ""
    else if !IsSpace(t[0]) then [t[0]] + SqueezeSpaces(t[1..], false)
    else (if inRun then "" else " ") + SqueezeSpaces(t[1..], true)
  }

  function StripRight(t: string): string {
    if t != "" && IsSpace(t[|t| - 1]) then StripRight(t[..|t| - 1]) else t
  }

  function StripLeft(t: string): string {
    if t != "" && IsSpace(t[0]) then StripLeft(t[1..]) else t
  }

  function Strip(t: string): string {
    StripLeft(StripRight(t))
  }

  function Tidy(t: string): string {
    Strip(SqueezeSpaces(SqueezeJunk(t, false), false))
  }

  function MatchingKey(text: string): string {
    Tidy(Fold(Passes(LONGEST_FIRST, TurkishLower(text))))
  }

  lemma KeyIsSweep(text: string)
    ensures MatchingKey(text) == Tidy(Fold(Canonicalize(TurkishLower(text))))
  {
    AnyOrder(LONGEST_FIRST, TurkishLower(text));
  }

  // The two scores stand for the fuzzy ratios, which are not part of this model.
  function PersonNamesMatch(a: string, b: string, score: (string, string) -> real): bool {
    MatchingKey(a) == MatchingKey(b) || score(MatchingKey(a), MatchingKey(b)) >= 90.0
  }

  function LegalNamesMatch(a: string, b: string, score: (string, string) -> real): bool {
    MatchingKey(a) == MatchingKey(b) || score(MatchingKey(a), MatchingKey(b)) >= 85.0
  }

  // ----- tidying is insensitive to extra spaces -----

  lemma {:induction false} JunkTrailing(t: string, inRun: bool)
    ensures SqueezeJunk(t + " ", inRun) in [SqueezeJunk(t, inRun), SqueezeJunk(t, inRun) + " "]
    decreases |t|
  {
    var u := t + " ";
    if t == "" {
      assert u[0] == ' ' && u[1..] == "" && SqueezeJunk(u, inRun) == if inRun then "" else " ";
      assert "" + " " == " ";
    } else {
      assert u[0] == t[0] && u[1..] == t[1..] + " ";
      JunkTrailing(t[1..], !IsKeyChar(t[0]));
      var rest := SqueezeJunk(t[1..], !IsKeyChar(t[0]));
      assert [t[0]] + (rest + " ") == [t[0]] + rest + " " && " " + (rest + " ") == " " + rest + " ";
      assert "" + (rest + " ") == "" + rest + " ";
    }
  }

  lemma {:induction false} SpacesTrailing(t: string, inRun: bool)
    ensures SqueezeSpaces(t + " ", inRun) in [SqueezeSpaces(t, inRun), SqueezeSpaces(t, inRun) + " "]
    decreases |t|
  {
    var u := t + " ";
    if t == "" {
      assert u[0] == ' ' && u[1..] == "" && SqueezeSpaces(u, inRun) == if inRun then "" else " ";
      assert "" + " " == " ";
    } else {
      assert u[0] == t[0] && u[1..] == t[1..] + " ";
      SpacesTrailing(t[1..], IsSpace(t[0]));
      var rest := SqueezeSpaces(t[1..], IsSpace(t[0]));
      assert [t[0]] + (rest + " ") == [t[0]] + rest + " " && " " + (rest + " ") == " " + rest + " ";
      assert "" + (rest + " ") == "" + rest + " ";
    }
  }

  lemma TidyTrailing(t: string)
    ensures Tidy(t + " ") == Tidy(t)
  {
    var j := SqueezeJunk(t, false);
    JunkTrailing(t, false);
    SpacesTrailing(j, false);
    var s := SqueezeSpaces(j, false);
    assert (s + " ")[..|s|] == s;
  }

  lemma {:induction false} JunkDouble(a: string, b: string, inRun: bool)
    ensures SqueezeJunk(a + "  " + b, inRun) == SqueezeJunk(a + " " + b, inRun)
    decreases |a|
  {
    var u, w := a + "  " + b, a + " " + b;
    if a == "" {
      assert u[0] == ' ' && u[1..] == " " + b && w[0] == ' ' && w[1..] == b;
      assert (" " + b)[0] == ' ' && (" " + b)[1..] == b;
    } else {
      assert u[0] == a[0] && u[1..] == a[1..] + "  " + b && w[0] == a[0] && w[1..] == a[1..] + " " + b;
      JunkDouble(a[1..], b, !IsKeyChar(a[0]));
    }
  }

  lemma TidyDouble(a: string, b: string)
    ensures Tidy(a + "  " + b) == Tidy(a + " " + b)
  {
    JunkDouble(a, b, false);
  }

  // ----- the shape of a key -----

  // Only key characters and single inner spaces.
  predicate Tidied(k: string) {
    && (forall i :: 0 <= i < |k| ==> IsKeyChar(k[i]) || k[i] == ' ')
    && (forall i :: 0 < i < |k| ==> k[i - 1] != ' ' || k[i] != ' ')
  }

  lemma KeyCharsAreNotSpaces(c: char)
    requires IsKeyChar(c)
    ensures !IsSpace(c)
  {}

  lemma {:induction false} JunkIsTidied(t: string, inRun: bool)
    ensures Tidied(SqueezeJunk(t, inRun))
    ensures inRun && SqueezeJunk(t, inRun) != "" ==> SqueezeJunk(t, inRun)[0] != ' '
    decreases |t|
  {
    if t != "" {
      JunkIsTidied(t[1..], !IsKeyChar(t[0]));
    }
  }

  lemma {:induction false} TidiedIsFixed(t: string, inRun: bool)
    requires Tidied(t) && (inRun && t != "" ==> t[0] != ' ')
    ensures SqueezeSpaces(t, inRun) == t
    decreases |t|
  {
    if t != "" {
      if IsKeyChar(t[0]) { KeyCharsAreNotSpaces(t[0]); }
      TidiedIsFixed(t[1..], t[0] == ' ');
    }
  }

  // A matching key holds key characters and single inner spaces only, and none at either end.
  lemma KeyShape(text: string)
    ensures Tidied(MatchingKey(text))
    ensures MatchingKey(text) != "" ==> MatchingKey(text)[0] != ' ' && MatchingKey(text)[|MatchingKey(text)| - 1] != ' '
  {
    var folded := Fold(Passes(LONGEST_FIRST, TurkishLower(text)));
    var t := SqueezeJunk(folded, false);
    JunkIsTidied(folded, false);
    TidiedIsFixed(t, false);
    StripRightShape(t);
    StripLeftShape(StripRight(t));
  }

  lemma {:induction false} StripRightShape(t: string)
    requires Tidied(t)
    ensures Tidied(StripRight(t)) && (StripRight(t) != "" ==> StripRight(t)[|StripRight(t)| - 1] != ' ')
  {
    if t != "" && IsSpace(t[|t| - 1]) {
      StripRightShape(t[..|t| - 1]);
    }
  }

  lemma {:induction false} StripLeftShape(t: string)
    requires Tidied(t) && (t != "" ==> t[|t| - 1] != ' ')
    ensures Tidied(StripLeft(t)) && (StripLeft(t) != "" ==> StripLeft(t)[0] != ' ')
    ensures StripLeft(t) != "" ==> StripLeft(t)[|StripLeft(t)| - 1] != ' '
  {
    if t != "" && IsSpace(t[0]) {
      StripLeftShape(t[1..]);
    }
  }
}

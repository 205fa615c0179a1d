/** What a matching key is made of: the words of the folded text, in order, one space apart. */
module KeyWords {
  import opened SuffixRewriting
  import opened LegalSuffixes
  import opened Turkish
  import opened MatchingKeys

  // The run of key characters a text begins with.
  function LeadingRun(t: string): (r: string)
    ensures r <= t && (t != "" && IsKeyChar(t[0]) ==> KeyWord(r))
    ensures |r| < |t| ==> !IsKeyChar(t[|r|])
  {
    if t == "" || !IsKeyChar(t[0]) then "" else [t[0]] + LeadingRun(t[1..])
  }

  // The maximal runs of key characters of a text.
  function Words(t: string): seq<string>
    decreases |t|
  {
    if t == "" then []
    else if !IsKeyChar(t[0]) then Words(t[1..])
    else [LeadingRun(t)] + Words(t[|LeadingRun(t)|..])
  }

  function Joined(words: seq<string>): string {
    if words == [] then ""
    else if |words| == 1 then words[0]
    else words[0] + " " + Joined(words[1..])
  }

  // The key characters are the small letters of ASCII, the digits and the underscore.
  lemma KeyCharsAre(c: char)
    ensures IsKeyChar(c) <==> 97 <= c as int <= 122 || 48 <= c as int <= 57 || c as int == 95
  {}

  // White space is what Python calls by that name: these twenty-nine characters.
  lemma SpacesAre(c: char)
    ensures IsSpace(c)
      <==> c as int in {9, 10, 11, 12, 13, 28, 29, 30, 31, 32, 133, 160, 5760, 8192, 8193, 8194, 8195, 8196, 8197, 8198,
                        8199, 8200, 8201, 8202, 8232, 8233, 8239, 8287, 12288}
  {
    hide InRanges;
    RangesAre(c, 0);
    var i := c as int;
    if i in {9, 10, 11, 12, 13} { assert OTHER_SPACES[0].0 <= c <= OTHER_SPACES[0].1; }
    else if i in {28, 29, 30, 31} { assert OTHER_SPACES[1].0 <= c <= OTHER_SPACES[1].1; }
    else if i == 133 { assert OTHER_SPACES[2].0 <= c <= OTHER_SPACES[2].1; }
    else if i == 160 { assert OTHER_SPACES[3].0 <= c <= OTHER_SPACES[3].1; }
    else if i == 5760 { assert OTHER_SPACES[4].0 <= c <= OTHER_SPACES[4].1; }
    else if 8192 <= i <= 8202 { assert OTHER_SPACES[5].0 <= c <= OTHER_SPACES[5].1; }
    else if i in {8232, 8233} { assert OTHER_SPACES[6].0 <= c <= OTHER_SPACES[6].1; }
    else if i == 8239 { assert OTHER_SPACES[7].0 <= c <= OTHER_SPACES[7].1; }
    else if i == 8287 { assert OTHER_SPACES[8].0 <= c <= OTHER_SPACES[8].1; }
    else if i == 12288 { assert OTHER_SPACES[9].0 <= c <= OTHER_SPACES[9].1; }
  }

  lemma {:induction false} RangesAre(c: char, i: nat)
    requires i <= |OTHER_SPACES|
    ensures InRanges(c, i) <==> exists k :: i <= k < |OTHER_SPACES| && OTHER_SPACES[k].0 <= c <= OTHER_SPACES[k].1
    decreases |OTHER_SPACES| - i
  {
    if i < |OTHER_SPACES| {
      RangesAre(c, i + 1);
    }
  }

  function Lead(t: string, inRun: bool): string {
    if t != "" && !IsKeyChar(t[0]) && !inRun then " " else ""
  }

  function Trail(t: string): string {
    if t != "" && !IsKeyChar(t[|t| - 1]) && Words(t) != [] then " " else ""
  }

  lemma {:induction false} JunkLeavesWords(t: string, inRun: bool)
    ensures SqueezeJunk(t, inRun) == Lead(t, inRun) + Joined(Words(t)) + Trail(t)
    decreases |t|
  {
    hide IsKeyChar, SqueezeJunk, Joined, Words, Lead, Trail, LeadingRun;
    if t == "" {
      NoWords(inRun);
    } else if !IsKeyChar(t[0]) {
      JunkLeavesWords(t[1..], true);
      JunkFirst(t, inRun);
    } else {
      var w, rest := LeadingRun(t), t[|LeadingRun(t)|..];
      JunkLeavesWords(rest, false);
      WordFirst(t, inRun, w, rest);
    }
  }

  lemma NoWords(inRun: bool)
    ensures SqueezeJunk("", inRun) == Lead("", inRun) + Joined(Words("")) + Trail("")
  {}

  lemma JunkFirst(t: string, inRun: bool)
    requires t != "" && !IsKeyChar(t[0])
    requires SqueezeJunk(t[1..], true) == Lead(t[1..], true) + Joined(Words(t[1..])) + Trail(t[1..])
    ensures SqueezeJunk(t, inRun) == Lead(t, inRun) + Joined(Words(t)) + Trail(t)
  {
    hide IsKeyChar, Joined;
    assert Trail(t) == Trail(t[1..]);
    assert Lead(t[1..], true) == "";
    var j, trail := Joined(Words(t)), Trail(t);
    assert "" + j + trail == j + trail && " " + (j + trail) == " " + j + trail;
  }

  lemma WordFirst(t: string, inRun: bool, w: string, rest: string)
    requires t != "" && IsKeyChar(t[0]) && w == LeadingRun(t) && rest == t[|w|..]
    requires SqueezeJunk(rest, false) == Lead(rest, false) + Joined(Words(rest)) + Trail(rest)
    ensures SqueezeJunk(t, inRun) == Lead(t, inRun) + Joined(Words(t)) + Trail(t)
  {
    hide IsKeyChar, SqueezeJunk, LeadingRun, Words, Joined, Trail;
    assert t == w + rest;
    WordCopied(w, rest, inRun);
    OneMoreWord(t, w, rest);
    EndOfText(t, w, rest);
    var more, trail := Joined(Words(rest)), Trail(rest);
    assert Lead(t, inRun) == "" && "" + Joined(Words(t)) + Trail(t) == Joined(Words(t)) + Trail(t);
    if rest == "" {
      assert Words(rest) == [] && more == "" && trail == "" && w + "" == w && w + ("" + "" + "") == w;
    } else if Words(rest) == [] {
      assert " " + more + trail == " ";
    } else {
      assert w + (" " + more + trail) == w + " " + more + trail;
    }
  }

  lemma OneMoreWord(t: string, w: string, rest: string)
    requires t != "" && IsKeyChar(t[0]) && w == LeadingRun(t) && rest == t[|w|..]
    ensures Words(t) == [w] + Words(rest) && Words("") == [] && Joined([]) == "" && Trail("") == ""
    ensures Joined(Words(t)) == if Words(rest) == [] then w else w + " " + Joined(Words(rest))
    ensures Words(rest) == [] ==> Joined(Words(rest)) == "" && Trail(rest) == ""
  {
    hide IsKeyChar, LeadingRun;
    assert Words(t) == [w] + Words(rest) && Words(t)[1..] == Words(rest);
  }

  lemma EndOfText(t: string, w: string, rest: string)
    requires KeyWord(w) && t == w + rest && Words(t) != []
    ensures Trail(t) == if rest == "" then "" else if Words(rest) == [] then " " else Trail(rest)
  {
    hide IsKeyChar, Words;
    if rest == "" {
      assert t[|t| - 1] == w[|w| - 1];
    } else {
      assert t[|t| - 1] == rest[|rest| - 1];
      if Words(rest) == [] {
        OnlyJunk(rest);
      }
    }
  }

  lemma {:induction false} OnlyJunk(t: string)
    requires t != "" && Words(t) == []
    ensures !IsKeyChar(t[|t| - 1])
  {
    hide IsKeyChar;
    if |t| > 1 {
      OnlyJunk(t[1..]);
    }
  }

  // Words joined by single spaces begin and end with key characters.
  lemma {:induction false} JoinedEnds(words: seq<string>)
    requires forall w :: w in words ==> KeyWord(w)
    ensures words != [] <==> Joined(words) != ""
    ensures words != [] ==> IsKeyChar(Joined(words)[0]) && IsKeyChar(Joined(words)[|Joined(words)| - 1])
  {
    hide IsKeyChar;
    if words != [] {
      assert words[0] in words;
      JoinedEnds(words[1..]);
    }
  }

  lemma {:induction false} WordsAreWords(t: string)
    ensures forall w :: w in Words(t) ==> KeyWord(w)
    decreases |t|
  {
    hide KeyWord;
    if t != "" {
      if IsKeyChar(t[0]) { WordsAreWords(t[|LeadingRun(t)|..]); } else { WordsAreWords(t[1..]); }
    }
  }

  lemma StripsEnds(lead: string, k: string, trail: string)
    requires lead in {"", " "} && trail in {"", " "} && (k == "" ==> trail == "")
    requires k != "" ==> IsKeyChar(k[0]) && IsKeyChar(k[|k| - 1])
    ensures Strip(lead + k + trail) == k
  {
    hide InRanges, StripRight, StripLeft;
    if k == "" {
      assert lead + k + trail == lead;
      NothingRemains();
    } else {
      KeyCharsAreNotSpaces(k[0]);
      KeyCharsAreNotSpaces(k[|k| - 1]);
      RightEnd(lead + k, trail);
      LeftEnd(lead, k);
    }
  }

  lemma NothingRemains()
    ensures Strip("") == "" && Strip(" ") == ""
  {
    assert " "[..0] == "";
    assert StripRight(" ") == StripRight("");
  }

  lemma RightEnd(u: string, trail: string)
    requires u != "" && !IsSpace(u[|u| - 1]) && trail in {"", " "}
    ensures StripRight(u + trail) == u
  {
    hide InRanges;
    if trail == "" {
      assert u + trail == u;
    } else {
      assert (u + trail)[..|u|] == u;
    }
  }

  lemma LeftEnd(lead: string, k: string)
    requires k != "" && !IsSpace(k[0]) && lead in {"", " "}
    ensures StripLeft(lead + k) == k
  {
    hide InRanges;
    if lead == "" {
      assert lead + k == k;
    } else {
      assert (lead + k)[1..] == k;
      assert StripLeft(lead + k) == StripLeft(k);
    }
  }

  // Tidying keeps exactly the words of a text, in order.
  lemma TidyIsWords(t: string)
    ensures Tidy(t) == Joined(Words(t))
  {
    hide IsKeyChar, SqueezeJunk, SqueezeSpaces, Strip, Joined, Words;
    var j := SqueezeJunk(t, false);
    JunkLeavesWords(t, false);
    JunkIsTidied(t, false);
    TidiedIsFixed(j, false);
    WordsAreWords(t);
    JoinedEnds(Words(t));
    StripsEnds(Lead(t, false), Joined(Words(t)), Trail(t));
  }

  // A matching key is the words of the lowered, canonicalized and folded text, one space apart.
  lemma KeyIsItsWords(text: string)
    ensures MatchingKey(text) == Joined(Words(Fold(Canonicalize(TurkishLower(text)))))
  {
    hide *;
    KeyIsSweep(text);
    TidyIsWords(Fold(Canonicalize(TurkishLower(text))));
  }

  // Names match whatever their score if they have one key, and otherwise from a score of ninety for
  // people and of eighty-five for companies.
  lemma ScoresDecideOtherwise(a: string, b: string, score: (string, string) -> real)
    ensures MatchingKey(a) == MatchingKey(b) ==> PersonNamesMatch(a, b, score) && LegalNamesMatch(a, b, score)
    ensures MatchingKey(a) != MatchingKey(b) ==>
      var s := score(MatchingKey(a), MatchingKey(b));
      (s >= 90.0 <==> PersonNamesMatch(a, b, score)) && (s >= 85.0 <==> LegalNamesMatch(a, b, score))
  {
    hide MatchingKey;
  }
}

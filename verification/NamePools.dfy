/** The name pools of the generator: no person and no company head drawn from them contains a
    legal suffix in any spelling, so every draw may be given to every recipe. */
module NamePools {
  import opened SuffixRewriting
  import opened LegalSuffixes
  import opened Turkish
  import opened SpellingVariants

  const FIRST_NAMES: seq<string> := [
    "Ahmet", "Mehmet", "Mustafa", "Ali", "Hüseyin", "Hasan", "İbrahim", "Osman",
    "Emine", "Fatma", "Ayşe", "Hatice", "Zeynep", "Elif", "Meryem", "Şeyma",
    "İlker", "Sıla", "Cemil", "Nurten", "Oğuz", "Deniz", "Pelin", "Serkan",
    "Hülya", "Burak", "Çağrı", "Gökhan", "Şükrü", "Ömer", "Ümit", "Işıl"]

  const SURNAMES: seq<string> := [
    "Kardelen", "Yıldız", "Işık", "Kaya", "Öztürk", "Demir", "Arslan", "Karaca",
    "Koç", "Yılmaz", "Şahin", "Aydın", "Çelik", "Doğan", "Güneş", "Şimşek",
    "Aslan", "Erdem", "Çetin", "Güler", "Özdemir", "Taş", "Ünal", "Böcek"]

  const COMPANY_CORES: seq<string> := [
    "Kardelen", "Yıldız", "Işık", "Meltem", "Aslan", "Pelin", "Karaca", "Derya",
    "Anadolu", "Ege", "Marmara", "Toros", "Deniz", "Zirve", "Öz", "Güven"]

  const SECTORS: seq<string> := [
    "Gıda", "Makine", "İnşaat", "Tekstil", "Otomotiv", "Bilişim", "Enerji",
    "Lojistik", "Kimya", "Mobilya", "Turizm", "Tarım"]

  // A letter as both the proper and the degraded spelling lower it.
  function Proper(c: char): char {
    TurkishLowerLetter(c)
  }

  function Degraded(c: char): char {
    TurkishLowerLetter(AsciiLetter(c))
  }

  // How a surface of the vocabulary can begin.
  predicate Begins(a: char, b: char, c: char) {
    || (a == 's' && b == 'a' && c == 'n') || (a == 'l' && (b == 'i' || b == 't'))
    || (a == 'a' && (b == '.' || b == ' '))
    || (a == 'a' && b == 'n' && c == 'o')
  }

  // The Latin letters the pools use, and more: none of them is whitespace.
  predicate IsLetter(c: char) {
    'A' <= c <= 'Z' || 'a' <= c <= 'z' || '\U{00C0}' <= c <= '\U{0160}'
  }

  // A word of a pool: letters only, long enough, and no beginning of a suffix.
  predicate PoolWord(w: string) {
    && |w| >= 2 && (forall i :: 0 <= i < |w| ==> IsLetter(w[i]))
    && var third := if |w| >= 3 then w[2] else 'x';
    !Begins(Proper(w[0]), Proper(w[1]), Proper(third)) && !Begins(Degraded(w[0]), Degraded(w[1]), Degraded(third))
  }

  lemma {:induction false} LetterIsOutside(c: char, i: nat)
    requires IsLetter(c)
    ensures !InRanges(c, i)
    decreases |OTHER_SPACES| - i
  {
    if i < |OTHER_SPACES| {
      LetterIsOutside(c, i + 1);
    }
  }

  lemma LetterIsInk(c: char)
    requires IsLetter(c)
    ensures !IsSpace(c)
  {
    LetterIsOutside(c, 0);
  }

  lemma LettersStayLetters(c: char)
    requires IsLetter(c)
    ensures IsLetter(Proper(c)) && IsLetter(Degraded(c))
  {}

  lemma LoweringKeepsInk(c: char)
    requires IsLetter(c)
    ensures !IsSpace(Proper(c)) && !IsSpace(Degraded(c))
  {
    hide IsLetter, IsSpace, Proper, Degraded;
    LettersStayLetters(c);
    LetterIsInk(Proper(c));
    LetterIsInk(Degraded(c));
  }

  lemma SurfacesBegin(i: nat)
    requires i < |LONGEST_FIRST|
    ensures var s := LONGEST_FIRST[i].surface; |s| >= 3 && Begins(s[0], s[1], s[2])
  {}

  lemma {:induction false} InApplied(order: seq<Rule>, v: Rule) returns (i: nat)
    requires v in Applied(order)
    ensures i < |order| && order[i] == v
  {
    if order[0] == v {
      i := 0;
    } else {
      i := InApplied(order[1..], v);
      i := i + 1;
    }
  }

  // A lowered text of two words, neither of which begins like a surface.
  ghost predicate TwoWords(u: string, n: nat) {
    && 2 <= n && n + 3 <= |u| && u[n] == ' ' && (forall i :: 0 <= i < |u| && i != n ==> !IsSpace(u[i]))
    && !Begins(u[0], u[1], u[2]) && !Begins(u[n + 1], u[n + 2], if n + 3 < |u| then u[n + 3] else 'x')
  }

  lemma NoSurfaceOccurs(u: string, n: nat, v: Rule, i: nat)
    requires TwoWords(u, n) && |v.surface| >= 3 && Begins(v.surface[0], v.surface[1], v.surface[2])
    ensures !OccursAt(v, u, i)
  {
    hide Begins;
  }

  lemma TwoWordsAreFree(u: string, n: nat)
    requires TwoWords(u, n)
    ensures SuffixFree(VOCABULARY, u)
  {
    hide TwoWords, OccursAt, Begins, LONGEST_FIRST;
    forall v, i: nat | v in VOCABULARY ensures !OccursAt(v, u, i) {
      var k := InApplied(LONGEST_FIRST, v);
      SurfacesBegin(k);
      NoSurfaceOccurs(u, n, v, i);
    }
  }

  lemma LoweredWords(w1: string, w2: string)
    requires PoolWord(w1) && PoolWord(w2)
    ensures TwoWords(TurkishLower(w1 + " " + w2), |w1|) && TwoWords(TurkishLower(AsciiDegrade(w1 + " " + w2)), |w1|)
  {
    hide IsSpace, TurkishLowerLetter, AsciiLetter;
    var t := w1 + " " + w2;
    var u, d := TurkishLower(t), TurkishLower(AsciiDegrade(t));
    forall i | 0 <= i < |t| ensures t[i] == if i < |w1| then w1[i] else if i == |w1| then ' ' else w2[i - |w1| - 1] {}
    forall i | 0 <= i < |t|
      ensures u[i] == Proper(t[i]) && d[i] == Degraded(t[i]) && (i != |w1| ==> !IsSpace(u[i]) && !IsSpace(d[i]))
    {
      if i != |w1| {
        LoweringKeepsInk(t[i]);
      }
    }
    BlankLowered();
  }

  lemma BlankLowered()
    ensures Proper(' ') == ' ' && Degraded(' ') == ' '
  {}

  // Two words of the pools, joined by a space, are plain.
  lemma PoolWordsArePlain(w1: string, w2: string)
    requires PoolWord(w1) && PoolWord(w2)
    ensures Plain(w1 + " " + w2)
  {
    hide PoolWord, TwoWords, SuffixFree;
    LoweredWords(w1, w2);
    TwoWordsAreFree(TurkishLower(w1 + " " + w2), |w1|);
    TwoWordsAreFree(TurkishLower(AsciiDegrade(w1 + " " + w2)), |w1|);
  }

  // ----- the pools, eight words at a time -----

  lemma FirstNames1()
    ensures PoolWord("Ahmet") && PoolWord("Mehmet") && PoolWord("Mustafa")
    ensures PoolWord("Ali") && PoolWord("Hüseyin") && PoolWord("Hasan")
  {}

  lemma FirstNames2()
    ensures PoolWord("İbrahim") && PoolWord("Osman") && PoolWord("Emine")
    ensures PoolWord("Fatma") && PoolWord("Ayşe") && PoolWord("Hatice")
  {}

  lemma FirstNames3()
    ensures PoolWord("Zeynep") && PoolWord("Elif") && PoolWord("Meryem")
    ensures PoolWord("Şeyma") && PoolWord("İlker") && PoolWord("Sıla")
  {}

  lemma FirstNames4()
    ensures PoolWord("Cemil") && PoolWord("Nurten") && PoolWord("Oğuz")
    ensures PoolWord("Deniz") && PoolWord("Pelin") && PoolWord("Serkan")
  {}

  lemma FirstNames5()
    ensures PoolWord("Hülya") && PoolWord("Burak") && PoolWord("Çağrı")
    ensures PoolWord("Gökhan") && PoolWord("Şükrü") && PoolWord("Ömer")
  {}

  lemma FirstNames6()
    ensures PoolWord("Ümit") && PoolWord("Işıl")
  {}

  lemma FirstNamesArePoolWords(i: nat)
    requires i < |FIRST_NAMES|
    ensures PoolWord(FIRST_NAMES[i])
  {
    hide PoolWord;
    FirstNames1();
    FirstNames2();
    FirstNames3();
    FirstNames4();
    FirstNames5();
    FirstNames6();
  }

  lemma Surnames1()
    ensures PoolWord("Kardelen") && PoolWord("Yıldız") && PoolWord("Işık")
    ensures PoolWord("Kaya") && PoolWord("Öztürk") && PoolWord("Demir")
  {}

  lemma Surnames2()
    ensures PoolWord("Arslan") && PoolWord("Karaca") && PoolWord("Koç")
    ensures PoolWord("Yılmaz") && PoolWord("Şahin") && PoolWord("Aydın")
  {}

  lemma Surnames3()
    ensures PoolWord("Çelik") && PoolWord("Doğan") && PoolWord("Güneş")
    ensures PoolWord("Şimşek") && PoolWord("Aslan") && PoolWord("Erdem")
  {}

  lemma Surnames4()
    ensures PoolWord("Çetin") && PoolWord("Güler") && PoolWord("Özdemir")
  {}

  lemma Surnames5()
    ensures PoolWord("Taş") && PoolWord("Ünal") && PoolWord("Böcek")
  {}

  lemma SurnamesArePoolWords(i: nat)
    requires i < |SURNAMES|
    ensures PoolWord(SURNAMES[i])
  {
    hide PoolWord;
    Surnames1();
    Surnames2();
    Surnames3();
    Surnames4();
    Surnames5();
  }

  lemma Cores1()
    ensures PoolWord("Kardelen") && PoolWord("Yıldız") && PoolWord("Işık")
    ensures PoolWord("Meltem") && PoolWord("Aslan") && PoolWord("Pelin")
  {}

  lemma Cores2()
    ensures PoolWord("Karaca") && PoolWord("Derya") && PoolWord("Anadolu")
    ensures PoolWord("Ege") && PoolWord("Marmara") && PoolWord("Toros")
  {}

  lemma Cores3()
    ensures PoolWord("Deniz") && PoolWord("Zirve") && PoolWord("Öz")
    ensures PoolWord("Güven")
  {}

  lemma CoresArePoolWords(i: nat)
    requires i < |COMPANY_CORES|
    ensures PoolWord(COMPANY_CORES[i])
  {
    hide PoolWord;
    Cores1();
    Cores2();
    Cores3();
  }

  lemma Sectors1()
    ensures PoolWord("Gıda") && PoolWord("Makine") && PoolWord("İnşaat")
    ensures PoolWord("Tekstil") && PoolWord("Otomotiv") && PoolWord("Bilişim")
  {}

  lemma Sectors2()
    ensures PoolWord("Enerji") && PoolWord("Lojistik") && PoolWord("Kimya")
    ensures PoolWord("Mobilya") && PoolWord("Turizm") && PoolWord("Tarım")
  {}

  lemma SectorsArePoolWords(i: nat)
    requires i < |SECTORS|
    ensures PoolWord(SECTORS[i])
  {
    hide PoolWord;
    Sectors1();
    Sectors2();
  }

  // Every person the generator can draw is plain, and so is every company head.
  lemma DrawnNamesArePlain(first: nat, surname: nat, core: nat, sector: nat)
    requires first < |FIRST_NAMES| && surname < |SURNAMES| && core < |COMPANY_CORES| && sector < |SECTORS|
    ensures Plain(FIRST_NAMES[first] + " " + SURNAMES[surname]) && Plain(COMPANY_CORES[core] + " " + SECTORS[sector])
  {
    hide PoolWord, FIRST_NAMES, SURNAMES, COMPANY_CORES, SECTORS, Plain;
    FirstNamesArePoolWords(first);
    SurnamesArePoolWords(surname);
    CoresArePoolWords(core);
    SectorsArePoolWords(sector);
    PoolWordsArePlain(FIRST_NAMES[first], SURNAMES[surname]);
    PoolWordsArePlain(COMPANY_CORES[core], SECTORS[sector]);
  }
}

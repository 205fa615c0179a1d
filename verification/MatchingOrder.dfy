/** Exactly when the order of the shareholder lists is immaterial to the greedy matcher: when names
    match one to one. */
module MatchingOrder {
  import opened Contracts
  import opened Checks
  import opened Ownership

  ghost predicate Unrepeated(s: seq<Holder>) {
    forall i, k :: 0 <= i < k < |s| ==> s[i] != s[k]
  }

  function Pairs(m: EntityMap, s1: seq<Holder>, s3: seq<Holder>): seq<Pair> {
    MatchFrom(m, s1, s3, {}).pairs
  }

  // Whatever the order of either list, the same pairs are made.
  ghost predicate OrderFree(m: EntityMap, s1: seq<Holder>, s3: seq<Holder>) {
    forall t1, t3 :: multiset(t1) == multiset(s1) && multiset(t3) == multiset(s3)
      ==> multiset(Pairs(m, t1, t3)) == multiset(Pairs(m, s1, s3))
  }

  // A match of the two foremost holders is always made.
  lemma ForemostPair(m: EntityMap, s1: seq<Holder>, s3: seq<Holder>)
    requires s1 != [] && s3 != [] && Same(m, s1[0], s3[0])
    ensures (s1[0], s3[0]) in Pairs(m, s1, s3)
  {
    assert FirstUnused(m, s1[0].name, s3, {}, 0) == Some(0);
  }

  lemma ToTheFront(s: seq<Holder>, x: Holder) returns (t: seq<Holder>)
    requires x in multiset(s)
    ensures t != [] && t[0] == x && multiset(t) == multiset(s)
  {
    var i :| 0 <= i < |s| && s[i] == x;
    t := [x] + (s[..i] + s[i + 1..]);
    SplitAt(s, i);
  }

  // ----- nobody is in two pairs -----

  lemma {:induction false} CountTwoPairs(pairs: seq<Pair>, p: Pair, q: Pair)
    requires p != q
    ensures p.0 == q.0 ==> multiset(Firsts(pairs))[p.0] >= multiset(pairs)[p] + multiset(pairs)[q]
    ensures p.1 == q.1 ==> multiset(Seconds(pairs))[p.1] >= multiset(pairs)[p] + multiset(pairs)[q]
  {
    if pairs != [] {
      CountTwoPairs(pairs[1..], p, q);
      assert pairs == [pairs[0]] + pairs[1..];
    }
  }

  lemma OnePairEach(m: EntityMap, s1: seq<Holder>, s3: seq<Holder>, p: Pair, q: Pair)
    requires Unrepeated(s1) && Unrepeated(s3)
    requires p in multiset(Pairs(m, s1, s3)) && q in multiset(Pairs(m, s1, s3)) && (p.0 == q.0 || p.1 == q.1)
    ensures p == q
  {
    hide MatchFrom;
    if p != q {
      var pairs := Pairs(m, s1, s3);
      Partition(m, s1, s3);
      CountFirsts(pairs, p);
      CountTwoPairs(pairs, p, q);
      assert p.0 in multiset(s1) && p.1 in multiset(s3);
      CountedOnce(s1, p.0);
      CountedOnce(s3, p.1);
    }
  }

  // ----- the two directions -----

  // Two matching holders can be paired under some order, hence under every order.
  lemma MatchIsAPair(m: EntityMap, s1: seq<Holder>, s3: seq<Holder>, a: Holder, b: Holder)
    requires OrderFree(m, s1, s3) && a in multiset(s1) && b in multiset(s3) && Same(m, a, b)
    ensures (a, b) in multiset(Pairs(m, s1, s3))
  {
    hide Pairs;
    var t1 := ToTheFront(s1, a);
    var t3 := ToTheFront(s3, b);
    ForemostPair(m, t1, t3);
    assert (a, b) in multiset(Pairs(m, t1, t3));
  }

  lemma OrderFreeIsOneToOne(m: EntityMap, s1: seq<Holder>, s3: seq<Holder>)
    requires Unrepeated(s1) && Unrepeated(s3) && OrderFree(m, s1, s3)
    ensures OneToOne(m, multiset(s1), multiset(s3))
  {
    hide Pairs, OrderFree;
    forall a, b | a in multiset(s1) && b in multiset(s3) && Same(m, a, b)
      ensures multiset(s1)[a] == 1 && multiset(s3)[b] == 1
    {
      CountedOnce(s1, a);
      CountedOnce(s3, b);
    }
    forall a, a', b | a in multiset(s1) && a' in multiset(s1) && b in multiset(s3) && Same(m, a, b) && Same(m, a', b)
      ensures a == a'
    {
      MatchIsAPair(m, s1, s3, a, b);
      MatchIsAPair(m, s1, s3, a', b);
      OnePairEach(m, s1, s3, (a, b), (a', b));
    }
    forall a, b, b' | a in multiset(s1) && b in multiset(s3) && b' in multiset(s3) && Same(m, a, b) && Same(m, a, b')
      ensures b == b'
    {
      MatchIsAPair(m, s1, s3, a, b);
      MatchIsAPair(m, s1, s3, a, b');
      OnePairEach(m, s1, s3, (a, b), (a, b'));
    }
  }

  // For lists without repeated holders, the pairs made do not depend on the order of either list
  // if and only if names match one to one.
  lemma OrderFreeIffOneToOne(m: EntityMap, s1: seq<Holder>, s3: seq<Holder>)
    requires Unrepeated(s1) && Unrepeated(s3)
    ensures OrderFree(m, s1, s3) <==> OneToOne(m, multiset(s1), multiset(s3))
  {
    if OrderFree(m, s1, s3) {
      OrderFreeIsOneToOne(m, s1, s3);
    }
    if OneToOne(m, multiset(s1), multiset(s3)) {
      forall t1: seq<Holder>, t3: seq<Holder> | multiset(t1) == multiset(s1) && multiset(t3) == multiset(s3)
        ensures multiset(Pairs(m, t1, t3)) == multiset(Pairs(m, s1, s3))
      {
        SamePairs(m, s1, t1, s3, t3);
      }
    }
  }
}

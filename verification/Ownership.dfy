/** What the greedy shareholder matcher guarantees: it partitions both lists, its arithmetic is
    the arithmetic of a transfer, and, for names that match one to one, its verdict does not
    depend on the order of either list. */
module Ownership {
  import opened Contracts
  import opened Reals
  import opened Checks

  type Pair = (Holder, Holder)

  function Firsts(pairs: seq<Pair>): seq<Holder> {
    if pairs == [] then [] else [pairs[0].0] + Firsts(pairs[1..])
  }

  function Seconds(pairs: seq<Pair>): seq<Holder> {
    if pairs == [] then [] else [pairs[0].1] + Seconds(pairs[1..])
  }

  function Losses(pairs: seq<Pair>): real {
    if pairs == [] then 0.0
    else (if pairs[0].0.pct > pairs[0].1.pct then pairs[0].0.pct - pairs[0].1.pct else 0.0) + Losses(pairs[1..])
  }

  // ----- totals do not depend on order -----

  lemma {:induction false} TotalJoins(a: seq<Holder>, b: seq<Holder>)
    ensures Total(a + b) == Total(a) + Total(b)
  {
    if a == [] {
      assert a + b == b;
    } else {
      assert (a + b)[1..] == a[1..] + b;
      TotalJoins(a[1..], b);
    }
  }

  lemma SplitAt<T>(b: seq<T>, i: nat)
    requires i < |b|
    ensures b == b[..i] + [b[i]] + b[i + 1..]
    ensures multiset(b) == multiset{b[i]} + multiset(b[..i] + b[i + 1..])
  {
    assert b == b[..i] + [b[i]] + b[i + 1..];
    assert multiset(b) == multiset(b[..i]) + multiset([b[i]]) + multiset(b[i + 1..]);
    assert multiset(b[..i] + b[i + 1..]) == multiset(b[..i]) + multiset(b[i + 1..]);
  }

  lemma HeadElsewhere<T>(a: seq<T>, b: seq<T>) returns (i: nat)
    requires a != [] && multiset(a) == multiset(b)
    ensures i < |b| && b[i] == a[0] && multiset(a[1..]) == multiset(b[..i] + b[i + 1..])
  {
    assert a[0] in multiset(b);
    i :| 0 <= i < |b| && b[i] == a[0];
    SplitAt(b, i);
    SplitAt(a, 0);
    assert a[..0] + a[1..] == a[1..];
    SameRest(a[0], multiset(a[1..]), multiset(b[..i] + b[i + 1..]));
  }

  lemma SameRest<T>(x: T, p: multiset<T>, q: multiset<T>)
    requires multiset{x} + p == multiset{x} + q
    ensures p == q
  {
    assert p == (multiset{x} + p) - multiset{x} && q == (multiset{x} + q) - multiset{x};
  }

  lemma {:induction false} TotalOfMultiset(a: seq<Holder>, b: seq<Holder>)
    requires multiset(a) == multiset(b)
    ensures Total(a) == Total(b)
    decreases |a|
  {
    if a == [] {
      assert |multiset(b)| == 0;
    } else {
      var i := HeadElsewhere(a, b);
      TotalOfMultiset(a[1..], b[..i] + b[i + 1..]);
      SplitAt(b, i);
      TotalJoins(b[..i] + [b[i]], b[i + 1..]);
      TotalJoins(b[..i], [b[i]]);
      TotalJoins(b[..i], b[i + 1..]);
    }
  }

  lemma {:induction false} GainsJoin(a: seq<Pair>, b: seq<Pair>)
    ensures Gains(a + b) == Gains(a) + Gains(b)
  {
    if a == [] {
      assert a + b == b;
    } else {
      assert (a + b)[1..] == a[1..] + b;
      GainsJoin(a[1..], b);
    }
  }

  lemma {:induction false} GainsOfMultiset(a: seq<Pair>, b: seq<Pair>)
    requires multiset(a) == multiset(b)
    ensures Gains(a) == Gains(b)
    decreases |a|
  {
    if a == [] {
      assert |multiset(b)| == 0;
    } else {
      var i := HeadElsewhere(a, b);
      GainsOfMultiset(a[1..], b[..i] + b[i + 1..]);
      SplitAt(b, i);
      GainsJoin(b[..i] + [b[i]], b[i + 1..]);
      GainsJoin(b[..i], [b[i]]);
      GainsJoin(b[..i], b[i + 1..]);
    }
  }

  // ----- the partition -----

  lemma {:induction false} AfterTaken(s3: seq<Holder>, used: set<nat>, k: nat, j: nat)
    requires k < j
    ensures NewHolders(s3, used + {k}, j) == NewHolders(s3, used, j)
    decreases |s3| - j
  {
    if j < |s3| {
      AfterTaken(s3, used, k, j + 1);
    }
  }

  lemma TakingHere(s3: seq<Holder>, used: set<nat>, k: nat)
    requires k < |s3| && k !in used
    ensures NewHolders(s3, used, k) == [s3[k]] + NewHolders(s3, used + {k}, k)
  {
    AfterTaken(s3, used, k, k + 1);
  }

  lemma TakingLater(s3: seq<Holder>, used: set<nat>, k: nat, j: nat)
    requires j < k < |s3|
    ensures var front := if j in used then [] else [s3[j]];
      && NewHolders(s3, used, j) == front + NewHolders(s3, used, j + 1)
      && NewHolders(s3, used + {k}, j) == front + NewHolders(s3, used + {k}, j + 1)
  {}

  lemma InFront(front: seq<Holder>, x: Holder, more: seq<Holder>, fewer: seq<Holder>)
    requires multiset(more) == multiset{x} + multiset(fewer)
    ensures multiset(front + more) == multiset{x} + multiset(front + fewer)
  {}

  // Taking a position removes exactly its holder from the new ones.
  lemma {:induction false} TakingOne(s3: seq<Holder>, used: set<nat>, k: nat, j: nat)
    requires j <= k < |s3| && k !in used
    ensures multiset(NewHolders(s3, used, j)) == multiset{s3[k]} + multiset(NewHolders(s3, used + {k}, j))
    decreases |s3| - j
  {
    hide NewHolders;
    if j == k {
      TakingHere(s3, used, k);
    } else {
      TakingOne(s3, used, k, j + 1);
      TakingLater(s3, used, k, j);
      InFront(if j in used then [] else [s3[j]], s3[k], NewHolders(s3, used, j + 1), NewHolders(s3, used + {k}, j + 1));
    }
  }

  lemma {:induction false} AllNew(s3: seq<Holder>, j: nat)
    requires j <= |s3|
    ensures NewHolders(s3, {}, j) == s3[j..]
    decreases |s3| - j
  {
    if j < |s3| {
      AllNew(s3, j + 1);
      assert s3[j..] == [s3[j]] + s3[j + 1..];
    }
  }

  lemma {:induction false} PairsMatch(m: EntityMap, s1: seq<Holder>, s3: seq<Holder>, used: set<nat>)
    ensures var r := MatchFrom(m, s1, s3, used);
      && used <= r.used && |r.used| == |used| + |r.pairs|
      && (forall p :: p in r.pairs ==> m.samePerson(p.0.name, p.1.name))
    decreases |s1|
  {
    if s1 != [] {
      match FirstUnused(m, s1[0].name, s3, used, 0)
      case None => PairsMatch(m, s1[1..], s3, used);
      case Some(j) => PairsMatch(m, s1[1..], s3, used + {j});
    }
  }

  lemma {:induction false} FirstListParts(m: EntityMap, s1: seq<Holder>, s3: seq<Holder>, used: set<nat>)
    ensures var r := MatchFrom(m, s1, s3, used); multiset(s1) == multiset(Firsts(r.pairs)) + multiset(r.exited)
    decreases |s1|
  {
    if s1 != [] {
      assert s1 == [s1[0]] + s1[1..];
      match FirstUnused(m, s1[0].name, s3, used, 0)
      case None => FirstListParts(m, s1[1..], s3, used);
      case Some(j) => FirstListParts(m, s1[1..], s3, used + {j});
    }
  }

  lemma {:induction false} SecondListParts(m: EntityMap, s1: seq<Holder>, s3: seq<Holder>, used: set<nat>)
    ensures var r := MatchFrom(m, s1, s3, used);
      multiset(NewHolders(s3, used, 0)) == multiset(Seconds(r.pairs)) + multiset(NewHolders(s3, r.used, 0))
    decreases |s1|
  {
    if s1 != [] {
      match FirstUnused(m, s1[0].name, s3, used, 0)
      case None => SecondListParts(m, s1[1..], s3, used);
      case Some(j) =>
        SecondListParts(m, s1[1..], s3, used + {j});
        TakingOne(s3, used, j, 0);
    }
  }

  lemma {:induction false} NewIsUnused(s3: seq<Holder>, used: set<nat>, j: nat, b: Holder)
    ensures b in NewHolders(s3, used, j) <==> exists k :: j <= k < |s3| && k !in used && s3[k] == b
    decreases |s3| - j
  {
    if j < |s3| {
      var rest := NewHolders(s3, used, j + 1);
      NewIsUnused(s3, used, j + 1, b);
      assert b in [s3[j]] + rest <==> b == s3[j] || b in rest;
      assert (exists k :: j <= k < |s3| && k !in used && s3[k] == b)
        <==> (j !in used && s3[j] == b) || exists k :: j + 1 <= k < |s3| && k !in used && s3[k] == b;
    }
  }

  // Every holder of either list is in exactly one place, pairs are matches and are made of
  // distinct positions, and no match is left on the table.
  lemma Partition(m: EntityMap, s1: seq<Holder>, s3: seq<Holder>)
    ensures var r := MatchFrom(m, s1, s3, {});
      var fresh_ := NewHolders(s3, r.used, 0);
      && multiset(s1) == multiset(Firsts(r.pairs)) + multiset(r.exited)
      && multiset(s3) == multiset(Seconds(r.pairs)) + multiset(fresh_)
      && |r.used| == |r.pairs|
      && (forall p :: p in r.pairs ==> m.samePerson(p.0.name, p.1.name))
      && (forall a, b :: a in r.exited && b in fresh_ ==> !m.samePerson(a.name, b.name))
  {
    PairsMatch(m, s1, s3, {});
    FirstListParts(m, s1, s3, {});
    SecondListParts(m, s1, s3, {});
    AllNew(s3, 0);
    assert s3[0..] == s3;
    var r := MatchFrom(m, s1, s3, {});
    forall a, b | a in r.exited && b in NewHolders(s3, r.used, 0) ensures !m.samePerson(a.name, b.name) {
      LeftoversDoNotMatch(m, s1, s3, {}, a, b);
    }
  }

  lemma {:induction false} LeftoversDoNotMatch(m: EntityMap, s1: seq<Holder>, s3: seq<Holder>, used: set<nat>,
        a: Holder, b: Holder)
    requires var r := MatchFrom(m, s1, s3, used); a in r.exited && b in NewHolders(s3, r.used, 0)
    ensures !m.samePerson(a.name, b.name)
    decreases |s1|
  {
    var r := MatchFrom(m, s1, s3, used);
    if s1 != [] {
      match FirstUnused(m, s1[0].name, s3, used, 0)
      case Some(j) => LeftoversDoNotMatch(m, s1[1..], s3, used + {j}, a, b);
      case None =>
        PairsMatch(m, s1[1..], s3, used);
        NewIsUnused(s3, r.used, 0, b);
        if a != s1[0] {
          LeftoversDoNotMatch(m, s1[1..], s3, used, a, b);
        }
    }
  }

  // ----- the arithmetic -----

  lemma {:induction false} GainsAndLosses(pairs: seq<Pair>)
    ensures Gains(pairs) - Losses(pairs) == Total(Seconds(pairs)) - Total(Firsts(pairs))
    ensures Losses(pairs) >= 0.0 && Gains(pairs) >= 0.0
  {
    if pairs != [] {
      GainsAndLosses(pairs[1..]);
    }
  }

  // What left, less what was gained, is the gap between the lists less what continuing
  // holders lost.
  lemma TransferArithmetic(m: EntityMap, s1: seq<Holder>, s3: seq<Holder>)
    ensures var d := DeltaOf(m, s1, s3);
      d.exitedTotal - d.gained == (Total(s1) - Total(s3)) - Losses(MatchFrom(m, s1, s3, {}).pairs)
  {
    var r := MatchFrom(m, s1, s3, {});
    var fresh_ := NewHolders(s3, r.used, 0);
    Partition(m, s1, s3);
    GainsAndLosses(r.pairs);
    TotalOfMultiset(s1, Firsts(r.pairs) + r.exited);
    TotalOfMultiset(s3, Seconds(r.pairs) + fresh_);
    TotalJoins(Firsts(r.pairs), r.exited);
    TotalJoins(Seconds(r.pairs), fresh_);
  }

  // With equal sums, condition (iii) says exactly that continuing holders lost less than the
  // tolerance between them.
  lemma ReconcilesIffNothingLost(m: EntityMap, s1: seq<Holder>, s3: seq<Holder>)
    requires Total(s1) == Total(s3)
    ensures var d := DeltaOf(m, s1, s3);
      Abs(d.exitedTotal - d.gained) < EPS <==> Losses(MatchFrom(m, s1, s3, {}).pairs) < EPS
  {
    TransferArithmetic(m, s1, s3);
    GainsAndLosses(MatchFrom(m, s1, s3, {}).pairs);
  }

  function Verdict(m: EntityMap, s1: seq<Holder>, s3: seq<Holder>, newer: bool): Option<(Code, Severity)> {
    OwnershipVerdict(Total(s1), Total(s3), newer, DeltaOf(m, s1, s3))
  }

  lemma {:induction false} SmallMovesAreUnchanged(pairs: seq<Pair>, i: nat)
    requires i < |pairs|
    ensures Abs(pairs[i].0.pct - pairs[i].1.pct) <= Gains(pairs) + Losses(pairs)
    ensures Gains(pairs) < EPS && Losses(pairs) < EPS ==> Abs(pairs[i].0.pct - pairs[i].1.pct) < EPS
  {
    GainsAndLosses(pairs[1..]);
    if i > 0 {
      SmallMovesAreUnchanged(pairs[1..], i - 1);
    }
  }

  // With equal sums, moving shares among the same holders is never an explainable transfer.
  lemma RedistributionIsNotATransfer(m: EntityMap, s1: seq<Holder>, s3: seq<Holder>, newer: bool)
    requires var r := MatchFrom(m, s1, s3, {});
      r.exited == [] && NewHolders(s3, r.used, 0) == [] && Total(s1) == Total(s3)
    ensures Verdict(m, s1, s3, newer) != Some((B1a, Explainable))
  {
    var pairs := MatchFrom(m, s1, s3, {}).pairs;
    ReconcilesIffNothingLost(m, s1, s3);
    TransferArithmetic(m, s1, s3);
    if Losses(pairs) < EPS {
      forall i | 0 <= i < |pairs| ensures Abs(pairs[i].0.pct - pairs[i].1.pct) < EPS {
        SmallMovesAreUnchanged(pairs, i);
      }
      assert Unchanged(pairs);
    }
  }

  lemma {:induction false} OneGain(pairs: seq<Pair>, i: nat)
    requires i < |pairs|
    ensures pairs[i].1.pct - pairs[i].0.pct <= Gains(pairs)
  {
    GainsAndLosses(pairs[1..]);
    if i > 0 {
      OneGain(pairs[1..], i - 1);
    }
  }

  // Whatever the sums: among the same holders, the verdict is an explainable transfer exactly when
  // the declaration is newer, both sums are within tolerance, somebody lost at least the tolerance,
  // and all gains together stay below it.
  lemma RedistributionIsATransferIff(m: EntityMap, s1: seq<Holder>, s3: seq<Holder>, newer: bool)
    requires var r := MatchFrom(m, s1, s3, {}); r.exited == [] && NewHolders(s3, r.used, 0) == []
    ensures var pairs := MatchFrom(m, s1, s3, {}).pairs;
      Verdict(m, s1, s3, newer) == Some((B1a, Explainable)) <==>
        && newer && Abs(Total(s1) - 100.0) <= EPS && Abs(Total(s3) - 100.0) <= EPS && Gains(pairs) < EPS
        && exists i :: 0 <= i < |pairs| && pairs[i].0.pct - pairs[i].1.pct >= EPS
  {
    hide MatchFrom, Gains;
    var pairs := MatchFrom(m, s1, s3, {}).pairs;
    GainsAndLosses(pairs);
    if Gains(pairs) < EPS && !Unchanged(pairs) {
      var i :| 0 <= i < |pairs| && Abs(pairs[i].0.pct - pairs[i].1.pct) >= EPS;
      OneGain(pairs, i);
      assert pairs[i].0.pct - pairs[i].1.pct >= EPS;
    }
  }

  lemma {:induction false} PairsAreFromTheLists(pairs: seq<Pair>, p: Pair)
    requires p in pairs
    ensures p.0 in Firsts(pairs) && p.1 in Seconds(pairs)
  {
    if pairs[0] != p {
      PairsAreFromTheLists(pairs[1..], p);
    }
  }

  // Somebody continues exactly when some holder of one list matches some holder of the other.
  lemma SomebodyContinuesIff(m: EntityMap, s1: seq<Holder>, s3: seq<Holder>)
    ensures MatchFrom(m, s1, s3, {}).pairs != []
      <==> exists a, b :: a in s1 && b in s3 && m.samePerson(a.name, b.name)
  {
    hide MatchFrom, NewHolders;
    Partition(m, s1, s3);
    var r := MatchFrom(m, s1, s3, {});
    var fresh_ := NewHolders(s3, r.used, 0);
    if r.pairs != [] {
      var p := r.pairs[0];
      PairsAreFromTheLists(r.pairs, p);
      assert p.0 in multiset(s1) && p.1 in multiset(s3);
      assert p.0 in s1 && p.1 in s3;
    } else {
      assert multiset(s1) == multiset(r.exited) && multiset(s3) == multiset(fresh_);
      forall a, b | a in s1 && b in s3 ensures !m.samePerson(a.name, b.name) {
        assert a in multiset(s1) && b in multiset(s3);
        assert a in r.exited && b in fresh_;
      }
    }
  }

  // Somebody is left over in one of the lists, or a pair moved by at least the tolerance.
  ghost predicate Changed(m: EntityMap, s1: seq<Holder>, s3: seq<Holder>) {
    var r := MatchFrom(m, s1, s3, {});
    || r.exited != [] || NewHolders(s3, r.used, 0) != []
    || exists i :: 0 <= i < |r.pairs| && Abs(r.pairs[i].0.pct - r.pairs[i].1.pct) >= EPS
  }

  lemma ChangedIff(m: EntityMap, s1: seq<Holder>, s3: seq<Holder>)
    ensures Changed(m, s1, s3) <==> !DeltaOf(m, s1, s3).same
  {
    hide MatchFrom, NewHolders;
  }

  // For all lists: when the verdict is an explainable transfer.
  lemma TransferIff(m: EntityMap, s1: seq<Holder>, s3: seq<Holder>, newer: bool)
    ensures Verdict(m, s1, s3, newer) == Some((B1a, Explainable)) <==>
      && newer && Abs(Total(s1) - 100.0) <= EPS && Abs(Total(s3) - 100.0) <= EPS
      && (exists a, b :: a in s1 && b in s3 && m.samePerson(a.name, b.name))
      && Abs(Total(s1) - Total(s3) - Losses(MatchFrom(m, s1, s3, {}).pairs)) < EPS
      && Changed(m, s1, s3)
  {
    hide MatchFrom, NewHolders, Losses, Total, Changed;
    SomebodyContinuesIff(m, s1, s3);
    TransferArithmetic(m, s1, s3);
    ChangedIff(m, s1, s3);
  }

  // And every other verdict: too much, too little, nothing changed, and any other change.
  lemma OtherVerdictsIff(m: EntityMap, s1: seq<Holder>, s3: seq<Holder>, newer: bool)
    ensures Verdict(m, s1, s3, newer) == Some((B2b, Unexplainable))
      <==> Total(s1) - 100.0 > EPS || Total(s3) - 100.0 > EPS
    ensures Verdict(m, s1, s3, newer) == Some((B2a, Explainable)) <==>
      && Total(s1) - 100.0 <= EPS && Total(s3) - 100.0 <= EPS
      && (100.0 - Total(s1) > EPS || 100.0 - Total(s3) > EPS)
    ensures Verdict(m, s1, s3, newer) == None
      <==> Abs(Total(s1) - 100.0) <= EPS && Abs(Total(s3) - 100.0) <= EPS && !Changed(m, s1, s3)
    ensures Verdict(m, s1, s3, newer) == Some((B1b, Unexplainable)) <==>
      && Abs(Total(s1) - 100.0) <= EPS && Abs(Total(s3) - 100.0) <= EPS && Changed(m, s1, s3)
      && Verdict(m, s1, s3, newer) != Some((B1a, Explainable))
  {
    hide MatchFrom, NewHolders, Losses, Total, Changed;
    ChangedIff(m, s1, s3);
  }

  // So a complete change of owners is never explainable.
  lemma CompleteChangeIsUnexplained(m: EntityMap, s1: seq<Holder>, s3: seq<Holder>, newer: bool)
    requires Abs(Total(s1) - 100.0) <= EPS && Abs(Total(s3) - 100.0) <= EPS
    requires forall a, b :: a in s1 && b in s3 ==> !m.samePerson(a.name, b.name)
    ensures Verdict(m, s1, s3, newer) == Some((B1b, Unexplainable))
  {
    hide MatchFrom, NewHolders, Losses;
    SomebodyContinuesIff(m, s1, s3);
    Partition(m, s1, s3);
    TransferIff(m, s1, s3, newer);
    OtherVerdictsIff(m, s1, s3, newer);
  }

  // The equal sums are needed: with both sums well inside their tolerance, one holder's rounding
  // is enough.
  lemma RoundingCanLookLikeATransfer()
    ensures var m := EntityMap((a, b) => a == b, (a, b) => a == b);
      Verdict(m, [Holder("x", 50.008), Holder("y", 50.0)], [Holder("x", 49.993), Holder("y", 50.0)], true)
        == Some((B1a, Explainable))
  {
    var m := EntityMap((a, b) => a == b, (a, b) => a == b);
    var s1, s3 := [Holder("x", 50.008), Holder("y", 50.0)], [Holder("x", 49.993), Holder("y", 50.0)];
    assert s1[1..] == [Holder("y", 50.0)] && s3[1..] == [Holder("y", 50.0)];
    assert FirstUnused(m, "x", s3, {}, 0) == Some(0);
    assert FirstUnused(m, "y", s3, {0}, 0) == Some(1) by {
      assert FirstUnused(m, "y", s3, {0}, 0) == FirstUnused(m, "y", s3, {0}, 1);
    }
    var pairs := [(s1[0], s3[0]), (s1[1], s3[1])];
    assert MatchFrom(m, s1[1..], s3, {0}) == Matching([(s1[1], s3[1])], [], {0} + {1});
    assert MatchFrom(m, s1, s3, {}).pairs == pairs;
    assert Abs(pairs[0].0.pct - pairs[0].1.pct) >= EPS;
    assert Gains(pairs[1..]) == 0.0;
  }

  // ----- independence of order -----

  ghost predicate Same(m: EntityMap, a: Holder, b: Holder) {
    m.samePerson(a.name, b.name)
  }

  // Names match one to one across the two lists. Only the multisets of holders matter.
  ghost predicate OneToOne(m: EntityMap, M1: multiset<Holder>, M3: multiset<Holder>) {
    && (forall a, b :: a in M1 && b in M3 && Same(m, a, b) ==> M1[a] == 1 && M3[b] == 1)
    && (forall a, a', b :: a in M1 && a' in M1 && b in M3 && Same(m, a, b) && Same(m, a', b) ==> a == a')
    && (forall a, b, b' :: a in M1 && b in M3 && b' in M3 && Same(m, a, b) && Same(m, a, b') ==> b == b')
  }

  lemma {:induction false} CountFirsts(pairs: seq<Pair>, p: Pair)
    ensures multiset(Firsts(pairs))[p.0] >= multiset(pairs)[p]
    ensures multiset(Seconds(pairs))[p.1] >= multiset(pairs)[p]
  {
    if pairs != [] {
      CountFirsts(pairs[1..], p);
      assert pairs == [pairs[0]] + pairs[1..];
    }
  }

  lemma {:induction false} InFirsts(pairs: seq<Pair>, a: Holder) returns (p: Pair)
    requires a in Firsts(pairs)
    ensures p in pairs && p.0 == a
  {
    if pairs[0].0 == a { p := pairs[0]; } else { p := InFirsts(pairs[1..], a); }
  }

  lemma {:induction false} InSeconds(pairs: seq<Pair>, b: Holder) returns (p: Pair)
    requires b in Seconds(pairs)
    ensures p in pairs && p.1 == b
  {
    if pairs[0].1 == b { p := pairs[0]; } else { p := InSeconds(pairs[1..], b); }
  }

  // The pairs found are all the matches there are, each once.
  lemma PairsAreTheMatches(m: EntityMap, s1: seq<Holder>, s3: seq<Holder>, p: Pair)
    requires OneToOne(m, multiset(s1), multiset(s3))
    ensures multiset(MatchFrom(m, s1, s3, {}).pairs)[p] == if p.0 in s1 && p.1 in s3 && Same(m, p.0, p.1) then 1 else 0
  {
    var r := MatchFrom(m, s1, s3, {});
    var fresh_ := NewHolders(s3, r.used, 0);
    Partition(m, s1, s3);
    CountFirsts(r.pairs, p);
    if p in r.pairs {
      assert p.0 in multiset(s1) && p.1 in multiset(s3);
    } else if p.0 in s1 && p.1 in s3 && Same(m, p.0, p.1) {
      assert p.0 in multiset(s1) && p.1 in multiset(s3);
      MatchIsNotMissed(m, s1, s3, p);
    }
  }

  lemma PairedByFirst(m: EntityMap, s1: seq<Holder>, s3: seq<Holder>, p: Pair)
    requires OneToOne(m, multiset(s1), multiset(s3)) && p.0 in Firsts(MatchFrom(m, s1, s3, {}).pairs)
    requires p.0 in multiset(s1) && p.1 in multiset(s3) && Same(m, p.0, p.1)
    ensures p in MatchFrom(m, s1, s3, {}).pairs
  {
    hide MatchFrom, NewHolders;
    var pairs := MatchFrom(m, s1, s3, {}).pairs;
    Partition(m, s1, s3);
    var q := InFirsts(pairs, p.0);
    CountFirsts(pairs, q);
    assert q.1 in multiset(s3) && Same(m, q.0, q.1);
  }

  lemma PairedBySecond(m: EntityMap, s1: seq<Holder>, s3: seq<Holder>, p: Pair)
    requires OneToOne(m, multiset(s1), multiset(s3)) && p.1 in Seconds(MatchFrom(m, s1, s3, {}).pairs)
    requires p.0 in multiset(s1) && p.1 in multiset(s3) && Same(m, p.0, p.1)
    ensures p in MatchFrom(m, s1, s3, {}).pairs
  {
    hide MatchFrom, NewHolders;
    var pairs := MatchFrom(m, s1, s3, {}).pairs;
    Partition(m, s1, s3);
    var q := InSeconds(pairs, p.1);
    CountFirsts(pairs, q);
    assert q.0 in multiset(s1) && Same(m, q.0, q.1);
  }

  lemma MatchIsNotMissed(m: EntityMap, s1: seq<Holder>, s3: seq<Holder>, p: Pair)
    requires OneToOne(m, multiset(s1), multiset(s3))
    requires p.0 in multiset(s1) && p.1 in multiset(s3) && Same(m, p.0, p.1)
    ensures p in MatchFrom(m, s1, s3, {}).pairs
  {
    hide MatchFrom, NewHolders, OneToOne, Firsts, Seconds;
    var r := MatchFrom(m, s1, s3, {});
    Partition(m, s1, s3);
    if p.0 in Firsts(r.pairs) {
      PairedByFirst(m, s1, s3, p);
    } else if p.1 in Seconds(r.pairs) {
      PairedBySecond(m, s1, s3, p);
    }
  }

  lemma {:induction false} ProjectionsJoin(a: seq<Pair>, b: seq<Pair>)
    ensures Firsts(a + b) == Firsts(a) + Firsts(b) && Seconds(a + b) == Seconds(a) + Seconds(b)
  {
    if a == [] {
      assert a + b == b;
    } else {
      assert (a + b)[1..] == a[1..] + b;
      ProjectionsJoin(a[1..], b);
    }
  }

  lemma ProjectionsOfOne(p: Pair)
    ensures Firsts([p]) == [p.0] && Seconds([p]) == [p.1]
  {}

  lemma OneInTheMiddle(left: seq<Holder>, h: Holder, right: seq<Holder>)
    ensures multiset(left + [h] + right) == multiset{h} + multiset(left + right)
  {}

  lemma ProjectionsSplit(b: seq<Pair>, i: nat)
    requires i < |b|
    ensures multiset(Firsts(b)) == multiset{b[i].0} + multiset(Firsts(b[..i] + b[i + 1..]))
    ensures multiset(Seconds(b)) == multiset{b[i].1} + multiset(Seconds(b[..i] + b[i + 1..]))
  {
    hide Firsts, Seconds;
    var left, right := b[..i], b[i + 1..];
    SplitAt(b, i);
    ProjectionsJoin(left + [b[i]], right);
    ProjectionsJoin(left, [b[i]]);
    ProjectionsJoin(left, right);
    ProjectionsOfOne(b[i]);
    OneInTheMiddle(Firsts(left), b[i].0, Firsts(right));
    OneInTheMiddle(Seconds(left), b[i].1, Seconds(right));
  }

  lemma {:induction false} ProjectionsOfMultiset(a: seq<Pair>, b: seq<Pair>)
    requires multiset(a) == multiset(b)
    ensures multiset(Firsts(a)) == multiset(Firsts(b)) && multiset(Seconds(a)) == multiset(Seconds(b))
    decreases |a|
  {
    if a == [] {
      assert |multiset(b)| == 0;
    } else {
      var i := HeadElsewhere(a, b);
      ProjectionsOfMultiset(a[1..], b[..i] + b[i + 1..]);
      ProjectionsSplit(b, i);
    }
  }

  lemma Remainder(whole: multiset<Holder>, other: multiset<Holder>, taken: multiset<Holder>, left: multiset<Holder>,
        left': multiset<Holder>)
    requires whole == taken + left && other == taken + left' && whole == other
    ensures left == left'
  {
    assert left == whole - taken && left' == other - taken;
  }

  lemma SameLeftovers(m: EntityMap, s1: seq<Holder>, t1: seq<Holder>, s3: seq<Holder>, t3: seq<Holder>)
    requires multiset(s1) == multiset(t1) && multiset(s3) == multiset(t3)
    requires multiset(MatchFrom(m, s1, s3, {}).pairs) == multiset(MatchFrom(m, t1, t3, {}).pairs)
    ensures var (r, q) := (MatchFrom(m, s1, s3, {}), MatchFrom(m, t1, t3, {}));
      && multiset(r.exited) == multiset(q.exited)
      && multiset(NewHolders(s3, r.used, 0)) == multiset(NewHolders(t3, q.used, 0))
  {
    var r, q := MatchFrom(m, s1, s3, {}), MatchFrom(m, t1, t3, {});
    Partition(m, s1, s3);
    Partition(m, t1, t3);
    ProjectionsOfMultiset(r.pairs, q.pairs);
    Remainder(multiset(s1), multiset(t1), multiset(Firsts(r.pairs)), multiset(r.exited), multiset(q.exited));
    Remainder(multiset(s3), multiset(t3), multiset(Seconds(r.pairs)),
      multiset(NewHolders(s3, r.used, 0)), multiset(NewHolders(t3, q.used, 0)));
  }

  // For names that match one to one, the verdict is the same for every order of either list.
  lemma OrderIndependence(m: EntityMap, s1: seq<Holder>, t1: seq<Holder>, s3: seq<Holder>, t3: seq<Holder>, newer: bool)
    requires multiset(s1) == multiset(t1) && multiset(s3) == multiset(t3)
    requires OneToOne(m, multiset(s1), multiset(s3))
    ensures DeltaOf(m, s1, s3) == DeltaOf(m, t1, t3)
    ensures Verdict(m, s1, s3, newer) == Verdict(m, t1, t3, newer)
  {
    var r, q := MatchFrom(m, s1, s3, {}), MatchFrom(m, t1, t3, {});
    SamePairs(m, s1, t1, s3, t3);
    SameLeftovers(m, s1, t1, s3, t3);
    SameDelta(r, q, NewHolders(s3, r.used, 0), NewHolders(t3, q.used, 0));
    TotalOfMultiset(s1, t1);
    TotalOfMultiset(s3, t3);
  }

  ghost predicate Equivalence(m: EntityMap) {
    && (forall a :: m.samePerson(a, a))
    && (forall a, b :: m.samePerson(a, b) ==> m.samePerson(b, a))
    && (forall a, b, c :: m.samePerson(a, b) && m.samePerson(b, c) ==> m.samePerson(a, c))
  }

  // At most one holder of each class of names.
  ghost predicate OnePerClass(m: EntityMap, s: seq<Holder>) {
    forall i, k :: 0 <= i < k < |s| ==> !m.samePerson(s[i].name, s[k].name)
  }

  lemma {:induction false} CountedOnce(s: seq<Holder>, h: Holder)
    requires h in s && forall i, k :: 0 <= i < k < |s| ==> s[i] != s[k]
    ensures multiset(s)[h] == 1
  {
    assert s == [s[0]] + s[1..];
    if s[0] == h {
      assert h !in s[1..];
    } else {
      CountedOnce(s[1..], h);
    }
  }

  lemma AlikeAreEqual(m: EntityMap, s: seq<Holder>, a: Holder, b: Holder)
    requires OnePerClass(m, s) && a in multiset(s) && b in multiset(s) && Same(m, a, b) && Same(m, b, a)
    ensures a == b
  {
    assert a in s && b in s;
    var i :| 0 <= i < |s| && s[i] == a;
    var k :| 0 <= k < |s| && s[k] == b;
  }

  lemma Triangle(m: EntityMap, a: string, b: string, c: string)
    requires Equivalence(m)
    ensures m.samePerson(a, c) && m.samePerson(b, c) ==> m.samePerson(a, b) && m.samePerson(b, a)
    ensures m.samePerson(c, a) && m.samePerson(c, b) ==> m.samePerson(a, b) && m.samePerson(b, a)
  {
    if m.samePerson(a, c) && m.samePerson(b, c) { assert m.samePerson(c, a) && m.samePerson(c, b); }
    if m.samePerson(c, a) && m.samePerson(c, b) { assert m.samePerson(a, c) && m.samePerson(b, c); }
  }

  lemma OnceEach(m: EntityMap, s: seq<Holder>, h: Holder)
    requires Equivalence(m) && OnePerClass(m, s) && h in multiset(s)
    ensures multiset(s)[h] == 1
  {
    forall i, k | 0 <= i < k < |s| ensures s[i] != s[k] {
      assert !m.samePerson(s[i].name, s[k].name);
    }
    CountedOnce(s, h);
  }

  lemma ClassesMatchOneToOne(m: EntityMap, s1: seq<Holder>, s3: seq<Holder>)
    requires Equivalence(m) && OnePerClass(m, s1) && OnePerClass(m, s3)
    ensures OneToOne(m, multiset(s1), multiset(s3))
  {
    forall a, b | a in multiset(s1) && b in multiset(s3) && Same(m, a, b)
      ensures multiset(s1)[a] == 1 && multiset(s3)[b] == 1
    {
      OnceEach(m, s1, a);
      OnceEach(m, s3, b);
    }
    forall a, a', b | a in multiset(s1) && a' in multiset(s1) && b in multiset(s3) && Same(m, a, b) && Same(m, a', b)
      ensures a == a'
    {
      Triangle(m, a.name, a'.name, b.name);
      AlikeAreEqual(m, s1, a, a');
    }
    forall a, b, b' | a in multiset(s1) && b in multiset(s3) && b' in multiset(s3) && Same(m, a, b) && Same(m, a, b')
      ensures b == b'
    {
      Triangle(m, b.name, b'.name, a.name);
      AlikeAreEqual(m, s3, b, b');
    }
  }

  // For an equivalence with at most one holder per class in each list, order never matters.
  lemma EquivalenceOrderIndependence(m: EntityMap, s1: seq<Holder>, t1: seq<Holder>, s3: seq<Holder>, t3: seq<Holder>,
        newer: bool)
    requires multiset(s1) == multiset(t1) && multiset(s3) == multiset(t3)
    requires Equivalence(m) && OnePerClass(m, s1) && OnePerClass(m, s3)
    ensures Verdict(m, s1, s3, newer) == Verdict(m, t1, t3, newer)
  {
    ClassesMatchOneToOne(m, s1, s3);
    OrderIndependence(m, s1, t1, s3, t3, newer);
  }

  // Without it order does matter: a matcher that is not transitive pairs differently when
  // the first list is reversed, and the verdict changes with it.
  lemma FuzzyMatchingDependsOnOrder(m: EntityMap, x: Holder, y: Holder, p: Holder, q: Holder)
    requires m.samePerson(x.name, p.name) && m.samePerson(x.name, q.name)
    requires m.samePerson(y.name, p.name) && !m.samePerson(y.name, q.name)
    requires x.pct == y.pct == p.pct == q.pct == 50.0
    ensures Verdict(m, [x, y], [p, q], true) == Some((B1a, Explainable))
    ensures Verdict(m, [y, x], [p, q], true) == None
  {
    var s3 := [p, q];
    assert [x, y][1..] == [y] && [y, x][1..] == [x] && s3[1..] == [q];
    assert FirstUnused(m, x.name, s3, {}, 0) == Some(0) && FirstUnused(m, y.name, s3, {}, 0) == Some(0);
    assert FirstUnused(m, y.name, s3, {0}, 0) == None by {
      assert FirstUnused(m, y.name, s3, {0}, 0) == FirstUnused(m, y.name, s3, {0}, 1)
        == FirstUnused(m, y.name, s3, {0}, 2);
    }
    assert FirstUnused(m, x.name, s3, {0}, 0) == Some(1) by {
      assert FirstUnused(m, x.name, s3, {0}, 0) == FirstUnused(m, x.name, s3, {0}, 1);
    }
    assert {} + {0} == {0};
    assert [y][1..] == [] && [x][1..] == [];
    assert MatchFrom(m, [y], s3, {0}) == Matching([], [y], {0});
    assert MatchFrom(m, [x, y], s3, {}) == Matching([(x, p)], [y], {0});
    assert NewHolders(s3, {0}, 0) == NewHolders(s3, {0}, 1) == [q];
    assert MatchFrom(m, [x], s3, {0}) == Matching([(x, q)], [], {0} + {1});
    assert MatchFrom(m, [y, x], s3, {}) == Matching([(y, p), (x, q)], [], {0} + {1});
    assert NewHolders(s3, {0} + {1}, 0) == NewHolders(s3, {0} + {1}, 1) == [];
    assert Gains([(x, p)]) == 0.0;
    assert Total([]) == 0.0 && Total([x]) == Total([y]) == Total([q]) == 50.0;
    assert Total([x, y]) == Total([y, x]) == Total(s3) == 100.0;
  }

  lemma SamePairs(m: EntityMap, s1: seq<Holder>, t1: seq<Holder>, s3: seq<Holder>, t3: seq<Holder>)
    requires multiset(s1) == multiset(t1) && multiset(s3) == multiset(t3)
    requires OneToOne(m, multiset(s1), multiset(s3))
    ensures multiset(MatchFrom(m, s1, s3, {}).pairs) == multiset(MatchFrom(m, t1, t3, {}).pairs)
  {
    forall p: Pair
      ensures multiset(MatchFrom(m, s1, s3, {}).pairs)[p] == multiset(MatchFrom(m, t1, t3, {}).pairs)[p]
    {
      PairsAreTheMatches(m, s1, s3, p);
      PairsAreTheMatches(m, t1, t3, p);
      assert p.0 in s1 <==> p.0 in multiset(s1);
      assert p.0 in t1 <==> p.0 in multiset(t1);
      assert p.1 in s3 <==> p.1 in multiset(s3);
      assert p.1 in t3 <==> p.1 in multiset(t3);
    }
  }

  lemma SameSize<T>(a: seq<T>, b: seq<T>)
    requires multiset(a) == multiset(b)
    ensures |a| == |b|
  {
    assert |multiset(a)| == |a| && |multiset(b)| == |b|;
  }

  lemma SameDelta(r: Matching, q: Matching, new1: seq<Holder>, new2: seq<Holder>)
    requires multiset(r.pairs) == multiset(q.pairs) && multiset(r.exited) == multiset(q.exited)
    requires multiset(new1) == multiset(new2)
    ensures |r.pairs| == |q.pairs| && (r.exited == [] <==> q.exited == []) && (new1 == [] <==> new2 == [])
    ensures Total(r.exited) == Total(q.exited) && Gains(r.pairs) == Gains(q.pairs) && Total(new1) == Total(new2)
    ensures Unchanged(r.pairs) == Unchanged(q.pairs)
  {
    SameSize(r.pairs, q.pairs);
    SameSize(r.exited, q.exited);
    SameSize(new1, new2);
    TotalOfMultiset(r.exited, q.exited);
    TotalOfMultiset(new1, new2);
    GainsOfMultiset(r.pairs, q.pairs);
    if Unchanged(r.pairs) { UnchangedOfMultiset(r.pairs, q.pairs); }
    if Unchanged(q.pairs) { UnchangedOfMultiset(q.pairs, r.pairs); }
  }

  lemma UnchangedOfMultiset(a: seq<Pair>, b: seq<Pair>)
    requires multiset(a) == multiset(b) && Unchanged(a)
    ensures Unchanged(b)
  {
    forall i | 0 <= i < |b| ensures Abs(b[i].0.pct - b[i].1.pct) < EPS {
      assert b[i] in multiset(b);
      assert b[i] in multiset(a);
    }
  }
}

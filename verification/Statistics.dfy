/** Order statistics of a short list of counts. */
module Statistics {

  function Min(xs: seq<nat>): nat
    requires xs != []
  {
    if |xs| == 1 then xs[0] else var rest := Min(xs[1..]); if xs[0] < rest then xs[0] else rest
  }

  function Max(xs: seq<nat>): nat
    requires xs != []
  {
    if |xs| == 1 then xs[0] else var rest := Max(xs[1..]); if xs[0] > rest then xs[0] else rest
  }

  function Insert(x: nat, xs: seq<nat>): (r: seq<nat>)
    ensures |r| == |xs| + 1
  {
    if xs == [] || x <= xs[0] then [x] + xs else [xs[0]] + Insert(x, xs[1..])
  }

  function Sorted(xs: seq<nat>): (r: seq<nat>)
    ensures |r| == |xs|
  {
    if xs == [] then [] else Insert(xs[0], Sorted(xs[1..]))
  }

  // The middle value, or the mean of the two middle values.
  function Median(xs: seq<nat>): real
    requires xs != []
  {
    var s := Sorted(xs);
    if |s| % 2 == 1 then s[|s| / 2] as real else (s[|s| / 2 - 1] + s[|s| / 2]) as real / 2.0
  }

  lemma {:induction false} MinIsLeast(xs: seq<nat>)
    requires xs != []
    ensures Min(xs) in xs && forall i :: 0 <= i < |xs| ==> Min(xs) <= xs[i]
  {
    if |xs| > 1 {
      MinIsLeast(xs[1..]);
      assert forall i :: 0 < i < |xs| ==> xs[i] == xs[1..][i - 1];
    }
  }

  lemma {:induction false} MaxIsGreatest(xs: seq<nat>)
    requires xs != []
    ensures Max(xs) in xs && forall i :: 0 <= i < |xs| ==> xs[i] <= Max(xs)
  {
    if |xs| > 1 {
      MaxIsGreatest(xs[1..]);
      assert forall i :: 0 < i < |xs| ==> xs[i] == xs[1..][i - 1];
    }
  }

  ghost predicate Ascending(xs: seq<nat>) {
    forall i, k :: 0 <= i < k < |xs| ==> xs[i] <= xs[k]
  }

  lemma {:induction false} InsertKeeps(x: nat, xs: seq<nat>)
    ensures multiset(Insert(x, xs)) == multiset(xs) + multiset{x}
  {
    if xs != [] && x > xs[0] {
      InsertKeeps(x, xs[1..]);
      assert xs == [xs[0]] + xs[1..];
    }
  }

  lemma PrependKeepsOrder(x: nat, xs: seq<nat>)
    requires Ascending(xs) && forall i :: 0 <= i < |xs| ==> x <= xs[i]
    ensures Ascending([x] + xs)
  {}

  lemma {:induction false} InsertKeepsOrder(x: nat, xs: seq<nat>)
    requires Ascending(xs)
    ensures Ascending(Insert(x, xs))
  {
    if xs == [] || x <= xs[0] {
      PrependKeepsOrder(x, xs);
    } else {
      var r := Insert(x, xs[1..]);
      InsertKeepsOrder(x, xs[1..]);
      InsertKeeps(x, xs[1..]);
      hide Ascending;
      forall i | 0 <= i < |r| ensures xs[0] <= r[i] {
        HeadIsLeast(x, xs, r, i);
      }
      PrependKeepsOrder(xs[0], r);
    }
  }

  lemma HeadIsLeast(x: nat, xs: seq<nat>, r: seq<nat>, i: nat)
    requires xs != [] && Ascending(xs) && xs[0] <= x && multiset(r) == multiset(xs[1..]) + multiset{x} && i < |r|
    ensures xs[0] <= r[i]
  {
    assert r[i] in multiset(r);
  }

  // The list the median is read from is the input in ascending order.
  lemma {:induction false} SortedSorts(xs: seq<nat>)
    ensures Ascending(Sorted(xs)) && multiset(Sorted(xs)) == multiset(xs)
  {
    if xs != [] {
      SortedSorts(xs[1..]);
      InsertKeepsOrder(xs[0], Sorted(xs[1..]));
      InsertKeeps(xs[0], Sorted(xs[1..]));
      assert xs == [xs[0]] + xs[1..];
    }
  }

  // ----- the middle of a list -----

  ghost function Below(xs: seq<nat>, v: nat): nat {
    if xs == [] then 0 else Below(xs[1..], v) + if xs[0] < v then 1 else 0
  }

  ghost function Above(xs: seq<nat>, v: nat): (n: nat)
    ensures n <= |xs|
  {
    if xs == [] then 0 else Above(xs[1..], v) + if xs[0] > v then 1 else 0
  }

  lemma {:induction false} InsertCounts(x: nat, xs: seq<nat>, v: nat)
    ensures Below(Insert(x, xs), v) == Below(xs, v) + if x < v then 1 else 0
    ensures Above(Insert(x, xs), v) == Above(xs, v) + if x > v then 1 else 0
  {
    if xs == [] || x <= xs[0] {
      assert ([x] + xs)[1..] == xs;
    } else {
      InsertCounts(x, xs[1..], v);
    }
  }

  lemma {:induction false} SortCounts(xs: seq<nat>, v: nat)
    ensures Below(Sorted(xs), v) == Below(xs, v) && Above(Sorted(xs), v) == Above(xs, v)
  {
    if xs != [] {
      SortCounts(xs[1..], v);
      InsertCounts(xs[0], Sorted(xs[1..]), v);
    }
  }

  lemma {:induction false} BelowInOrder(s: seq<nat>, v: nat, p: nat)
    requires Ascending(s) && p < |s|
    ensures if s[p] < v then Below(s, v) > p else Below(s, v) <= p
  {
    if p > 0 {
      BelowInOrder(s[1..], v, p - 1);
    } else if |s| > 1 {
      BelowInOrder(s[1..], v, 0);
    }
  }

  lemma {:induction false} AboveInOrder(s: seq<nat>, v: nat, p: nat)
    requires Ascending(s) && p < |s|
    ensures if s[p] > v then Above(s, v) >= |s| - p else Above(s, v) < |s| - p
  {
    if p > 0 {
      AboveInOrder(s[1..], v, p - 1);
    } else if |s| > 1 {
      AboveInOrder(s[1..], v, 0);
    }
  }

  // One of the values such that at most half of them are below it and at most half above it.
  ghost predicate Middle(xs: seq<nat>, v: nat) {
    v in xs && 2 * Below(xs, v) <= |xs| && 2 * Above(xs, v) <= |xs|
  }

  // The middle entries of the list in ascending order are exactly the values that have at most
  // half of the list below them and at most half above.
  lemma MiddleIff(xs: seq<nat>, v: nat)
    requires xs != []
    ensures Middle(xs, v) <==> v == Sorted(xs)[|xs| / 2] || (|xs| % 2 == 0 && v == Sorted(xs)[|xs| / 2 - 1])
  {
    hide Sorted, Above, Below;
    var s, h := Sorted(xs), |xs| / 2;
    SortedSorts(xs);
    SortCounts(xs, v);
    assert v in xs <==> v in s by { assert v in xs <==> v in multiset(s); }
    BelowInOrder(s, v, h);
    AboveInOrder(s, v, h);
    if |xs| % 2 == 0 {
      BelowInOrder(s, v, h - 1);
      AboveInOrder(s, v, h - 1);
    }
  }
}

/** A roll of dice classified into a named combination (getCombination in test.php).

    The source sorts the roll, counts how often each value occurs, measures from every
    position the run of +1 steps over the sorted values, and feeds the three numbers
    maxRepeat, countUnique and maxSequence to a fixed ladder of tests. */
module Dice {

  /** The nine labels the ladder can return. */
  datatype Combination =
    | Poker | FourOfAKind | FullHouse | LargeStraight | SmallStraight
    | ThreeOfAKind | TwoPairs | Pair | Chance

  /** The string the source returns for each combination. */
  function Label(c: Combination): string {
    match c
    case Poker => "покер"
    case FourOfAKind => "Каре"
    case FullHouse => "фул хаус"
    case LargeStraight => "большой стрит"
    case SmallStraight => "малый стрит"
    case ThreeOfAKind => "сэт"
    case TwoPairs => "две пары"
    case Pair => "пара"
    case Chance => "шанс"
  }

  predicate Sorted(s: seq<int>) {
    forall i, j :: 0 <= i < j < |s| ==> s[i] <= s[j]
  }

  // ---------------------------------------------------------------------------
  // Specification functions
  // ---------------------------------------------------------------------------

  /** Inserts x into a sorted sequence. */
  function InsertSorted(x: int, s: seq<int>): (r: seq<int>)
    requires Sorted(s)
    ensures |r| == |s| + 1
    ensures forall y :: y in r ==> y == x || y in s
    ensures Sorted(r)
    ensures multiset(r) == multiset(s) + multiset{x}
  {
    if s == [] || x <= s[0] then
      [x] + s
    else
      assert s == [s[0]] + s[1..];
      var rest := InsertSorted(x, s[1..]);
      assert forall k :: 0 <= k < |rest| ==> s[0] <= rest[k] by {
        forall k | 0 <= k < |rest| ensures s[0] <= rest[k] {
          assert rest[k] in rest;
        }
      }
      [s[0]] + rest
  }

  /** The ascending arrangement of a roll: what PHP's sort() leaves in the array. */
  function SortedOf(s: seq<int>): (r: seq<int>)
    ensures Sorted(r)
    ensures multiset(r) == multiset(s)
  {
    if s == [] then []
    else
      assert s == s[..|s| - 1] + [s[|s| - 1]];
      InsertSorted(s[|s| - 1], SortedOf(s[..|s| - 1]))
  }

  /** The values of the roll, each once: the keys array_count_values produces. */
  function Distinct(s: seq<int>): set<int> {
    set x | x in s
  }

  function CountUnique(s: seq<int>): nat {
    |Distinct(s)|
  }

  /** The largest element of a non-empty sequence. */
  function Max(xs: seq<nat>): (m: nat)
    requires |xs| > 0
    ensures m in xs
    ensures forall k :: 0 <= k < |xs| ==> xs[k] <= m
  {
    if |xs| == 1 then xs[0]
    else
      var rest := Max(xs[1..]);
      if xs[0] >= rest then xs[0] else rest
  }

  /** How often each position's value occurs in the roll. */
  function Multiplicities(s: seq<int>): (ms: seq<nat>)
    ensures |ms| == |s|
  {
    seq(|s|, k requires 0 <= k < |s| => multiset(s)[s[k]])
  }

  function MaxRepeat(s: seq<int>): nat
    requires |s| > 0
  {
    Max(Multiplicities(s))
  }

  /** The inner loop of the source: from position j, with the last value of the run
      being `low`, count the +1 steps, skipping values equal to `low`, and stop at the
      first value that is neither. */
  function Steps(s: seq<int>, j: nat, low: int): nat
    requires j <= |s|
    decreases |s| - j
  {
    if j == |s| then 0
    else if s[j] == low then Steps(s, j + 1, low)
    else if s[j] == low + 1 then 1 + Steps(s, j + 1, s[j])
    else 0
  }

  /** sequence[i] of the source. */
  function Runs(s: seq<int>): (rs: seq<nat>)
    ensures |rs| == |s|
  {
    seq(|s|, i requires 0 <= i < |s| => Steps(s, i, s[i]))
  }

  function MaxSequence(s: seq<int>): nat
    requires |s| > 0
  {
    Max(Runs(s))
  }

  /** The decision ladder, in the source's order. */
  function Classify(maxRepeat: nat, countUnique: nat, maxSequence: nat): Combination {
    if maxRepeat == 5 then Poker
    else if maxRepeat == 4 then FourOfAKind
    else if maxRepeat == 3 && countUnique == 2 then FullHouse
    else if countUnique == 5 && maxSequence == 5 then LargeStraight
    else if countUnique == 4 && maxSequence == 4 then SmallStraight
    else if maxRepeat == 3 then ThreeOfAKind
    else if maxRepeat == 2 && countUnique == 3 then TwoPairs
    else if maxRepeat == 2 then Pair
    else Chance
  }

  /** What getCombination computes for a roll, stated on its sorted arrangement. */
  function Hand(game: seq<int>): Combination
    requires |game| > 0
  {
    var t := SortedOf(game);
    Classify(MaxRepeat(t), CountUnique(t), MaxSequence(t))
  }

  // ---------------------------------------------------------------------------
  // The algorithm, as the source runs it
  // ---------------------------------------------------------------------------

  /** sort($game): ascending, in place (selection sort). */
  method SortInPlace(a: array<int>)
    modifies a
    ensures Sorted(a[..])
    ensures multiset(a[..]) == multiset(old(a[..]))
  {
    var n := a.Length;
    var i := 0;
    while i < n
      invariant 0 <= i <= n
      invariant forall p, q :: 0 <= p < q < i ==> a[p] <= a[q]
      invariant forall p, q :: 0 <= p < i <= q < n ==> a[p] <= a[q]
      invariant multiset(a[..]) == multiset(old(a[..]))
    {
      var m := i;
      var j := i + 1;
      while j < n
        invariant i <= m < n
        invariant i < j <= n
        invariant forall q :: i <= q < j ==> a[m] <= a[q]
      {
        if a[j] < a[m] {
          m := j;
        }
        j := j + 1;
      }
      Swap(a, i, m);
      i := i + 1;
    }
  }

  method Swap(a: array<int>, i: nat, j: nat)
    requires i < a.Length && j < a.Length
    modifies a
    ensures a[..] == old(a[..])[i := old(a[j])][j := old(a[i])]
    ensures multiset(a[..]) == multiset(old(a[..]))
  {
    a[i], a[j] := a[j], a[i];
  }

  lemma Inhabited(s: set<int>)
    requires s != {}
    ensures exists x :: x in s
  {
    if forall x :: x !in s {
      assert false;
    }
  }

  /** array_count_values($game). */
  method CountValues(game: seq<int>) returns (repeats: map<int, nat>)
    ensures forall x :: x in repeats ==> x in game
    ensures forall k :: 0 <= k < |game| ==> game[k] in repeats
    ensures forall x :: x in repeats ==> repeats[x] == multiset(game)[x]
  {
    repeats := map[];
    for i := 0 to |game|
      invariant forall x :: x in repeats ==> x in game[..i]
      invariant forall k :: 0 <= k < i ==> game[k] in repeats
      invariant forall x :: x in repeats ==> repeats[x] == multiset(game[..i])[x]
    {
      var v := game[i];
      assert game[..i + 1] == game[..i] + [v];
      if v in repeats {
        repeats := repeats[v := repeats[v] + 1];
      } else {
        assert v !in multiset(game[..i]);
        repeats := repeats[v := 1];
      }
    }
    assert game[..|game|] == game;
  }

  /** max($repeats): the largest count. */
  method MaxCount(repeats: map<int, nat>) returns (m: nat)
    requires repeats != map[]
    ensures exists x :: x in repeats && repeats[x] == m
    ensures forall x :: x in repeats ==> repeats[x] <= m
  {
    var keys := repeats.Keys;
    assert keys != {};
    Inhabited(keys);
    var first :| first in keys;
    m := repeats[first];
    var todo := keys - {first};
    while todo != {}
      invariant todo <= repeats.Keys
      invariant exists x :: x in repeats && repeats[x] == m
      invariant forall x :: x in repeats && x !in todo ==> repeats[x] <= m
      decreases todo
    {
      Inhabited(todo);
      var k :| k in todo;
      if repeats[k] > m {
        m := repeats[k];
      }
      todo := todo - {k};
    }
  }

  /** The nested foreach/for of the source: $sequence[$i] for every position. */
  method RunLengths(game: seq<int>) returns (sequence: seq<nat>)
    ensures sequence == Runs(game)
  {
    var n := |game|;
    var runs := new nat[n];
    for i := 0 to n
      invariant forall k :: 0 <= k < i ==> runs[k] == Steps(game, k, game[k])
    {
      runs[i] := 0;
      var low := game[i];
      var j := i;
      while j < n
        invariant i <= j <= n
        invariant runs[i] + Steps(game, j, low) == Steps(game, i, game[i])
        invariant forall k :: 0 <= k < i ==> runs[k] == Steps(game, k, game[k])
      {
        if low != game[j] {
          if game[j] == low + 1 {
            low := game[j];
            runs[i] := runs[i] + 1;
          } else {
            break;
          }
        }
        j := j + 1;
      }
    }
    sequence := runs[..];
  }

  /** max($sequence): the longest run. */
  method MaxRun(sequence: seq<nat>) returns (m: nat)
    requires |sequence| > 0
    ensures m in sequence
    ensures forall k :: 0 <= k < |sequence| ==> sequence[k] <= m
  {
    m := sequence[0];
    for k := 1 to |sequence|
      invariant m in sequence
      invariant forall p :: 0 <= p < k ==> sequence[p] <= m
    {
      if sequence[k] > m {
        m := sequence[k];
      }
    }
  }

  /** getCombination on a non-empty roll. For an empty roll max() throws a ValueError under
      PHP 8 and returns false under PHP 7; that case is not modelled. */
  method GetCombination(game: seq<int>) returns (result: string)
    requires |game| > 0
    ensures result == Label(Hand(game))
  {
    var a := new int[|game|](i requires 0 <= i < |game| => game[i]);
    assert a[..] == game;
    SortInPlace(a);
    var sorted := a[..];
    SortedUnique(sorted, SortedOf(game));

    var repeats := CountValues(sorted);
    var countUnique := |repeats|;
    var maxRepeat := MaxCount(repeats);
    RepeatsAgree(sorted, repeats, maxRepeat);

    var sequence := RunLengths(sorted);
    var maxSequence := MaxRun(sequence);
    MaxIsUnique(sequence, maxSequence);

    result := Label(Classify(maxRepeat, countUnique, maxSequence));
  }

  /** What CountValues and MaxCount compute are countUnique and maxRepeat of the roll. */
  lemma RepeatsAgree(s: seq<int>, repeats: map<int, nat>, m: nat)
    requires forall x :: x in repeats ==> x in s
    requires forall k :: 0 <= k < |s| ==> s[k] in repeats
    requires forall x :: x in repeats ==> repeats[x] == multiset(s)[x]
    requires exists x :: x in repeats && repeats[x] == m
    requires forall x :: x in repeats ==> repeats[x] <= m
    ensures |repeats| == CountUnique(s)
    ensures |s| > 0 ==> m == MaxRepeat(s)
  {
    assert repeats.Keys == Distinct(s) by {
      forall x ensures x in repeats.Keys <==> x in Distinct(s) {
      }
    }
    var top :| top in repeats && repeats[top] == m;
    var w :| 0 <= w < |s| && s[w] == top;
    assert Multiplicities(s)[w] == m;
    forall k | 0 <= k < |s| ensures Multiplicities(s)[k] <= m {
      var y := s[k];
      assert y in repeats;
      assert repeats[y] <= m && repeats[y] == multiset(s)[y];
    }
    MaxIsUnique(Multiplicities(s), m);
  }

  // ---------------------------------------------------------------------------
  // Properties
  // ---------------------------------------------------------------------------

  lemma MaxIsUnique(xs: seq<nat>, m: nat)
    requires m in xs
    requires forall k :: 0 <= k < |xs| ==> xs[k] <= m
    ensures m == Max(xs)
  {
  }

  /** The head of an ascending sequence is at most any of its values. */
  lemma HeadIsLeast(a: seq<int>, x: int)
    requires Sorted(a) && x in multiset(a)
    ensures |a| > 0 && a[0] <= x
  {
    assert x in a;
    var i :| 0 <= i < |a| && a[i] == x;
  }

  /** Two ascending arrangements of the same multiset are the same sequence. */
  lemma {:induction false} SortedUnique(a: seq<int>, b: seq<int>)
    requires Sorted(a) && Sorted(b)
    requires multiset(a) == multiset(b)
    ensures a == b
  {
    if a != [] {
      assert a[0] in multiset(a);
      HeadIsLeast(b, a[0]);
      assert b[0] in multiset(b);
      HeadIsLeast(a, b[0]);
      assert a[0] == b[0];
      assert a == [a[0]] + a[1..];
      assert b == [b[0]] + b[1..];
      assert multiset(a) == multiset{a[0]} + multiset(a[1..]);
      assert multiset(b) == multiset{b[0]} + multiset(b[1..]);
      assert multiset(a[1..]) == multiset(a) - multiset{a[0]};
      assert multiset(b[1..]) == multiset(b) - multiset{b[0]};
      SortedUnique(a[1..], b[1..]);
    } else {
      assert |b| == |multiset(b)| == 0;
    }
  }

  /** The label depends only on the multiset of values: the roll is sorted first. */
  lemma HandDependsOnlyOnMultiset(g1: seq<int>, g2: seq<int>)
    requires |g1| > 0 && |g2| > 0
    requires multiset(g1) == multiset(g2)
    ensures Hand(g1) == Hand(g2)
  {
    SortedUnique(SortedOf(g1), SortedOf(g2));
  }

  /** The values above `low` that appear from position j on. */
  function Above(s: seq<int>, j: nat, low: int): set<int>
    requires j <= |s|
  {
    set k | j <= k < |s| && s[k] > low :: s[k]
  }

  lemma SubsetCard(a: set<int>, b: set<int>)
    requires a <= b
    ensures |a| <= |b|
  {
    assert b == a + (b - a);
  }

  /** Every counted step reaches a new, larger value of the roll. */
  lemma {:induction false} StepsBound(s: seq<int>, j: nat, low: int)
    requires j <= |s|
    ensures Steps(s, j, low) <= |Above(s, j, low)|
    decreases |s| - j
  {
    if j < |s| {
      StepsBound(s, j + 1, if s[j] == low + 1 then s[j] else low);
      if s[j] == low {
        SubsetCard(Above(s, j + 1, low), Above(s, j, low));
      } else if s[j] == low + 1 {
        assert Above(s, j + 1, s[j]) <= Above(s, j, low) - {s[j]};
        assert s[j] in Above(s, j, low);
        SubsetCard(Above(s, j + 1, s[j]), Above(s, j, low) - {s[j]});
      }
    }
  }

  /** A run from any position is shorter than the number of distinct values. */
  lemma RunBound(s: seq<int>, i: nat)
    requires i < |s|
    ensures Steps(s, i, s[i]) <= CountUnique(s) - 1
  {
    StepsBound(s, i, s[i]);
    assert Above(s, i, s[i]) <= Distinct(s) - {s[i]};
    SubsetCard(Above(s, i, s[i]), Distinct(s) - {s[i]});
  }

  lemma MaxSequenceBound(s: seq<int>)
    requires |s| > 0
    ensures MaxSequence(s) <= CountUnique(s) - 1
  {
    var k :| 0 <= k < |s| && Runs(s)[k] == MaxSequence(s);
    RunBound(s, k);
  }

  /** The two straight branches of the ladder are never taken. */
  lemma StraightsUnreachable(game: seq<int>)
    requires |game| > 0
    ensures Hand(game) != LargeStraight && Hand(game) != SmallStraight
  {
    MaxSequenceBound(SortedOf(game));
  }

  lemma {:induction false} DistinctBound(s: seq<int>)
    ensures CountUnique(s) <= |s|
    ensures |s| > 0 ==> CountUnique(s) >= 1
  {
    if s != [] {
      DistinctBound(s[1..]);
      assert Distinct(s) == Distinct(s[1..]) + {s[0]};
    }
  }

  lemma {:induction false} MultiplicityBound(s: seq<int>, x: int)
    ensures multiset(s)[x] <= |s|
  {
    if s != [] {
      assert s == [s[0]] + s[1..];
      MultiplicityBound(s[1..], x);
    }
  }

  /** The bounds the driver's roll of five dice satisfies. */
  lemma RollBounds(s: seq<int>)
    requires |s| > 0
    ensures 1 <= MaxRepeat(s) <= |s|
    ensures 1 <= CountUnique(s) <= |s|
  {
    DistinctBound(s);
    var k :| 0 <= k < |s| && Multiplicities(s)[k] == MaxRepeat(s);
    MultiplicityBound(s, s[k]);
    assert s[k] in multiset(s);
  }

  /** The counts, in the roll `s`, of the values listed in `vs`. */
  function CountSum(s: seq<int>, vs: seq<int>): nat
    decreases |vs|
  {
    if vs == [] then 0 else multiset(s)[vs[0]] + CountSum(s, vs[1..])
  }

  predicate NoDuplicates(vs: seq<int>) {
    forall i, j :: 0 <= i < j < |vs| ==> vs[i] != vs[j]
  }

  lemma {:induction false} CountSumEmpty(vs: seq<int>)
    ensures CountSum([], vs) == 0
    decreases |vs|
  {
    if vs != [] {
      CountSumEmpty(vs[1..]);
    }
  }

  /** One more die adds one to the sum over a list that names its value once. */
  lemma {:induction false} CountSumSnoc(s: seq<int>, x: int, vs: seq<int>)
    requires NoDuplicates(vs)
    ensures CountSum(s + [x], vs) == CountSum(s, vs) + (if x in vs then 1 else 0)
    decreases |vs|
  {
    if vs != [] {
      assert multiset(s + [x]) == multiset(s) + multiset{x};
      assert NoDuplicates(vs[1..]) by {
        forall i, j | 0 <= i < j < |vs[1..]| ensures vs[1..][i] != vs[1..][j] {
          assert vs[1..][i] == vs[i + 1] && vs[1..][j] == vs[j + 1];
        }
      }
      CountSumSnoc(s, x, vs[1..]);
      assert x in vs <==> x == vs[0] || x in vs[1..] by {
        assert vs == [vs[0]] + vs[1..];
      }
      if x == vs[0] {
        assert x !in vs[1..] by {
          forall k | 0 <= k < |vs[1..]| ensures vs[1..][k] != x {
            assert vs[1..][k] == vs[k + 1];
          }
        }
      }
    }
  }

  /** The repeat counts add up to the number of dice: summed over any list naming every
      value of the roll exactly once, the counts give |s|. */
  lemma {:induction false} RepeatsSumToRoll(s: seq<int>, vs: seq<int>)
    requires NoDuplicates(vs)
    requires forall k :: 0 <= k < |s| ==> s[k] in vs
    ensures CountSum(s, vs) == |s|
    decreases |s|
  {
    if s == [] {
      CountSumEmpty(vs);
    } else {
      var init := s[..|s| - 1];
      var x := s[|s| - 1];
      assert s == init + [x];
      assert forall k :: 0 <= k < |init| ==> init[k] == s[k];
      RepeatsSumToRoll(init, vs);
      CountSumSnoc(init, x, vs);
    }
  }

  /** The counts of a map, over a list of its keys. */
  function SumValues(m: map<int, nat>, ks: seq<int>): nat
    requires forall k :: 0 <= k < |ks| ==> ks[k] in m
    decreases |ks|
  {
    if ks == [] then 0 else m[ks[0]] + SumValues(m, ks[1..])
  }

  lemma {:induction false} SumValuesIsCountSum(s: seq<int>, m: map<int, nat>, ks: seq<int>)
    requires forall k :: 0 <= k < |ks| ==> ks[k] in m
    requires forall x :: x in m ==> m[x] == multiset(s)[x]
    ensures SumValues(m, ks) == CountSum(s, ks)
    decreases |ks|
  {
    if ks != [] {
      SumValuesIsCountSum(s, m, ks[1..]);
    }
  }

  /** What array_count_values returns: its counts, summed over its keys listed once each,
      give the number of dice (five for the source's roll). */
  lemma RepeatCountsSum(game: seq<int>, repeats: map<int, nat>, keys: seq<int>)
    requires forall k :: 0 <= k < |game| ==> game[k] in repeats
    requires forall x :: x in repeats ==> repeats[x] == multiset(game)[x]
    requires NoDuplicates(keys)
    requires forall x :: x in repeats <==> x in keys
    ensures forall k :: 0 <= k < |keys| ==> keys[k] in repeats
    ensures SumValues(repeats, keys) == |game|
  {
    forall k | 0 <= k < |keys| ensures keys[k] in repeats {
      var y := keys[k];
      assert y in keys;
      assert y in repeats;
    }
    forall k | 0 <= k < |game| ensures game[k] in keys {
      var y := game[k];
      assert y in repeats;
      assert y in keys;
    }
    SumValuesIsCountSum(game, repeats, keys);
    RepeatsSumToRoll(game, keys);
  }

  /** The ladder once the straights are known to be out of reach. */
  lemma ClassifyWithoutStraights(r: nat, u: nat, q: nat)
    requires 1 <= r <= 5 && 1 <= u && q <= u - 1
    ensures var c := Classify(r, u, q);
      && (c == Poker <==> r == 5)
      && (c == FourOfAKind <==> r == 4)
      && (c == FullHouse <==> r == 3 && u == 2)
      && (c == ThreeOfAKind <==> r == 3 && u != 2)
      && (c == TwoPairs <==> r == 2 && u == 3)
      && (c == Pair <==> r == 2 && u != 3)
      && (c == Chance <==> r == 1)
  {
  }

  /** For a roll of five, the label is decided by maxRepeat and countUnique alone. */
  lemma HandByShape(game: seq<int>)
    requires |game| == 5
    ensures var t := SortedOf(game); var r, u := MaxRepeat(t), CountUnique(t);
      && (Hand(game) == Poker <==> r == 5)
      && (Hand(game) == FourOfAKind <==> r == 4)
      && (Hand(game) == FullHouse <==> r == 3 && u == 2)
      && (Hand(game) == ThreeOfAKind <==> r == 3 && u != 2)
      && (Hand(game) == TwoPairs <==> r == 2 && u == 3)
      && (Hand(game) == Pair <==> r == 2 && u != 3)
      && (Hand(game) == Chance <==> r == 1)
  {
    var t := SortedOf(game);
    assert |t| == |multiset(t)| == |multiset(game)| == 5;
    RollBounds(t);
    MaxSequenceBound(t);
    ClassifyWithoutStraights(MaxRepeat(t), CountUnique(t), MaxSequence(t));
  }
}

/**
 * The hand evaluator: classification of exactly five cards into one of ten
 * categories with a single tie-break rank (`highCard`, no kickers), and the
 * choice of the best five-card subset of a larger set of cards.
 */
module PokerLogic {
  import opened Options
  import opened Cards
  import opened Selections

  /** An evaluation: category rank 0..9, its name, and the one tie-break rank. */
  datatype PokerHand = PokerHand(rank: int, name: string, highCard: Rank)

  /** The name that goes with each category rank. */
  function CategoryName(rank: int): string
  {
    if rank == 9 then "Royal Flush"
    else if rank == 8 then "Straight Flush"
    else if rank == 7 then "Four of a Kind"
    else if rank == 6 then "Full House"
    else if rank == 5 then "Flush"
    else if rank == 4 then "Straight"
    else if rank == 3 then "Three of a Kind"
    else if rank == 2 then "Two Pair"
    else if rank == 1 then "One Pair"
    else "High Card"
  }

  /** An evaluation of the given category, named as the category is. */
  function Hand(rank: int, highCard: Rank): (h: PokerHand)
    ensures h.rank == rank && h.name == CategoryName(rank) && h.highCard == highCard
  {
    PokerHand(rank, CategoryName(rank), highCard)
  }

  // ---------------------------------------------------------------- sorting

  predicate SortedAsc(s: seq<int>)
  {
    forall i, j :: 0 <= i < j < |s| ==> s[i] <= s[j]
  }

  /** Insertion into an ascending sequence, before the first element not below x. */
  function Insert(x: int, s: seq<int>): (r: seq<int>)
    ensures |r| == |s| + 1
  {
    if s == [] || x <= s[0] then [x] + s
    else [s[0]] + Insert(x, s[1..])
  }

  /** `sort((a, b) => a - b)` on numbers, as an insertion sort. */
  function SortAscending(s: seq<int>): (r: seq<int>)
    ensures |r| == |s|
  {
    if s == [] then [] else Insert(s[0], SortAscending(s[1..]))
  }

  lemma SortedCons(h: int, t: seq<int>)
    requires SortedAsc(t) && forall k :: 0 <= k < |t| ==> h <= t[k]
    ensures SortedAsc([h] + t)
  {
    forall i, j | 0 <= i < j < |t| + 1 ensures ([h] + t)[i] <= ([h] + t)[j] {
      assert ([h] + t)[j] == t[j - 1];
      if i > 0 {
        assert ([h] + t)[i] == t[i - 1];
      }
    }
  }

  /** Insertion adds exactly x, and keeps an ascending sequence ascending. */
  lemma InsertCorrect(x: int, s: seq<int>)
    ensures multiset(Insert(x, s)) == multiset{x} + multiset(s)
    ensures SortedAsc(s) ==> SortedAsc(Insert(x, s))
  {
    InsertMultiset(x, s);
    if SortedAsc(s) {
      InsertSorted(x, s);
    }
  }

  lemma {:induction false} InsertMultiset(x: int, s: seq<int>)
    ensures multiset(Insert(x, s)) == multiset{x} + multiset(s)
    decreases |s|
  {
    if s != [] && x > s[0] {
      InsertMultiset(x, s[1..]);
      assert s == [s[0]] + s[1..];
    }
  }

  lemma {:induction false} InsertSorted(x: int, s: seq<int>)
    requires SortedAsc(s)
    ensures SortedAsc(Insert(x, s))
    decreases |s|
  {
    if s == [] || x <= s[0] {
      SortedCons(x, s);
    } else {
      SortedTail(s);
      InsertSorted(x, s[1..]);
      InsertLowerBound(x, s[1..], s[0]);
      SortedCons(s[0], Insert(x, s[1..]));
    }
  }

  /** A lower bound of x and of every element bounds every element after the insertion. */
  lemma {:induction false} InsertLowerBound(x: int, s: seq<int>, lo: int)
    requires lo <= x && forall k :: 0 <= k < |s| ==> lo <= s[k]
    ensures forall k :: 0 <= k < |Insert(x, s)| ==> lo <= Insert(x, s)[k]
    decreases |s|
  {
    if s != [] && x > s[0] {
      InsertLowerBound(x, s[1..], lo);
      assert forall k :: 1 <= k < |Insert(x, s)| ==> Insert(x, s)[k] == Insert(x, s[1..])[k - 1];
    }
  }

  /** The sort returns the same numbers, in ascending order. */
  lemma {:induction false} SortAscendingCorrect(s: seq<int>)
    ensures multiset(SortAscending(s)) == multiset(s)
    ensures SortedAsc(SortAscending(s))
  {
    if s != [] {
      SortAscendingCorrect(s[1..]);
      InsertCorrect(s[0], SortAscending(s[1..]));
      assert s == [s[0]] + s[1..];
    }
  }

  function Reverse<T>(s: seq<T>): (r: seq<T>)
    ensures |r| == |s| && forall i :: 0 <= i < |s| ==> r[i] == s[|s| - 1 - i]
  {
    seq(|s|, i requires 0 <= i < |s| => s[|s| - 1 - i])
  }

  lemma HeadIsLeast(a: seq<int>, x: int)
    requires SortedAsc(a) && x in multiset(a)
    ensures a[0] <= x
  {
    assert x in a;
  }

  lemma SortedTail(a: seq<int>)
    requires SortedAsc(a) && a != []
    ensures SortedAsc(a[1..])
  {
    forall i, j | 0 <= i < j < |a| - 1 ensures a[1..][i] <= a[1..][j] {
      assert a[1..][i] == a[i + 1] && a[1..][j] == a[j + 1];
    }
  }

  lemma TailMultiset(a: seq<int>, b: seq<int>)
    requires a != [] && b != [] && a[0] == b[0] && multiset(a) == multiset(b)
    ensures multiset(a[1..]) == multiset(b[1..])
  {
    assert a == [a[0]] + a[1..] && b == [b[0]] + b[1..];
    assert multiset(a) == multiset{a[0]} + multiset(a[1..]);
    assert multiset(b) == multiset{b[0]} + multiset(b[1..]);
    assert multiset(a[1..]) == multiset(a) - multiset{a[0]};
    assert multiset(b[1..]) == multiset(b) - multiset{b[0]};
  }

  /** Two ascending sequences with the same elements are equal. */
  lemma {:induction false} SortedUnique(a: seq<int>, b: seq<int>)
    requires SortedAsc(a) && SortedAsc(b) && multiset(a) == multiset(b)
    ensures a == b
    decreases |a|
  {
    assert |a| == |multiset(a)| == |b|;
    if a != [] {
      HeadIsLeast(a, b[0]);
      HeadIsLeast(b, a[0]);
      TailMultiset(a, b);
      SortedTail(a);
      SortedTail(b);
      SortedUnique(a[1..], b[1..]);
      assert a == [a[0]] + a[1..] && b == [b[0]] + b[1..];
    }
  }

  // ---------------------------------------------------------- card values

  /** `cards.map(card => getRankValue(card.rank))`, in card order. */
  function Values(cards: seq<Card>): (v: seq<int>)
    ensures |v| == |cards| && forall i :: 0 <= i < |cards| ==> v[i] == RankValue(cards[i].rank)
  {
    seq(|cards|, i requires 0 <= i < |cards| => RankValue(cards[i].rank))
  }

  /** The `values` of the source: the card values sorted ascending. */
  function SortedValues(cards: seq<Card>): seq<int>
  {
    SortAscending(Values(cards))
  }

  /** Each sorted value is the value of some card. */
  lemma SortedValueOccurs(cards: seq<Card>, k: nat)
    requires k < |cards|
    ensures exists i :: 0 <= i < |cards| && RankValue(cards[i].rank) == SortedValues(cards)[k]
  {
    var v := SortedValues(cards);
    SortAscendingCorrect(Values(cards));
    assert v[k] in multiset(v);
    assert v[k] in Values(cards);
  }

  /** `cards.find(card => getRankValue(card.rank) === v)!.rank` */
  function FirstRankWithValue(cards: seq<Card>, v: int): (r: Rank)
    requires exists i :: 0 <= i < |cards| && RankValue(cards[i].rank) == v
    ensures RankValue(r) == v
  {
    if RankValue(cards[0].rank) == v then cards[0].rank
    else
      assert exists i :: 0 <= i < |cards[1..]| && RankValue(cards[1..][i].rank) == v by {
        var i :| 0 <= i < |cards| && RankValue(cards[i].rank) == v;
        assert i > 0 && cards[1..][i - 1] == cards[i];
      }
      FirstRankWithValue(cards[1..], v)
  }

  /** `new Set(cards.map(card => card.suit)).size === 1` */
  predicate IsFlush(cards: seq<Card>)
  {
    |set c | c in cards :: c.suit| == 1
  }

  /**
   * The straight test of the source on the sorted values: five distinct
   * values spanning exactly four, or the wheel 2-3-4-5-A, whose high card
   * is the five. None when the cards are no straight.
   */
  function StraightHigh(cards: seq<Card>): (h: Option<Rank>)
    requires |cards| == 5
  {
    var v := SortedValues(cards);
    if v[4] - v[0] == 4 && |set x | x in v| == 5 then
      SortedValueOccurs(cards, 4);
      Some(FirstRankWithValue(cards, v[4]))
    else if v[0] == 2 && v[1] == 3 && v[2] == 4 && v[3] == 5 && v[4] == 14 then
      Some(Five)
    else
      None
  }

  /**
   * `cards.reduce((max, card) => value(card) > value(max) ? card : max, best)`:
   * the first card of greatest value.
   */
  function ReduceMax(best: Card, rest: seq<Card>): (m: Card)
    ensures m == best || m in rest
    ensures RankValue(best.rank) <= RankValue(m.rank)
    ensures forall c :: c in rest ==> RankValue(c.rank) <= RankValue(m.rank)
    decreases |rest|
  {
    if rest == [] then best
    else
      var next := if RankValue(rest[0].rank) > RankValue(best.rank) then rest[0] else best;
      assert forall c :: c in rest ==> c == rest[0] || c in rest[1..];
      ReduceMax(next, rest[1..])
  }

  /** The rank of the highest card, as the flush and high-card cases take it. */
  function HighestRank(cards: seq<Card>): (r: Rank)
    requires cards != []
    ensures exists c :: c in cards && c.rank == r
    ensures forall c :: c in cards ==> RankValue(c.rank) <= RankValue(r)
  {
    ReduceMax(cards[0], cards).rank
  }

  // ------------------------------------------------------ rank frequencies

  /** How many of the cards have rank r. */
  function CountOf(cards: seq<Card>, r: Rank): nat
  {
    if cards == [] then 0
    else CountOf(cards[..|cards| - 1], r) + (if cards[|cards| - 1].rank == r then 1 else 0)
  }

  /** An entry of the frequency map. */
  datatype Entry = Entry(rank: Rank, count: nat)

  /**
   * `freq.set(rank, (freq.get(rank) || 0) + 1)` on a map that keeps
   * insertion order: bump an existing key in place, or append a new key.
   */
  function Bump(entries: seq<Entry>, r: Rank): (e: seq<Entry>)
    ensures |e| == |entries| || |e| == |entries| + 1
  {
    if entries == [] then [Entry(r, 1)]
    else if entries[0].rank == r then [Entry(r, entries[0].count + 1)] + entries[1..]
    else [entries[0]] + Bump(entries[1..], r)
  }

  /** The frequency map that the loop over the cards builds. */
  function Freq(cards: seq<Card>): (e: seq<Entry>)
    ensures cards != [] ==> e != []
  {
    if cards == [] then [] else Bump(Freq(cards[..|cards| - 1]), cards[|cards| - 1].rank)
  }

  /** The keys of the frequency map. */
  function Keys(e: seq<Entry>): set<Rank>
  {
    if e == [] then {} else {e[0].rank} + Keys(e[1..])
  }

  /** `freq.get(q) || 0`: the count stored for q, 0 when q is no key. */
  function Count(e: seq<Entry>, q: Rank): nat
  {
    if e == [] then 0
    else if e[0].rank == q then e[0].count
    else Count(e[1..], q)
  }

  /** No key occurs twice, and every stored count is positive. */
  predicate WellFormed(e: seq<Entry>)
  {
    if e == [] then true else e[0].rank !in Keys(e[1..]) && e[0].count >= 1 && WellFormed(e[1..])
  }

  lemma {:induction false} BumpKeys(e: seq<Entry>, r: Rank)
    ensures Keys(Bump(e, r)) == Keys(e) + {r}
    ensures WellFormed(e) ==> WellFormed(Bump(e, r))
    ensures forall q :: Count(Bump(e, r), q) == Count(e, q) + (if q == r then 1 else 0)
    decreases |e|
  {
    if e != [] {
      BumpKeys(e[1..], r);
      if e[0].rank == r {
        assert Bump(e, r)[1..] == e[1..];
        assert (Count(e, r) == e[0].count) && Count(Bump(e, r), r) == e[0].count + 1;
        if WellFormed(e) {
          assert WellFormed(Bump(e, r)[1..]);
        }
      } else {
        assert Bump(e, r)[1..] == Bump(e[1..], r);
      }
    } else {
      assert Bump(e, r)[1..] == [];
    }
  }

  /**
   * The frequency map is the rank count of the cards: it stores each rank
   * once, a rank is a key exactly when it occurs, and its count is the
   * number of cards of that rank.
   */
  lemma {:induction false} FreqCorrect(cards: seq<Card>)
    ensures WellFormed(Freq(cards))
    ensures forall q :: q in Keys(Freq(cards)) <==> CountOf(cards, q) >= 1
    ensures forall q :: Count(Freq(cards), q) == CountOf(cards, q)
  {
    if cards != [] {
      FreqCorrect(cards[..|cards| - 1]);
      BumpKeys(Freq(cards[..|cards| - 1]), cards[|cards| - 1].rank);
    }
  }

  /** In a well-formed map, the count stored at position i is the count of its key. */
  lemma {:induction false} CountAt(e: seq<Entry>, i: nat)
    requires i < |e| && WellFormed(e)
    ensures Count(e, e[i].rank) == e[i].count >= 1
    ensures e[i].rank in Keys(e)
    decreases |e|
  {
    if i > 0 {
      CountAt(e[1..], i - 1);
      assert e[1..][i - 1] == e[i];
    }
  }

  /** `Array.from(freq.values())`: the stored counts in key order. */
  function CountsOf(e: seq<Entry>): (cs: seq<int>)
    ensures |cs| == |e| && forall i :: 0 <= i < |e| ==> cs[i] == e[i].count
  {
    seq(|e|, i requires 0 <= i < |e| => e[i].count as int)
  }

  /** `Array.from(freq.values()).sort((a, b) => b - a)`: the counts, largest first. */
  function CountList(cards: seq<Card>): (cl: seq<int>)
    ensures |cl| == |Freq(cards)|
    ensures multiset(cl) == multiset(CountsOf(Freq(cards)))
    ensures forall i, j :: 0 <= i < j < |cl| ==> cl[i] >= cl[j]
  {
    var sorted := SortAscending(CountsOf(Freq(cards)));
    SortAscendingCorrect(CountsOf(Freq(cards)));
    ReverseMultiset(sorted);
    Reverse(sorted)
  }

  /** Reversing only reorders. */
  lemma {:induction false} ReverseMultiset(s: seq<int>)
    ensures multiset(Reverse(s)) == multiset(s)
    decreases |s|
  {
    if s != [] {
      var init := s[..|s| - 1];
      ReverseMultiset(init);
      assert Reverse(s) == [s[|s| - 1]] + Reverse(init);
      assert s == init + [s[|s| - 1]];
    }
  }

  /** Each entry of the count list is the count of some key. */
  lemma CountListOccurs(cards: seq<Card>, k: nat)
    requires k < |CountList(cards)|
    ensures exists i :: 0 <= i < |Freq(cards)| && Freq(cards)[i].count == CountList(cards)[k]
  {
    var counts := CountsOf(Freq(cards));
    var sorted := SortAscending(counts);
    SortAscendingCorrect(counts);
    assert CountList(cards)[k] == sorted[|sorted| - 1 - k];
    assert sorted[|sorted| - 1 - k] in multiset(sorted);
    assert CountList(cards)[k] in counts;
  }

  /** The largest count is the count of some key. */
  lemma CountListHead(cards: seq<Card>)
    requires cards != []
    ensures |CountList(cards)| >= 1
    ensures exists i :: 0 <= i < |Freq(cards)| && Freq(cards)[i].count == CountList(cards)[0]
  {
    CountListOccurs(cards, 0);
  }

  /** `Array.from(freq.entries()).find(([rank, count]) => count === c)![0]` */
  function FirstWithCount(e: seq<Entry>, c: int): (r: Rank)
    requires exists i :: 0 <= i < |e| && e[i].count == c
    ensures exists i :: 0 <= i < |e| && e[i].count == c && e[i].rank == r
  {
    if e[0].count == c then e[0].rank
    else
      assert exists i :: 0 <= i < |e[1..]| && e[1..][i].count == c by {
        var i :| 0 <= i < |e| && e[i].count == c;
        assert i > 0 && e[1..][i - 1] == e[i];
      }
      var r := FirstWithCount(e[1..], c);
      assert exists i :: 0 <= i < |e| && e[i].count == c && e[i].rank == r by {
        var i :| 0 <= i < |e[1..]| && e[1..][i].count == c && e[1..][i].rank == r;
        assert e[i + 1] == e[1..][i];
      }
      r
  }

  /** The keys whose count is c, in insertion order (`filter`, then `map` to the rank). */
  function RanksWithCount(e: seq<Entry>, c: int): (rs: seq<Rank>)
    ensures forall r :: r in rs <==> exists i :: 0 <= i < |e| && e[i].count == c && e[i].rank == r
  {
    if e == [] then []
    else
      var tail := RanksWithCount(e[1..], c);
      assert forall i :: 1 <= i < |e| ==> e[i] == e[1..][i - 1];
      (if e[0].count == c then [e[0].rank] else []) + tail
  }

  /** The first element of the ranks sorted by descending value: the rank of greatest value. */
  function TopRank(rs: seq<Rank>): (r: Rank)
    requires rs != []
    ensures r in rs && forall q :: q in rs ==> RankValue(q) <= RankValue(r)
  {
    if |rs| == 1 then rs[0]
    else
      var t := TopRank(rs[1..]);
      assert forall q :: q in rs ==> q == rs[0] || q in rs[1..];
      if RankValue(rs[0]) >= RankValue(t) then rs[0] else t
  }

  // -------------------------------------------------------------- evaluation

  /** The cascade of evaluateFiveCards once flushes and straights are ruled out. */
  function ByCounts(cards: seq<Card>): (h: PokerHand)
    requires cards != []
    ensures h.name == CategoryName(h.rank)
    ensures h.rank == 0 || h.rank == 1 || h.rank == 2 || h.rank == 3 || h.rank == 6 || h.rank == 7
  {
    var freq := Freq(cards);
    var cl := CountList(cards);
    CountListHead(cards);
    if cl[0] == 4 then Hand(7, FirstWithCount(freq, 4))
    else if cl[0] == 3 && |cl| > 1 && cl[1] == 2 then Hand(6, FirstWithCount(freq, 3))
    else if cl[0] == 3 then Hand(3, FirstWithCount(freq, 3))
    else if cl[0] == 2 && |cl| > 1 && cl[1] == 2 then
      var pairs := RanksWithCount(freq, 2);
      assert pairs != [] by {
        var i :| 0 <= i < |freq| && freq[i].count == 2;
        assert freq[i].rank in pairs;
      }
      Hand(2, TopRank(pairs))
    else if cl[0] == 2 then Hand(1, FirstWithCount(freq, 2))
    else Hand(0, HighestRank(cards))
  }

  /** evaluateFiveCards */
  function EvaluateFiveCards(cards: seq<Card>): (h: PokerHand)
    requires |cards| == 5
    ensures 0 <= h.rank <= 9 && h.name == CategoryName(h.rank)
  {
    var flush := IsFlush(cards);
    var straight := StraightHigh(cards);
    if flush && straight.Some? then
      if straight.value == Ace && SortedValues(cards)[0] == 10 then Hand(9, Ace)
      else Hand(8, straight.value)
    else if flush then Hand(5, HighestRank(cards))
    else if straight.Some? then Hand(4, straight.value)
    else ByCounts(cards)
  }

  /** The imperative counting loop of evaluateFiveCards, which builds Freq. */
  method CountRanks(cards: seq<Card>) returns (freq: seq<Entry>)
    ensures freq == Freq(cards)
  {
    freq := [];
    for i := 0 to |cards|
      invariant freq == Freq(cards[..i])
    {
      assert cards[..i + 1][..i] == cards[..i];
      freq := Bump(freq, cards[i].rank);
    }
    assert cards[..|cards|] == cards;
  }

  // ------------------------------------------------ properties of the evaluator

  lemma SortedValuesFacts(cards: seq<Card>)
    ensures |SortedValues(cards)| == |cards| && SortedAsc(SortedValues(cards))
    ensures multiset(SortedValues(cards)) == multiset(Values(cards))
  {
    SortAscendingCorrect(Values(cards));
  }

  lemma DistinctSorted5(v: seq<int>)
    requires |v| == 5 && SortedAsc(v)
    ensures |set x | x in v| == 5 <==> v[0] < v[1] < v[2] < v[3] < v[4]
  {
    var s := set x | x in v;
    assert s == {v[0], v[1], v[2], v[3], v[4]};
    assert v[0] <= v[1] <= v[2] <= v[3] <= v[4];
    if v[0] < v[1] < v[2] < v[3] < v[4] {
      assert |{v[0], v[1], v[2], v[3], v[4]}| == 5;
    } else if v[0] == v[1] {
      assert s == {v[1], v[2], v[3], v[4]};
    } else if v[1] == v[2] {
      assert s == {v[0], v[2], v[3], v[4]};
    } else if v[2] == v[3] {
      assert s == {v[0], v[1], v[3], v[4]};
    } else {
      assert s == {v[0], v[1], v[2], v[3]};
    }
  }

  /** Five consecutive values starting at lo. */
  function Run(lo: int): (r: seq<int>)
    ensures |r| == 5 && SortedAsc(r)
  {
    [lo, lo + 1, lo + 2, lo + 3, lo + 4]
  }

  /** The values of the ace-low straight A-2-3-4-5, ace counted as 14. */
  const Wheel: seq<int> := [2, 3, 4, 5, 14]

  /** Independent description of a straight: five consecutive values, or the wheel. */
  ghost predicate StraightValues(cards: seq<Card>)
  {
    (exists lo :: multiset(Values(cards)) == multiset(Run(lo))) || multiset(Values(cards)) == multiset(Wheel)
  }

  lemma StraightSound(cards: seq<Card>)
    requires |cards| == 5 && StraightHigh(cards).Some?
    ensures StraightValues(cards)
  {
    var v := SortedValues(cards);
    SortedValuesFacts(cards);
    if v[4] - v[0] == 4 && |set x | x in v| == 5 {
      DistinctSorted5(v);
      assert v == Run(v[0]);
    } else {
      assert v == Wheel;
    }
  }

  lemma StraightOfRun(cards: seq<Card>, lo: int)
    requires |cards| == 5 && multiset(Values(cards)) == multiset(Run(lo))
    ensures StraightHigh(cards).Some? && RankValue(StraightHigh(cards).value) == lo + 4
  {
    var v := SortedValues(cards);
    SortedValuesFacts(cards);
    SortedUnique(v, Run(lo));
    DistinctSorted5(v);
  }

  lemma StraightOfWheel(cards: seq<Card>)
    requires |cards| == 5 && multiset(Values(cards)) == multiset(Wheel)
    ensures StraightHigh(cards) == Some(Five)
  {
    var v := SortedValues(cards);
    SortedValuesFacts(cards);
    WheelSorted();
    SortedUnique(v, Wheel);
    assert v[4] - v[0] == 12;
  }

  lemma WheelSorted()
    ensures SortedAsc(Wheel)
  {
  }

  /**
   * Five cards are a straight exactly when their values are five consecutive
   * numbers or the wheel; the straight's high card is the top of the run,
   * and the five (not the ace) for the wheel.
   */
  lemma StraightIff(cards: seq<Card>)
    requires |cards| == 5
    ensures StraightHigh(cards).Some? <==> StraightValues(cards)
    ensures forall lo :: multiset(Values(cards)) == multiset(Run(lo)) ==>
              StraightHigh(cards).Some? && RankValue(StraightHigh(cards).value) == lo + 4
    ensures multiset(Values(cards)) == multiset(Wheel) ==> StraightHigh(cards) == Some(Five)
  {
    if StraightHigh(cards).Some? {
      StraightSound(cards);
    }
    forall lo | multiset(Values(cards)) == multiset(Run(lo))
      ensures StraightHigh(cards).Some? && RankValue(StraightHigh(cards).value) == lo + 4
    {
      StraightOfRun(cards, lo);
    }
    if multiset(Values(cards)) == multiset(Wheel) {
      StraightOfWheel(cards);
    }
  }

  /**
   * Royal flush exactly for a flush whose straight is ace-high; the test
   * `values[0] === 10` adds nothing, since an ace-high run starts at ten.
   */
  lemma RoyalFlushIff(cards: seq<Card>)
    requires |cards| == 5
    ensures EvaluateFiveCards(cards).rank == 9 <==> IsFlush(cards) && StraightHigh(cards) == Some(Ace)
    ensures EvaluateFiveCards(cards).rank == 9 ==> EvaluateFiveCards(cards).highCard == Ace
  {
    var v := SortedValues(cards);
    SortedValuesFacts(cards);
    if StraightHigh(cards) == Some(Ace) {
      assert v[4] - v[0] == 4 && RankValue(Ace) == v[4];
    }
  }

  /** Any other straight flush is rank 8 with the straight's high card; the wheel gives the five. */
  lemma StraightFlushHigh(cards: seq<Card>)
    requires |cards| == 5 && IsFlush(cards) && StraightHigh(cards).Some? && StraightHigh(cards) != Some(Ace)
    ensures EvaluateFiveCards(cards) == PokerHand(8, "Straight Flush", StraightHigh(cards).value)
    ensures multiset(Values(cards)) == multiset(Wheel) ==> EvaluateFiveCards(cards).highCard == Five
  {
    StraightIff(cards);
  }

  /** A straight with mixed suits is rank 4 under its high card. */
  lemma StraightOnly(cards: seq<Card>)
    requires |cards| == 5 && !IsFlush(cards) && StraightHigh(cards).Some?
    ensures EvaluateFiveCards(cards) == PokerHand(4, "Straight", StraightHigh(cards).value)
  {
  }

  /** The rank a key with count c stores is one with exactly c cards. */
  lemma FirstWithCountOccurs(cards: seq<Card>, c: int)
    requires exists i :: 0 <= i < |Freq(cards)| && Freq(cards)[i].count == c
    ensures CountOf(cards, FirstWithCount(Freq(cards), c)) == c
  {
    var e := Freq(cards);
    var r := FirstWithCount(e, c);
    var i :| 0 <= i < |e| && e[i].count == c && e[i].rank == r;
    FreqCorrect(cards);
    CountAt(e, i);
  }

  /** The tie-break ranks of the categories decided by rank counts. */
  lemma ByCountsHighCard(cards: seq<Card>)
    requires cards != []
    ensures var h := ByCounts(cards);
      (h.rank == 7 ==> CountOf(cards, h.highCard) == 4) &&
      (h.rank == 6 || h.rank == 3 ==> CountOf(cards, h.highCard) == 3) &&
      (h.rank == 2 ==> CountOf(cards, h.highCard) == 2 &&
                       forall r :: CountOf(cards, r) == 2 ==> RankValue(r) <= RankValue(h.highCard)) &&
      (h.rank == 1 ==> CountOf(cards, h.highCard) == 2) &&
      (h.rank == 0 ==> h.highCard == HighestRank(cards))
  {
    var h := ByCounts(cards);
    var freq := Freq(cards);
    var cl := CountList(cards);
    CountListHead(cards);
    ByCountsBranches(cards);
    if h.rank == 7 {
      assert h.highCard == FirstWithCount(freq, 4);
      FirstWithCountOccurs(cards, 4);
    } else if h.rank == 6 || h.rank == 3 {
      assert h.highCard == FirstWithCount(freq, 3);
      FirstWithCountOccurs(cards, 3);
    } else if h.rank == 1 {
      assert h.highCard == FirstWithCount(freq, 2);
      FirstWithCountOccurs(cards, 2);
    } else if h.rank == 2 {
      var i :| 0 <= i < |freq| && freq[i].count == cl[0];
      assert freq[i].rank in RanksWithCount(freq, 2);
      assert h.highCard == TopRank(RanksWithCount(freq, 2));
      TopPair(cards);
    } else {
      assert h == Hand(0, HighestRank(cards));
    }
  }

  /**
   * The tie-break rank of each category: the rank of the four, of the three
   * (full house and trips), of the higher pair (two pair), of the pair; and
   * the highest rank present for a flush and for a high card.
   */
  lemma HighCardByCategory(cards: seq<Card>)
    requires |cards| == 5
    ensures var h := EvaluateFiveCards(cards);
      (h.rank == 7 ==> CountOf(cards, h.highCard) == 4) &&
      (h.rank == 6 || h.rank == 3 ==> CountOf(cards, h.highCard) == 3) &&
      (h.rank == 2 ==> CountOf(cards, h.highCard) == 2 &&
                       forall r :: CountOf(cards, r) == 2 ==> RankValue(r) <= RankValue(h.highCard)) &&
      (h.rank == 1 ==> CountOf(cards, h.highCard) == 2) &&
      (h.rank == 5 || h.rank == 0 ==> (exists c :: c in cards && c.rank == h.highCard) &&
                                      forall c :: c in cards ==> RankValue(c.rank) <= RankValue(h.highCard))
  {
    var h := EvaluateFiveCards(cards);
    if IsFlush(cards) && StraightHigh(cards).Some? {
      assert h.rank == 9 || h.rank == 8;
    } else if IsFlush(cards) {
      assert h == Hand(5, HighestRank(cards));
    } else if StraightHigh(cards).Some? {
      assert h.rank == 4;
    } else {
      assert h == ByCounts(cards);
      ByCountsHighCard(cards);
    }
  }

  /** The higher pair of two: a rank with two cards, and no rank with two cards is higher. */
  lemma TopPair(cards: seq<Card>)
    requires RanksWithCount(Freq(cards), 2) != []
    ensures var top := TopRank(RanksWithCount(Freq(cards), 2));
      CountOf(cards, top) == 2 && forall r :: CountOf(cards, r) == 2 ==> RankValue(r) <= RankValue(top)
  {
    var freq := Freq(cards);
    var pairs := RanksWithCount(freq, 2);
    var top := TopRank(pairs);
    FreqCorrect(cards);
    var i :| 0 <= i < |freq| && freq[i].count == 2 && freq[i].rank == top;
    CountAt(freq, i);
    forall r | CountOf(cards, r) == 2 ensures RankValue(r) <= RankValue(top) {
      var j := KeyIndex(freq, r);
      CountAt(freq, j);
      assert r in pairs;
    }
  }

  /** A key of the map is stored at some position. */
  lemma {:induction false} KeyIndex(e: seq<Entry>, r: Rank) returns (i: nat)
    requires r in Keys(e)
    ensures i < |e| && e[i].rank == r
    decreases |e|
  {
    if e[0].rank == r {
      i := 0;
    } else {
      var j := KeyIndex(e[1..], r);
      i := j + 1;
    }
  }

  // ------------------------------------------- categories decided by counts

  /** Two positions holding x make x occur at least twice. */
  lemma TwoOccurrences(s: seq<int>, i: nat, j: nat)
    requires i < j < |s| && s[i] == s[j]
    ensures multiset(s)[s[i]] >= 2
  {
    assert s == s[..i] + [s[i]] + (s[i + 1..j] + [s[j]] + s[j + 1..]);
  }

  /** A value occurring at least twice sits at two positions. */
  lemma {:induction false} TwoIndices(s: seq<int>, x: int) returns (i: nat, j: nat)
    requires multiset(s)[x] >= 2
    ensures i < j < |s| && s[i] == x && s[j] == x
    decreases |s|
  {
    assert s == [s[0]] + s[1..];
    if s[0] == x {
      assert x in multiset(s[1..]);
      var k :| 0 <= k < |s[1..]| && s[1..][k] == x;
      i, j := 0, k + 1;
    } else {
      var i', j' := TwoIndices(s[1..], x);
      i, j := i' + 1, j' + 1;
    }
  }

  /** A well-formed map stores different ranks at different positions. */
  lemma {:induction false} DistinctKeys(e: seq<Entry>, i: nat, j: nat)
    requires WellFormed(e) && i < j < |e|
    ensures e[i].rank != e[j].rank
    decreases |e|
  {
    CountAt(e[1..], j - 1);
    assert e[1..][j - 1] == e[j];
    if i > 0 {
      DistinctKeys(e[1..], i - 1, j - 1);
      assert e[1..][i - 1] == e[i];
    }
  }

  /** No rank has more cards than there are cards. */
  lemma {:induction false} CountOfBound(cards: seq<Card>, r: Rank)
    ensures CountOf(cards, r) <= |cards|
  {
    if cards != [] {
      CountOfBound(cards[..|cards| - 1], r);
    }
  }

  /** Two different ranks together have at most all the cards. */
  lemma {:induction false} TwoCountsBound(cards: seq<Card>, r: Rank, q: Rank)
    requires r != q
    ensures CountOf(cards, r) + CountOf(cards, q) <= |cards|
  {
    if cards != [] {
      TwoCountsBound(cards[..|cards| - 1], r, q);
    }
  }

  /** Three different ranks together have at most all the cards. */
  lemma {:induction false} ThreeCountsBound(cards: seq<Card>, a: Rank, b: Rank, c: Rank)
    requires a != b && b != c && a != c
    ensures CountOf(cards, a) + CountOf(cards, b) + CountOf(cards, c) <= |cards|
  {
    if cards != [] {
      ThreeCountsBound(cards[..|cards| - 1], a, b, c);
    }
  }

  /** The count of a rank present in the cards is an entry of the count list. */
  lemma CountInList(cards: seq<Card>, r: Rank)
    requires CountOf(cards, r) >= 1
    ensures CountOf(cards, r) in CountList(cards)
  {
    var freq := Freq(cards);
    FreqCorrect(cards);
    var i := KeyIndex(freq, r);
    CountAt(freq, i);
    assert CountsOf(freq)[i] == CountOf(cards, r);
    assert CountOf(cards, r) in multiset(CountsOf(freq));
    assert CountOf(cards, r) in multiset(CountList(cards));
  }

  /** Each entry of the count list is the count of some rank. */
  lemma ListCountIsRankCount(cards: seq<Card>, c: int) returns (r: Rank)
    requires c in CountList(cards)
    ensures CountOf(cards, r) == c >= 1
  {
    var freq := Freq(cards);
    assert c in multiset(CountList(cards));
    assert c in CountsOf(freq);
    var i :| 0 <= i < |CountsOf(freq)| && CountsOf(freq)[i] == c;
    r := freq[i].rank;
    FreqCorrect(cards);
    CountAt(freq, i);
  }

  /** An entry occurring twice in the count list is the count of two different ranks. */
  lemma ListCountTwice(cards: seq<Card>, c: int) returns (r: Rank, q: Rank)
    requires multiset(CountList(cards))[c] >= 2
    ensures r != q && CountOf(cards, r) == c && CountOf(cards, q) == c
  {
    var freq := Freq(cards);
    var i, j := TwoIndices(CountsOf(freq), c);
    FreqCorrect(cards);
    CountAt(freq, i);
    CountAt(freq, j);
    DistinctKeys(freq, i, j);
    r, q := freq[i].rank, freq[j].rank;
  }

  /** Two different ranks with the same count make that count occur twice in the list. */
  lemma RankCountsTwice(cards: seq<Card>, r: Rank, q: Rank)
    requires r != q && CountOf(cards, r) == CountOf(cards, q) >= 1
    ensures multiset(CountList(cards))[CountOf(cards, r)] >= 2
  {
    var freq := Freq(cards);
    FreqCorrect(cards);
    var i := KeyIndex(freq, r);
    var j := KeyIndex(freq, q);
    CountAt(freq, i);
    CountAt(freq, j);
    var s := CountsOf(freq);
    if i < j {
      TwoOccurrences(s, i, j);
    } else {
      TwoOccurrences(s, j, i);
    }
  }

  /**
   * The head of the count list is the largest rank count: every rank has
   * at most that many cards, and the rank returned has exactly that many.
   */
  lemma MaxCount(cards: seq<Card>) returns (p: Rank)
    requires cards != []
    ensures |CountList(cards)| >= 1 && CountList(cards)[0] >= 1
    ensures CountOf(cards, p) == CountList(cards)[0]
    ensures forall r :: CountOf(cards, r) <= CountList(cards)[0]
  {
    var cl := CountList(cards);
    p := ListCountIsRankCount(cards, cl[0]);
    forall r ensures CountOf(cards, r) <= cl[0] {
      if CountOf(cards, r) >= 1 {
        CountInList(cards, r);
      }
    }
  }

  /** A value below the head that is in the list, or the head's value twice, is bounded by the second entry. */
  lemma ListSecond(cl: seq<int>, x: int)
    requires forall i, j :: 0 <= i < j < |cl| ==> cl[i] >= cl[j]
    requires |cl| >= 1 && ((x in cl && x != cl[0]) || multiset(cl)[x] >= 2)
    ensures |cl| > 1 && cl[1] >= x
  {
    if multiset(cl)[x] >= 2 {
      var i, j := TwoIndices(cl, x);
    } else {
      var j :| 0 <= j < |cl| && cl[j] == x;
    }
  }

  /** The branches of the cascade, read off the count list. */
  lemma ByCountsBranches(cards: seq<Card>)
    requires cards != []
    ensures var cl := CountList(cards); var h := ByCounts(cards);
      |cl| >= 1 &&
      (h.rank == 7 <==> cl[0] == 4) &&
      (h.rank == 6 <==> cl[0] == 3 && |cl| > 1 && cl[1] == 2) &&
      (h.rank == 3 <==> cl[0] == 3 && !(|cl| > 1 && cl[1] == 2)) &&
      (h.rank == 2 <==> cl[0] == 2 && |cl| > 1 && cl[1] == 2) &&
      (h.rank == 1 <==> cl[0] == 2 && !(|cl| > 1 && cl[1] == 2)) &&
      (h.rank == 0 <==> cl[0] != 2 && cl[0] != 3 && cl[0] != 4)
  {
    CountListHead(cards);
  }

  /** In five cards, a rank with three cards heads the count list. */
  lemma ThreeHeads(cards: seq<Card>, r: Rank)
    requires |cards| == 5 && CountOf(cards, r) == 3
    ensures CountList(cards)[0] == 3
  {
    var p := MaxCount(cards);
    if p != r {
      TwoCountsBound(cards, p, r);
    }
  }

  /** In five cards, a rank with three and one with two give the list [3, 2]. */
  lemma FullHouseHeads(cards: seq<Card>, r: Rank, q: Rank)
    requires |cards| == 5 && CountOf(cards, r) == 3 && CountOf(cards, q) == 2
    ensures var cl := CountList(cards); cl[0] == 3 && |cl| > 1 && cl[1] == 2
  {
    var cl := CountList(cards);
    ThreeHeads(cards, r);
    CountInList(cards, q);
    ListSecond(cl, 2);
    if cl[1] == 3 {
      TwoOccurrences(cl, 0, 1);
      var a, b := ListCountTwice(cards, 3);
      TwoCountsBound(cards, a, b);
    }
  }

  /** In five cards, two ranks with two cards each give the list [2, 2, ...]. */
  lemma TwoPairHeads(cards: seq<Card>, r: Rank, q: Rank)
    requires |cards| == 5 && r != q && CountOf(cards, r) == 2 && CountOf(cards, q) == 2
    ensures var cl := CountList(cards); cl[0] == 2 && |cl| > 1 && cl[1] == 2
  {
    var cl := CountList(cards);
    var p := MaxCount(cards);
    if cl[0] >= 3 {
      ThreeCountsBound(cards, p, r, q);
    }
    RankCountsTwice(cards, r, q);
    ListSecond(cl, 2);
  }

  /** Four of a kind exactly when some rank has four cards. */
  lemma FourOfAKindIff(cards: seq<Card>)
    requires |cards| == 5
    ensures ByCounts(cards).rank == 7 <==> exists r :: CountOf(cards, r) == 4
  {
    ByCountsBranches(cards);
    var p := MaxCount(cards);
    if r :| CountOf(cards, r) == 4 {
      if p != r {
        TwoCountsBound(cards, p, r);
      }
    }
  }

  /** A full house exactly when one rank has three cards and another two. */
  lemma FullHouseIff(cards: seq<Card>)
    requires |cards| == 5
    ensures ByCounts(cards).rank == 6 <==>
              exists r, q :: r != q && CountOf(cards, r) == 3 && CountOf(cards, q) == 2
  {
    ByCountsBranches(cards);
    var cl := CountList(cards);
    if ByCounts(cards).rank == 6 {
      var p := MaxCount(cards);
      var q := ListCountIsRankCount(cards, cl[1]);
      assert p != q && CountOf(cards, p) == 3 && CountOf(cards, q) == 2;
    }
    if r, q :| r != q && CountOf(cards, r) == 3 && CountOf(cards, q) == 2 {
      FullHouseHeads(cards, r, q);
    }
  }

  /** Three of a kind exactly when some rank has three cards and none has two. */
  lemma ThreeOfAKindIff(cards: seq<Card>)
    requires |cards| == 5
    ensures ByCounts(cards).rank == 3 <==>
              (exists r :: CountOf(cards, r) == 3) && forall q :: CountOf(cards, q) != 2
  {
    ByCountsBranches(cards);
    var cl := CountList(cards);
    if ByCounts(cards).rank == 3 {
      var p := MaxCount(cards);
      forall q ensures CountOf(cards, q) != 2 {
        if CountOf(cards, q) == 2 {
          FullHouseHeads(cards, p, q);
        }
      }
    }
    if r :| CountOf(cards, r) == 3 {
      ThreeHeads(cards, r);
      if |cl| > 1 && cl[1] == 2 {
        var q := ListCountIsRankCount(cards, cl[1]);
      }
    }
  }

  /** Two pair exactly when two different ranks have two cards each. */
  lemma TwoPairIff(cards: seq<Card>)
    requires |cards| == 5
    ensures ByCounts(cards).rank == 2 <==>
              exists r, q :: r != q && CountOf(cards, r) == 2 && CountOf(cards, q) == 2
  {
    ByCountsBranches(cards);
    var cl := CountList(cards);
    if ByCounts(cards).rank == 2 {
      TwoOccurrences(cl, 0, 1);
      var r, q := ListCountTwice(cards, 2);
    }
    if r, q :| r != q && CountOf(cards, r) == 2 && CountOf(cards, q) == 2 {
      TwoPairHeads(cards, r, q);
    }
  }

  /** Rank r is the only rank with more than one card, and it has exactly two. */
  ghost predicate OnlyPair(cards: seq<Card>, r: Rank)
  {
    CountOf(cards, r) == 2 && forall q :: q != r ==> CountOf(cards, q) <= 1
  }

  /** One pair exactly when one rank has two cards and every other rank at most one. */
  lemma OnePairIff(cards: seq<Card>)
    requires |cards| == 5
    ensures ByCounts(cards).rank == 1 <==> exists r :: OnlyPair(cards, r)
  {
    if ByCounts(cards).rank == 1 {
      var p := OnePairRank(cards);
      assert OnlyPair(cards, p);
    } else {
      forall r | OnlyPair(cards, r) ensures false {
        OnePairOfCounts(cards, r);
      }
    }
  }

  /** A one-pair evaluation has a rank with two cards and no other rank with more than one. */
  lemma OnePairRank(cards: seq<Card>) returns (p: Rank)
    requires |cards| == 5 && ByCounts(cards).rank == 1
    ensures CountOf(cards, p) == 2 && forall q :: q != p ==> CountOf(cards, q) <= 1
  {
    ByCountsBranches(cards);
    p := MaxCount(cards);
    forall q | q != p ensures CountOf(cards, q) <= 1 {
      if CountOf(cards, q) == 2 {
        TwoPairHeads(cards, p, q);
      }
    }
  }

  /** A single rank with two cards, every other with at most one, is one pair. */
  lemma OnePairOfCounts(cards: seq<Card>, r: Rank)
    requires |cards| == 5 && CountOf(cards, r) == 2
    requires forall q :: q != r ==> CountOf(cards, q) <= 1
    ensures ByCounts(cards).rank == 1
  {
    ByCountsBranches(cards);
    var cl := CountList(cards);
    var p := MaxCount(cards);
    assert cl[0] == 2;
    if |cl| > 1 && cl[1] == 2 {
      TwoOccurrences(cl, 0, 1);
      var a, b := ListCountTwice(cards, 2);
    }
  }

  /**
   * High card exactly when no rank has two cards, or when all five cards
   * have one rank (possible only with repeated cards: the cascade has no
   * case for a count of five).
   */
  lemma HighCardIff(cards: seq<Card>)
    requires |cards| == 5
    ensures ByCounts(cards).rank == 0 <==>
              (forall r :: CountOf(cards, r) <= 1) || (exists r :: CountOf(cards, r) == 5)
  {
    ByCountsBranches(cards);
    var cl := CountList(cards);
    var p := MaxCount(cards);
    CountOfBound(cards, p);
  }

  /**
   * Which five cards fall in which category: a flush without a straight is
   * a flush and a straight without a flush a straight; with neither, the
   * category is read off the rank counts alone.
   */
  lemma CategoryByCounts(cards: seq<Card>)
    requires |cards| == 5
    ensures var h := EvaluateFiveCards(cards);
      (h.rank == 5 <==> IsFlush(cards) && StraightHigh(cards).None?) &&
      (h.rank == 4 <==> !IsFlush(cards) && StraightHigh(cards).Some?)
    ensures !IsFlush(cards) && StraightHigh(cards).None? ==>
      var h := EvaluateFiveCards(cards);
      (h.rank == 7 <==> exists r :: CountOf(cards, r) == 4) &&
      (h.rank == 6 <==> exists r, q :: r != q && CountOf(cards, r) == 3 && CountOf(cards, q) == 2) &&
      (h.rank == 3 <==> (exists r :: CountOf(cards, r) == 3) && forall q :: CountOf(cards, q) != 2) &&
      (h.rank == 2 <==> exists r, q :: r != q && CountOf(cards, r) == 2 && CountOf(cards, q) == 2) &&
      (h.rank == 1 <==> exists r :: OnlyPair(cards, r)) &&
      (h.rank == 0 <==> (forall r :: CountOf(cards, r) <= 1) || (exists r :: CountOf(cards, r) == 5))
  {
    if !IsFlush(cards) && StraightHigh(cards).None? {
      assert EvaluateFiveCards(cards) == ByCounts(cards);
      FourOfAKindIff(cards);
      FullHouseIff(cards);
      ThreeOfAKindIff(cards);
      TwoPairIff(cards);
      OnePairIff(cards);
      HighCardIff(cards);
    }
  }

  // ------------------------------------------------------- best of a set

  /** The comparison of evaluateHand: greater rank, or equal rank and greater highCard value. */
  predicate Beats(h: PokerHand, b: PokerHand)
  {
    h.rank > b.rank || (h.rank == b.rank && RankValue(h.highCard) > RankValue(b.highCard))
  }

  /** One step of the loop: replace the best so far only on a strict improvement. */
  function Keep(best: Option<PokerHand>, hand: PokerHand): PokerHand
  {
    if best.None? || Beats(hand, best.value) then hand else best.value
  }

  /** The loop of evaluateHand over a list of evaluations; None on an empty list. */
  function BestOf(hands: seq<PokerHand>): Option<PokerHand>
  {
    if hands == [] then None else Some(Keep(BestOf(hands[..|hands| - 1]), hands[|hands| - 1]))
  }

  /** The evaluations of the five-card selections, in enumeration order. */
  function EvaluateAll(combos: seq<seq<Card>>): (hs: seq<PokerHand>)
    requires forall i :: 0 <= i < |combos| ==> |combos[i]| == 5
    ensures |hs| == |combos| && forall i :: 0 <= i < |combos| ==> hs[i] == EvaluateFiveCards(combos[i])
  {
    seq(|combos|, i requires 0 <= i < |combos| && |combos[i]| == 5 => EvaluateFiveCards(combos[i]))
  }

  /** Every five-card selection has five cards, and there is at least one when |cards| >= 5. */
  lemma FiveCardSelections(cards: seq<Card>)
    ensures forall i :: 0 <= i < |Combinations(cards, 5)| ==> |Combinations(cards, 5)[i]| == 5
    ensures |cards| >= 5 ==> |Combinations(cards, 5)| >= 1
  {
    forall i | 0 <= i < |Combinations(cards, 5)| ensures |Combinations(cards, 5)[i]| == 5 {
      CombinationShape(cards, 5, i);
    }
    if |cards| >= 5 {
      CombinationsComplete(cards, 5, cards[..5]) by {
        PrefixIsSubseq(cards, 5);
      }
    }
  }

  lemma {:induction false} PrefixIsSubseq(s: seq<Card>, n: nat)
    requires n <= |s|
    ensures IsSubseq(s[..n], s)
  {
    if n > 0 {
      PrefixIsSubseq(s[1..], n - 1);
      assert s[1..][..n - 1] == s[..n][1..];
    }
  }

  /** evaluateHand on at least five cards, where there is a selection and `bestHand!` is a hand. */
  function EvaluateHand(cards: seq<Card>): PokerHand
    requires |cards| >= 5
  {
    FiveCardSelections(cards);
    BestOf(EvaluateAll(Combinations(cards, 5))).value
  }

  /**
   * The loop keeps the first hand that no other hand beats: it is
   * hands[k], it beats every earlier hand, and no later hand beats it.
   */
  lemma {:induction false} BestOfFirstMaximal(hands: seq<PokerHand>) returns (k: nat)
    requires hands != []
    ensures k < |hands| && BestOf(hands) == Some(hands[k])
    ensures forall j :: 0 <= j < k ==> Beats(hands[k], hands[j])
    ensures forall j :: k <= j < |hands| ==> !Beats(hands[j], hands[k])
  {
    var n := |hands|;
    var init := hands[..n - 1];
    if init == [] {
      k := 0;
    } else {
      var k' := BestOfFirstMaximal(init);
      if Beats(hands[n - 1], init[k']) {
        k := n - 1;
      } else {
        k := k';
      }
    }
  }

  /**
   * evaluateHand returns the evaluation of one of the five-card selections;
   * no selection has a greater (rank, highCard value), and of the selections
   * that tie with it the first enumerated is the one kept.
   */
  lemma EvaluateHandIsBest(cards: seq<Card>) returns (k: nat)
    requires |cards| >= 5
    ensures k < |Combinations(cards, 5)|
    ensures |Combinations(cards, 5)[k]| == 5 && EvaluateHand(cards) == EvaluateFiveCards(Combinations(cards, 5)[k])
    ensures forall c :: c in Combinations(cards, 5) ==>
              |c| == 5 && !Beats(EvaluateFiveCards(c), EvaluateHand(cards))
    ensures forall j :: 0 <= j < k ==>
              |Combinations(cards, 5)[j]| == 5 && Beats(EvaluateHand(cards), EvaluateFiveCards(Combinations(cards, 5)[j]))
  {
    var combos := Combinations(cards, 5);
    FiveCardSelections(cards);
    var hands := EvaluateAll(combos);
    k := BestOfFirstMaximal(hands);
    forall c | c in combos ensures !Beats(EvaluateFiveCards(c), EvaluateHand(cards)) {
      var j :| 0 <= j < |combos| && combos[j] == c;
      if j < k {
        assert Beats(hands[k], hands[j]);
      } else {
        assert !Beats(hands[j], hands[k]);
      }
    }
  }

  /** A five-card subsequence of the cards never beats evaluateHand's result. */
  lemma EvaluateHandBeatsEverySubset(cards: seq<Card>, c: seq<Card>)
    requires |cards| >= 5 && |c| == 5 && IsSubseq(c, cards)
    ensures !Beats(EvaluateFiveCards(c), EvaluateHand(cards))
  {
    CombinationsComplete(cards, 5, c);
    var k := EvaluateHandIsBest(cards);
  }

  /** On exactly five cards evaluateHand is evaluateFiveCards. */
  lemma EvaluateHandOfFive(cards: seq<Card>)
    requires |cards| == 5
    ensures EvaluateHand(cards) == EvaluateFiveCards(cards)
  {
    var combos := Combinations(cards, 5);
    assert combos == [cards];
    var hs := EvaluateAll(combos);
    assert hs == [EvaluateFiveCards(cards)];
    assert hs[..0] == [];
    assert BestOf(hs) == Some(EvaluateFiveCards(cards));
  }

  /**
   * The loop of evaluateHand over the enumerated selections. With fewer
   * than five cards there is no selection and the loop leaves `bestHand`
   * null (None); otherwise it ends on evaluateHand's result.
   */
  method FindBestHand(cards: seq<Card>) returns (best: Option<PokerHand>)
    ensures best.None? <==> |cards| < 5
    ensures best.Some? ==> |cards| >= 5 && best.value == EvaluateHand(cards)
  {
    var allCombos := CollectCombinations(cards, 5);
    FiveCardSelections(cards);
    CombinationsEdges(cards, 5);
    var bestHand: Option<PokerHand> := None;
    for i := 0 to |allCombos|
      invariant bestHand == BestOf(EvaluateAll(allCombos)[..i])
    {
      var hand := EvaluateFiveCards(allCombos[i]);
      assert EvaluateAll(allCombos)[..i + 1][..i] == EvaluateAll(allCombos)[..i];
      if bestHand.None? || Beats(hand, bestHand.value) {
        bestHand := Some(hand);
      }
    }
    assert EvaluateAll(allCombos)[..|allCombos|] == EvaluateAll(allCombos);
    best := bestHand;
  }
}

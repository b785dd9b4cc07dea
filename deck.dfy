/**
 * Deck creation and shuffling. Both game controllers carry the same two
 * helpers; the random index drawn in each shuffle step is a parameter.
 */
module Deck {
  import opened Cards

  /** The deck in generation order: suit-major, ranks 2..A within each suit. */
  function FullDeck(): (d: seq<Card>)
    ensures |d| == 52
  {
    seq(52, i requires 0 <= i < 52 => Card(AllSuits[i / 13], AllRanks[i % 13]))
  }

  /** Position of a card in the full deck. */
  function DeckIndex(c: Card): (i: nat)
    ensures i < 52 && FullDeck()[i] == c
  {
    var s, r := SuitIndex(c.suit), RankIndex(c.rank);
    assert (13 * s + r) / 13 == s && (13 * s + r) % 13 == r;
    13 * s + r
  }

  /** Every (suit, rank) pair occurs in the full deck, and at exactly one position. */
  lemma FullDeckIsProduct()
    ensures forall c: Card :: c in FullDeck()
    ensures forall i, j :: 0 <= i < j < 52 ==> FullDeck()[i] != FullDeck()[j]
    ensures forall c: Card :: multiset(FullDeck())[c] == 1
  {
    forall c: Card ensures c in FullDeck() {
      var i := DeckIndex(c);
    }
    forall i, j | 0 <= i < j < 52 ensures FullDeck()[i] != FullDeck()[j] {
      DeckIndexAt(i);
      DeckIndexAt(j);
    }
    forall c: Card ensures multiset(FullDeck())[c] == 1 {
      DistinctOccursOnce(FullDeck(), DeckIndex(c));
    }
  }

  /** DeckIndex undoes the indexing of the full deck. */
  lemma DeckIndexAt(i: nat)
    requires i < 52
    ensures DeckIndex(FullDeck()[i]) == i
  {
    var c := FullDeck()[i];
    RankValueInjective();
    assert SuitIndex(c.suit) == i / 13;
    assert RankIndex(c.rank) == i % 13;
  }

  /** In a sequence without repetitions, an element that occurs does so exactly once. */
  lemma {:induction false} DistinctOccursOnce(s: seq<Card>, k: nat)
    requires k < |s|
    requires forall i, j :: 0 <= i < j < |s| ==> s[i] != s[j]
    ensures multiset(s)[s[k]] == 1
  {
    if k == |s| - 1 {
      var init := s[..|s| - 1];
      assert s == init + [s[k]];
      forall i | 0 <= i < |init| ensures init[i] != s[k] {
        assert init[i] == s[i];
      }
      assert s[k] !in init;
    } else {
      var init := s[..|s| - 1];
      assert s == init + [s[|s| - 1]];
      DistinctOccursOnce(init, k);
      assert init[k] == s[k];
      assert s[|s| - 1] != s[k];
    }
  }

  /** generateDeck: the nested loops push every rank of every suit, in that order. */
  method GenerateDeck() returns (deck: seq<Card>)
    ensures deck == FullDeck()
  {
    deck := [];
    var si := 0;
    while si < |AllSuits|
      invariant 0 <= si <= |AllSuits|
      invariant deck == FullDeck()[..13 * si]
    {
      var ri := 0;
      while ri < |AllRanks|
        invariant 0 <= ri <= |AllRanks|
        invariant deck == FullDeck()[..13 * si + ri]
      {
        FullDeckStep(si, ri);
        deck := deck + [Card(AllSuits[si], AllRanks[ri])];
        ri := ri + 1;
      }
      si := si + 1;
    }
  }

  /** The card pushed for suit si and rank ri extends the generated prefix by one. */
  lemma FullDeckStep(si: nat, ri: nat)
    requires si < |AllSuits| && ri < |AllRanks|
    ensures 13 * si + ri < 52
    ensures FullDeck()[..13 * si + ri + 1] == FullDeck()[..13 * si + ri] + [Card(AllSuits[si], AllRanks[ri])]
  {
    var k := 13 * si + ri;
    assert k / 13 == si && k % 13 == ri;
    assert FullDeck()[k] == Card(AllSuits[si], AllRanks[ri]);
    assert FullDeck()[..k + 1] == FullDeck()[..k] + [FullDeck()[k]];
  }

  /** The swap done by one shuffle step. */
  function Swap(s: seq<Card>, i: nat, j: nat): (r: seq<Card>)
    requires i < |s| && j < |s|
    ensures |r| == |s|
  {
    s[i := s[j]][j := s[i]]
  }

  /**
   * The random draws of a shuffle of n cards: the k-th step (which handles
   * position n-1-k) swaps with an index in [0, n-1-k], as
   * floor(random * (i + 1)) is.
   */
  predicate ValidPicks(n: nat, picks: seq<nat>)
  {
    |picks| == (if n == 0 then 0 else n - 1) &&
    forall k :: 0 <= k < |picks| ==> picks[k] <= n - 1 - k
  }

  /** The Fisher-Yates steps for positions i, i-1, ..., 1. */
  function ShuffleFrom(s: seq<Card>, i: int, picks: seq<nat>): (r: seq<Card>)
    requires i < |s| && ValidPicks(|s|, picks)
    ensures |r| == |s|
    decreases i
  {
    if i <= 0 then s else ShuffleFrom(Swap(s, i, picks[|s| - 1 - i]), i - 1, picks)
  }

  /** The shuffle of a whole deck. */
  function Shuffled(s: seq<Card>, picks: seq<nat>): (r: seq<Card>)
    requires ValidPicks(|s|, picks)
  {
    ShuffleFrom(s, |s| - 1, picks)
  }

  /** Whatever the draws, a shuffle only rearranges the cards. */
  lemma {:induction false} ShuffleFromIsPermutation(s: seq<Card>, i: int, picks: seq<nat>)
    requires i < |s| && ValidPicks(|s|, picks)
    ensures multiset(ShuffleFrom(s, i, picks)) == multiset(s)
    decreases i
  {
    if i > 0 {
      ShuffleFromIsPermutation(Swap(s, i, picks[|s| - 1 - i]), i - 1, picks);
    }
  }

  /** The steps for positions at most i never touch the positions above i. */
  lemma {:induction false} ShuffleFromKeepsTail(s: seq<Card>, i: int, picks: seq<nat>)
    requires i < |s| && ValidPicks(|s|, picks)
    ensures forall m :: i < m < |s| && 0 <= m ==> ShuffleFrom(s, i, picks)[m] == s[m]
    decreases i
  {
    if i > 0 {
      ShuffleFromKeepsTail(Swap(s, i, picks[|s| - 1 - i]), i - 1, picks);
    }
  }

  /**
   * shuffleDeck: copies the deck into an array and swaps position i with the
   * drawn index j, for i from the last position down to 1.
   */
  method ShuffleDeck(deck: seq<Card>, picks: seq<nat>) returns (shuffled: seq<Card>)
    requires ValidPicks(|deck|, picks)
    ensures shuffled == Shuffled(deck, picks)
    ensures multiset(shuffled) == multiset(deck)
  {
    var a := new Card[|deck|](k requires 0 <= k < |deck| => deck[k]);
    var i := |deck| - 1;
    assert a[..] == deck;
    while i > 0
      invariant -1 <= i < |deck|
      invariant |deck| > 0 ==> 0 <= i
      invariant ShuffleFrom(a[..], i, picks) == Shuffled(deck, picks)
    {
      var j := picks[|deck| - 1 - i];
      ghost var before := a[..];
      var t := a[i];
      a[i] := a[j];
      assert a[..] == before[i := before[j]];
      a[j] := t;
      assert a[..] == before[i := before[j]][j := before[i]];
      i := i - 1;
    }
    shuffled := a[..];
    ShuffleFromIsPermutation(deck, |deck| - 1, picks);
  }
}

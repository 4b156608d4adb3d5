/**
 * Shuffling, dealing and the checks made on freshly dealt hands
 * (src/games/tienlen/tienlen.logic.ts). The random source is a parameter: any function that
 * picks, for each position, one of the positions up to it.
 */
module TienLenDeck {
  import opened Wrappers
  import opened Sorting
  import opened TienLenLogic

  datatype InstantWin = FourTwos | SixPairs | Dragon | FivePairRun

  /** The outcomes of the random draws: position `i` is swapped with some position up to `i`. */
  ghost predicate Draws(pick: nat -> nat) {
    forall i :: pick(i) <= i
  }

  ghost predicate FullDeck(deck: seq<Card>) {
    Distinct(deck) && |deck| == DECK_SIZE && forall c :: c in deck <==> 0 <= c < DECK_SIZE
  }

  function Swapped(deck: seq<Card>, i: nat, j: nat): (r: seq<Card>)
    requires i < |deck| && j < |deck|
    ensures |r| == |deck| && r[i] == deck[j] && r[j] == deck[i]
    ensures forall k :: 0 <= k < |deck| && k != i && k != j ==> r[k] == deck[k]
  {
    deck[i := deck[j]][j := deck[i]]
  }

  /** The deck once positions `i` down to 1 have been swapped with the positions drawn for them. */
  ghost function Shuffle(deck: seq<Card>, pick: nat -> nat, i: nat): (r: seq<Card>)
    requires i < |deck| && Draws(pick)
    ensures |r| == |deck|
    decreases i
  {
    if i == 0 then deck else Shuffle(Swapped(deck, i, pick(i)), pick, i - 1)
  }

  function Ordered(): (r: seq<Card>)
    ensures |r| == DECK_SIZE && forall c :: 0 <= c < DECK_SIZE ==> r[c] == c
  {
    seq(DECK_SIZE, i => i)
  }

  /** Fisher-Yates: whatever the draws, the result is the whole deck, each card once. */
  method ShuffledDeck(pick: nat -> nat) returns (deck: seq<Card>)
    requires Draws(pick)
    ensures FullDeck(deck) && deck == Shuffle(Ordered(), pick, DECK_SIZE - 1)
  {
    var cards := new Card[DECK_SIZE](i => i);
    OrderedDeck(cards[..]);
    assert cards[..] == Ordered();
    var i := DECK_SIZE - 1;
    hide FullDeck;
    while i > 0
      invariant 0 <= i < DECK_SIZE
      invariant FullDeck(cards[..])
      invariant Shuffle(cards[..], pick, i) == Shuffle(Ordered(), pick, DECK_SIZE - 1)
    {
      var j := pick(i);
      ghost var before := cards[..];
      cards[i], cards[j] := cards[j], cards[i];
      assert cards[..] == Swapped(before, i, j);
      SwapKeepsDeck(before, cards[..], i, j);
      i := i - 1;
    }
    deck := cards[..];
  }

  // ---- every arrangement, by exactly one sequence of draws ----

  lemma {:induction false} LaterPositionsStay(deck: seq<Card>, pick: nat -> nat, i: nat)
    requires i < |deck| && Draws(pick)
    ensures forall k :: i < k < |deck| ==> Shuffle(deck, pick, i)[k] == deck[k]
    ensures i > 0 ==> Shuffle(deck, pick, i)[i] == deck[pick(i)]
    decreases i
  {
    if i > 0 {
      LaterPositionsStay(Swapped(deck, i, pick(i)), pick, i - 1);
    }
  }

  lemma {:induction false} OnlyDrawsMatter(deck: seq<Card>, p: nat -> nat, q: nat -> nat, i: nat)
    requires i < |deck| && Draws(p) && Draws(q) && forall k: nat :: k <= i ==> p(k) == q(k)
    ensures Shuffle(deck, p, i) == Shuffle(deck, q, i)
    decreases i
  {
    if i > 0 {
      OnlyDrawsMatter(Swapped(deck, i, p(i)), p, q, i - 1);
    }
  }

  /** The same cards in another order. */
  ghost predicate Rearranged(a: seq<Card>, b: seq<Card>) {
    |a| == |b| && Distinct(a) && Distinct(b) && forall c :: c in a <==> c in b
  }

  lemma SwapRearranges(deck: seq<Card>, target: seq<Card>, i: nat, j: nat)
    requires Rearranged(deck, target) && i < |deck| && j < |deck|
    ensures Rearranged(Swapped(deck, i, j), target)
  {
    var r := Swapped(deck, i, j);
    forall c ensures c in r <==> c in deck {
      if c in deck {
        var k :| 0 <= k < |deck| && deck[k] == c;
        assert r[if k == i then j else if k == j then i else k] == c;
      }
    }
  }

  lemma {:induction false} ReachedFrom(deck: seq<Card>, target: seq<Card>, i: nat) returns (pick: nat -> nat)
    requires Rearranged(deck, target) && i < |deck| && forall k :: i < k < |deck| ==> deck[k] == target[k]
    ensures Draws(pick) && Shuffle(deck, pick, i) == target
    decreases i
  {
    hide Rearranged, Shuffle;
    var j := FindDrawn(deck, target, i);
    if i == 0 {
      pick := (k: nat) => k;
      NothingDrawn(deck, target, pick);
    } else {
      SwapRearranges(deck, target, i, j);
      var rest := ReachedFrom(Swapped(deck, i, j), target, i - 1);
      pick := (k: nat) => if k == i then j else rest(k);
      OnlyDrawsMatter(Swapped(deck, i, j), pick, rest, i - 1);
      OneDraw(deck, pick, i);
    }
  }

  lemma NothingDrawn(deck: seq<Card>, target: seq<Card>, pick: nat -> nat)
    requires deck != [] && Draws(pick) && |deck| == |target| && forall k :: 0 <= k < |deck| ==> deck[k] == target[k]
    ensures Shuffle(deck, pick, 0) == target
  {
  }

  lemma OneDraw(deck: seq<Card>, pick: nat -> nat, i: nat)
    requires 0 < i < |deck| && Draws(pick)
    ensures Shuffle(deck, pick, i) == Shuffle(Swapped(deck, i, pick(i)), pick, i - 1)
  {
  }

  lemma FindDrawn(deck: seq<Card>, target: seq<Card>, i: nat) returns (j: nat)
    requires Rearranged(deck, target) && i < |deck| && forall k :: i < k < |deck| ==> deck[k] == target[k]
    ensures |deck| == |target| && j <= i && deck[j] == target[i]
  {
    var card := target[i];
    assert card in target;
    assert card in deck;
    j :| 0 <= j < |deck| && deck[j] == card;
  }

  /** Every arrangement of the deck comes out for some draws. */
  lemma EveryDeckIsReached(target: seq<Card>) returns (pick: nat -> nat)
    requires FullDeck(target)
    ensures Draws(pick) && Shuffle(Ordered(), pick, DECK_SIZE - 1) == target
  {
    OrderedDeck(Ordered());
    pick := ReachedFrom(Ordered(), target, DECK_SIZE - 1);
  }

  /** And for one sequence of draws only: no arrangement is favoured. */
  lemma {:induction false} DrawsAreTold(deck: seq<Card>, p: nat -> nat, q: nat -> nat, i: nat)
    requires i < |deck| && Distinct(deck) && Draws(p) && Draws(q)
    requires Shuffle(deck, p, i) == Shuffle(deck, q, i)
    ensures forall k :: 1 <= k <= i ==> p(k) == q(k)
    decreases i
  {
    if i > 0 {
      LaterPositionsStay(deck, p, i);
      LaterPositionsStay(deck, q, i);
      assert deck[p(i)] == deck[q(i)];
      var next := Swapped(deck, i, p(i));
      forall a, b | 0 <= a < b < |next| ensures next[a] != next[b] {
      }
      DrawsAreTold(next, p, q, i - 1);
    }
  }

  lemma OrderedDeck(deck: seq<Card>)
    requires |deck| == DECK_SIZE && forall c :: 0 <= c < DECK_SIZE ==> deck[c] == c
    ensures FullDeck(deck)
  {
    forall c ensures c in deck <==> 0 <= c < DECK_SIZE {
      if 0 <= c < DECK_SIZE {
        assert deck[c] == c;
      }
    }
  }

  lemma SwapKeepsDeck(before: seq<Card>, after: seq<Card>, i: nat, j: nat)
    requires FullDeck(before) && i < |before| && j < |before|
    requires after == before[i := before[j]][j := before[i]]
    ensures FullDeck(after)
  {
    forall c ensures c in after <==> c in before {
      if c in before {
        var k :| 0 <= k < |before| && before[k] == c;
        assert after[if k == i then j else if k == j then i else k] == c;
      }
    }
  }

  /** The position in the deck of the card dealt to player `k` of `n` in round `i`. */
  function Slot(i: nat, k: nat, n: nat): nat { i * n + k }

  lemma SlotsAreDistinct(i: nat, j: nat, k: nat, l: nat, n: nat)
    requires k < n && l < n && (i != j || k != l)
    ensures Slot(i, k, n) != Slot(j, l, n)
  {
    if i < j {
      assert (i + 1) * n <= j * n;
    } else if j < i {
      assert (j + 1) * n <= i * n;
    }
  }

  lemma SlotInDeck(i: nat, k: nat, n: nat)
    requires i < 13 && k < n <= 4
    ensures Slot(i, k, n) < 13 * n <= DECK_SIZE
  {
    assert (i + 1) * n <= 13 * n;
  }

  /** Player `k` of `n` gets the cards at positions k, k + n, k + 2n, ... */
  ghost function DealtTo(deck: seq<Card>, k: nat, n: nat, rounds: nat): (r: seq<Card>)
    requires k < n <= 4 && rounds <= 13 && |deck| == DECK_SIZE
    ensures |r| == rounds
  {
    seq(rounds, i requires 0 <= i < rounds => SlotInDeck(i, k, n); deck[Slot(i, k, n)])
  }

  lemma NothingDealt(deck: seq<Card>, n: nat)
    requires n <= 4 && |deck| == DECK_SIZE
    ensures forall k: nat :: k < n ==> DealtTo(deck, k, n, 0) == []
  {
  }

  lemma DealtNext(deck: seq<Card>, k: nat, n: nat, rounds: nat)
    requires k < n <= 4 && rounds < 13 && |deck| == DECK_SIZE
    ensures Slot(rounds, k, n) < DECK_SIZE
    ensures DealtTo(deck, k, n, rounds + 1) == DealtTo(deck, k, n, rounds) + [deck[Slot(rounds, k, n)]]
  {
    SlotInDeck(rounds, k, n);
  }

  lemma SlotStart(n: nat)
    ensures Slot(0, 0, n) == 0 && Slot(13, 0, n) == 13 * n
  {
  }

  /** Where the dealer is: whose turn it is to get a card, and that the rounds follow each other. */
  lemma SlotRound(round: nat, seat: nat, n: nat)
    requires seat < n && 2 <= n <= 4 && (round == 13 ==> seat == 0) && Slot(round, seat, n) < 13 * n && round <= 13
    ensures round < 13 && Slot(round, seat, n) % n == seat
    ensures Slot(round, seat, n) + 1 == if seat + 1 == n then Slot(round + 1, 0, n) else Slot(round, seat + 1, n)
  {
    SlotRemainder(round, seat, n);
    assert (round + 1) * n == round * n + n;
  }

  lemma SlotRemainder(round: nat, seat: nat, n: nat)
    requires seat < n && 2 <= n <= 4
    ensures (round * n + seat) % n == seat
  {
    if n == 2 {
      assert (round * 2 + seat) % 2 == seat;
    } else if n == 3 {
      assert (round * 3 + seat) % 3 == seat;
    } else {
      assert (round * 4 + seat) % 4 == seat;
    }
  }

  /** Deals one card at a time, round the table. */
  method Deal(deck: seq<Card>, n: nat) returns (hands: seq<seq<Card>>)
    requires |deck| == DECK_SIZE && 2 <= n <= 4
    ensures |hands| == n
    ensures forall k :: 0 <= k < n ==> hands[k] == Sort(DealtTo(deck, k, n, 13))
  {
    hide Sort, DealtTo, Slot;
    NothingDealt(deck, n);
    SlotStart(n);
    var piles: seq<seq<Card>> := seq(n, _ => []);
    var i := 0;
    ghost var round, seat := 0, 0;
    while i < 13 * n
      invariant i == Slot(round, seat, n) && seat < n && round <= 13 && (round == 13 ==> seat == 0)
      invariant |piles| == n
      invariant forall k :: 0 <= k < n ==>
        piles[k] == DealtTo(deck, k, n, if k < seat then round + 1 else round)
      decreases 13 * n - i
    {
      SlotRound(round, seat, n);
      SlotInDeck(round, seat, n);
      DealtNext(deck, seat, n, round);
      piles := piles[i % n := piles[i % n] + [deck[i]]];
      i := i + 1;
      if seat + 1 == n {
        round, seat := round + 1, 0;
      } else {
        seat := seat + 1;
      }
    }
    assert round == 13 by {
      if round < 13 {
        SlotInDeck(round, seat, n);
      }
    }
    hands := seq(n, k requires 0 <= k < |piles| => Sort(piles[k]));
  }

  /** Everything the table needs to know about a deal. */
  ghost predicate GoodDeal(hands: seq<seq<Card>>) {
    && (forall k :: 0 <= k < |hands| ==> |hands[k]| == 13 && Increasing(hands[k]))
    && (forall k, c :: 0 <= k < |hands| && c in hands[k] ==> 0 <= c < DECK_SIZE)
    && (forall k, l, c :: 0 <= k < l < |hands| && c in hands[k] ==> c !in hands[l])
  }

  lemma DealtIncreasing(deck: seq<Card>, k: nat, n: nat)
    requires |deck| == DECK_SIZE && Distinct(deck) && k < n <= 4
    ensures Increasing(Sort(DealtTo(deck, k, n, 13)))
    ensures forall c :: c in Sort(DealtTo(deck, k, n, 13)) <==> c in DealtTo(deck, k, n, 13)
  {
    var dealt := DealtTo(deck, k, n, 13);
    forall i, j | 0 <= i < j < |dealt| ensures dealt[i] != dealt[j] {
      SlotInDeck(i, k, n);
      SlotInDeck(j, k, n);
      SlotsAreDistinct(i, j, k, k, n);
    }
    hide DealtTo;
    SortDistinct(dealt);
  }

  /** Round the table: the card at position `p` of the deck is dealt to player `p % n`, and to nobody else. */
  lemma DealtRoundTheTable(deck: seq<Card>, n: nat, p: nat, k: nat)
    requires FullDeck(deck) && 2 <= n <= 4 && p < 13 * n && k < n
    ensures p < |deck|
    ensures deck[p] in Sort(DealtTo(deck, k, n, 13)) <==> k == p % n
  {
    DealtIncreasing(deck, k, n);
    SlotOf(p, n);
    SlotInDeck(p / n, p % n, n);
    hide Sort, FullDeck;
    var dealt := DealtTo(deck, k, n, 13);
    if k == p % n {
      assert dealt[p / n] == deck[p];
    } else {
      forall i | 0 <= i < 13 ensures dealt[i] != deck[p] {
        SlotInDeck(i, k, n);
        SlotsAreDistinct(i, p / n, k, p % n, n);
        DeckPositions(deck, Slot(i, k, n), p);
      }
    }
  }

  lemma DeckPositions(deck: seq<Card>, i: nat, j: nat)
    requires FullDeck(deck) && i < |deck| && j < |deck|
    ensures deck[i] == deck[j] <==> i == j
  {
  }

  lemma SlotOf(p: nat, n: nat)
    requires 2 <= n <= 4 && p < 13 * n
    ensures Slot(p / n, p % n, n) == p && p / n < 13
  {
  }

  lemma RepeatCounts(s: seq<int>, i: nat, j: nat)
    requires i < j < |s| && s[i] == s[j]
    ensures multiset(s)[s[i]] >= 2
  {
    assert s == s[..j] + [s[j]] + s[j + 1..];
    assert s[..j][i] == s[i];
    assert multiset(s[..j])[s[i]] >= 1;
  }

  lemma SortDistinct(s: seq<int>)
    requires Distinct(s)
    ensures Increasing(Sort(s))
    ensures forall c :: c in Sort(s) <==> c in s
  {
    var r := Sort(s);
    hide Sort;
    DistinctMultiset(s);
    forall c ensures c in r <==> c in s {
      assert c in multiset(r) <==> c in multiset(s);
    }
    forall i, j | 0 <= i < j < |r| ensures r[i] < r[j] {
      if r[i] == r[j] {
        RepeatCounts(r, i, j);
        assert false;
      }
    }
  }

  lemma SharesNoCard(deck: seq<Card>, k: nat, l: nat, n: nat)
    requires |deck| == DECK_SIZE && Distinct(deck) && k < l < n <= 4
    ensures forall c :: c in DealtTo(deck, k, n, 13) ==> c !in DealtTo(deck, l, n, 13)
  {
    var a, b := DealtTo(deck, k, n, 13), DealtTo(deck, l, n, 13);
    forall i, j | 0 <= i < 13 && 0 <= j < 13 ensures a[i] != b[j] {
      SlotInDeck(i, k, n);
      SlotInDeck(j, l, n);
      SlotsAreDistinct(i, j, k, l, n);
    }
  }

  lemma DealtComesFromDeck(deck: seq<Card>, k: nat, n: nat)
    requires FullDeck(deck) && k < n <= 4
    ensures forall c :: c in DealtTo(deck, k, n, 13) ==> 0 <= c < DECK_SIZE
  {
    var dealt := DealtTo(deck, k, n, 13);
    forall i | 0 <= i < 13 ensures 0 <= dealt[i] < DECK_SIZE {
      SlotInDeck(i, k, n);
      var c := deck[Slot(i, k, n)];
      assert c in deck;
    }
  }

  /** Any deal from a full deck: sorted, dup-free hands of 13 cards that share no card. */
  lemma DealIsGood(deck: seq<Card>, hands: seq<seq<Card>>)
    requires FullDeck(deck) && 2 <= |hands| <= 4
    requires forall k :: 0 <= k < |hands| ==> hands[k] == Sort(DealtTo(deck, k, |hands|, 13))
    ensures GoodDeal(hands)
  {
    var n := |hands|;
    forall k | 0 <= k < n
      ensures |hands[k]| == 13 && Increasing(hands[k])
      ensures forall c :: c in hands[k] <==> c in DealtTo(deck, k, n, 13)
      ensures forall c :: c in hands[k] ==> 0 <= c < DECK_SIZE
    {
      DealtIncreasing(deck, k, n);
      DealtComesFromDeck(deck, k, n);
    }
    hide FullDeck, DealtTo, Sort;
    forall k, l, c | 0 <= k < l < n && c in hands[k] ensures c !in hands[l] {
      SharesNoCard(deck, k, l, n);
    }
  }

  // ---- who leads ----

  /** The seat whose lowest card is the lowest of all, 0 when nobody holds a card. */
  method HolderOfLowest(hands: seq<seq<Card>>) returns (who: nat)
    requires forall k :: 0 <= k < |hands| ==> Increasing(hands[k])
    ensures (forall k :: 0 <= k < |hands| ==> hands[k] == []) ==> who == 0
    ensures (exists k :: 0 <= k < |hands| && hands[k] != []) ==>
      && who < |hands| && hands[who] != []
      && forall k, c :: 0 <= k < |hands| && c in hands[k] ==> hands[who][0] <= c
  {
    var best: Option<Card> := None;
    who := 0;
    for i := 0 to |hands|
      invariant best.None? ==> who == 0 && forall k :: 0 <= k < i ==> hands[k] == []
      invariant best.Some? ==>
        && who < i && hands[who] != [] && hands[who][0] == best.value
        && forall k :: 0 <= k < i && hands[k] != [] ==> best.value <= hands[k][0]
    {
      if |hands[i]| > 0 && (best.None? || hands[i][0] < best.value) {
        best := Some(hands[i][0]);
        who := i;
      }
    }
    forall k, c | 0 <= k < |hands| && c in hands[k] && best.Some? ensures hands[who][0] <= c {
      var j :| 0 <= j < |hands[k]| && hands[k][j] == c;
      assert hands[k][0] <= hands[k][j];
    }
  }

  // ---- instant wins ----

  /** How many cards of rank `r` the hand holds. */
  ghost function Copies(hand: seq<Card>, r: int): nat { multiset(RankList(hand))[r] }

  ghost function PairsBelow(hand: seq<Card>, n: nat): nat {
    if n == 0 then 0 else PairsBelow(hand, n - 1) + Copies(hand, n - 1) / 2
  }

  ghost predicate PairRunAt(hand: seq<Card>, start: nat) {
    forall r :: start <= r < start + 5 ==> Copies(hand, r) >= 2
  }

  ghost function InstantWinOf(hand: seq<Card>): Option<InstantWin> {
    if Copies(hand, TWO) == 4 then Some(FourTwos)
    else if forall r :: 0 <= r < 12 ==> Copies(hand, r) >= 1 then Some(Dragon)
    else if PairsBelow(hand, 13) >= 6 then Some(SixPairs)
    else if exists start: nat :: start <= 7 && PairRunAt(hand, start) then Some(FivePairRun)
    else None
  }

  /** The cards of rank `r` in the hand. */
  ghost function Ranked(hand: seq<Card>, r: int): set<Card> { set c | c in hand && RankOf(c) == r }

  /** In a hand without repeats a rank is held as often as there are different cards of it, four at most. */
  lemma {:induction false} CopiesAreCards(hand: seq<Card>, r: int)
    requires Distinct(hand)
    ensures Copies(hand, r) == |Ranked(hand, r)|
  {
    if hand != [] {
      var front, last := hand[..|hand| - 1], hand[|hand| - 1];
      assert hand == front + [last];
      assert RankList(hand) == RankList(front) + [RankOf(last)];
      CopiesAreCards(front, r);
      assert last !in front;
      assert Ranked(hand, r) == Ranked(front, r) + if RankOf(last) == r then {last} else {};
    }
  }

  /** The dealt wins told from cards: all four twos; else a card of every rank from 3 to ace. */
  lemma DealtWinsMean(hand: seq<Card>)
    requires Distinct(hand)
    ensures InstantWinOf(hand) == Some(FourTwos) <==> forall c :: 48 <= c < 52 ==> c in hand
    ensures InstantWinOf(hand) == Some(Dragon) <==>
      !(forall c :: 48 <= c < 52 ==> c in hand) && forall r :: 0 <= r < 12 ==> HoldsRank(hand, r)
  {
    hide Copies, Distinct, PairsBelow, PairRunAt;
    FourOfRank(hand, TWO);
    forall r ensures Copies(hand, r) >= 1 <==> HoldsRank(hand, r) {
      RankHeld(hand, r);
    }
  }

  ghost predicate HoldsRank(hand: seq<Card>, r: int) { exists c :: c in hand && RankOf(c) == r }

  lemma RankHeld(hand: seq<Card>, r: int)
    requires Distinct(hand)
    ensures Copies(hand, r) >= 1 <==> HoldsRank(hand, r)
  {
    CopiesAreCards(hand, r);
    var s := Ranked(hand, r);
    assert (forall c :: c !in s) ==> s == {};
    if c :| c in hand && RankOf(c) == r {
      assert c in s;
    }
    hide Copies;
  }

  lemma FourOfRank(hand: seq<Card>, r: int)
    requires Distinct(hand)
    ensures Copies(hand, r) == 4 <==> forall c :: 4 * r <= c < 4 * r + 4 ==> c in hand
  {
    CopiesAreCards(hand, r);
    var suits := {4 * r, 4 * r + 1, 4 * r + 2, 4 * r + 3};
    assert forall c :: RankOf(c) == r <==> c in suits;
    assert Ranked(hand, r) <= suits;
    if forall c :: 4 * r <= c < 4 * r + 4 ==> c in hand {
      assert Ranked(hand, r) == suits;
    }
    if Copies(hand, r) == 4 {
      SubsetFull(Ranked(hand, r), suits);
    }
  }

  lemma SubsetFull(a: set<Card>, b: set<Card>)
    requires a <= b && |a| == |b|
    ensures a == b
  {
    assert |b - a| == |b| - |a|;
    assert b == a + (b - a);
  }

  method CountRanks(hand: seq<Card>) returns (freq: seq<nat>)
    requires forall c :: c in hand ==> 0 <= c < DECK_SIZE
    ensures |freq| == 13 && forall r :: 0 <= r < 13 ==> freq[r] == Copies(hand, r)
  {
    freq := seq(13, _ => 0);
    for i := 0 to |hand|
      invariant |freq| == 13 && forall r :: 0 <= r < 13 ==> freq[r] == Copies(hand[..i], r)
    {
      var c := hand[i];
      assert c in hand;
      assert RankList(hand[..i + 1]) == RankList(hand[..i]) + [RankOf(c)];
      freq := freq[RankOf(c) := freq[RankOf(c)] + 1];
    }
    assert hand[..|hand|] == hand;
  }

  method DetectInstantWin(hand: seq<Card>) returns (kind: Option<InstantWin>)
    requires forall c :: c in hand ==> 0 <= c < DECK_SIZE
    ensures kind == InstantWinOf(hand)
  {
    var freq := CountRanks(hand);
    if freq[TWO] == 4 {
      return Some(FourTwos);
    }
    var dragon := true;
    for r := 0 to 12
      invariant dragon <==> forall k :: 0 <= k < r ==> Copies(hand, k) >= 1
    {
      if freq[r] < 1 {
        dragon := false;
      }
    }
    if dragon {
      return Some(Dragon);
    }
    var pairs := 0;
    for r := 0 to 13
      invariant pairs == PairsBelow(hand, r)
    {
      pairs := pairs + freq[r] / 2;
    }
    if pairs >= 6 {
      return Some(SixPairs);
    }
    var start := 0;
    while start + 5 <= 12
      invariant start <= 8
      invariant forall s: nat :: s < start ==> !PairRunAt(hand, s)
    {
      var ok := true;
      for r := start to start + 5
        invariant ok <==> forall k :: start <= k < r ==> Copies(hand, k) >= 2
      {
        if freq[r] < 2 {
          ok := false;
        }
      }
      if ok {
        assert PairRunAt(hand, start);
        return Some(FivePairRun);
      }
      start := start + 1;
    }
    kind := None;
  }
}

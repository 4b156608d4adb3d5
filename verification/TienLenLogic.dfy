/**
 * Combos and the beat relation of Tien Len (src/games/tienlen/tienlen.logic.ts).
 *
 * A card is an integer: `card / 4` is its rank (0 is the 3, 12 is the 2) and `card % 4` its
 * suit. A client may send any integers, so recognition is defined on all of them; only the
 * hand a play is removed from is known to hold cards 0..51.
 */
module TienLenLogic {
  import opened Wrappers
  import opened Sorting

  type Card = int

  const DECK_SIZE := 52
  const TWO := 12

  function RankOf(c: Card): int { c / 4 }

  function SuitOf(c: Card): int { c % 4 }

  datatype ComboType = Single | Pair | Triple | Straight | PairStraight | Four

  datatype Combo = Combo(kind: ComboType, cards: seq<Card>, rankValue: Card, length: nat)

  // ---- recognition ----

  predicate AllSameRank(sorted: seq<Card>) {
    forall i :: 0 <= i < |sorted| ==> RankOf(sorted[i]) == RankOf(sorted[0])
  }

  predicate NoTwo(sorted: seq<Card>) {
    forall i :: 0 <= i < |sorted| ==> RankOf(sorted[i]) != TWO
  }

  predicate IsStraight(sorted: seq<Card>) {
    && NoTwo(sorted)
    && forall i :: 1 <= i < |sorted| ==> RankOf(sorted[i]) == RankOf(sorted[i - 1]) + 1
  }

  /** Adjacent cards pair up by rank, and each pair is one rank above the one before. */
  predicate IsPairStraight(sorted: seq<Card>)
    requires |sorted| % 2 == 0
  {
    && NoTwo(sorted)
    && (forall i :: 0 <= i < |sorted| && i % 2 == 0 ==> RankOf(sorted[i]) == RankOf(sorted[i + 1]))
    && (forall i :: 2 <= i < |sorted| && i % 2 == 0 ==> RankOf(sorted[i]) == RankOf(sorted[i - 2]) + 1)
  }

  function ClassifySorted(sorted: seq<Card>): (kind: Option<ComboType>)
    requires sorted != []
  {
    var n := |sorted|;
    if AllSameRank(sorted) then
      (if n == 1 then Some(Single)
       else if n == 2 then Some(Pair)
       else if n == 3 then Some(Triple)
       else if n == 4 then Some(Four)
       else None)
    else if n >= 3 && IsStraight(sorted) then Some(Straight)
    else if n >= 6 && n % 2 == 0 && IsPairStraight(sorted) then Some(PairStraight)
    else None
  }

  function IdentifyCombo(cards: seq<Card>): (r: Option<Combo>)
    ensures r.Some? ==> Recognised(r.value) && multiset(r.value.cards) == multiset(cards)
  {
    if cards == [] then None
    else
      var sorted := Sort(cards);
      match ClassifySorted(sorted)
      case None => None
      case Some(kind) => Some(Combo(kind, sorted, sorted[|sorted| - 1], |sorted|))
  }

  /** A combo as recognition builds it: sorted cards, of that kind, measured by its top card. */
  ghost predicate Recognised(c: Combo) {
    && c.cards != []
    && NonDecreasing(c.cards)
    && ClassifySorted(c.cards) == Some(c.kind)
    && c.rankValue == c.cards[|c.cards| - 1]
    && c.length == |c.cards|
  }

  // ---- the beat relation ----

  function PairStraightLength(c: Combo): int { c.length / 2 }

  predicate IsSingleTwo(c: Combo)
    requires c.cards != []
  {
    c.kind == Single && RankOf(c.cards[0]) == TWO
  }

  predicate IsPairTwo(c: Combo)
    requires c.cards != []
  {
    c.kind == Pair && RankOf(c.cards[0]) == TWO
  }

  predicate CanBeat(candidate: Combo, current: Combo)
    requires current.cards != []
  {
    var singleTwo := IsSingleTwo(current);
    var pairTwo := IsPairTwo(current);
    if candidate.kind == Four && (singleTwo || pairTwo) then true
    else if candidate.kind == Four && current.kind == PairStraight && PairStraightLength(current) == 3 then true
    else if candidate.kind == Four && current.kind == Four then candidate.rankValue > current.rankValue
    else if candidate.kind == PairStraight && PairStraightLength(candidate) == 3 && singleTwo then true
    else if candidate.kind == PairStraight && PairStraightLength(candidate) == 4
            && (singleTwo || pairTwo || current.kind == Four) then true
    else
      && candidate.kind == current.kind
      && candidate.length == current.length
      && candidate.rankValue > current.rankValue
  }

  // ---- chopping and keeping twos ----

  predicate IsRedSuit(c: Card) { SuitOf(c) >= 2 }

  predicate IsBomb(c: Combo) {
    c.kind == Four || (c.kind == PairStraight && PairStraightLength(c) >= 3)
  }

  function Twos(cards: seq<Card>): (r: seq<Card>)
    ensures forall c :: c in r <==> c in cards && RankOf(c) == TWO
    ensures |r| <= |cards|
  {
    if cards == [] then []
    else if RankOf(cards[0]) == TWO then [cards[0]] + Twos(cards[1..])
    else Twos(cards[1..])
  }

  function ChoppedHeoCards(candidate: Combo, current: Option<Combo>): seq<Card>
    requires current.Some? ==> current.value.cards != []
  {
    if current.None? then []
    else if !IsSingleTwo(current.value) && !IsPairTwo(current.value) then []
    else if !IsBomb(candidate) then []
    else Twos(current.value.cards)
  }

  function RottenHeoCards(hand: seq<Card>): seq<Card> { Twos(hand) }

  /** How many cards of `cards` satisfy the red test, counted independently of any loop. */
  function RedCount(cards: seq<Card>): (r: nat)
    ensures r <= |cards|
  {
    if cards == [] then 0 else (if IsRedSuit(cards[|cards| - 1]) then 1 else 0) + RedCount(cards[..|cards| - 1])
  }

  /** Price units of a set of twos: one for each card and one more for each red card. */
  function HeoUnits(cards: seq<Card>): nat { |cards| + RedCount(cards) }

  method ChopHeoBreakdown(heo: seq<Card>) returns (black: nat, red: nat, units: nat)
    ensures red == RedCount(heo) && black + red == |heo| && units == HeoUnits(heo)
  {
    black, red := 0, 0;
    for i := 0 to |heo|
      invariant red == RedCount(heo[..i]) && black + red == i
    {
      assert heo[..i + 1][..i] == heo[..i];
      if IsRedSuit(heo[i]) {
        red := red + 1;
      } else {
        black := black + 1;
      }
    }
    assert heo[..|heo|] == heo;
    units := black + red * 2;
  }

  // ---- taking cards out of a hand ----

  /** The hand left after playing `cards`, or None when a card is missing or named twice. */
  function RemoveCards(hand: seq<Card>, cards: seq<Card>): Option<seq<Card>> {
    if (forall i, j :: 0 <= i < j < |cards| ==> cards[i] != cards[j]) && (forall c :: c in cards ==> c in hand)
    then Some(SortSet((set c | c in hand) - (set c | c in cards)))
    else None
  }

  method TakeCards(hand: seq<Card>, cards: seq<Card>) returns (left: Option<seq<Card>>)
    ensures left == RemoveCards(hand, cards)
  {
    var remaining := set c | c in hand;
    for i := 0 to |cards|
      invariant remaining == (set c | c in hand) - (set c | c in cards[..i])
      invariant Distinct(cards[..i])
      invariant forall c :: c in cards[..i] ==> c in hand
    {
      assert cards[..i + 1] == cards[..i] + [cards[i]];
      if cards[i] !in remaining {
        if cards[i] in cards[..i] {
          var k :| 0 <= k < i && cards[k] == cards[i];
        }
        return None;
      }
      remaining := remaining - {cards[i]};
    }
    assert cards[..|cards|] == cards;
    left := Some(SortSet(remaining));
  }

  // ---- properties of recognition ----

  lemma RecognisedShape(c: Combo)
    requires Recognised(c)
    ensures c.kind == Single ==> c.length == 1
    ensures c.kind == Pair ==> c.length == 2
    ensures c.kind == Four ==> c.length == 4
    ensures c.kind == PairStraight ==> c.length >= 6 && c.length % 2 == 0
    ensures c.kind == Single || c.kind == Pair || c.kind == Triple || c.kind == Four ==> AllSameRank(c.cards)
  {
  }

  /** Recognition produces exactly the recognised combos, and each from its own cards. */
  lemma RecognisedIsIdentified(c: Combo)
    ensures Recognised(c) <==> IdentifyCombo(c.cards) == Some(c)
  {
    if Recognised(c) {
      SortOfSorted(c.cards);
    }
  }

  /** Recognition does not depend on the order in which the client lists the cards. */
  lemma IdentifyIgnoresOrder(a: seq<Card>, b: seq<Card>)
    requires multiset(a) == multiset(b)
    ensures IdentifyCombo(a) == IdentifyCombo(b)
  {
    assert |a| == |multiset(a)| == |multiset(b)| == |b|;
    SortPermutation(a, b);
  }

  /** The `.cards` of a recognised combo are the played cards, and recognise as that combo again. */
  lemma IdentifyIsIdempotent(cards: seq<Card>)
    requires IdentifyCombo(cards).Some?
    ensures Recognised(IdentifyCombo(cards).value)
    ensures multiset(IdentifyCombo(cards).value.cards) == multiset(cards)
    ensures |IdentifyCombo(cards).value.cards| == |cards|
    ensures IdentifyCombo(IdentifyCombo(cards).value.cards) == IdentifyCombo(cards)
  {
    RecognisedIsIdentified(IdentifyCombo(cards).value);
  }

  /** A combo is measured by its number of cards and by the highest of them. */
  lemma MeasuredByTopCard(cards: seq<Card>)
    requires IdentifyCombo(cards).Some?
    ensures IdentifyCombo(cards).value.length == |cards|
    ensures IdentifyCombo(cards).value.rankValue in cards && forall c :: c in cards ==> c <= IdentifyCombo(cards).value.rankValue
  {
    hide *;
    IdentifyIsIdempotent(cards);
    LastIsTop(IdentifyCombo(cards).value);
    var combo := IdentifyCombo(cards).value;
    forall c ensures c in cards <==> c in combo.cards {
      assert c in multiset(cards) <==> c in multiset(combo.cards);
    }
  }

  lemma LastIsTop(combo: Combo)
    requires Recognised(combo)
    ensures combo.length == |combo.cards| && combo.rankValue in combo.cards
    ensures forall c :: c in combo.cards ==> c <= combo.rankValue
  {
    hide ClassifySorted;
  }

  lemma SingleIsRecognised(c: Card)
    ensures IdentifyCombo([c]) == Some(Combo(Single, [c], c, 1))
  {
    SortOfSorted([c]);
  }

  // ---- what the kinds mean, without sorting ----

  ghost function RankList(cards: seq<Card>): (r: seq<int>)
    ensures |r| == |cards|
  {
    seq(|cards|, i requires 0 <= i < |cards| => RankOf(cards[i]))
  }

  /** `n` cards' worth of consecutive ranks from `low` on, each rank `copies` times in a row. */
  ghost function RunList(low: int, n: nat, copies: nat): (r: seq<int>)
    requires copies > 0
    ensures |r| == n
  {
    seq(n, i requires 0 <= i < n => low + i / copies)
  }

  /** The cards, in any order, make up a run in which each rank appears `copies` times. */
  ghost predicate FormRun(cards: seq<Card>, copies: nat)
    requires copies > 0
  {
    exists low :: multiset(RankList(cards)) == multiset(RunList(low, |cards|, copies))
  }

  ghost predicate HoldsTwo(cards: seq<Card>) {
    exists c :: c in cards && RankOf(c) == TWO
  }

  lemma RankListSplit(s: seq<Card>, k: nat)
    requires k < |s|
    ensures multiset(RankList(s)) == multiset(RankList(s[..k] + s[k + 1..])) + multiset{RankOf(s[k])}
  {
    assert RankList(s) == RankList(s[..k]) + [RankOf(s[k])] + RankList(s[k + 1..]);
    assert RankList(s[..k] + s[k + 1..]) == RankList(s[..k]) + RankList(s[k + 1..]);
  }

  lemma SameRest(a: seq<Card>, b: seq<Card>, k: nat)
    requires a != [] && k < |b| && b[k] == a[0] && multiset(a) == multiset(b)
    ensures multiset(a[1..]) == multiset(b[..k] + b[k + 1..])
  {
    RemoveAt(a, 0);
    RemoveAt(b, k);
    assert a[..0] + a[1..] == a[1..];
  }

  lemma FindCard(b: seq<Card>, x: Card) returns (k: nat)
    requires x in multiset(b)
    ensures k < |b| && b[k] == x
  {
    k :| 0 <= k < |b| && b[k] == x;
  }

  lemma {:induction false} RankListPermutes(a: seq<Card>, b: seq<Card>)
    requires multiset(a) == multiset(b)
    ensures multiset(RankList(a)) == multiset(RankList(b))
    decreases |a|
  {
    hide RankList, RankOf;
    assert |a| == |multiset(a)| == |multiset(b)| == |b|;
    if a != [] {
      assert a[0] in multiset(a);
      var k := FindCard(b, a[0]);
      SameRest(a, b, k);
      var rest := b[..k] + b[k + 1..];
      RankListPermutes(a[1..], rest);
      assert a[..0] + a[1..] == a[1..];
      RankListSplit(a, 0);
      RankListSplit(b, k);
    }
  }

  lemma RanksOfSorted(sorted: seq<Card>)
    requires NonDecreasing(sorted)
    ensures NonDecreasing(RankList(sorted))
  {
  }

  lemma RunListIsSorted(low: int, n: nat, copies: nat)
    requires copies == 1 || copies == 2 || copies == n > 0
    ensures NonDecreasing(RunList(low, n, copies))
    ensures copies == n ==> forall i :: 0 <= i < n ==> RunList(low, n, copies)[i] == low
  {
    if copies == n > 0 {
      forall i | 0 <= i < n ensures i / copies == 0 {
      }
    }
  }

  /** For cards in sorted order the run is read off position by position. */
  lemma SortedRun(sorted: seq<Card>, copies: nat)
    requires NonDecreasing(sorted)
    requires copies == 1 || copies == 2 || copies == |sorted| > 0
    ensures FormRun(sorted, copies) <==> exists low :: RankList(sorted) == RunList(low, |sorted|, copies)
  {
    if FormRun(sorted, copies) {
      var low :| multiset(RankList(sorted)) == multiset(RunList(low, |sorted|, copies));
      RanksOfSorted(sorted);
      RunListIsSorted(low, |sorted|, copies);
      SortedUnique(RankList(sorted), RunList(low, |sorted|, copies));
    }
  }

  lemma SameRankRun(sorted: seq<Card>)
    requires sorted != [] && NonDecreasing(sorted)
    ensures AllSameRank(sorted) <==> FormRun(sorted, |sorted|)
  {
    var n := |sorted|;
    SortedRun(sorted, n);
    if AllSameRank(sorted) {
      RunListIsSorted(RankOf(sorted[0]), n, n);
      assert RankList(sorted) == RunList(RankOf(sorted[0]), n, n);
    }
    if low :| RankList(sorted) == RunList(low, n, n) {
      RunListIsSorted(low, n, n);
      forall i | 0 <= i < n ensures RankOf(sorted[i]) == RankOf(sorted[0]) {
        assert RankList(sorted)[i] == low && RankList(sorted)[0] == low;
      }
    }
  }

  lemma {:induction false} StraightClimbs(sorted: seq<Card>, i: nat)
    requires IsStraight(sorted) && i < |sorted|
    ensures RankOf(sorted[i]) == RankOf(sorted[0]) + i
  {
    if i > 0 {
      StraightClimbs(sorted, i - 1);
    }
  }

  lemma StraightRun(sorted: seq<Card>)
    requires sorted != [] && NonDecreasing(sorted)
    ensures IsStraight(sorted) <==> NoTwo(sorted) && FormRun(sorted, 1)
  {
    hide FormRun, NonDecreasing;
    SortedRun(sorted, 1);
    if IsStraight(sorted) {
      forall i | 0 <= i < |sorted| ensures RankOf(sorted[i]) == RankOf(sorted[0]) + i {
        StraightClimbs(sorted, i);
      }
      assert RankList(sorted) == RunList(RankOf(sorted[0]), |sorted|, 1);
    }
    if low :| RankList(sorted) == RunList(low, |sorted|, 1) {
      forall i | 0 <= i < |sorted| ensures RankOf(sorted[i]) == low + i {
        assert RankList(sorted)[i] == RunList(low, |sorted|, 1)[i];
      }
    }
  }

  lemma {:induction false} PairStraightClimbs(sorted: seq<Card>, i: nat)
    requires |sorted| % 2 == 0 && IsPairStraight(sorted) && i < |sorted|
    ensures RankOf(sorted[i]) == RankOf(sorted[0]) + i / 2
  {
    if i >= 2 {
      PairStraightClimbs(sorted, i - 2);
      var even := i - i % 2;
      assert even % 2 == 0 && RankOf(sorted[even]) == RankOf(sorted[even - 2]) + 1;
      assert RankOf(sorted[even]) == RankOf(sorted[even + 1]);
      assert (even - 2) % 2 == 0 && RankOf(sorted[even - 2]) == RankOf(sorted[even - 1]);
    }
  }

  lemma PairStraightFormsRun(sorted: seq<Card>)
    requires sorted != [] && |sorted| % 2 == 0 && IsPairStraight(sorted)
    ensures RankList(sorted) == RunList(RankOf(sorted[0]), |sorted|, 2)
  {
    forall i | 0 <= i < |sorted| ensures RankList(sorted)[i] == RankOf(sorted[0]) + i / 2 {
      PairStraightClimbs(sorted, i);
    }
  }

  lemma RunIsPairStraight(sorted: seq<Card>, low: int)
    requires |sorted| % 2 == 0 && NoTwo(sorted) && RankList(sorted) == RunList(low, |sorted|, 2)
    ensures IsPairStraight(sorted)
  {
    forall i | 0 <= i < |sorted| ensures RankOf(sorted[i]) == low + i / 2 {
      assert RankList(sorted)[i] == RunList(low, |sorted|, 2)[i];
    }
  }

  lemma PairStraightRun(sorted: seq<Card>)
    requires sorted != [] && NonDecreasing(sorted) && |sorted| % 2 == 0
    ensures IsPairStraight(sorted) <==> NoTwo(sorted) && FormRun(sorted, 2)
  {
    SortedRun(sorted, 2);
    if IsPairStraight(sorted) {
      PairStraightFormsRun(sorted);
    }
    if NoTwo(sorted) {
      if low :| RankList(sorted) == RunList(low, |sorted|, 2) {
        RunIsPairStraight(sorted, low);
      }
    }
  }

  ghost predicate IsKind(cards: seq<Card>, kind: ComboType) {
    IdentifyCombo(cards).Some? && IdentifyCombo(cards).value.kind == kind
  }

  /**
   * Recognition, stated on the multiset of ranks alone: equal ranks for the small kinds, a
   * run of single ranks for a straight, a run of doubled ranks for consecutive pairs.
   */
  lemma MeaningOfKinds(cards: seq<Card>)
    requires cards != []
    ensures IsKind(cards, Single) <==> |cards| == 1
    ensures IsKind(cards, Pair) <==> |cards| == 2 && FormRun(cards, 2)
    ensures IsKind(cards, Triple) <==> |cards| == 3 && FormRun(cards, 3)
    ensures IsKind(cards, Four) <==> |cards| == 4 && FormRun(cards, 4)
    ensures IsKind(cards, Straight) <==> |cards| >= 3 && !HoldsTwo(cards) && FormRun(cards, 1)
    ensures IsKind(cards, PairStraight) <==>
            |cards| >= 6 && |cards| % 2 == 0 && !HoldsTwo(cards) && FormRun(cards, 2)
  {
    var sorted := Sort(cards);
    RankListPermutes(cards, sorted);
    NoTwoMeans(cards, sorted);
    FormRunTransfers(cards, sorted);
    KindsOfSorted(sorted);
    KindOfSorted(cards);
  }

  lemma KindOfSorted(cards: seq<Card>)
    requires cards != []
    ensures forall kind :: IsKind(cards, kind) <==> ClassifySorted(Sort(cards)) == Some(kind)
  {
  }

  lemma KindsOfSorted(sorted: seq<Card>)
    requires sorted != [] && NonDecreasing(sorted)
    ensures ClassifySorted(sorted) == Some(Single) <==> |sorted| == 1
    ensures ClassifySorted(sorted) == Some(Pair) <==> |sorted| == 2 && FormRun(sorted, 2)
    ensures ClassifySorted(sorted) == Some(Triple) <==> |sorted| == 3 && FormRun(sorted, 3)
    ensures ClassifySorted(sorted) == Some(Four) <==> |sorted| == 4 && FormRun(sorted, 4)
    ensures ClassifySorted(sorted) == Some(Straight) <==> |sorted| >= 3 && NoTwo(sorted) && FormRun(sorted, 1)
    ensures ClassifySorted(sorted) == Some(PairStraight) <==>
            |sorted| >= 6 && |sorted| % 2 == 0 && NoTwo(sorted) && FormRun(sorted, 2)
  {
    SameRankRun(sorted);
    StraightRun(sorted);
    if |sorted| % 2 == 0 {
      PairStraightRun(sorted);
    }
    if |sorted| >= 3 {
      KindsExclude(sorted);
    }
  }

  lemma FormRunTransfers(a: seq<Card>, b: seq<Card>)
    requires |a| == |b| && multiset(RankList(a)) == multiset(RankList(b))
    ensures forall copies: nat | copies > 0 :: FormRun(a, copies) <==> FormRun(b, copies)
  {
  }

  lemma NoTwoMeans(cards: seq<Card>, sorted: seq<Card>)
    requires multiset(cards) == multiset(sorted)
    ensures HoldsTwo(cards) <==> !NoTwo(sorted)
  {
    forall c ensures c in cards <==> c in sorted {
      assert c in multiset(cards) <==> c in multiset(sorted);
    }
    if !NoTwo(sorted) {
      var i :| 0 <= i < |sorted| && RankOf(sorted[i]) == TWO;
      assert sorted[i] in cards;
    }
  }

  lemma KindsExclude(sorted: seq<Card>)
    requires |sorted| >= 3
    ensures IsStraight(sorted) ==> !AllSameRank(sorted)
    ensures |sorted| >= 6 && |sorted| % 2 == 0 && IsPairStraight(sorted) ==> !AllSameRank(sorted) && !IsStraight(sorted)
  {
    if IsStraight(sorted) {
      assert RankOf(sorted[1]) == RankOf(sorted[0]) + 1;
    }
    if |sorted| >= 6 && |sorted| % 2 == 0 && IsPairStraight(sorted) {
      assert RankOf(sorted[0]) == RankOf(sorted[1]) && RankOf(sorted[2]) == RankOf(sorted[0]) + 1;
    }
  }

  // ---- properties of the beat relation ----

  /** The bomb tier of a combo: 4 consecutive pairs over a four over 3 consecutive pairs. */
  ghost function Tier(c: Combo): nat {
    if c.kind == PairStraight && PairStraightLength(c) == 4 then 3
    else if c.kind == Four then 2
    else if c.kind == PairStraight && PairStraightLength(c) == 3 then 1
    else 0
  }

  /** Rank order of combos: the tier first, then the top card. */
  ghost predicate Outranks(a: Combo, b: Combo) {
    Tier(a) > Tier(b) || (Tier(a) == Tier(b) && a.rankValue > b.rankValue)
  }

  lemma BeatRaisesRank(candidate: Combo, current: Combo)
    requires Recognised(candidate) && Recognised(current)
    requires CanBeat(candidate, current)
    ensures Outranks(candidate, current)
  {
    RecognisedShape(candidate);
    RecognisedShape(current);
  }

  ghost predicate SingleTwo(c: Combo) { c.kind == Single && RankOf(c.rankValue) == TWO }

  ghost predicate PairOfTwos(c: Combo) { c.kind == Pair && RankOf(c.rankValue) == TWO }

  ghost predicate PairRun(c: Combo, pairs: nat) { c.kind == PairStraight && c.length == 2 * pairs }

  /** The only beats across kinds: a four and runs of three and four pairs, each over its own victims. */
  ghost predicate Bombs(a: Combo, b: Combo) {
    || (a.kind == Four && (SingleTwo(b) || PairOfTwos(b) || PairRun(b, 3)))
    || (PairRun(a, 3) && SingleTwo(b))
    || (PairRun(a, 4) && (SingleTwo(b) || PairOfTwos(b) || b.kind == Four))
  }

  /** What beats what: within a kind the higher top card of as many cards, across kinds only bombs. */
  ghost predicate Beats(a: Combo, b: Combo) {
    if a.kind == b.kind then a.length == b.length && a.rankValue > b.rankValue else Bombs(a, b)
  }

  /** The order in which the code tests its cases comes to exactly that. */
  lemma CanBeatIff(candidate: Combo, current: Combo)
    requires Recognised(candidate) && Recognised(current)
    ensures CanBeat(candidate, current) <==> Beats(candidate, current)
  {
    RecognisedShape(candidate);
    RecognisedShape(current);
    TopRank(current);
    hide Recognised;
  }

  lemma TopRank(c: Combo)
    requires Recognised(c)
    ensures c.kind == Single || c.kind == Pair ==> RankOf(c.cards[0]) == RankOf(c.rankValue)
  {
  }

  /** Of two combos of one kind and length without a common card, exactly one beats the other. */
  lemma OneBeatsTheOther(a: Combo, b: Combo)
    requires Recognised(a) && Recognised(b) && a.kind == b.kind && a.length == b.length
    requires forall c :: c in a.cards ==> c !in b.cards
    ensures CanBeat(a, b) <==> !CanBeat(b, a)
  {
    CanBeatIff(a, b);
    CanBeatIff(b, a);
    assert a.rankValue in a.cards && b.rankValue in b.cards;
    hide CanBeat, ClassifySorted, NonDecreasing;
  }

  ghost predicate BeatChain(chain: seq<Combo>) {
    && (forall i :: 0 <= i < |chain| ==> Recognised(chain[i]))
    && (forall i :: 0 <= i < |chain| - 1 ==> CanBeat(chain[i + 1], chain[i]))
  }

  lemma {:induction false} ChainClimbs(chain: seq<Combo>)
    requires |chain| >= 2 && BeatChain(chain)
    ensures Outranks(chain[|chain| - 1], chain[0])
  {
    var n := |chain|;
    BeatRaisesRank(chain[n - 1], chain[n - 2]);
    if n > 2 {
      ChainClimbs(chain[..n - 1]);
    }
  }

  /** No sequence of beats, however long, leads back: the relation is acyclic. */
  lemma BeatIsAcyclic(chain: seq<Combo>)
    requires |chain| >= 1 && BeatChain(chain)
    ensures !CanBeat(chain[0], chain[|chain| - 1])
  {
    if CanBeat(chain[0], chain[|chain| - 1]) {
      BeatRaisesRank(chain[0], chain[|chain| - 1]);
      if |chain| >= 2 {
        ChainClimbs(chain);
      }
    }
  }

  /** The relation is not transitive: four pairs beat a four, a four beats three pairs. */
  lemma BeatIsNotTransitive() returns (a: Combo, b: Combo, c: Combo)
    ensures Recognised(a) && Recognised(b) && Recognised(c)
    ensures CanBeat(a, b) && CanBeat(b, c) && !CanBeat(a, c)
  {
    a := LowPairs(8);
    b := Combo(Four, [20, 21, 22, 23], 23, 4);
    c := LowPairs(6);
  }

  /** Of the runs of pairs exactly those of three and four pairs beat a single two. */
  lemma PairRunsBeatATwoIff(candidate: Combo, current: Combo)
    requires Recognised(candidate) && Recognised(current)
    requires candidate.kind == PairStraight && IsSingleTwo(current)
    ensures CanBeat(candidate, current) <==> PairStraightLength(candidate) == 3 || PairStraightLength(candidate) == 4
  {
    RecognisedShape(current);
  }

  /** Five consecutive pairs do not beat a two, although they count as a bomb. */
  lemma FivePairsDoNotBeatATwo() returns (five: Combo, two: Combo)
    ensures Recognised(five) && Recognised(two)
    ensures IsBomb(five) && PairStraightLength(five) == 5 && IsSingleTwo(two) && !CanBeat(five, two)
  {
    five := LowPairs(10);
    SingleIsRecognised(48);
    two := Combo(Single, [48], 48, 1);
  }

  /** The consecutive pairs 3 3 4 4 5 5 ..., in spades and clubs. */
  lemma LowPairs(n: nat) returns (c: Combo)
    requires 6 <= n <= 24 && n % 2 == 0
    ensures Recognised(c) && c.kind == PairStraight && c.length == n
  {
    var cards := LowPairCards(n);
    LowPairsFormRun(n);
    KindsExclude(cards);
    c := Combo(PairStraight, cards, cards[n - 1], n);
    hide AllSameRank, IsStraight, IsPairStraight, LowPairCards, NonDecreasing;
  }

  function LowPairCards(n: nat): (r: seq<Card>)
    ensures |r| == n && forall i :: 0 <= i < n ==> r[i] == i / 2 * 4 + i % 2
  {
    seq(n, i requires 0 <= i < n => i / 2 * 4 + i % 2)
  }

  lemma LowPairsFormRun(n: nat)
    requires 6 <= n <= 24 && n % 2 == 0
    ensures NonDecreasing(LowPairCards(n)) && IsPairStraight(LowPairCards(n))
  {
    hide LowPairCards;
    var cards := LowPairCards(n);
    forall i | 0 <= i < n ensures RankOf(cards[i]) == i / 2 {
    }
  }

  /** An accepted play over twos chops all of them exactly when it is of another type, else none. */
  lemma ChopsAllTwosOrNone(candidate: Combo, current: Combo)
    requires Recognised(candidate) && Recognised(current)
    requires IsSingleTwo(current) || IsPairTwo(current)
    requires CanBeat(candidate, current)
    ensures ChoppedHeoCards(candidate, Some(current)) == if candidate.kind != current.kind then current.cards else []
  {
    RecognisedShape(candidate);
    RecognisedShape(current);
    TwosKeepsAll(current.cards);
  }

  lemma {:induction false} TwosKeepsAll(cards: seq<Card>)
    requires forall i :: 0 <= i < |cards| ==> RankOf(cards[i]) == TWO
    ensures Twos(cards) == cards
  {
    if cards != [] {
      TwosKeepsAll(cards[1..]);
    }
  }

  // ---- properties of removal ----

  /** Removing a play from a dup-free hand splits the hand exactly into play and rest. */
  lemma RemovalSplitsHand(hand: seq<Card>, cards: seq<Card>)
    requires Increasing(hand)
    requires RemoveCards(hand, cards).Some?
    ensures Increasing(RemoveCards(hand, cards).value)
    ensures multiset(RemoveCards(hand, cards).value) + multiset(cards) == multiset(hand)
    ensures |RemoveCards(hand, cards).value| + |cards| == |hand|
  {
    var rest := RemoveCards(hand, cards).value;
    IncreasingIsDistinct(hand);
    IncreasingIsDistinct(rest);
    DistinctMultiset(hand);
    DistinctMultiset(rest);
    DistinctMultiset(cards);
    forall x ensures multiset(rest)[x] + multiset(cards)[x] == multiset(hand)[x] {
      assert x in rest <==> x in Elements(rest);
    }
    assert |hand| == |multiset(hand)| && |rest| == |multiset(rest)| && |cards| == |multiset(cards)|;
  }

  /** A play that names a card twice, or one not in the hand, is refused; every other is served. */
  lemma RemovalRefusesRepeats(hand: seq<Card>, cards: seq<Card>)
    ensures RemoveCards(hand, cards).Some? <==> Distinct(cards) && multiset(cards) <= multiset(hand)
  {
    if Distinct(cards) {
      DistinctMultiset(cards);
      if forall c :: c in cards ==> c in hand {
        forall c ensures multiset(cards)[c] <= multiset(hand)[c] {
          if c in cards {
            assert c in multiset(hand);
          }
        }
      }
      if multiset(cards) <= multiset(hand) {
        forall c | c in cards ensures c in hand {
          assert c in multiset(cards) && c in multiset(hand);
        }
      }
    }
  }
}

/** The Set deck: the game object that generates the 81 card contents,
    numbers them as cards and shuffles them, and the facts about the
    resulting deck. */
module SetGameDeck {
  import opened CardContents

  /** The contents in the order the four nested loops of CreateCardsContent
      produce them (colour outermost, then shape, shading and number). */
  function AllContents(): (r: seq<CardContent>)
    ensures |r| == 3 * 3 * 3 * 3
  {
    seq(81, i requires 0 <= i < 81 => ContentAt(i))
  }

  /** The cards before shuffling: card `i` carries content `i` and id `i`. */
  function NumberedCards(content: seq<CardContent>): (r: seq<Card>)
    ensures |r| == |content|
    ensures forall i :: 0 <= i < |r| ==>
      r[i].id == i && r[i].content == content[i] && !r[i].isChosen && !r[i].isMatched
  {
    seq(|content|, i requires 0 <= i < |content| => NewCard(i, content[i]))
  }

  /** Numbering one more content adds one card at the end. */
  lemma NumberedCardsSnoc(content: seq<CardContent>, k: nat)
    requires k < |content|
    ensures NumberedCards(content[..k + 1]) == NumberedCards(content[..k]) + [NewCard(k, content[k])]
  {
  }

  /** The combination (colour ci, shape si, shading hi, number ni), each
      indexed in declaration order, sits at 27*ci + 9*si + 3*hi + ni. */
  lemma AllContentsAt(ci: nat, si: nat, hi: nat, ni: nat)
    requires ci < 3 && si < 3 && hi < 3 && ni < 3
    ensures 27 * ci + 9 * si + 3 * hi + ni < |AllContents()|
    ensures AllContents()[27 * ci + 9 * si + 3 * hi + ni]
         == CardContent(AllNumbers[ni], AllShapes[si], AllShadings[hi], AllColors[ci])
  {
    ContentAtDigits(ci, si, hi, ni);
  }

  /** One step of the innermost loop of CreateCardsContent: appending the
      combination (ci, si, hi, ni) extends the generated prefix by one. */
  lemma AllContentsStep(ci: nat, si: nat, hi: nat, ni: nat)
    requires ci < 3 && si < 3 && hi < 3 && ni < 3
    ensures 27 * ci + 9 * si + 3 * hi + ni < 81
    ensures AllContents()[..27 * ci + 9 * si + 3 * hi + ni]
         + [CardContent(AllNumbers[ni], AllShapes[si], AllShadings[hi], AllColors[ci])]
         == AllContents()[..27 * ci + 9 * si + 3 * hi + ni + 1]
  {
    var k := 27 * ci + 9 * si + 3 * hi + ni;
    AllContentsAt(ci, si, hi, ni);
    assert AllContents()[..k + 1] == AllContents()[..k] + [AllContents()[k]];
  }

  /** Every combination of the four attributes occurs, at its closed-form index. */
  lemma AllContentsComplete(c: CardContent)
    ensures c in AllContents()
    ensures AllContents()[ContentIndex(c)] == c
  {
    assert AllContents()[ContentIndex(c)] == c;
  }

  /** No content occurs twice. */
  lemma AllContentsDistinct()
    ensures Distinct(AllContents())
  {
    var s := AllContents();
    forall i, j | 0 <= i < j < |s| ensures s[i] != s[j] {
      ContentIndexOfContentAt(i);
      ContentIndexOfContentAt(j);
    }
  }

  ghost predicate Distinct<T>(s: seq<T>)
  {
    forall i, j :: 0 <= i < j < |s| ==> s[i] != s[j]
  }

  /** The numbered cards have pairwise different ids, hence are distinct. */
  lemma NumberedCardsDistinct(content: seq<CardContent>)
    ensures Distinct(NumberedCards(content))
  {
  }

  /** A value found at two different positions is counted at least twice. */
  lemma {:induction false} RepeatedCount<T>(s: seq<T>, i: nat, j: nat)
    requires i < j < |s| && s[i] == s[j]
    ensures multiset(s)[s[i]] >= 2
  {
    assert s == s[..j] + s[j..];
    assert s[i] in s[..j] && s[j] in s[j..];
  }

  /** In a sequence without repetitions every value is counted at most once. */
  lemma {:induction false} DistinctCount<T>(s: seq<T>, x: T)
    requires Distinct(s)
    ensures multiset(s)[x] <= 1
  {
    if s != [] {
      var init := s[..|s| - 1];
      assert s == init + [s[|s| - 1]];
      assert Distinct(init);
      DistinctCount(init, x);
      if x == s[|s| - 1] {
        assert x !in init;
      }
    }
  }

  /** A permutation of a sequence without repetitions has none either. */
  lemma PermutationDistinct<T>(s: seq<T>, t: seq<T>)
    requires multiset(t) == multiset(s) && Distinct(s)
    ensures Distinct(t)
  {
    forall i, j | 0 <= i < j < |t| ensures t[i] != t[j] {
      if t[i] == t[j] {
        RepeatedCount(t, i, j);
        DistinctCount(s, t[i]);
      }
    }
  }

  /** The ids of the cards, in card order. */
  function Ids(cards: seq<Card>): seq<int>
  {
    seq(|cards|, i requires 0 <= i < |cards| => cards[i].id)
  }

  /** The contents of the cards, in card order. */
  function ContentsOf(cards: seq<Card>): seq<CardContent>
  {
    seq(|cards|, i requires 0 <= i < |cards| => cards[i].content)
  }

  /** `cards.shuffle()`: some reordering of the cards. Which one is left open. */
  method Shuffle(cards: seq<Card>) returns (r: seq<Card>)
    ensures multiset(r) == multiset(cards)
  {
    assert multiset(cards) == multiset(cards);
    r :| multiset(r) == multiset(cards);
  }

  /** Every card of a shuffled numbered deck is the numbered card its id names. */
  lemma ShuffledCardsNumbered(cards: seq<Card>, content: seq<CardContent>)
    requires multiset(cards) == multiset(NumberedCards(content))
    ensures |cards| == |content|
    ensures forall i :: 0 <= i < |cards| ==>
      0 <= cards[i].id < |content| && cards[i] == NewCard(cards[i].id, content[cards[i].id])
  {
    var deck := NumberedCards(content);
    assert |cards| == |multiset(cards)| == |multiset(deck)| == |content|;
    forall i | 0 <= i < |cards|
      ensures 0 <= cards[i].id < |content| && cards[i] == NewCard(cards[i].id, content[cards[i].id])
    {
      assert cards[i] in multiset(deck);
      var k :| 0 <= k < |deck| && deck[k] == cards[i];
    }
  }

  /** Every id of the numbered deck is on some card of a shuffle of it. */
  lemma ShuffledIdsCovered(cards: seq<Card>, content: seq<CardContent>)
    requires multiset(cards) == multiset(NumberedCards(content))
    ensures forall id :: 0 <= id < |content| ==> id in Ids(cards)
  {
    var deck := NumberedCards(content);
    forall id | 0 <= id < |content| ensures id in Ids(cards) {
      assert deck[id] in multiset(cards);
      var i :| 0 <= i < |cards| && cards[i] == deck[id];
      assert Ids(cards)[i] == id;
    }
  }

  /** What holds of any shuffle of the numbered full deck: 81 cards, ids
      exactly 0..80 each once, each id still paired with its content, both
      flags cleared, and every combination on exactly one card. */
  lemma DealtDeck(cards: seq<Card>)
    requires multiset(cards) == multiset(NumberedCards(AllContents()))
    ensures |cards| == 81
    ensures forall i :: 0 <= i < |cards| ==>
      0 <= cards[i].id < 81 && cards[i].content == AllContents()[cards[i].id]
      && !cards[i].isChosen && !cards[i].isMatched
    ensures forall i, j :: 0 <= i < j < |cards| ==> cards[i].id != cards[j].id
    ensures forall i, j :: 0 <= i < j < |cards| ==> cards[i].content != cards[j].content
    ensures forall id :: 0 <= id < 81 ==> id in Ids(cards)
    ensures forall c: CardContent :: c in ContentsOf(cards)
  {
    var deck := NumberedCards(AllContents());
    ShuffledCardsNumbered(cards, AllContents());
    ShuffledIdsCovered(cards, AllContents());
    NumberedCardsDistinct(AllContents());
    PermutationDistinct(deck, cards);
    AllContentsDistinct();
    forall c: CardContent ensures c in ContentsOf(cards) {
      AllContentsComplete(c);
      var id := ContentIndex(c);
      assert id in Ids(cards);
      var i :| 0 <= i < |Ids(cards)| && Ids(cards)[i] == id;
      assert cards[i] == NewCard(id, AllContents()[id]);
      assert ContentsOf(cards)[i] == c;
    }
  }

  /** `SetGame`: the shuffled cards, and the contents they were made from. */
  class SetGame {
    var cards: seq<Card>
    var content: seq<CardContent>

    /** `init()`: generate the contents, number them as cards, shuffle. */
    constructor ()
      ensures content == AllContents()
      ensures multiset(cards) == multiset(NumberedCards(content))
      ensures |cards| == 81
      ensures forall i :: 0 <= i < |cards| ==>
        0 <= cards[i].id < 81 && cards[i].content == content[cards[i].id]
        && !cards[i].isChosen && !cards[i].isMatched
      ensures forall i, j :: 0 <= i < j < |cards| ==> cards[i].id != cards[j].id
    {
      cards := [];
      content := [];
      new;
      CreateCardsContent();
      for numberOnCard := 0 to |content|
        invariant content == AllContents()
        invariant cards == NumberedCards(content[..numberOnCard])
      {
        NumberedCardsSnoc(content, numberOnCard);
        cards := cards + [NewCard(numberOnCard, content[numberOnCard])];
      }
      assert content[..|content|] == content;
      cards := Shuffle(cards);
      DealtDeck(cards);
    }

    /** Appends every combination, colour outermost, number innermost. */
    method CreateCardsContent()
      modifies this`content
      ensures content == old(content) + AllContents()
    {
      for ci := 0 to |AllColors|
        invariant content == old(content) + AllContents()[..27 * ci]
      {
        var color := AllColors[ci];
        for si := 0 to |AllShapes|
          invariant content == old(content) + AllContents()[..27 * ci + 9 * si]
        {
          var shape := AllShapes[si];
          for hi := 0 to |AllShadings|
            invariant content == old(content) + AllContents()[..27 * ci + 9 * si + 3 * hi]
          {
            var shading := AllShadings[hi];
            for ni := 0 to |AllNumbers|
              invariant content == old(content) + AllContents()[..27 * ci + 9 * si + 3 * hi + ni]
            {
              var numberOfShapes := AllNumbers[ni];
              AllContentsStep(ci, si, hi, ni);
              content := content + [CardContent(numberOfShapes, shape, shading, color)];
            }
          }
        }
      }
      assert AllContents()[..81] == AllContents();
    }
  }
}

/** The memory card game (神経衰弱): a shuffled deck of symbol pairs, two
    cards turned at a time, a streak bonus, a limited number of hints and a
    running clock shown as mm:ss. */
module MemoryGame {
  import opened Text

  /** A card. Every symbol of the game is a single emoji code point, so a
      symbol is a `char`. */
  datatype Card = Card(id: int, symbol: char, matched: bool)

  datatype GameConfig = GameConfig(pairs: nat, symbols: seq<char>, initialPeekTime: nat, hintAllowed: nat)

  datatype GameState = Menu | Matching | Success

  datatype GridSize = GridSize(cols: nat, rows: nat)

  /** The values the menu buttons give `gameLevel` and `theme`. */
  datatype Level = Easy | Medium | Hard

  datatype Theme = FruitsTheme | AnimalsTheme | FacesTheme

  // 🍎 🍊 🍇 🍉 🍌 🍒 🍓 🍍
  const Fruits: seq<char> := ['\U{1F34E}', '\U{1F34A}', '\U{1F347}', '\U{1F349}', '\U{1F34C}', '\U{1F352}', '\U{1F353}', '\U{1F34D}']
  // 🐶 🐱 🐭 🐰 🦊 🐻 🐼 🐨
  const Animals: seq<char> := ['\U{1F436}', '\U{1F431}', '\U{1F42D}', '\U{1F430}', '\U{1F98A}', '\U{1F43B}', '\U{1F43C}', '\U{1F428}']
  // 😀 😂 🥰 😎 🤔 😴 🥳 😋
  const Faces: seq<char> := ['\U{1F600}', '\U{1F602}', '\U{1F970}', '\U{1F60E}', '\U{1F914}', '\U{1F634}', '\U{1F973}', '\U{1F60B}']

  /** The eight symbols of a theme. */
  function ThemeSymbols(theme: Theme): (r: seq<char>)
    ensures |r| == 8
  {
    match theme
    case FruitsTheme => Fruits
    case AnimalsTheme => Animals
    case FacesTheme => Faces
  }

  /** The level settings: the number of pairs (taken from the front of the
      theme's symbols), the seconds of the initial peek and the hints allowed. */
  function GetGameConfig(level: Level, theme: Theme): (c: GameConfig)
    ensures c.pairs <= 8 && c.pairs == |c.symbols| && c.symbols == ThemeSymbols(theme)[..c.pairs]
    ensures level == Easy ==> c.pairs == 4 && c.initialPeekTime == 3 && c.hintAllowed == 2
    ensures level == Medium ==> c.pairs == 6 && c.initialPeekTime == 2 && c.hintAllowed == 1
    ensures level == Hard ==> c.pairs == 8 && c.initialPeekTime == 1 && c.hintAllowed == 1
  {
    var all := ThemeSymbols(theme);
    match level
    case Easy => GameConfig(4, all[..4], 3, 2)
    case Medium => GameConfig(6, all[..6], 2, 1)
    case Hard => GameConfig(8, all, 1, 1)
  }

  /** No two cards of a theme show the same symbol. */
  lemma ThemeSymbolsDistinct(theme: Theme)
    ensures Distinct(ThemeSymbols(theme))
  {
  }

  predicate Distinct<T(==)>(s: seq<T>)
  {
    forall i, j :: 0 <= i < j < |s| ==> s[i] != s[j]
  }

  function IdsOf(d: seq<Card>): seq<int>
  {
    seq(|d|, i requires 0 <= i < |d| => d[i].id)
  }

  function SymbolsOf(d: seq<Card>): seq<char>
  {
    seq(|d|, i requires 0 <= i < |d| => d[i].symbol)
  }

  /** The deck before shuffling: for each symbol in order, two cards with the
      next two ids. */
  function PairList(symbols: seq<char>, ids: seq<int>): (d: seq<Card>)
    requires |ids| == 2 * |symbols|
    ensures |d| == 2 * |symbols|
    decreases |symbols|
  {
    if symbols == [] then []
    else
      var n := |symbols|;
      PairList(symbols[..n - 1], ids[..2 * n - 2])
        + [Card(ids[2 * n - 2], symbols[n - 1], false), Card(ids[2 * n - 1], symbols[n - 1], false)]
  }

  /** The deck holds exactly two cards of every symbol and the given ids in order. */
  lemma {:induction false} PairListContents(symbols: seq<char>, ids: seq<int>)
    requires |ids| == 2 * |symbols|
    ensures multiset(SymbolsOf(PairList(symbols, ids))) == multiset(symbols) + multiset(symbols)
    ensures IdsOf(PairList(symbols, ids)) == ids
    decreases |symbols|
  {
    if symbols != [] {
      var n := |symbols|;
      var front, frontIds := symbols[..n - 1], ids[..2 * n - 2];
      PairListContents(front, frontIds);
      var d := PairList(symbols, ids);
      var last := [Card(ids[2 * n - 2], symbols[n - 1], false), Card(ids[2 * n - 1], symbols[n - 1], false)];
      assert d == PairList(front, frontIds) + last;
      assert SymbolsOf(d) == SymbolsOf(PairList(front, frontIds)) + [symbols[n - 1], symbols[n - 1]];
      assert symbols == front + [symbols[n - 1]];
      assert IdsOf(d) == IdsOf(PairList(front, frontIds)) + [ids[2 * n - 2], ids[2 * n - 1]];
      assert ids == frontIds + [ids[2 * n - 2], ids[2 * n - 1]];
    }
  }

  function SwapAt<T>(s: seq<T>, i: nat, j: nat): (r: seq<T>)
    requires i < |s| && j < |s|
    ensures |r| == |s|
  {
    s[i := s[j]][j := s[i]]
  }

  lemma SwapPermutes<T>(s: seq<T>, i: nat, j: nat)
    requires i < |s| && j < |s|
    ensures multiset(SwapAt(s, i, j)) == multiset(s)
  {
  }

  /** The random draws of the shuffle: position i is swapped with a position
      `choices[i]` at or below it, as `Math.floor(Math.random() * (i + 1))` gives. */
  predicate ValidChoices(n: nat, choices: seq<nat>)
  {
    |choices| == n && forall i :: 0 <= i < n ==> choices[i] <= i
  }

  /** Fisher–Yates over the top `k` positions: for i = k-1 down to 1, swap
      position i with position `choices[i]`. */
  function ShuffleTop<T>(s: seq<T>, choices: seq<nat>, k: nat): (r: seq<T>)
    requires k <= |s| && ValidChoices(|s|, choices)
    ensures |r| == |s|
    decreases k
  {
    if k <= 1 then s else ShuffleTop(SwapAt(s, k - 1, choices[k - 1]), choices, k - 1)
  }

  /** Shuffling only swaps, so the deck it gives is a permutation of its input. */
  lemma {:induction false} ShufflePermutes<T>(s: seq<T>, choices: seq<nat>, k: nat)
    requires k <= |s| && ValidChoices(|s|, choices)
    ensures multiset(ShuffleTop(s, choices, k)) == multiset(s)
    decreases k
  {
    if k > 1 {
      SwapPermutes(s, k - 1, choices[k - 1]);
      ShufflePermutes(SwapAt(s, k - 1, choices[k - 1]), choices, k - 1);
    }
  }

  /** The in-place shuffle loop of `initializeGame`. */
  method Shuffle(a: array<Card>, choices: seq<nat>)
    requires ValidChoices(a.Length, choices)
    modifies a
    ensures a[..] == ShuffleTop(old(a[..]), choices, a.Length)
    ensures multiset(a[..]) == multiset(old(a[..]))
  {
    if a.Length > 0 {
      var i := a.Length - 1;
      while i > 0
        invariant 0 <= i < a.Length
        invariant ShuffleTop(a[..], choices, i + 1) == ShuffleTop(old(a[..]), choices, a.Length)
      {
        var j := choices[i];
        ghost var before := a[..];
        a[i], a[j] := a[j], a[i];
        assert a[..] == SwapAt(before, i, j);
        i := i - 1;
      }
    }
    ShufflePermutes(old(a[..]), choices, a.Length);
  }

  /** The push loop of `initializeGame`: two cards per symbol, in order. */
  method BuildDeck(symbols: seq<char>, ids: seq<int>) returns (d: seq<Card>)
    requires |ids| == 2 * |symbols|
    ensures d == PairList(symbols, ids)
    ensures multiset(SymbolsOf(d)) == multiset(symbols) + multiset(symbols)
    ensures IdsOf(d) == ids
  {
    d := [];
    for k := 0 to |symbols|
      invariant d == PairList(symbols[..k], ids[..2 * k])
    {
      assert symbols[..k + 1][..k] == symbols[..k];
      assert ids[..2 * (k + 1)][..2 * k] == ids[..2 * k];
      d := d + [Card(ids[2 * k], symbols[k], false)];
      d := d + [Card(ids[2 * k + 1], symbols[k], false)];
    }
    assert symbols[..|symbols|] == symbols && ids[..2 * |symbols|] == ids;
    PairListContents(symbols, ids);
  }

  /** The deck copied into an array and shuffled there. */
  method ShuffledDeck(d: seq<Card>, choices: seq<nat>) returns (r: seq<Card>)
    requires ValidChoices(|d|, choices)
    ensures r == ShuffleTop(d, choices, |d|)
    ensures multiset(r) == multiset(d)
  {
    var a := new Card[|d|](i requires 0 <= i < |d| => d[i]);
    assert a[..] == d;
    Shuffle(a, choices);
    r := a[..];
  }

  /** The deck of a new game: built, then shuffled. It holds two cards of
      every symbol, and its ids are the given ones, reordered. */
  method NewDeck(symbols: seq<char>, ids: seq<int>, choices: seq<nat>) returns (d: seq<Card>)
    requires |ids| == 2 * |symbols| && Distinct(ids) && ValidChoices(|ids|, choices)
    ensures d == ShuffleTop(PairList(symbols, ids), choices, |ids|)
    ensures |d| == 2 * |symbols|
    ensures multiset(SymbolsOf(d)) == multiset(symbols) + multiset(symbols)
    ensures multiset(IdsOf(d)) == multiset(ids)
    ensures Distinct(IdsOf(d))
  {
    var cardPairs := BuildDeck(symbols, ids);
    d := ShuffledDeck(cardPairs, choices);
    ShuffleCommutes(cardPairs, choices, |cardPairs|);
    ShufflePermutes(SymbolsOf(cardPairs), choices, |cardPairs|);
    ShufflePermutes(IdsOf(cardPairs), choices, |cardPairs|);
    ShuffleKeepsIdsDistinct(cardPairs, choices, |cardPairs|);
  }

  /** `cards.find(card => card.id === id)`: the first card with that id. */
  function FindCard(d: seq<Card>, id: int): (c: Card)
    requires id in IdsOf(d)
    ensures c in d && c.id == id
    decreases |d|
  {
    IdsOfCons(d);
    if d[0].id == id then d[0] else FindCard(d[1..], id)
  }

  lemma IdsOfCons(d: seq<Card>)
    requires d != []
    ensures IdsOf(d) == [d[0].id] + IdsOf(d[1..])
  {
  }

  /** The points a match earns: 20, plus 5 per streak step, plus a speed bonus
      of 10 that drops by one every 10 seconds and never goes below 0. */
  function MatchPoints(newStreak: nat, timer: nat): (p: nat)
    ensures 20 + 5 * newStreak <= p <= 30 + 5 * newStreak
    ensures timer >= 100 ==> p == 20 + 5 * newStreak
  {
    var timeBonus := if 10 - timer / 10 > 0 then 10 - timer / 10 else 0;
    20 + 5 * newStreak + timeBonus
  }

  function Max(a: int, b: int): int
  {
    if a >= b then a else b
  }

  /** A distinct list holds as many elements as its set. */
  lemma {:induction false} DistinctCard<T>(s: seq<T>)
    requires Distinct(s)
    ensures |set x | x in s| == |s|
    decreases |s|
  {
    if s != [] {
      var t := s[1..];
      assert Distinct(t) by {
        forall i, j | 0 <= i < j < |t| ensures t[i] != t[j] { assert t[i] == s[i + 1] && t[j] == s[j + 1]; }
      }
      DistinctCard(t);
      assert (set x | x in s) == (set x | x in t) + {s[0]};
      assert s[0] !in t by {
        forall k | 0 <= k < |t| ensures t[k] != s[0] { assert t[k] == s[k + 1]; }
      }
    }
  }

  /** Matched ids are distinct ids of the deck, so they number at most the
      deck's size, and they number exactly the deck's size precisely when
      every card of the deck is matched. */
  lemma AllMatchedIffCovered(deckIds: seq<int>, matched: seq<int>)
    requires Distinct(deckIds) && Distinct(matched)
    requires forall id :: id in matched ==> id in deckIds
    ensures |matched| <= |deckIds|
    ensures |matched| == |deckIds| <==> forall id :: id in deckIds ==> id in matched
  {
    DistinctCard(deckIds);
    DistinctCard(matched);
    var m, d := set x | x in matched, set x | x in deckIds;
    var rest := d - m;
    assert d == m + rest && m * rest == {};
    assert |d| == |m| + |rest|;
    if |matched| == |deckIds| {
      assert rest == {};
      forall id | id in deckIds ensures id in matched { assert id in d; }
    }
    if forall id :: id in deckIds ==> id in matched {
      assert d <= m;
      assert rest == {};
    }
  }

  /** `formatTime`: minutes and seconds, each padded to two digits, joined by ':'. */
  function FormatTime(time: nat): (r: string)
  {
    PadStart(NatToString(time / 60), 2, '0') + ":" + PadStart(NatToString(time % 60), 2, '0')
  }

  /** Leading zeros do not change a number. */
  lemma {:induction false} PaddedValue(s: string)
    requires AllDigits(s) && |s| >= 1
    ensures AllDigits(PadStart(s, 2, '0'))
    ensures DigitsValue(PadStart(s, 2, '0')) == DigitsValue(s)
  {
    if |s| == 1 {
      var p := PadStart(s, 2, '0');
      assert p == ['0', s[0]];
      assert p[..1] == ['0'];
      assert ['0'][..0] == [];
    }
  }

  /** A number below 100 is shown as exactly two digits. */
  lemma TwoDigits(n: nat)
    requires n < 100
    ensures |PadStart(NatToString(n), 2, '0')| == 2
    ensures AllDigits(PadStart(NatToString(n), 2, '0'))
    ensures DigitsValue(PadStart(NatToString(n), 2, '0')) == n
  {
    assert |NatToString(n)| <= 2;
    PaddedValue(NatToString(n));
    NatToStringRoundTrip(n);
  }

  /** What `formatTime` shows: at least "mm:ss", the colon third from the end,
      the minutes before it and the seconds (two digits) after it. */
  lemma FormatTimeReadsBack(time: nat)
    ensures var r := FormatTime(time);
      && |r| >= 5 && r[|r| - 3] == ':'
      && AllDigits(r[..|r| - 3]) && AllDigits(r[|r| - 2..])
      && DigitsValue(r[..|r| - 3]) == time / 60
      && DigitsValue(r[|r| - 2..]) == time % 60
  {
    var mm := NatToString(time / 60);
    PaddedValue(mm);
    NatToStringRoundTrip(time / 60);
    TwoDigits(time % 60);
    JoinedAtColon(PadStart(mm, 2, '0'), PadStart(NatToString(time % 60), 2, '0'));
  }

  /** The two halves of "a:b" read back from either side of the colon. */
  lemma JoinedAtColon(a: string, b: string)
    requires |b| == 2
    ensures var r := a + ":" + b;
      && |r| == |a| + 3 && r[|r| - 3] == ':' && r[..|r| - 3] == a && r[|r| - 2..] == b
  {
  }

  /** `getGridSize`: four columns, and two, three or four rows for at most 8,
      at most 12, or more cards. */
  function GetGridSize(level: Level, theme: Theme): (g: GridSize)
  {
    var totalCards := GetGameConfig(level, theme).pairs * 2;
    if totalCards <= 8 then GridSize(4, 2)
    else if totalCards <= 12 then GridSize(4, 3)
    else GridSize(4, 4)
  }

  /** For every level the grid has exactly one cell per card. */
  lemma GridFitsDeck(level: Level, theme: Theme)
    ensures GetGridSize(level, theme).cols * GetGridSize(level, theme).rows
            == 2 * GetGameConfig(level, theme).pairs
  {
  }

  /** The part of the game state a card click reads and writes. */
  datatype Board = Board(
    flipped: seq<int>, matched: seq<int>, moves: nat, streak: nat, bestStreak: nat,
    score: int, isRunning: bool, pendingFlipBack: nat, pendingSuccess: nat)

  /** Matched ids come in pairs, each pair two cards of equal symbol, in the
      order the pairs were found. */
  predicate PairedUp(deck: seq<Card>, m: seq<int>)
    requires forall id :: id in m ==> id in IdsOf(deck)
  {
    && |m| % 2 == 0
    && forall i :: 0 <= i < |m| - 1 && i % 2 == 0 ==> FindCard(deck, m[i]).symbol == FindCard(deck, m[i + 1]).symbol
  }

  /** The ids of the deck are distinct; `matched` and `flipped` hold distinct
      deck ids and never share one; matched cards pair up by symbol; at most
      two cards are turned; the score
      is not negative and the streak never exceeds the best streak; and while
      a game is being played and its end is not yet scheduled, the clock runs
      exactly while some card is unmatched. */
  predicate BoardInv(deck: seq<Card>, b: Board, playing: bool)
  {
    && Distinct(IdsOf(deck)) && Distinct(b.matched) && Distinct(b.flipped)
    && (forall id :: id in b.matched ==> id in IdsOf(deck))
    && PairedUp(deck, b.matched)
    && (forall id :: id in b.flipped ==> id in IdsOf(deck) && id !in b.matched)
    && |b.flipped| <= 2
    && b.score >= 0
    && b.streak <= b.bestStreak
    && (playing && b.pendingSuccess == 0 ==> (b.isRunning <==> |b.matched| < |deck|))
  }

  /** A click on card `cardId`, as `handleCardClick` handles it: ignored
      when the card is turned or matched, when two cards are turned or when
      all cards are shown; otherwise the card is turned, and a second turned
      card is compared with the first. */
  function Click(deck: seq<Card>, b: Board, cardId: int, timer: nat, showAllCards: bool): (r: Board)
    requires cardId in IdsOf(deck) && forall id :: id in b.flipped ==> id in IdsOf(deck)
  {
    if cardId in b.flipped || cardId in b.matched || |b.flipped| >= 2 || showAllCards then b
    else
      var turned := b.(flipped := b.flipped + [cardId]);
      if |turned.flipped| == 2 then ComparePair(deck, turned, timer) else turned
  }

  /** Two turned cards: one more move; equal symbols join `matched`, grow
      the streak and earn `MatchPoints`, and the last pair stops the clock
      and schedules the success screen; different symbols reset the streak
      and schedule turning the cards back. */
  function ComparePair(deck: seq<Card>, b: Board, timer: nat): (r: Board)
    requires |b.flipped| == 2 && forall id :: id in b.flipped ==> id in IdsOf(deck)
  {
    var first, second := b.flipped[0], b.flipped[1];
    var moved := b.(moves := b.moves + 1);
    if FindCard(deck, first).symbol == FindCard(deck, second).symbol then
      var newMatched := b.matched + [first, second];
      var newStreak := b.streak + 1;
      var done := |newMatched| == |deck|;
      moved.(matched := newMatched, flipped := [], streak := newStreak,
             bestStreak := if newStreak > b.bestStreak then newStreak else b.bestStreak,
             score := b.score + MatchPoints(newStreak, timer),
             isRunning := if done then false else b.isRunning,
             pendingSuccess := if done then b.pendingSuccess + 1 else b.pendingSuccess)
    else
      moved.(streak := 0, pendingFlipBack := b.pendingFlipBack + 1)
  }

  /** Appending a pair of cards with equal symbols keeps the matched ids paired up. */
  lemma PairedUpAppend(deck: seq<Card>, m: seq<int>, first: int, second: int)
    requires forall id :: id in m ==> id in IdsOf(deck)
    requires first in IdsOf(deck) && second in IdsOf(deck) && PairedUp(deck, m)
    requires FindCard(deck, first).symbol == FindCard(deck, second).symbol
    ensures forall id :: id in m + [first, second] ==> id in IdsOf(deck)
    ensures PairedUp(deck, m + [first, second])
  {
    var n := m + [first, second];
    forall i | 0 <= i < |n| - 1 && i % 2 == 0
      ensures FindCard(deck, n[i]).symbol == FindCard(deck, n[i + 1]).symbol
    {
      if i < |m| {
        assert n[i] == m[i] && n[i + 1] == m[i + 1];
      }
    }
  }

  /** Every click keeps the board invariant. */
  lemma ClickKeepsInv(deck: seq<Card>, b: Board, cardId: int, timer: nat, showAllCards: bool)
    requires BoardInv(deck, b, true) && cardId in IdsOf(deck)
    ensures BoardInv(deck, Click(deck, b, cardId, timer, showAllCards), true)
  {
    var r := Click(deck, b, cardId, timer, showAllCards);
    if !(cardId in b.flipped || cardId in b.matched || |b.flipped| >= 2 || showAllCards) && |b.flipped| == 1 {
      var first := b.flipped[0];
      if FindCard(deck, first).symbol == FindCard(deck, cardId).symbol {
        var m := b.matched + [first, cardId];
        assert Distinct(m) by {
          forall i, j | 0 <= i < j < |m| ensures m[i] != m[j] {
            if j < |b.matched| {
            } else if i < |b.matched| {
              assert m[i] in b.matched;
            }
          }
        }
        AllMatchedIffCovered(IdsOf(deck), m);
        PairedUpAppend(deck, b.matched, first, cardId);
      }
    }
  }

  /** What one click does: it is ignored when the card is turned or matched,
      two cards are turned or all cards are shown; otherwise the first card of
      a turn only turns, and the second counts a move and either matches (two
      ids join `matched`, the streak grows by one and the score by
      `MatchPoints`) exactly when the two symbols are equal, or resets the
      streak with the score unchanged and schedules turning both cards back;
      the best streak is the larger of the old best and the new streak. */
  lemma ClickOutcome(deck: seq<Card>, b: Board, cardId: int, timer: nat, showAllCards: bool)
    requires cardId in IdsOf(deck) && forall id :: id in b.flipped ==> id in IdsOf(deck)
    ensures var r := Click(deck, b, cardId, timer, showAllCards);
      && (cardId in b.flipped || cardId in b.matched || |b.flipped| >= 2 || showAllCards ==> r == b)
      && b.matched <= r.matched
      && (r.matched != b.matched ==> |b.flipped| == 1 && r.matched == b.matched + [b.flipped[0], cardId])
      && (r.matched != b.matched <==> r.streak == b.streak + 1 && r.moves == b.moves + 1)
      && (r.matched != b.matched ==> r.score == b.score + MatchPoints(r.streak, timer) && r.flipped == [])
      && (r.matched == b.matched ==> r.score == b.score)
      && r.score >= b.score
      && (r.moves == b.moves + 1 <==> !(cardId in b.flipped || cardId in b.matched || showAllCards) && |b.flipped| == 1)
      && (r.moves != b.moves + 1 ==> r.moves == b.moves)
      && (!(cardId in b.flipped || cardId in b.matched || showAllCards) && |b.flipped| == 0 ==>
            r == b.(flipped := [cardId]))
      && (!(cardId in b.flipped || cardId in b.matched || showAllCards) && |b.flipped| == 1 ==>
            && (r.matched != b.matched <==> FindCard(deck, b.flipped[0]).symbol == FindCard(deck, cardId).symbol)
            && r.bestStreak == Max(b.bestStreak, r.streak)
            && (r.matched == b.matched ==>
                  r.streak == 0 && r.flipped == [b.flipped[0], cardId] && r.pendingFlipBack == b.pendingFlipBack + 1))
  {
  }

  /** For a game not yet finished, the click stops the clock exactly when
      it matches the last pair. */
  lemma ClickFinishesWhenAllMatched(deck: seq<Card>, b: Board, cardId: int, timer: nat, showAllCards: bool)
    requires BoardInv(deck, b, true) && cardId in IdsOf(deck) && b.isRunning && b.pendingSuccess == 0
    ensures var r := Click(deck, b, cardId, timer, showAllCards);
      && (!r.isRunning <==> forall id :: id in IdsOf(deck) ==> id in r.matched)
      && (!r.isRunning <==> r.pendingSuccess == 1)
  {
    ClickKeepsInv(deck, b, cardId, timer, showAllCards);
    var r := Click(deck, b, cardId, timer, showAllCards);
    AllMatchedIffCovered(IdsOf(deck), r.matched);
  }

  /** A new round: nothing turned or matched, nothing scored and the clock running. */
  lemma FreshBoardInv(deck: seq<Card>, b: Board)
    requires Distinct(IdsOf(deck)) && |deck| > 0
    requires b.flipped == [] && b.matched == [] && b.score == 0 && b.streak == 0 && b.isRunning
    ensures BoardInv(deck, b, true)
  {
  }

  /** The component's state. The hooks a card click reads and writes are
      kept together in `board`. */
  class MemoryGame {
    var gameState: GameState
    var cards: seq<Card>
    var board: Board
    var gameLevel: Level
    var theme: Theme
    var timer: nat
    var showHint: bool
    var hintsUsed: nat
    var showAllCards: bool
    var initialPeek: bool
    // Continuations scheduled with setTimeout and not yet run; a new hint
    // replaces the pending end of the one before.
    var pendingHintEnd: nat
    var pendingPeekEnd: nat

    ghost predicate Valid()
      reads this`cards, this`board, this`gameState
    {
      BoardInv(cards, board, gameState == Matching)
    }

    constructor ()
      ensures Valid()
      ensures gameState == Menu && cards == [] && gameLevel == Easy && theme == FruitsTheme
      ensures board == Board([], [], 0, 0, 0, 0, false, 0, 0)
      ensures timer == 0 && !showHint && hintsUsed == 0 && !showAllCards && !initialPeek
      ensures pendingHintEnd == 0 && pendingPeekEnd == 0
    {
      gameState, cards, gameLevel, theme := Menu, [], Easy, FruitsTheme;
      board := Board([], [], 0, 0, 0, 0, false, 0, 0);
      timer, showHint, hintsUsed, showAllCards, initialPeek := 0, false, 0, false, false;
      pendingHintEnd, pendingPeekEnd := 0, 0;
    }

    /** The level buttons of the menu. */
    method SetGameLevel(level: Level)
      requires Valid() && gameState == Menu
      modifies this`gameLevel
      ensures Valid() && gameLevel == level
    {
      gameLevel := level;
    }

    /** The theme buttons of the menu. */
    method SetTheme(t: Theme)
      requires Valid() && gameState == Menu
      modifies this`theme
      ensures Valid() && theme == t
    {
      theme := t;
    }

    /** `initializeGame` (the start button, and the retry buttons of the game
        and success screens): two cards per symbol of the level (ids are the
        random values `ids`), shuffled with the draws `choices`, and a fresh
        round with all cards shown for the initial peek. The best streak and
        the timeouts already scheduled are kept. */
    method InitializeGame(ids: seq<int>, choices: seq<nat>)
      requires |ids| == 2 * GetGameConfig(gameLevel, theme).pairs && Distinct(ids)
      requires ValidChoices(|ids|, choices)
      modifies this`cards, this`board, this`timer, this`hintsUsed, this`gameState
      modifies this`showAllCards, this`initialPeek, this`pendingPeekEnd
      ensures Valid()
      ensures var symbols := GetGameConfig(gameLevel, theme).symbols;
        && cards == ShuffleTop(PairList(symbols, ids), choices, |ids|)
        && |cards| == 2 * |symbols|
        && multiset(SymbolsOf(cards)) == multiset(symbols) + multiset(symbols)
        && multiset(IdsOf(cards)) == multiset(ids)
      ensures board == old(board).(flipped := [], matched := [], moves := 0, streak := 0,
                                   score := 0, isRunning := true)
      ensures timer == 0 && hintsUsed == 0
      ensures gameState == Matching && showAllCards && initialPeek
      ensures pendingPeekEnd == old(pendingPeekEnd) + 1
    {
      var config := GetGameConfig(gameLevel, theme);
      cards := NewDeck(config.symbols, ids, choices);
      ResetRound();
    }

    /** The resets of `initializeGame` once the new deck is dealt. */
    method ResetRound()
      requires Distinct(IdsOf(cards)) && |cards| > 0
      modifies this`board, this`timer, this`hintsUsed, this`gameState
      modifies this`showAllCards, this`initialPeek, this`pendingPeekEnd
      ensures Valid()
      ensures board == old(board).(flipped := [], matched := [], moves := 0, streak := 0,
                                   score := 0, isRunning := true)
      ensures timer == 0 && hintsUsed == 0
      ensures gameState == Matching && showAllCards && initialPeek
      ensures pendingPeekEnd == old(pendingPeekEnd) + 1
    {
      board := board.(flipped := [], matched := [], moves := 0, streak := 0, score := 0, isRunning := true);
      FreshBoardInv(cards, board);
      timer, hintsUsed := 0, 0;
      gameState := Matching;
      showAllCards, initialPeek := true, true;
      pendingPeekEnd := pendingPeekEnd + 1;
    }

    /** The end of the initial peek (`initialPeekTime` seconds later). */
    method PeekTimeout()
      requires Valid() && pendingPeekEnd > 0
      modifies this`showAllCards, this`initialPeek, this`pendingPeekEnd
      ensures Valid() && !showAllCards && !initialPeek && pendingPeekEnd == old(pendingPeekEnd) - 1
    {
      showAllCards, initialPeek := false, false;
      pendingPeekEnd := pendingPeekEnd - 1;
    }

    /** One second of the clock, while the game runs. */
    method TimerTick()
      requires Valid() && board.isRunning
      modifies this`timer
      ensures Valid() && timer == old(timer) + 1
    {
      timer := timer + 1;
    }

    /** `handleCardClick`, on the rendered grid of the game screen. */
    method HandleCardClick(cardId: int)
      requires Valid() && gameState == Matching && cardId in IdsOf(cards)
      modifies this`board
      ensures board == Click(cards, old(board), cardId, timer, showAllCards)
      ensures Valid()
    {
      ClickKeepsInv(cards, board, cardId, timer, showAllCards);
      board := Click(cards, board, cardId, timer, showAllCards);
    }

    /** The second after a mismatch: both cards are turned back. */
    method FlipBackTimeout()
      requires Valid() && board.pendingFlipBack > 0
      modifies this`board
      ensures Valid()
      ensures board == old(board).(flipped := [], pendingFlipBack := old(board).pendingFlipBack - 1)
    {
      board := board.(flipped := [], pendingFlipBack := board.pendingFlipBack - 1);
    }

    /** The second after the last match: the success screen. */
    method SuccessTimeout()
      requires Valid() && board.pendingSuccess > 0
      modifies this`gameState, this`board
      ensures Valid() && gameState == Success
      ensures board == old(board).(pendingSuccess := old(board).pendingSuccess - 1)
    {
      gameState := Success;
      board := board.(pendingSuccess := board.pendingSuccess - 1);
    }

    /** The "back to settings" button of the game screen. */
    method QuitToMenu()
      requires Valid() && gameState == Matching
      modifies this`board, this`gameState
      ensures Valid() && gameState == Menu && board == old(board).(isRunning := false)
    {
      board := board.(isRunning := false);
      gameState := Menu;
    }

    /** The "back to menu" button of the success screen. */
    method SuccessToMenu()
      requires Valid() && gameState == Success
      modifies this`gameState
      ensures Valid() && gameState == Menu
    {
      gameState := Menu;
    }

    /** `showHintFunc`: nothing once the level's hints are used up; otherwise
        one more hint, 30 points off (never below 0) and all cards shown. The
        new timeout replaces `hintTimeout`, whose cleanup clears the one
        before, so at most one hint end is ever pending. */
    method ShowHintFunc()
      requires Valid()
      modifies this`hintsUsed, this`board, this`showHint, this`showAllCards, this`pendingHintEnd
      ensures Valid()
      ensures old(hintsUsed) >= GetGameConfig(gameLevel, theme).hintAllowed ==>
        hintsUsed == old(hintsUsed) && board == old(board) && showHint == old(showHint)
        && showAllCards == old(showAllCards) && pendingHintEnd == old(pendingHintEnd)
      ensures old(hintsUsed) < GetGameConfig(gameLevel, theme).hintAllowed ==>
        hintsUsed == old(hintsUsed) + 1 && board == old(board).(score := Max(0, old(board).score - 30))
        && showHint && showAllCards && pendingHintEnd == 1
      ensures hintsUsed <= Max(old(hintsUsed), GetGameConfig(gameLevel, theme).hintAllowed)
    {
      var config := GetGameConfig(gameLevel, theme);
      if hintsUsed >= config.hintAllowed {
        return;
      }
      hintsUsed := hintsUsed + 1;
      board := board.(score := Max(0, board.score - 30));
      showHint := true;
      showAllCards := true;
      pendingHintEnd := 1;
    }

    /** 1.5 seconds after a hint: the cards are hidden again. */
    method HintTimeout()
      requires Valid() && pendingHintEnd > 0
      modifies this`showHint, this`showAllCards, this`pendingHintEnd
      ensures Valid() && !showHint && !showAllCards && pendingHintEnd == 0
    {
      showHint, showAllCards := false, false;
      pendingHintEnd := 0;
    }
  }

  lemma SwapCommutes(d: seq<Card>, i: nat, j: nat)
    requires i < |d| && j < |d|
    ensures SymbolsOf(SwapAt(d, i, j)) == SwapAt(SymbolsOf(d), i, j)
    ensures IdsOf(SwapAt(d, i, j)) == SwapAt(IdsOf(d), i, j)
  {
  }

  /** Shuffling the deck shuffles its symbols and its ids the same way. */
  lemma {:induction false} ShuffleCommutes(d: seq<Card>, choices: seq<nat>, k: nat)
    requires k <= |d| && ValidChoices(|d|, choices)
    ensures SymbolsOf(ShuffleTop(d, choices, k)) == ShuffleTop(SymbolsOf(d), choices, k)
    ensures IdsOf(ShuffleTop(d, choices, k)) == ShuffleTop(IdsOf(d), choices, k)
    decreases k
  {
    if k > 1 {
      SwapCommutes(d, k - 1, choices[k - 1]);
      ShuffleCommutes(SwapAt(d, k - 1, choices[k - 1]), choices, k - 1);
    }
  }

  /** A swap moves cards but does not duplicate an id. */
  lemma SwapKeepsIdsDistinct(s: seq<Card>, i: nat, j: nat)
    requires i < |s| && j < |s| && Distinct(IdsOf(s))
    ensures Distinct(IdsOf(SwapAt(s, i, j)))
  {
    var t := SwapAt(s, i, j);
    forall p, q | 0 <= p < q < |t| ensures IdsOf(t)[p] != IdsOf(t)[q] {
      var sp := if p == j then i else if p == i then j else p;
      var sq := if q == j then i else if q == i then j else q;
      assert t[p] == s[sp] && t[q] == s[sq];
      assert IdsOf(s)[sp] != IdsOf(s)[sq] || sp == sq;
    }
  }

  lemma {:induction false} ShuffleKeepsIdsDistinct(s: seq<Card>, choices: seq<nat>, k: nat)
    requires k <= |s| && ValidChoices(|s|, choices) && Distinct(IdsOf(s))
    ensures Distinct(IdsOf(ShuffleTop(s, choices, k)))
    decreases k
  {
    if k > 1 {
      SwapKeepsIdsDistinct(s, k - 1, choices[k - 1]);
      ShuffleKeepsIdsDistinct(SwapAt(s, k - 1, choices[k - 1]), choices, k - 1);
    }
  }
}

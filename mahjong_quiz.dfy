/** The mahjong discard quiz: ten hands, each with a few candidate discards
    and one right answer, played through one question at a time. Tiles are
    written as a number followed by a suit letter (m, p, s, or z for the
    honours). */
module MahjongQuiz {
  import opened Text

  /** `charAt(length - 1)`: the suit letter, or nothing for an empty code. */
  function SuitOf(tile: string): (s: string)
    ensures tile != [] ==> s == [tile[|tile| - 1]]
    ensures tile == [] ==> s == []
  {
    if tile == [] then [] else [tile[|tile| - 1]]
  }

  /** `substring(0, length - 1)`: everything before the suit letter. */
  function NumberPart(tile: string): (n: string)
    ensures tile != [] ==> n + SuitOf(tile) == tile
    ensures tile == [] ==> n == []
  {
    if tile == [] then [] else tile[..|tile| - 1]
  }

  /** The suit names; `None` is an unknown suit (`undefined`). */
  function SuitName(suit: string): Option<string>
  {
    match suit
    case "m" => Some("萬子")
    case "p" => Some("筒子")
    case "s" => Some("索子")
    case "z" => Some("字牌")
    case _ => None
  }

  /** The honour tiles in order: east, south, west, north, white, green, red. */
  const ZPai: seq<string> := ["東", "南", "西", "北", "白", "發", "中"]

  /** `getTileName`: the honour's name for suit z (undefined when the number
      is not 1 to 7), otherwise the number followed by the suit's name, with
      "undefined" in its place for an unknown suit. */
  function GetTileName(tile: string): (name: Option<string>)
    ensures SuitOf(tile) == "z" ==>
      (name.Some? <==> ParseInt(NumberPart(tile)).Some? && 1 <= ParseInt(NumberPart(tile)).value <= 7)
    ensures SuitOf(tile) == "z" && name.Some? ==> name.value == ZPai[ParseInt(NumberPart(tile)).value - 1]
    ensures SuitOf(tile) != "z" ==> name.Some?
  {
    var number := NumberPart(tile);
    if SuitOf(tile) == "z" then
      match ParseInt(number)
      case Some(n) => if 1 <= n <= 7 then Some(ZPai[n - 1]) else None
      case None => None
    else
      Some(number + match SuitName(SuitOf(tile)) case Some(s) => s case None => "undefined")
  }

  /** The images of the characters, circles and bamboos tiles 1 to 9, and of
      the honours 1 to 7, as the source lists them. */
  const ManzuImages: seq<char> := ['🀇', '🀈', '🀉', '🀊', '🀋', '🀌', '🀍', '🀎', '🀏']
  const PinzuImages: seq<char> := ['🀙', '🀚', '🀛', '🀜', '🀝', '🀞', '🀟', '🀠', '🀡']
  const SouzuImages: seq<char> := ['🀐', '🀑', '🀒', '🀓', '🀔', '🀕', '🀖', '🀗', '🀘']
  const HonourImages: seq<char> := ['🀀', '🀁', '🀂', '🀃', '🀆', '🀅', '🀄']

  /** The image shown for an unknown tile. */
  const UnknownImage: char := '❓'

  /** `getTileImage`: the tile's picture for a known suit and number,
      otherwise the question mark. */
  function GetTileImage(tile: string): (img: char)
  {
    var suit := SuitOf(tile);
    match ParseInt(NumberPart(tile))
    case Some(n) =>
      if suit == "m" && 1 <= n <= 9 then ManzuImages[n - 1]
      else if suit == "p" && 1 <= n <= 9 then PinzuImages[n - 1]
      else if suit == "s" && 1 <= n <= 9 then SouzuImages[n - 1]
      else if suit == "z" && 1 <= n <= 7 then HonourImages[n - 1]
      else UnknownImage
    case None => UnknownImage
  }

  /** The tile with number `n` (given as its digit) and suit letter `s`. */
  function Tile(n: nat, s: char): string
    requires 1 <= n <= 9
  {
    [DigitChar(n), s]
  }

  /** A one-digit tile code reads back as its number. */
  lemma TileParts(n: nat, s: char)
    requires 1 <= n <= 9
    ensures SuitOf(Tile(n, s)) == [s]
    ensures ParseInt(NumberPart(Tile(n, s))) == Some(n)
  {
    assert NumberPart(Tile(n, s)) == NatToString(n);
    ParseIntOfDecimal(n);
  }

  /** A well-formed code looks its picture up in its suit's table. */
  lemma TileImageLookup(n: nat, s: char)
    requires 1 <= n <= 9
    ensures GetTileImage(Tile(n, s)) ==
      if s == 'm' then ManzuImages[n - 1]
      else if s == 'p' then PinzuImages[n - 1]
      else if s == 's' then SouzuImages[n - 1]
      else if s == 'z' && n <= 7 then HonourImages[n - 1]
      else UnknownImage
  {
    TileParts(n, s);
  }

  /** The pictures follow the Mahjong Tiles block of the Unicode Standard:
      the numbered suits are runs of consecutive code points from U+1F007
      (characters), U+1F019 (circles) and U+1F010 (bamboos); the winds are
      U+1F000 to U+1F003, and white, green and red are U+1F006, U+1F005 and
      U+1F004. */
  lemma ImagesFollowUnicode(n: nat)
    requires 1 <= n <= 9
    ensures GetTileImage(Tile(n, 'm')) as int == 0x1F007 + n - 1
    ensures GetTileImage(Tile(n, 'p')) as int == 0x1F019 + n - 1
    ensures GetTileImage(Tile(n, 's')) as int == 0x1F010 + n - 1
    ensures n <= 4 ==> GetTileImage(Tile(n, 'z')) as int == 0x1F000 + n - 1
    ensures n == 5 ==> GetTileImage(Tile(n, 'z')) as int == 0x1F006
    ensures n == 6 ==> GetTileImage(Tile(n, 'z')) as int == 0x1F005
    ensures n == 7 ==> GetTileImage(Tile(n, 'z')) as int == 0x1F004
    ensures n > 7 ==> GetTileImage(Tile(n, 'z')) == UnknownImage
  {
    TileImageLookup(n, 'm');
    TileImageLookup(n, 'p');
    TileImageLookup(n, 's');
    TileImageLookup(n, 'z');
    TablesConsecutive();
  }

  lemma TablesConsecutive()
    ensures forall i :: 0 <= i < 9 ==>
      ManzuImages[i] as int == 0x1F007 + i && PinzuImages[i] as int == 0x1F019 + i && SouzuImages[i] as int == 0x1F010 + i
    ensures forall i :: 0 <= i < 4 ==> HonourImages[i] as int == 0x1F000 + i
    ensures HonourImages[4] as int == 0x1F006 && HonourImages[5] as int == 0x1F005 && HonourImages[6] as int == 0x1F004
  {
  }

  /** The name of a well-formed code: the honour's name for z, otherwise
      the digit followed by the suit's name. */
  lemma TileNames(n: nat, s: char)
    requires 1 <= n <= 9 && s in "mpsz"
    ensures s == 'z' && n <= 7 ==> GetTileName(Tile(n, s)) == Some(ZPai[n - 1])
    ensures s == 'z' && n > 7 ==> GetTileName(Tile(n, s)) == None
    ensures s != 'z' ==> GetTileName(Tile(n, s)) == Some([DigitChar(n)] + SuitName([s]).value)
  {
    TileParts(n, s);
    assert NumberPart(Tile(n, s)) == [DigitChar(n)];
    assert SuitName([s]).Some?;
  }

  /** Every picture lies in the Mahjong Tiles block, U+1F000 to U+1F02F,
      and tiles of different suits or numbers get different pictures. */
  lemma ImagesDistinctInBlock()
    ensures forall i, j :: 0 <= i < 9 && 0 <= j < 9 ==>
      0x1F000 <= ManzuImages[i] as int <= 0x1F02F && 0x1F000 <= PinzuImages[i] as int <= 0x1F02F
      && 0x1F000 <= SouzuImages[i] as int <= 0x1F02F
      && (i != j ==> ManzuImages[i] != ManzuImages[j] && PinzuImages[i] != PinzuImages[j] && SouzuImages[i] != SouzuImages[j])
      && ManzuImages[i] != PinzuImages[j] && ManzuImages[i] != SouzuImages[j] && PinzuImages[i] != SouzuImages[j]
    ensures forall i, j :: 0 <= i < 7 && 0 <= j < 9 ==>
      0x1F000 <= HonourImages[i] as int <= 0x1F02F
      && HonourImages[i] != ManzuImages[j] && HonourImages[i] != PinzuImages[j] && HonourImages[i] != SouzuImages[j]
    ensures forall i, j :: 0 <= i < 7 && 0 <= j < 7 && i != j ==> HonourImages[i] != HonourImages[j]
  {
  }

  /** `getTileColor`: blue characters, green circles, brown bamboos; the
      winds dark grey, white, green and red their own colours, and black
      for anything else. */
  function GetTileColor(tile: string): (cls: string)
  {
    var suit := SuitOf(tile);
    var number := ParseInt(NumberPart(tile));
    if suit == "m" then "text-blue-700"
    else if suit == "p" then "text-green-700"
    else if suit == "s" then "text-yellow-800"
    else if suit == "z" && number.Some? && 1 <= number.value <= 4 then "text-gray-800"
    else if suit == "z" && number == Some(5) then "text-gray-600"
    else if suit == "z" && number == Some(6) then "text-green-800"
    else if suit == "z" && number == Some(7) then "text-red-700"
    else "text-black"
  }

  /** The colour depends only on the suit for the numbered suits, and
      anything outside the four suits is black. */
  lemma ColorsBySuit(tile: string)
    ensures SuitOf(tile) == "m" ==> GetTileColor(tile) == "text-blue-700"
    ensures SuitOf(tile) == "p" ==> GetTileColor(tile) == "text-green-700"
    ensures SuitOf(tile) == "s" ==> GetTileColor(tile) == "text-yellow-800"
    ensures SuitOf(tile) !in {"m", "p", "s", "z"} ==> GetTileColor(tile) == "text-black"
  {
  }

  /** The four winds share one colour, the three dragons have three
      colours of their own, and honour numbers past 7 are black. */
  lemma HonourColors(n: nat)
    requires 1 <= n <= 9
    ensures n <= 4 ==> GetTileColor(Tile(n, 'z')) == "text-gray-800"
    ensures n == 5 ==> GetTileColor(Tile(n, 'z')) == "text-gray-600"
    ensures n == 6 ==> GetTileColor(Tile(n, 'z')) == "text-green-800"
    ensures n == 7 ==> GetTileColor(Tile(n, 'z')) == "text-red-700"
    ensures n > 7 ==> GetTileColor(Tile(n, 'z')) == "text-black"
  {
    TileParts(n, 'z');
  }

  /** A well-formed tile code: a digit and a suit letter, honours only up to 7. */
  predicate ValidTile(t: string)
  {
    |t| == 2 && '1' <= t[0] <= '9' && t[1] in "mpsz" && (t[1] == 'z' ==> t[0] <= '7')
  }

  /** A well-formed tile gets a picture and a name. */
  lemma ValidTileShown(t: string)
    requires ValidTile(t)
    ensures GetTileImage(t) != UnknownImage && GetTileName(t).Some?
  {
    var n := DigitValue(t[0]);
    assert t == Tile(n, t[1]);
    TileParts(n, t[1]);
  }

  /** A tile of the quiz data, its number and its suit letter; `Code` gives
      the string the screen passes to the tile functions. */
  datatype TileCode = TileCode(number: nat, suit: char)

  predicate ValidCode(c: TileCode)
  {
    && 1 <= c.number <= 9
    && (c.suit == 'm' || c.suit == 'p' || c.suit == 's' || c.suit == 'z')
    && (c.suit == 'z' ==> c.number <= 7)
  }

  function Code(c: TileCode): (t: string)
    requires 1 <= c.number <= 9
    ensures ValidCode(c) ==> ValidTile(t)
  {
    Tile(c.number, c.suit)
  }

  datatype QuizQuestion = QuizQuestion(id: nat, hand: seq<TileCode>, options: seq<TileCode>, correctAnswer: TileCode)

  const Question1: QuizQuestion :=
    QuizQuestion(1,
      [TileCode(1, 'm'), TileCode(1, 'm'), TileCode(2, 'm'), TileCode(3, 'm'), TileCode(2, 'p'), TileCode(3, 'p'), TileCode(4, 'p'), TileCode(6, 's'), TileCode(7, 's'), TileCode(8, 's'), TileCode(5, 'z'), TileCode(5, 'z'), TileCode(5, 'z')],
      [TileCode(1, 'm'), TileCode(2, 'm'), TileCode(3, 'm'), TileCode(2, 'p'), TileCode(3, 'p'), TileCode(4, 'p'), TileCode(6, 's'), TileCode(7, 's'), TileCode(8, 's')], TileCode(2, 'm'))
  const Question2: QuizQuestion :=
    QuizQuestion(2,
      [TileCode(2, 'm'), TileCode(3, 'm'), TileCode(4, 'm'), TileCode(2, 'p'), TileCode(3, 'p'), TileCode(4, 'p'), TileCode(5, 'p'), TileCode(5, 'p'), TileCode(5, 's'), TileCode(6, 's'), TileCode(7, 's'), TileCode(1, 'z'), TileCode(1, 'z')],
      [TileCode(2, 'm'), TileCode(4, 'm'), TileCode(2, 'p'), TileCode(4, 'p'), TileCode(5, 'p'), TileCode(5, 's'), TileCode(7, 's'), TileCode(1, 'z')], TileCode(1, 'z'))
  const Question3: QuizQuestion :=
    QuizQuestion(3,
      [TileCode(1, 'm'), TileCode(2, 'm'), TileCode(3, 'm'), TileCode(4, 'm'), TileCode(5, 'm'), TileCode(6, 'm'), TileCode(2, 'p'), TileCode(3, 'p'), TileCode(7, 's'), TileCode(8, 's'), TileCode(9, 's'), TileCode(9, 's'), TileCode(9, 's')],
      [TileCode(1, 'm'), TileCode(6, 'm'), TileCode(2, 'p'), TileCode(3, 'p'), TileCode(7, 's')], TileCode(2, 'p'))
  const Question4: QuizQuestion :=
    QuizQuestion(4,
      [TileCode(1, 'm'), TileCode(1, 'm'), TileCode(1, 'm'), TileCode(2, 's'), TileCode(3, 's'), TileCode(4, 's'), TileCode(5, 's'), TileCode(6, 's'), TileCode(7, 's'), TileCode(8, 's'), TileCode(9, 's'), TileCode(6, 'z'), TileCode(7, 'z')],
      [TileCode(2, 's'), TileCode(9, 's'), TileCode(6, 'z'), TileCode(7, 'z')], TileCode(7, 'z'))
  const Question5: QuizQuestion :=
    QuizQuestion(5,
      [TileCode(2, 'm'), TileCode(3, 'm'), TileCode(4, 'm'), TileCode(3, 'p'), TileCode(4, 'p'), TileCode(5, 'p'), TileCode(5, 'p'), TileCode(5, 'p'), TileCode(6, 'p'), TileCode(7, 'p'), TileCode(8, 'p'), TileCode(6, 's'), TileCode(7, 's')],
      [TileCode(2, 'm'), TileCode(4, 'm'), TileCode(3, 'p'), TileCode(5, 'p'), TileCode(8, 'p'), TileCode(6, 's'), TileCode(7, 's')], TileCode(6, 's'))
  const Question6: QuizQuestion :=
    QuizQuestion(6,
      [TileCode(1, 'm'), TileCode(2, 'm'), TileCode(3, 'm'), TileCode(1, 'p'), TileCode(2, 'p'), TileCode(3, 'p'), TileCode(1, 's'), TileCode(2, 's'), TileCode(3, 's'), TileCode(4, 'z'), TileCode(4, 'z'), TileCode(5, 'z'), TileCode(5, 'z')],
      [TileCode(3, 'm'), TileCode(3, 'p'), TileCode(3, 's'), TileCode(4, 'z'), TileCode(5, 'z')], TileCode(4, 'z'))
  const Question7: QuizQuestion :=
    QuizQuestion(7,
      [TileCode(2, 'm'), TileCode(3, 'm'), TileCode(4, 'm'), TileCode(7, 'm'), TileCode(8, 'm'), TileCode(9, 'm'), TileCode(2, 'p'), TileCode(3, 'p'), TileCode(4, 'p'), TileCode(6, 's'), TileCode(7, 's'), TileCode(8, 's'), TileCode(9, 's')],
      [TileCode(2, 'm'), TileCode(9, 'm'), TileCode(2, 'p'), TileCode(4, 'p'), TileCode(6, 's'), TileCode(9, 's')], TileCode(9, 's'))
  const Question8: QuizQuestion :=
    QuizQuestion(8,
      [TileCode(1, 'm'), TileCode(2, 'm'), TileCode(3, 'm'), TileCode(4, 'm'), TileCode(5, 'm'), TileCode(6, 'm'), TileCode(7, 'm'), TileCode(8, 'm'), TileCode(3, 'p'), TileCode(4, 'p'), TileCode(5, 'p'), TileCode(7, 'z'), TileCode(7, 'z')],
      [TileCode(1, 'm'), TileCode(8, 'm'), TileCode(3, 'p'), TileCode(5, 'p'), TileCode(7, 'z')], TileCode(7, 'z'))
  const Question9: QuizQuestion :=
    QuizQuestion(9,
      [TileCode(1, 'm'), TileCode(1, 'm'), TileCode(1, 'm'), TileCode(2, 'm'), TileCode(3, 'm'), TileCode(4, 'm'), TileCode(5, 'm'), TileCode(6, 'm'), TileCode(7, 'm'), TileCode(2, 's'), TileCode(3, 's'), TileCode(4, 's'), TileCode(6, 'z')],
      [TileCode(7, 'm'), TileCode(2, 's'), TileCode(4, 's'), TileCode(6, 'z')], TileCode(6, 'z'))
  const Question10: QuizQuestion :=
    QuizQuestion(10,
      [TileCode(2, 'm'), TileCode(3, 'm'), TileCode(4, 'm'), TileCode(4, 'p'), TileCode(5, 'p'), TileCode(6, 'p'), TileCode(4, 's'), TileCode(5, 's'), TileCode(6, 's'), TileCode(1, 'z'), TileCode(1, 'z'), TileCode(7, 'z'), TileCode(7, 'z')],
      [TileCode(2, 'm'), TileCode(4, 'p'), TileCode(6, 'p'), TileCode(4, 's'), TileCode(6, 's'), TileCode(1, 'z'), TileCode(7, 'z')], TileCode(1, 'z'))

  const QuizData: seq<QuizQuestion> := [
    Question1, Question2, Question3, Question4, Question5, Question6, Question7, Question8, Question9, Question10
  ]

  /** What a question promises: thirteen well-formed tiles in hand, options
      taken from the hand, and a right answer among the options. */
  predicate WellFormedQuestion(q: QuizQuestion)
  {
    && |q.hand| == 13
    && (forall i :: 0 <= i < |q.hand| ==> ValidCode(q.hand[i]))
    && (forall i :: 0 <= i < |q.options| ==> q.options[i] in q.hand)
    && q.correctAnswer in q.options
  }

  lemma Question1WellFormed()
    ensures WellFormedQuestion(Question1)
  {
    var q := Question1;
    forall j | 0 <= j < |q.options| ensures q.options[j] in q.hand { }
  }

  lemma Question2WellFormed()
    ensures WellFormedQuestion(Question2)
  {
    var q := Question2;
    forall j | 0 <= j < |q.options| ensures q.options[j] in q.hand { }
  }

  lemma Question3WellFormed()
    ensures WellFormedQuestion(Question3)
  {
    var q := Question3;
    forall j | 0 <= j < |q.options| ensures q.options[j] in q.hand { }
  }

  lemma Question4WellFormed()
    ensures WellFormedQuestion(Question4)
  {
    var q := Question4;
    forall j | 0 <= j < |q.options| ensures q.options[j] in q.hand { }
  }

  lemma Question5WellFormed()
    ensures WellFormedQuestion(Question5)
  {
    var q := Question5;
    forall j | 0 <= j < |q.options| ensures q.options[j] in q.hand { }
  }

  lemma Question6WellFormed()
    ensures WellFormedQuestion(Question6)
  {
    var q := Question6;
    forall j | 0 <= j < |q.options| ensures q.options[j] in q.hand { }
  }

  lemma Question7WellFormed()
    ensures WellFormedQuestion(Question7)
  {
    var q := Question7;
    forall j | 0 <= j < |q.options| ensures q.options[j] in q.hand { }
  }

  lemma Question8WellFormed()
    ensures WellFormedQuestion(Question8)
  {
    var q := Question8;
    forall j | 0 <= j < |q.options| ensures q.options[j] in q.hand { }
  }

  lemma Question9WellFormed()
    ensures WellFormedQuestion(Question9)
  {
    var q := Question9;
    forall j | 0 <= j < |q.options| ensures q.options[j] in q.hand { }
  }

  lemma Question10WellFormed()
    ensures WellFormedQuestion(Question10)
  {
    var q := Question10;
    forall j | 0 <= j < |q.options| ensures q.options[j] in q.hand { }
  }

  /** The quiz data: ten questions numbered 1 to 10 in order, each well formed. */
  lemma QuizDataWellFormed()
    ensures |QuizData| == 10
    ensures forall i :: 0 <= i < |QuizData| ==> QuizData[i].id == i + 1 && WellFormedQuestion(QuizData[i])
  {
    forall i | 0 <= i < |QuizData| ensures QuizData[i].id == i + 1 && WellFormedQuestion(QuizData[i]) {
      if i == 0 { Question1WellFormed(); }
      else if i == 1 { Question2WellFormed(); }
      else if i == 2 { Question3WellFormed(); }
      else if i == 3 { Question4WellFormed(); }
      else if i == 4 { Question5WellFormed(); }
      else if i == 5 { Question6WellFormed(); }
      else if i == 6 { Question7WellFormed(); }
      else if i == 7 { Question8WellFormed(); }
      else if i == 8 { Question9WellFormed(); }
      else { Question10WellFormed(); }
    }
  }

  /** The quiz screen's state. */
  class DiscardQuiz {
    var currentQuestionIndex: nat
    var selectedOption: Option<TileCode>
    var isAnswered: bool
    var score: nat
    var showResults: bool

    /** The index stays on a question, and the score counts at most the
      questions answered so far. */
    ghost predicate Valid()
      reads this
    {
      && currentQuestionIndex < |QuizData|
      && score <= currentQuestionIndex + (if isAnswered then 1 else 0)
      && (showResults ==> isAnswered && currentQuestionIndex == |QuizData| - 1)
    }

    /** The score never exceeds the number of questions. */
    lemma ScoreBounded()
      requires Valid()
      ensures score <= |QuizData|
    {
    }

    constructor ()
      ensures currentQuestionIndex == 0 && selectedOption == None && !isAnswered
      ensures score == 0 && !showResults
      ensures Valid()
    {
      currentQuestionIndex := 0;
      selectedOption := None;
      isAnswered := false;
      score := 0;
      showResults := false;
    }

    /** A click on one of the current question's options: ignored once the
      question is answered; otherwise the option is recorded and scores a
      point exactly when it is the right answer. */
    method HandleOptionClick(option: TileCode)
      requires Valid() && !showResults && option in QuizData[currentQuestionIndex].options
      modifies this`selectedOption, this`isAnswered, this`score
      ensures old(isAnswered) ==> selectedOption == old(selectedOption) && isAnswered && score == old(score)
      ensures !old(isAnswered) ==>
        && selectedOption == Some(option) && isAnswered
        && score == old(score) + (if option == QuizData[currentQuestionIndex].correctAnswer then 1 else 0)
      ensures Valid()
    {
      if isAnswered {
        return;
      }
      selectedOption := Some(option);
      isAnswered := true;
      if option == QuizData[currentQuestionIndex].correctAnswer {
        score := score + 1;
      }
    }

    /** The next-question button, shown once the question is answered:
      moves on and clears the selection, or after the last question shows
      the results. */
    method HandleNextQuestion()
      requires Valid() && isAnswered && !showResults
      modifies this`currentQuestionIndex, this`selectedOption, this`isAnswered, this`showResults
      ensures old(currentQuestionIndex) < |QuizData| - 1 ==>
        && currentQuestionIndex == old(currentQuestionIndex) + 1 && selectedOption == None && !isAnswered
        && !showResults
      ensures old(currentQuestionIndex) == |QuizData| - 1 ==>
        && currentQuestionIndex == old(currentQuestionIndex) && selectedOption == old(selectedOption)
        && isAnswered && showResults
      ensures Valid()
    {
      if currentQuestionIndex < |QuizData| - 1 {
        currentQuestionIndex := currentQuestionIndex + 1;
        selectedOption := None;
        isAnswered := false;
      } else {
        showResults := true;
      }
    }

    /** The try-again button on the results: back to the first question with
      nothing answered. */
    method HandleRestart()
      requires showResults
      modifies this
      ensures currentQuestionIndex == 0 && selectedOption == None && !isAnswered
      ensures score == 0 && !showResults
      ensures Valid()
    {
      currentQuestionIndex := 0;
      selectedOption := None;
      isAnswered := false;
      score := 0;
      showResults := false;
    }
  }
}

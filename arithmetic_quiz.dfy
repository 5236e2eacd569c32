/** The arithmetic quiz: timed questions on the four operations, answered on
    an on-screen keypad, with points by difficulty and a running accuracy. */
module ArithmeticQuiz {
  import opened Text
  import opened Countdown

  datatype GameState = Menu | Playing | Result

  datatype QuizConfig = QuizConfig(timeLimit: nat, numberRange: nat, decimalPlaces: nat, includeNegatives: bool)

  /** The difficulty table: easy 60 s with numbers up to 10 and no negatives,
      medium 90 s up to 50, hard 120 s up to 100, both with negatives; no
      difficulty uses decimals, and any other setting is treated as easy. */
  function GetDifficultyConfig(difficulty: string): (c: QuizConfig)
    ensures c.decimalPlaces == 0 && c.numberRange >= 10
    ensures difficulty == "medium" ==> c == QuizConfig(90, 50, 0, true)
    ensures difficulty == "hard" ==> c == QuizConfig(120, 100, 0, true)
    ensures difficulty != "medium" && difficulty != "hard" ==> c == QuizConfig(60, 10, 0, false)
  {
    match difficulty
    case "easy" => QuizConfig(60, 10, 0, false)
    case "medium" => QuizConfig(90, 50, 0, true)
    case "hard" => QuizConfig(120, 100, 0, true)
    case _ => QuizConfig(60, 10, 0, false)
  }

  /** The four operators the question generator knows. */
  const Operators: seq<string> := ["+", "-", "×", "÷"]

  /** `getOperationSymbol` as the source has it; `k` is the index
      `Math.floor(Math.random() * 4)` of mixed mode. Mixed mode draws from
      full-width plus and minus signs, which the generator does not know. */
  function OperationSymbolAsWritten(operationType: string, k: nat): (op: string)
    requires k < 4
    ensures operationType != "mixed" ==> op in Operators
  {
    match operationType
    case "addition" => "+"
    case "subtraction" => "-"
    case "multiplication" => "×"
    case "division" => "÷"
    case "mixed" => ["＋", "−", "×", "÷"][k]
    case _ => "+"
  }

  /** The operator of the next question, with mixed mode drawing from the
      generator's own four operators. */
  function OperationSymbol(operationType: string, k: nat): (op: string)
    requires k < 4
    ensures op in Operators
    ensures operationType == "mixed" ==> op == Operators[k]
    ensures operationType != "mixed" ==> op == OperationSymbolAsWritten(operationType, k)
  {
    if operationType == "mixed" then Operators[k] else OperationSymbolAsWritten(operationType, k)
  }

  /** Mixed mode, as written, can pick an operator the generator does not know. */
  lemma MixedAsWrittenLeavesGenerator()
    ensures OperationSymbolAsWritten("mixed", 0) == "＋" && "＋" !in Operators
    ensures OperationSymbolAsWritten("mixed", 1) == "−" && "−" !in Operators
  {
  }

  /** Mixed mode draws each of the four operators for one value of `k`. */
  lemma MixedCoversAllOperators(op: string)
    requires op in Operators
    ensures exists k: nat :: k < 4 && OperationSymbol("mixed", k) == op
  {
    var k :| 0 <= k < 4 && Operators[k] == op;
    assert OperationSymbol("mixed", k) == op;
  }

  /** The two random draws behind one generated number: the index
      `Math.floor(Math.random() * max)` and whether `Math.random() > 0.5`. */
  datatype Draw = Draw(pick: nat, negate: bool)

  function Abs(n: int): nat
  {
    if n < 0 then -n else n
  }

  function Min(a: nat, b: nat): nat
  {
    if a <= b then a else b
  }

  /** `generateRandomNumber(max, allowNegative, 0)`: a magnitude from 1 to
      `max`, negated on the coin only when negatives are allowed. */
  function GenerateRandomNumber(max: nat, allowNegative: bool, d: Draw): (n: int)
    requires d.pick < max
    ensures 1 <= Abs(n) <= max
    ensures n < 0 <==> allowNegative && d.negate
  {
    if allowNegative && d.negate then -(d.pick + 1) else d.pick + 1
  }

  /** Every number of the right magnitude and sign has draws that produce it. */
  lemma EveryNumberDrawable(max: nat, allowNegative: bool, n: int)
    requires 1 <= Abs(n) <= max && (n < 0 ==> allowNegative)
    ensures exists d: Draw :: d.pick < max && GenerateRandomNumber(max, allowNegative, d) == n
  {
    var d := Draw(Abs(n) - 1, n < 0);
    assert GenerateRandomNumber(max, allowNegative, d) == n;
  }

  /** A question: its operands, operator and answer. A field the generator
      does not set is `None` (JavaScript's `undefined`). */
  datatype Question = Question(num1: Option<int>, num2: Option<int>, operation: string, correctAnswer: Option<int>)

  /** The draws fit the ranges the generator uses for the operator:
      multiplication up to `min(range, 12)`, division up to 10, otherwise
      the configured range. */
  predicate DrawsFit(c: QuizConfig, op: string, d1: Draw, d2: Draw)
  {
    var bound := if op == "×" then Min(c.numberRange, 12) else if op == "÷" then 10 else c.numberRange;
    d1.pick < bound && d2.pick < bound
  }

  /** `generateQuestion` for the operator `op`. Division first draws the
      divisor and the quotient and makes the dividend their product. An
      operator none of the branches knows leaves the operands and the answer
      undefined. */
  function GenerateQuestion(c: QuizConfig, op: string, d1: Draw, d2: Draw): (q: Question)
    requires DrawsFit(c, op, d1, d2)
    ensures q.operation == op
  {
    if op == "+" then
      var a := GenerateRandomNumber(c.numberRange, c.includeNegatives, d1);
      var b := GenerateRandomNumber(c.numberRange, c.includeNegatives, d2);
      Question(Some(a), Some(b), op, Some(a + b))
    else if op == "-" then
      var a := GenerateRandomNumber(c.numberRange, c.includeNegatives, d1);
      var b := GenerateRandomNumber(c.numberRange, c.includeNegatives, d2);
      Question(Some(a), Some(b), op, Some(a - b))
    else if op == "×" then
      var range := Min(c.numberRange, 12);
      var a := GenerateRandomNumber(range, c.includeNegatives, d1);
      var b := GenerateRandomNumber(range, c.includeNegatives, d2);
      Question(Some(a), Some(b), op, Some(a * b))
    else if op == "÷" then
      var divisor := GenerateRandomNumber(10, false, d1);
      var quotient := GenerateRandomNumber(10, c.includeNegatives, d2);
      Question(Some(divisor * quotient), Some(divisor), op, Some(quotient))
    else
      Question(None, None, op, None)
  }

  /** Every question on a known operator is well formed: its answer is the
      operator applied to the operands, addition and subtraction operands
      stay within the range, multiplication operands within `min(range, 12)`,
      and division is exact, with a divisor from 1 to 10 and a quotient of
      magnitude 1 to 10. Negative numbers appear only when allowed. */
  lemma {:induction false} QuestionIsSound(c: QuizConfig, op: string, d1: Draw, d2: Draw)
    requires op in Operators && DrawsFit(c, op, d1, d2)
    ensures var q := GenerateQuestion(c, op, d1, d2);
      && q.num1.Some? && q.num2.Some? && q.correctAnswer.Some?
      && var a, b, ans := q.num1.value, q.num2.value, q.correctAnswer.value;
      && (op == "+" ==> ans == a + b && 1 <= Abs(a) <= c.numberRange && 1 <= Abs(b) <= c.numberRange)
      && (op == "-" ==> ans == a - b && 1 <= Abs(a) <= c.numberRange && 1 <= Abs(b) <= c.numberRange)
      && (op == "×" ==> ans == a * b && 1 <= Abs(a) <= Min(c.numberRange, 12) && 1 <= Abs(b) <= Min(c.numberRange, 12))
      && (op == "÷" ==> a == b * ans && 1 <= b <= 10 && 1 <= Abs(ans) <= 10)
      && (op != "÷" && !c.includeNegatives ==> a > 0 && b > 0)
      && (op != "-" && !c.includeNegatives ==> ans > 0)
  {
    var q := GenerateQuestion(c, op, d1, d2);
    if op == "×" && !c.includeNegatives {
      assert q.num1.value > 0 && q.num2.value > 0;
      assert q.correctAnswer.value == q.num1.value * q.num2.value;
    }
  }

  /** An operator the generator does not know gives a question with nothing
      defined. */
  lemma UnknownOperatorUndefined(c: QuizConfig, op: string, d1: Draw, d2: Draw)
    requires op !in Operators && DrawsFit(c, op, d1, d2)
    ensures GenerateQuestion(c, op, d1, d2) == Question(None, None, op, None)
  {
  }

  /** `parseFloat(answer) === correctAnswer`: never true when the answer is
      `undefined`. */
  predicate AnswerIsCorrect(q: Question, answer: string)
  {
    q.correctAnswer.Some? && FloatEquals(ParseFloat(answer), q.correctAnswer.value)
  }

  /** A defined answer, typed in its decimal form, is accepted. */
  lemma DecimalAnswerAccepted(q: Question)
    requires q.correctAnswer.Some?
    ensures AnswerIsCorrect(q, IntToString(q.correctAnswer.value))
  {
    ParseFloatOfInt(q.correctAnswer.value);
  }

  /** As written, a mixed-mode question drawn with a full-width sign accepts
      no answer at all. */
  lemma MixedAsWrittenUnanswerable(c: QuizConfig, k: nat, d1: Draw, d2: Draw, answer: string)
    requires k < 2 && DrawsFit(c, OperationSymbolAsWritten("mixed", k), d1, d2)
    ensures !AnswerIsCorrect(GenerateQuestion(c, OperationSymbolAsWritten("mixed", k), d1, d2), answer)
  {
    var op := OperationSymbolAsWritten("mixed", k);
    MixedAsWrittenLeavesGenerator();
    UnknownOperatorUndefined(c, op, d1, d2);
  }

  /** With the generator's own operators every question of every mode has an
      answer, and its decimal form is accepted. */
  lemma EveryQuestionAnswerable(c: QuizConfig, operationType: string, k: nat, d1: Draw, d2: Draw)
    requires k < 4 && DrawsFit(c, OperationSymbol(operationType, k), d1, d2)
    ensures var q := GenerateQuestion(c, OperationSymbol(operationType, k), d1, d2);
      q.correctAnswer.Some? && AnswerIsCorrect(q, IntToString(q.correctAnswer.value))
  {
    var q := GenerateQuestion(c, OperationSymbol(operationType, k), d1, d2);
    QuestionIsSound(c, OperationSymbol(operationType, k), d1, d2);
    DecimalAnswerAccepted(q);
  }

  /** The keys of the answer pad. */
  datatype PadKey = Digit(d: nat) | Point | Minus | Back | Clear | Submit

  predicate IsPadKey(key: PadKey)
  {
    key.Digit? ==> key.d < 10
  }

  /** The edit a key other than the submit key makes to the answer. Back
      drops the last character, clear empties it, the sign key toggles a
      leading minus, and a digit or the point is appended, except that a
      digit replaces a lone "0". */
  function EditAnswer(answer: string, key: PadKey): (r: string)
    requires IsPadKey(key) && key != Submit
  {
    match key
    case Back => DropLast(answer)
    case Clear => ""
    case Minus => if |answer| > 0 && answer[0] == '-' then answer[1..] else "-" + answer
    case Point => answer + "."
    case Digit(d) => if answer == "0" then [DigitChar(d)] else answer + [DigitChar(d)]
  }

  /** A minus sign appears, if at all, only in front. */
  predicate SignInFront(answer: string)
  {
    forall i :: 0 < i < |answer| ==> answer[i] != '-'
  }

  /** The pad only ever puts a minus sign in front. */
  lemma {:induction false} EditKeepsSignInFront(answer: string, key: PadKey)
    requires IsPadKey(key) && key != Submit && SignInFront(answer)
    ensures SignInFront(EditAnswer(answer, key))
  {
    var r := EditAnswer(answer, key);
    match key
    case Back =>
      forall i | 0 < i < |r| ensures r[i] != '-' { assert r[i] == answer[i]; }
    case Clear =>
    case Minus =>
      if |answer| > 0 && answer[0] == '-' {
        forall i | 0 < i < |r| ensures r[i] != '-' { assert r[i] == answer[i + 1]; }
      } else {
        forall i | 0 < i < |r| ensures r[i] != '-' { assert r[i] == answer[i - 1]; }
      }
    case Point =>
      forall i | 0 < i < |r| ensures r[i] != '-' { if i < |answer| { assert r[i] == answer[i]; } }
    case Digit(d) =>
      forall i | 0 < i < |r| ensures r[i] != '-' { if i < |answer| && answer != "0" { assert r[i] == answer[i]; } }
  }

  /** The sign key twice restores any answer the pad can produce (one with at
      most a leading minus). */
  lemma MinusTwiceRestores(answer: string)
    requires SignInFront(answer)
    ensures EditAnswer(EditAnswer(answer, Minus), Minus) == answer
  {
    if |answer| > 0 && answer[0] == '-' {
      if |answer| > 1 {
        assert answer[1] != '-';
      }
      assert "-" + answer[1..] == answer;
    } else {
      assert ("-" + answer)[1..] == answer;
    }
  }

  /** The answer after a sequence of pad presses, none of them the submit key. */
  function TypeKeys(answer: string, keys: seq<PadKey>): string
    requires forall i :: 0 <= i < |keys| ==> IsPadKey(keys[i]) && keys[i] != Submit
    decreases |keys|
  {
    if keys == [] then answer else TypeKeys(EditAnswer(answer, keys[0]), keys[1..])
  }

  /** The digit keys that spell out a string of digits. */
  function DigitKeys(s: string): (keys: seq<PadKey>)
    requires AllDigits(s)
    ensures |keys| == |s|
    ensures forall i :: 0 <= i < |keys| ==> keys[i] == Digit(DigitValue(s[i])) && IsPadKey(keys[i])
  {
    if s == [] then [] else [Digit(DigitValue(s[0]))] + DigitKeys(s[1..])
  }

  /** The keys that enter an integer: the sign key for a negative, then its
      digits. */
  function KeysFor(n: int): (keys: seq<PadKey>)
    ensures forall i :: 0 <= i < |keys| ==> IsPadKey(keys[i]) && keys[i] != Submit
  {
    if n < 0 then [Minus] + DigitKeys(NatToString(-n)) else DigitKeys(NatToString(n))
  }

  /** Typing a string of digits after an answer other than a lone "0" is
      appending its first digit, then typing the rest. */
  lemma TypeDigitKeysStep(answer: string, s: string)
    requires AllDigits(s) && s != [] && answer != "0"
    ensures AllDigits(s[1..])
    ensures TypeKeys(answer, DigitKeys(s)) == TypeKeys(answer + [s[0]], DigitKeys(s[1..]))
  {
    assert forall i :: 0 <= i < |s[1..]| ==> s[1..][i] == s[i + 1];
    assert DigitKeys(s)[1..] == DigitKeys(s[1..]);
    assert EditAnswer(answer, Digit(DigitValue(s[0]))) == answer + [s[0]];
  }

  lemma MoveHead(a: string, s: string)
    requires s != []
    ensures (a + [s[0]]) + s[1..] == a + s
  {
  }

  /** Typing digits after a non-empty answer other than a lone "0" appends
      them. */
  lemma {:induction false} TypeDigitsAppends(prefix: string, s: string)
    requires AllDigits(s) && prefix != [] && prefix != "0"
    ensures TypeKeys(prefix, DigitKeys(s)) == prefix + s
    decreases |s|
  {
    if s != [] {
      var next := prefix + [s[0]];
      TypeDigitKeysStep(prefix, s);
      assert next != "0" by { assert |next| >= 2; }
      TypeDigitsAppends(next, s[1..]);
      MoveHead(prefix, s);
    }
  }

  /** A decimal rendering (no leading zero unless it is "0") typed from an
      empty answer gives itself. */
  lemma {:induction false} TypeRenderingFromEmpty(s: string)
    requires AllDigits(s) && |s| >= 1 && (s[0] == '0' ==> s == "0")
    ensures TypeKeys("", DigitKeys(s)) == s
  {
    var digits := DigitKeys(s);
    var first := [s[0]];
    assert EditAnswer("", digits[0]) == first;
    assert digits[1..] == DigitKeys(s[1..]);
    if s[0] != '0' {
      TypeDigitsAppends(first, s[1..]);
      assert first + s[1..] == s;
    }
  }

  /** Every integer answer can be entered on the pad from an empty answer. */
  lemma {:induction false} PadEntersEveryInteger(n: int)
    ensures TypeKeys("", KeysFor(n)) == IntToString(n)
  {
    if n < 0 {
      var s := NatToString(-n);
      var keys := KeysFor(n);
      assert keys[0] == Minus && keys[1..] == DigitKeys(s);
      assert EditAnswer("", Minus) == "-";
      TypeDigitsAppends("-", s);
    } else {
      var s := NatToString(n);
      if s[0] == '0' {
        assert n == 0;
        assert s == "0";
      }
      TypeRenderingFromEmpty(s);
    }
  }

  datatype Feedback = Feedback(show: bool, correct: bool, message: string)

  const Hidden: Feedback := Feedback(false, false, "")

  /** The question on screen, the answer typed so far, and the feedback line. */
  datatype Round = Round(question: Question, answer: string, feedback: Feedback)

  datatype Tally = Tally(score: nat, answered: nat, correct: nat)

  /** Points per correct answer: 20 on medium, 30 on hard, otherwise 10. */
  function PointValue(difficulty: string): (p: nat)
    ensures p == if difficulty == "hard" then 30 else if difficulty == "medium" then 20 else 10
  {
    var p := 10;
    var p := if difficulty == "medium" then 20 else p;
    if difficulty == "hard" then 30 else p
  }

  /** How a template literal shows an optional number. */
  function Shown(n: Option<int>): string
  {
    match n
    case None => "undefined"
    case Some(v) => IntToString(v)
  }

  /** `checkAnswer`: nothing for an empty answer; otherwise one more answered
      question, and on a correct answer one more correct one and the
      difficulty's points, with the feedback line shown either way. */
  function CheckAnswer(r: Round, t: Tally, points: nat): (res: (Round, Tally))
  {
    if r.answer == "" then (r, t)
    else if AnswerIsCorrect(r.question, r.answer) then
      (r.(feedback := Feedback(true, true, "正解！")), Tally(t.score + points, t.answered + 1, t.correct + 1))
    else
      (r.(feedback := Feedback(true, false, "不正解... 正解は" + Shown(r.question.correctAnswer) + "でした")),
       t.(answered := t.answered + 1))
  }

  /** The counters' invariant: no more correct than answered questions, and
      the score is the points for each correct one. */
  predicate TallyInv(t: Tally, points: nat)
  {
    t.correct <= t.answered && t.score == points * t.correct
  }

  /** Checking an answer keeps the invariant, counts a non-empty answer once,
      counts it correct exactly when it is, and leaves the question and the
      answer in place. */
  lemma {:induction false} CheckAnswerCounts(r: Round, t: Tally, points: nat)
    requires TallyInv(t, points)
    ensures TallyInv(CheckAnswer(r, t, points).1, points)
    ensures CheckAnswer(r, t, points).0.question == r.question
    ensures CheckAnswer(r, t, points).0.answer == r.answer
    ensures r.answer == "" ==> CheckAnswer(r, t, points) == (r, t)
    ensures r.answer != "" ==> CheckAnswer(r, t, points).1.answered == t.answered + 1
    ensures r.answer != "" ==> CheckAnswer(r, t, points).0.feedback.show
    ensures r.answer != "" ==>
      (CheckAnswer(r, t, points).1.correct == t.correct + 1 <==> AnswerIsCorrect(r.question, r.answer))
    ensures r.answer != "" ==>
      (CheckAnswer(r, t, points).0.feedback.correct <==> AnswerIsCorrect(r.question, r.answer))
  {
    if r.answer != "" {
      if AnswerIsCorrect(r.question, r.answer) {
        CheckCorrect(r, t, points);
      } else {
        CheckWrong(r, t, points);
      }
    }
  }

  /** The correct-answer case of `CheckAnswerCounts`. */
  lemma CheckCorrect(r: Round, t: Tally, points: nat)
    requires TallyInv(t, points) && r.answer != "" && AnswerIsCorrect(r.question, r.answer)
    ensures CheckAnswer(r, t, points) ==
      (r.(feedback := Feedback(true, true, "正解！")), Tally(t.score + points, t.answered + 1, t.correct + 1))
    ensures TallyInv(Tally(t.score + points, t.answered + 1, t.correct + 1), points)
  {
    assert points * (t.correct + 1) == points * t.correct + points;
  }

  /** The wrong-answer case of `CheckAnswerCounts`. */
  lemma CheckWrong(r: Round, t: Tally, points: nat)
    requires TallyInv(t, points) && r.answer != "" && !AnswerIsCorrect(r.question, r.answer)
    ensures CheckAnswer(r, t, points).0.question == r.question && CheckAnswer(r, t, points).0.answer == r.answer
    ensures CheckAnswer(r, t, points).0.feedback.show && !CheckAnswer(r, t, points).0.feedback.correct
    ensures CheckAnswer(r, t, points).1 == t.(answered := t.answered + 1)
  {
  }

  /** A press on the answer pad: ignored while the feedback line is shown;
      the submit key checks the answer, any other key edits it. */
  function PadPress(r: Round, t: Tally, points: nat, key: PadKey): (res: (Round, Tally))
    requires IsPadKey(key)
    ensures r.feedback.show ==> res == (r, t)
  {
    if r.feedback.show then (r, t)
    else if key == Submit then CheckAnswer(r, t, points)
    else (r.(answer := EditAnswer(r.answer, key)), t)
  }

  /** Whether a press schedules the move to the next question. */
  predicate Schedules(r: Round, key: PadKey)
  {
    !r.feedback.show && key == Submit && r.answer != ""
  }

  /** `calculateAccuracy`: 0 before anything has been answered, otherwise the
      rounded percentage of correct answers. */
  function Accuracy(correct: nat, answered: nat): (r: nat)
    ensures answered == 0 ==> r == 0
    ensures answered > 0 ==> r == RoundedPercent(correct, answered)
  {
    if answered == 0 then 0 else RoundedPercent(correct, answered)
  }

  /** With no more correct than answered questions the accuracy is a
      percentage, 100 only when all answers are correct among answered ones. */
  lemma AccuracyIsPercentage(correct: nat, answered: nat)
    requires correct <= answered
    ensures Accuracy(correct, answered) <= 100
    ensures 0 < answered && correct == answered ==> Accuracy(correct, answered) == 100
    ensures correct == 0 ==> Accuracy(correct, answered) == 0
  {
    if answered > 0 {
      PercentBounds(correct, answered);
    }
  }

  /** The settings a scheduled move to the next question sees: those of the
      moment the answer was checked. */
  datatype Settings = Settings(difficulty: string, operationType: string)

  class ArithmeticQuizScreen {
    var gameState: GameState
    var difficulty: string
    var operationType: string
    var round: Round
    var timeLeft: nat
    var tally: Tally
    var showPad: bool
    /** Moves to the next question waiting out their 1.5 seconds, oldest first. */
    var pendingNext: seq<Settings>

    ghost predicate Valid()
      reads this`tally, this`gameState, this`difficulty, this`timeLeft
    {
      && tally.correct <= tally.answered
      && (gameState != Menu ==> TallyInv(tally, PointValue(difficulty)))
      && (gameState == Playing ==> timeLeft > 0)
    }

    /** `calculateAccuracy` on the screen's counters. */
    function CalculateAccuracy(): (r: nat)
      reads this`tally
      requires tally.correct <= tally.answered
      ensures r <= 100
      ensures tally.answered == 0 ==> r == 0
    {
      AccuracyIsPercentage(tally.correct, tally.answered);
      Accuracy(tally.correct, tally.answered)
    }

    /** The screen as it first appears: the menu, easy addition, a 60-second
      clock, an empty question and the pad shown. */
    constructor ()
      ensures gameState == Menu && difficulty == "easy" && operationType == "addition"
      ensures round == Round(Question(None, None, "", None), "", Hidden)
      ensures timeLeft == 60 && tally == Tally(0, 0, 0) && showPad && pendingNext == []
      ensures Valid()
    {
      gameState := Menu;
      difficulty := "easy";
      operationType := "addition";
      round := Round(Question(None, None, "", None), "", Hidden);
      timeLeft := 60;
      tally := Tally(0, 0, 0);
      showPad := true;
      pendingNext := [];
    }

    /** A difficulty button on the menu. */
    method SetDifficulty(d: string)
      requires gameState == Menu
      modifies this`difficulty
      ensures difficulty == d
    {
      difficulty := d;
    }

    /** An operation button on the menu. */
    method SetOperationType(o: string)
      requires gameState == Menu
      modifies this`operationType
      ensures operationType == o
    {
      operationType := o;
    }

    /** The start button (menu or result screen): the clock is set from the
      difficulty, the counters are cleared, and a question is generated from
      the random draws `k`, `d1` and `d2`. Moves still waiting from an
      earlier game are not cancelled. */
    method InitializeGame(k: nat, d1: Draw, d2: Draw)
      requires gameState != Playing && k < 4
      requires DrawsFit(GetDifficultyConfig(difficulty), OperationSymbol(operationType, k), d1, d2)
      modifies this`timeLeft, this`tally, this`round, this`gameState
      ensures timeLeft == GetDifficultyConfig(difficulty).timeLimit
      ensures tally == Tally(0, 0, 0)
      ensures round == Round(GenerateQuestion(GetDifficultyConfig(difficulty), OperationSymbol(operationType, k), d1, d2), "", Hidden)
      ensures gameState == Playing
      ensures Valid()
    {
      var c := GetDifficultyConfig(difficulty);
      timeLeft := c.timeLimit;
      tally := Tally(0, 0, 0);
      round := Round(GenerateQuestion(c, OperationSymbol(operationType, k), d1, d2), "", Hidden);
      gameState := Playing;
    }

    /** A key of the answer pad, which is only there on the game screen while
      shown. Checking a non-empty answer schedules the next question. */
    method HandleNumberInput(key: PadKey)
      requires gameState == Playing && showPad && IsPadKey(key) && Valid()
      modifies this`round, this`tally, this`pendingNext
      ensures (round, tally) == PadPress(old(round), old(tally), PointValue(difficulty), key)
      ensures pendingNext == old(pendingNext) +
        (if Schedules(old(round), key) then [Settings(difficulty, operationType)] else [])
      ensures Valid()
    {
      if Schedules(round, key) {
        pendingNext := pendingNext + [Settings(difficulty, operationType)];
      }
      if !round.feedback.show && key == Submit {
        CheckAnswerCounts(round, tally, PointValue(difficulty));
      }
      var res := PadPress(round, tally, PointValue(difficulty), key);
      round := res.0;
      tally := res.1;
    }

    /** The 1.5 seconds after a checked answer end (`nextQuestion`): a new
      question from the settings captured then, an empty answer and the
      feedback line hidden. */
    method NextQuestionTimeout(k: nat, d1: Draw, d2: Draw)
      requires pendingNext != [] && k < 4
      requires var s := pendingNext[0];
        DrawsFit(GetDifficultyConfig(s.difficulty), OperationSymbol(s.operationType, k), d1, d2)
      modifies this`round, this`pendingNext
      ensures var s := old(pendingNext[0]);
        round == Round(GenerateQuestion(GetDifficultyConfig(s.difficulty), OperationSymbol(s.operationType, k), d1, d2), "", Hidden)
      ensures pendingNext == old(pendingNext[1..])
    {
      var s := pendingNext[0];
      round := Round(GenerateQuestion(GetDifficultyConfig(s.difficulty), OperationSymbol(s.operationType, k), d1, d2), "", Hidden);
      pendingNext := pendingNext[1..];
    }

    /** One second of the countdown while the game screen is shown. */
    method TimerTick()
      requires gameState == Playing && timeLeft > 0 && Valid()
      modifies this`timeLeft, this`gameState
      ensures timeLeft == TickTime(old(timeLeft))
      ensures gameState == if old(timeLeft) <= 1 then Result else Playing
      ensures Valid()
    {
      if timeLeft <= 1 {
        gameState := Result;
        timeLeft := 0;
      } else {
        timeLeft := timeLeft - 1;
      }
    }

    /** The back button on the game screen, or the menu button on the result
      screen. */
    method BackToMenu()
      requires gameState != Menu && Valid()
      modifies this`gameState
      ensures gameState == Menu
      ensures Valid()
    {
      gameState := Menu;
    }

    /** The show/hide pad button. */
    method TogglePad()
      requires gameState == Playing
      modifies this`showPad
      ensures showPad == !old(showPad)
    {
      showPad := !showPad;
    }
  }
}

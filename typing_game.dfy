/** The touch-typing game: a proverb or phrase is shown, the player types it
    (through the text box or the on-screen kana keyboard) against a
    countdown, and the screen keeps a score, a count of correct and typed
    characters, and the number of completed texts. */
module TypingGame {
  import opened Text
  import opened Countdown

  datatype GameState = Menu | Playing | Result

  /** Which of a category's three text lists a difficulty draws from. */
  datatype TextLength = Short | MediumLength | Long

  datatype DifficultyConfig = DifficultyConfig(timeLimit: nat, textLength: TextLength, hintLevel: string)

  /** The difficulty table: easy, medium and hard give 60, 90 and 120 seconds
      with short, medium and long texts; any other setting is treated as easy. */
  function GetDifficultyConfig(difficulty: string): (c: DifficultyConfig)
    ensures difficulty == "medium" ==> c == DifficultyConfig(90, MediumLength, "medium")
    ensures difficulty == "hard" ==> c == DifficultyConfig(120, Long, "low")
    ensures difficulty != "medium" && difficulty != "hard" ==> c == DifficultyConfig(60, Short, "high")
  {
    match difficulty
    case "easy" => DifficultyConfig(60, Short, "high")
    case "medium" => DifficultyConfig(90, MediumLength, "medium")
    case "hard" => DifficultyConfig(120, Long, "low")
    case _ => DifficultyConfig(60, Short, "high")
  }

  /** Longer texts always come with more time. */
  lemma LongerTextsMoreTime(d1: string, d2: string)
    ensures var c1 := GetDifficultyConfig(d1); var c2 := GetDifficultyConfig(d2);
      (c1.textLength == c2.textLength <==> c1.timeLimit == c2.timeLimit)
      && (c1.textLength == Short && c2.textLength != Short ==> c1.timeLimit < c2.timeLimit)
      && (c1.textLength == MediumLength && c2.textLength == Long ==> c1.timeLimit < c2.timeLimit)
  {
  }

  const KotowazaShort: seq<string> := ["石の上にも三年", "急がば回れ", "塵も積もれば山となる", "見ぬが花", "時は金なり",
    "犬も歩けば棒に当たる", "猿も木から落ちる", "論より証拠", "弘法も筆の誤り", "朱に交われば赤くなる"]
  const KotowazaMedium: seq<string> := ["石橋を叩いて渡る", "出る杭は打たれる", "早起きは三文の徳", "芸は身を助ける", "果報は寝て待て",
    "二兎を追う者は一兎をも得ず", "三つ子の魂百まで", "類は友を呼ぶ", "馬の耳に念仏", "捕らぬ狸の皮算用"]
  const KotowazaLong: seq<string> := ["悪銭身につかず", "去る者は日々に疎し", "切れ物には刃物の錆", "火のない所に煙は立たぬ", "情けは人のためならず",
    "短気は損気", "備えあれば憂いなし", "花より団子", "身から出た錆", "好きこそものの上手なれ"]
  const SeasonShort: seq<string> := ["春の桜", "夏の花火", "秋の紅葉", "冬の雪景色", "春の小川",
    "夏の海", "秋の満月", "冬の温泉", "春の風", "夏の夕立"]
  const SeasonMedium: seq<string> := ["春は桜が満開です", "夏は海水浴に行きます", "秋は紅葉狩りを楽しみます", "冬はこたつで温まります", "春の新緑は美しいです",
    "夏祭りの屋台が楽しみです", "秋の夜長に読書をします", "冬の雪景色は静かです", "春の訪れを感じる梅の花", "夏バテには気をつけましょう"]
  const SeasonLong: seq<string> := ["春になると桜が咲いて心が弾みます", "夏の暑い日には冷たいスイカが美味しいです", "秋の夕暮れはどこか寂しい気持ちになります",
    "冬の朝は窓に霜が降りていることがあります", "春の雨は静かに大地を潤してくれます", "夏の夜空には綺麗な星が輝いています",
    "秋になると虫の声が聞こえてきます", "冬の雪の朝は世界が白く輝いています", "春の風は心を明るくしてくれます",
    "夏の海岸で波の音を聞くのは心地よいです"]
  const HealthShort: seq<string> := ["深呼吸", "水分補給", "適度な運動", "腹八分目", "早寝早起き",
    "姿勢を正す", "栄養バランス", "休息を取る", "笑顔が健康", "歩くことが大切"]
  const HealthMedium: seq<string> := ["毎日深呼吸をしましょう", "水をたくさん飲むことが大切です", "適度な運動を心がけましょう", "腹八分目で健康になります",
    "早寝早起きは健康の基本です", "正しい姿勢を保ちましょう", "栄養バランスを考えて食べましょう", "十分な休息を取ることが大切です",
    "笑顔は健康の源です", "一日三十分歩きましょう"]
  const HealthLong: seq<string> := ["毎日深呼吸をして心身をリフレッシュしましょう", "水分をこまめに取ることで体調を整えましょう",
    "適度な運動は健康な体を維持するのに役立ちます", "食事は腹八分目にして消化器官に負担をかけないようにしましょう",
    "早寝早起きを心がけてリズムのある生活を送りましょう", "姿勢を正すことで腰や肩の痛みを防ぐことができます",
    "栄養バランスの良い食事で健康な体を作りましょう", "適切な休息を取ることで疲れを溜めないようにしましょう",
    "笑顔でいることで免疫力が上がるとも言われています", "毎日歩くことで足腰を強くし健康を維持しましょう"]
  const FallbackShort: seq<string> := ["こんにちは", "ありがとう", "さようなら"]
  const FallbackMedium: seq<string> := ["今日はいい天気ですね", "おいしい料理ですね", "また会いましょう"]
  const FallbackLong: seq<string> := ["日本の四季は本当に美しいですね", "健康で過ごすことが一番大切です", "毎日少しずつ成長していきたいですね"]

  /** The text list of a category and length: ten texts for each of the three
      known categories, three fallback texts for any other category. */
  function TextsFor(category: string, length: TextLength): (ts: seq<string>)
    ensures |ts| == if category in {"kotowaza", "season", "health"} then 10 else 3
  {
    match category
    case "kotowaza" => (match length case Short => KotowazaShort case MediumLength => KotowazaMedium case Long => KotowazaLong)
    case "season" => (match length case Short => SeasonShort case MediumLength => SeasonMedium case Long => SeasonLong)
    case "health" => (match length case Short => HealthShort case MediumLength => HealthMedium case Long => HealthLong)
    case _ => (match length case Short => FallbackShort case MediumLength => FallbackMedium case Long => FallbackLong)
  }

  /** The list a random text is drawn from under the current settings; never
      empty, so a random index into it always exists. */
  function TextPool(difficulty: string, category: string): (ts: seq<string>)
    ensures |ts| >= 3
  {
    TextsFor(category, GetDifficultyConfig(difficulty).textLength)
  }

  /** The character the hint line asks for next: the target's character at
      the input's length, or nothing once the input is as long as the target. */
  function HintAt(target: string, input: string): (h: string)
    ensures |h| <= 1
    ensures h != [] <==> |input| < |target|
    ensures h != [] ==> h[0] == target[|input|]
  {
    if |input| < |target| then [target[|input|]] else ""
  }

  /** The typing state one text box edit or key press works on: the target
      text, what has been typed, the hint, and the three counters. */
  datatype Progress = Progress(target: string, input: string, hint: string, score: nat, correct: nat, total: nat)

  /** The counters' invariant: no more correct than typed characters, and
      points are only earned, ten per character, for correct characters. */
  predicate CountersInv(p: Progress)
  {
    p.correct <= p.total && p.score <= 10 * p.correct && p.score % 10 == 0
  }

  /** The last typed character is where the target has the same character. */
  predicate LastCharMatches(target: string, typed: string)
  {
    0 < |typed| <= |target| && typed[|typed| - 1] == target[|typed| - 1]
  }

  /** Typing that completes the target: the whole text counts as typed and
      correct, and earns ten points per character. */
  function Completion(q: Progress): (r: Progress)
  {
    q.(correct := q.correct + |q.target|, total := q.total + |q.target|, score := q.score + 10 * |q.target|)
  }

  /** A keystroke that does not complete the target: one more typed
      character, and one more correct one when the last character matches. */
  function Keystroke(q: Progress): (r: Progress)
  {
    q.(total := q.total + 1, correct := q.correct + if LastCharMatches(q.target, q.input) then 1 else 0)
  }

  /** What the input shows with the hint refreshed for it. */
  function Shown(p: Progress, typed: string): Progress
  {
    p.(input := typed, hint := HintAt(p.target, typed))
  }

  /** An edit of the text box to `typed`: the input becomes `typed`, the hint
      follows it, and the counters move by whether `typed` completes the
      target, is some other non-empty text, or is empty. */
  function TextChange(p: Progress, typed: string): (r: Progress)
    ensures r.target == p.target && r.input == typed && r.hint == HintAt(p.target, typed)
    ensures typed == p.target ==>
      r.correct == p.correct + |p.target| && r.total == p.total + |p.target| && r.score == p.score + 10 * |p.target|
    ensures typed != p.target && typed != [] ==>
      r.total == p.total + 1 && r.score == p.score
      && (r.correct == p.correct + 1 <==> LastCharMatches(p.target, typed))
      && (r.correct == p.correct <==> !LastCharMatches(p.target, typed))
    ensures typed != p.target && typed == [] ==> r.correct == p.correct && r.total == p.total && r.score == p.score
  {
    var q := Shown(p, typed);
    if typed == p.target then Completion(q) else if |typed| > 0 then Keystroke(q) else q
  }

  /** The keys of the on-screen keyboard: back space, the space bar, and the
      kana keys. */
  datatype Key = Backspace | Space | Kana(c: char)

  /** The kana keyboard's rows, in the order shown. */
  const KanaKeys: seq<char> := [
    'あ', 'い', 'う', 'え', 'お', 'か', 'き', 'く', 'け', 'こ', 'さ', 'し', 'す', 'せ', 'そ',
    'た', 'ち', 'つ', 'て', 'と', 'な', 'に', 'ぬ', 'ね', 'の', 'は', 'ひ', 'ふ', 'へ', 'ほ',
    'ま', 'み', 'む', 'め', 'も', 'や', 'ゆ', 'よ', 'わ', 'を', 'ん', 'が', 'ぎ', 'ぐ', 'げ', 'ご',
    'ざ', 'じ', 'ず', 'ぜ', 'ぞ', 'だ', 'ぢ', 'づ', 'で', 'ど', 'ば', 'び', 'ぶ', 'べ', 'ぼ',
    'ぱ', 'ぴ', 'ぷ', 'ぺ', 'ぽ', 'ー', '、', '。', '！', '？']

  /** A key press on the on-screen keyboard. Back space only shortens the
      input (the hint is left as it was); the space bar appends a space and
      moves the counters only when that completes the target; a kana key
      appends its character and counts like a text box edit. */
  function VirtualKey(p: Progress, key: Key): (r: Progress)
    ensures r.target == p.target
    ensures key == Backspace ==> r == p.(input := DropLast(p.input))
    ensures key == Space ==> r.input == p.input + " " && r.hint == HintAt(p.target, r.input)
    ensures key == Space && r.input != p.target ==> r.correct == p.correct && r.total == p.total && r.score == p.score
  {
    match key
    case Backspace => p.(input := DropLast(p.input))
    case Space =>
      var typed := p.input + " ";
      var q := Shown(p, typed);
      if typed == p.target then Completion(q) else q
    case Kana(c) =>
      var typed := p.input + [c];
      var q := Shown(p, typed);
      if typed == p.target then Completion(q) else Keystroke(q)
  }

  /** A kana key does exactly what typing that character into the text box
      does. */
  lemma KanaIsTextChange(p: Progress, c: char)
    ensures VirtualKey(p, Kana(c)) == TextChange(p, p.input + [c])
  {
  }

  /** The space bar counts like the text box only when it completes the
      target; otherwise it adds nothing, where the text box would count a
      typed character. */
  lemma SpaceDiffersFromTextChange(p: Progress)
    ensures p.input + " " == p.target ==> VirtualKey(p, Space) == TextChange(p, p.target)
    ensures p.input + " " != p.target ==> VirtualKey(p, Space).total + 1 == TextChange(p, p.input + " ").total
  {
  }

  /** Back space undoes the character a key appended. */
  lemma BackspaceUndoesKey(p: Progress, key: Key)
    requires key != Backspace
    ensures VirtualKey(VirtualKey(p, key), Backspace).input == p.input
  {
    var r := VirtualKey(p, key);
    assert r.input[..|r.input| - 1] == p.input;
  }

  /** Back space does not refresh the hint: after typing the first character
      of "ab" and deleting it, the hint still asks for "b" although "a" is
      the next character to type. */
  lemma BackspaceLeavesHintStale()
    ensures var p := TextChange(Progress("ab", "", "a", 0, 0, 0), "a");
      var r := VirtualKey(p, Backspace);
      r.input == "" && r.hint == "b" && HintAt(r.target, r.input) == "a"
  {
    var p := TextChange(Progress("ab", "", "a", 0, 0, 0), "a");
    assert p.hint == "b";
  }

  lemma {:induction false} TextChangeKeepsInv(p: Progress, typed: string)
    requires CountersInv(p)
    ensures CountersInv(TextChange(p, typed))
  {
    var q := Shown(p, typed);
    assert CountersInv(q);
    if typed == p.target {
      CompletionKeepsInv(q);
    }
  }

  lemma {:induction false} CompletionKeepsInv(q: Progress)
    requires CountersInv(q)
    ensures CountersInv(Completion(q))
  {
    var r := Completion(q);
    assert r.score == q.score + 10 * |q.target|;
    assert 10 * r.correct == 10 * q.correct + 10 * |q.target|;
  }

  lemma {:induction false} VirtualKeyKeepsInv(p: Progress, key: Key)
    requires CountersInv(p)
    ensures CountersInv(VirtualKey(p, key))
  {
    match key
    case Backspace =>
    case Space =>
      var typed := p.input + " ";
      if typed == p.target { CompletionKeepsInv(Shown(p, typed)); }
    case Kana(c) =>
      var typed := p.input + [c];
      if typed == p.target { CompletionKeepsInv(Shown(p, typed)); }
  }

  /** `calculateAccuracy`: 100 before anything has been typed, otherwise
      the rounded percentage of correct characters. */
  function Accuracy(correct: nat, total: nat): (r: nat)
    ensures total == 0 ==> r == 100
    ensures total > 0 ==> r == RoundedPercent(correct, total)
  {
    if total == 0 then 100 else RoundedPercent(correct, total)
  }

  /** With no more correct than typed characters the accuracy is a
      percentage, and all-correct typing shows 100. */
  lemma AccuracyIsPercentage(correct: nat, total: nat)
    requires correct <= total
    ensures Accuracy(correct, total) <= 100
    ensures correct == total ==> Accuracy(correct, total) == 100
  {
    if total > 0 {
      PercentBounds(correct, total);
    }
  }

  /** A scheduled move to the next text: the completed-text count and the
      text list as they were when the text was completed, since the callback
      sees the values of the moment it was scheduled. */
  datatype Scheduled = Scheduled(completed: nat, pool: seq<string>)

  class TypingGame {
    var gameState: GameState
    var difficulty: string
    var category: string
    var progress: Progress
    var timeLeft: nat
    var completedTexts: nat
    var showKeyboard: bool
    /** Moves to the next text that are waiting out their half second, oldest first. */
    var pendingNext: seq<Scheduled>

    ghost predicate Valid()
      reads this`progress, this`gameState, this`timeLeft, this`pendingNext
    {
      && CountersInv(progress)
      && (gameState == Playing ==> timeLeft > 0)
      && (forall i :: 0 <= i < |pendingNext| ==> |pendingNext[i].pool| > 0)
    }

    /** `calculateAccuracy`: a percentage whenever the counters are consistent. */
    function CalculateAccuracy(): (r: nat)
      reads this`progress
      requires CountersInv(progress)
      ensures r <= 100
      ensures progress.total == 0 ==> r == 100
    {
      AccuracyIsPercentage(progress.correct, progress.total);
      Accuracy(progress.correct, progress.total)
    }

    /** The screen as it first appears: the menu, easy proverbs, a 60-second
      clock and zero counters. */
    constructor ()
      ensures gameState == Menu && difficulty == "easy" && category == "kotowaza"
      ensures progress == Progress("", "", "", 0, 0, 0) && timeLeft == 60 && completedTexts == 0
      ensures !showKeyboard && pendingNext == []
      ensures Valid()
    {
      gameState := Menu;
      difficulty := "easy";
      category := "kotowaza";
      progress := Progress("", "", "", 0, 0, 0);
      timeLeft := 60;
      completedTexts := 0;
      showKeyboard := false;
      pendingNext := [];
    }

    /** A difficulty button on the menu. */
    method SetDifficulty(d: string)
      requires gameState == Menu
      modifies this`difficulty
      ensures difficulty == d
    {
      difficulty := d;
    }

    /** A category button on the menu. */
    method SetCategory(c: string)
      requires gameState == Menu
      modifies this`category
      ensures category == c
    {
      category := c;
    }

    /** The start button (menu or result screen): the clock is set from the
      difficulty, the counters are cleared, the random pick `pick` (the index
      `Math.floor(Math.random() * length)` lands on) chooses the text, and
      with the game screen shown the hint points at its first character.
      Moves still waiting from an earlier game are not cancelled. */
    method InitializeGame(pick: nat)
      requires gameState != Playing
      requires pick < |TextPool(difficulty, category)|
      requires Valid()
      modifies this`timeLeft, this`progress, this`completedTexts, this`gameState
      ensures timeLeft == GetDifficultyConfig(difficulty).timeLimit
      ensures var t := TextPool(difficulty, category)[pick];
        progress == Progress(t, "", HintAt(t, ""), 0, 0, 0)
      ensures completedTexts == 0 && gameState == Playing
      ensures Valid()
    {
      var t := TextPool(difficulty, category)[pick];
      timeLeft := GetDifficultyConfig(difficulty).timeLimit;
      progress := Progress(t, "", HintAt(t, ""), 0, 0, 0);
      completedTexts := 0;
      gameState := Playing;
    }

    /** An edit of the text box; completing the text schedules the move to
      the next one. */
    method HandleTextChange(typed: string)
      requires gameState == Playing && Valid()
      modifies this`progress, this`pendingNext
      ensures progress == TextChange(old(progress), typed)
      ensures pendingNext == old(pendingNext) +
        (if typed == old(progress).target then [Scheduled(completedTexts, TextPool(difficulty, category))] else [])
      ensures Valid()
    {
      TextChangeKeepsInv(progress, typed);
      if typed == progress.target {
        pendingNext := pendingNext + [Scheduled(completedTexts, TextPool(difficulty, category))];
      }
      progress := TextChange(progress, typed);
    }

    /** A key of the on-screen keyboard, which is only there while shown;
      completing the text schedules the move to the next one. */
    method HandleVirtualKeyPress(key: Key)
      requires gameState == Playing && showKeyboard && Valid()
      requires key.Kana? ==> key.c in KanaKeys
      modifies this`progress, this`pendingNext
      ensures progress == VirtualKey(old(progress), key)
      ensures pendingNext == old(pendingNext) +
        (if key != Backspace && progress.input == progress.target
         then [Scheduled(completedTexts, TextPool(difficulty, category))] else [])
      ensures Valid()
    {
      VirtualKeyKeepsInv(progress, key);
      progress := VirtualKey(progress, key);
      if key != Backspace && progress.input == progress.target {
        pendingNext := pendingNext + [Scheduled(completedTexts, TextPool(difficulty, category))];
      }
    }

    /** The half second after a completion ends (`nextText`): the input is
      cleared, the random pick `pick` chooses a text from the list captured
      when it was scheduled, and the count becomes one more than it was then;
      when the text changes while the game screen is shown, the hint points
      at the new text's first character. */
    method NextTextTimeout(pick: nat)
      requires pendingNext != [] && pick < |pendingNext[0].pool| && Valid()
      modifies this`progress, this`completedTexts, this`pendingNext
      ensures var s := old(pendingNext[0]); var t := s.pool[pick];
        && progress == old(progress).(target := t, input := "",
             hint := if gameState == Playing && t != old(progress).target then HintAt(t, "") else old(progress).hint)
        && completedTexts == s.completed + 1
        && pendingNext == old(pendingNext[1..])
      ensures Valid()
    {
      var s := pendingNext[0];
      var t := s.pool[pick];
      var hint := if gameState == Playing && t != progress.target then HintAt(t, "") else progress.hint;
      progress := progress.(target := t, input := "", hint := hint);
      completedTexts := s.completed + 1;
      pendingNext := pendingNext[1..];
    }

    /** One second of the countdown while the game screen is shown. */
    method TimerTick()
      requires gameState == Playing && timeLeft > 0 && Valid()
      modifies this`timeLeft, this`gameState
      ensures timeLeft == TickTime(old(timeLeft))
      ensures gameState == if old(timeLeft) <= 1 then Result else Playing
      ensures Valid()
    {
      if timeLeft <= 1 {
        gameState := Result;
        timeLeft := 0;
      } else {
        timeLeft := timeLeft - 1;
      }
    }

    /** The back button on the game or result screen; the clock stops
      because the game screen is gone. */
    method BackToMenu()
      requires gameState != Menu && Valid()
      modifies this`gameState
      ensures gameState == Menu
      ensures Valid()
    {
      gameState := Menu;
    }

    /** The show/hide keyboard button. */
    method ToggleKeyboard()
      requires gameState == Playing
      modifies this`showKeyboard
      ensures showKeyboard == !old(showKeyboard)
    {
      showKeyboard := !showKeyboard;
    }
  }
}

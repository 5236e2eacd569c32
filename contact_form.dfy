/** The three-step contact form: pick a mood, fill in the form, read a
    joke on the thank-you page. */
module ContactForm {
  import opened Text

  datatype Field = Name | Email | Phone | Message | InquiryType

  datatype FormData = FormData(name: string, email: string, phone: string, message: string, inquiryType: string)

  const EmptyForm := FormData("", "", "", "", "question")

  const InquiryTypes: seq<string> := ["question", "complaint", "praise", "other"]
  const Moods: seq<string> := ["happy", "angry", "sad", "inLove"]

  const NameRequired := "お名前を入力してください"
  const EmailRequired := "メールアドレスを入力してください"
  const EmailInvalid := "有効なメールアドレスを入力してください"
  const MessageRequired := "メッセージを入力してください"

  /** The value of one input of the form. */
  function Get(form: FormData, f: Field): string
  {
    match f
    case Name => form.name
    case Email => form.email
    case Phone => form.phone
    case Message => form.message
    case InquiryType => form.inquiryType
  }

  /** `{ ...formData, [name]: value }`: the form with one input replaced. */
  function SetField(form: FormData, f: Field, value: string): (r: FormData)
    ensures forall g :: Get(r, g) == if g == f then value else Get(form, g)
  {
    match f
    case Name => form.(name := value)
    case Email => form.(email := value)
    case Phone => form.(phone := value)
    case Message => form.(message := value)
    case InquiryType => form.(inquiryType := value)
  }

  /** `/\S+@\S+\.\S+/` matches at `at`, `dot`: an '@' with a non-space
      character before it, a '.' at least two places later, a non-space
      character after it, and no white space in between. */
  predicate EmailMatchAt(s: string, at: int, dot: int)
  {
    && 1 <= at && at + 2 <= dot && dot + 2 <= |s|
    && s[at] == '@' && s[dot] == '.'
    && forall i :: at - 1 <= i < dot + 2 ==> !IsJsSpace(s[i])
  }

  /** `.test` of the email pattern: it is not anchored, so a match anywhere
      in the string is enough. */
  predicate EmailPattern(s: string)
  {
    exists at, dot :: 0 <= at < |s| && 0 <= dot < |s| && EmailMatchAt(s, at, dot)
  }

  /** What `validateForm` records for one input; the phone and the inquiry
      type are never checked. */
  function FieldError(form: FormData, f: Field): Option<string>
  {
    match f
    case Name => if IsBlank(form.name) then Some(NameRequired) else None
    case Email =>
      if IsBlank(form.email) then Some(EmailRequired)
      else if !EmailPattern(form.email) then Some(EmailInvalid)
      else None
    case Message => if IsBlank(form.message) then Some(MessageRequired) else None
    case _ => None
  }

  /** A form `validateForm` accepts. */
  predicate FormIsValid(form: FormData)
  {
    !IsBlank(form.name) && !IsBlank(form.email) && EmailPattern(form.email) && !IsBlank(form.message)
  }

  /** The form is accepted exactly when no input has an error, and a blank
      email is reported as missing, never as malformed. */
  lemma ValidIffNoErrors(form: FormData)
    ensures FormIsValid(form) <==> forall f :: FieldError(form, f).None?
    ensures IsBlank(form.email) ==> FieldError(form, Email) == Some(EmailRequired)
    ensures FieldError(form, Phone).None? && FieldError(form, InquiryType).None?
  {
    if !FormIsValid(form) {
      if IsBlank(form.name) { assert FieldError(form, Name).Some?; }
      else if IsBlank(form.email) || !EmailPattern(form.email) { assert FieldError(form, Email).Some?; }
      else { assert FieldError(form, Message).Some?; }
    }
  }

  /** The pattern is not anchored: text around a match keeps it a match, so
      an address with a space in front of its local part passes. */
  lemma EmailPatternUnanchored(pre: string, s: string, post: string)
    requires EmailPattern(s)
    ensures EmailPattern(pre + s + post)
  {
    var at, dot :| 0 <= at < |s| && 0 <= dot < |s| && EmailMatchAt(s, at, dot);
    var t := pre + s + post;
    assert |t| == |pre| + |s| + |post|;
    assert 1 <= at && dot + 2 <= |s|;
    forall i | at + |pre| - 1 <= i < dot + |pre| + 2 ensures !IsJsSpace(t[i]) {
      assert t[i] == s[i - |pre|];
    }
    assert EmailMatchAt(t, at + |pre|, dot + |pre|);
  }

  lemma SpacedAddressAccepted()
    ensures EmailPattern("a b@c.d")
    ensures !EmailPattern("ab@cd")
  {
    assert EmailMatchAt("a b@c.d", 3, 5);
    forall at, dot ensures !EmailMatchAt("ab@cd", at, dot) {
      if 1 <= at && at + 2 <= dot && dot + 2 <= 5 {
        assert dot == 3;
      }
    }
  }

  /** `errors[name]` is truthy: present and not the empty string. */
  predicate HasError(errors: map<Field, string>, f: Field)
  {
    f in errors && errors[f] != ""
  }

  /** `handleChange`'s update of the errors: only the edited input's error is
      blanked, and only if it had one. */
  function ClearError(errors: map<Field, string>, f: Field): (r: map<Field, string>)
    ensures !HasError(r, f)
    ensures forall g :: g != f ==> (g in r <==> g in errors) && (g in r ==> r[g] == errors[g])
    ensures !HasError(errors, f) ==> r == errors
  {
    if HasError(errors, f) then errors[f := ""] else errors
  }

  /** `showNextJoke`: the next of the five jokes, wrapping around. */
  function NextJoke(i: nat): (r: nat)
    ensures r < 5
    ensures i < 4 ==> r == i + 1
    ensures i == 4 ==> r == 0
  {
    (i + 1) % 5
  }

  /** Five presses bring back the joke shown first. */
  lemma JokesCycle(i: nat)
    requires i < 5
    ensures NextJoke(NextJoke(NextJoke(NextJoke(NextJoke(i))))) == i
  {
  }

  datatype Joke = Joke(setup: string, punchline: string)

  const Jokes: seq<Joke> := [
    Joke("なぜプログラマーはメガネをかけているのでしょう？", "C言語が見えないからです！"),
    Joke("バグはどうやって修正するの？", "デバッガー（虫取り）スプレーを使います！"),
    Joke("プログラマーはなぜ社交的になれないの？", "オブジェクト指向だからです！"),
    Joke("コンピューターが風邪をひくとどうなる？", "ハードディスクがくしゃみをします！"),
    Joke("データベースの管理者が飲み会で注文するものは？", "「ビールをSELECT」です！")
  ]

  /** The three replies of each inquiry type, in the order of `InquiryTypes`. */
  const FunnyResponses: seq<seq<string>> := [
    ["なるほど、素晴らしい質問ですね！担当者が眠りから覚めたら回答します。",
     "その質問、私たちのAIにも答えられません。人間の担当者が考えます。",
     "質問を受け付けました！答えを知るまで、お茶でも飲みながらお待ちください。"],
    ["おっと、ご不満を感じさせてしまったようですね。担当者を叩き起こします！",
     "クレームですって？担当者が震えながら対応準備中です。",
     "ご不満、承りました。担当者は現在、あなたの怒りに耐えられる精神力を鍛えています。"],
    ["わぁ、褒めていただきありがとうございます！担当者が舞い上がって天井に届きそうです。",
     "素晴らしい言葉をありがとうございます！このままだと担当者の頭が大きくなりそうです。",
     "称賛のお言葉、ありがとうございます！担当者に転送...あ、感動で倒れました。"],
    ["興味深いお問い合わせですね。解読班が急いで分析中です。",
     "なるほど！...というふりをしていますが、実は担当者も混乱しています。",
     "このお問い合わせ、社内会議で議論になりそうです。準備しておきます。"]
  ]

  /** The reply on the thank-you page, `pick` standing for the random draw. */
  function FunnyResponse(inquiryType: string, pick: nat): (r: string)
    requires inquiryType in InquiryTypes && pick < 3
    ensures exists k :: 0 <= k < 4 && InquiryTypes[k] == inquiryType && r == FunnyResponses[k][pick]
  {
    if inquiryType == "question" then FunnyResponses[0][pick]
    else if inquiryType == "complaint" then FunnyResponses[1][pick]
    else if inquiryType == "praise" then FunnyResponses[2][pick]
    else FunnyResponses[3][pick]
  }

  datatype Theme = Theme(primary: string, secondary: string, text: string, border: string, hover: string)

  function ColourTheme(colour: string): Theme
  {
    Theme("bg-" + colour + "-600", "bg-" + colour + "-100", "text-" + colour + "-900",
          "border-" + colour + "-400", "hover:bg-" + colour + "-700")
  }

  /** The colour of `getMoodTheme`: amber, red, blue or pink for the four
      moods, indigo for any other. */
  function MoodColour(mood: string): (c: string)
    ensures c == "indigo" <==> mood !in Moods
    ensures c in ["amber", "red", "blue", "pink", "indigo"]
  {
    if mood == "happy" then "amber"
    else if mood == "angry" then "red"
    else if mood == "sad" then "blue"
    else if mood == "inLove" then "pink"
    else "indigo"
  }

  /** Each mood has a colour of its own. */
  lemma MoodColoursDistinct()
    ensures forall i, j :: 0 <= i < j < |Moods| ==> MoodColour(Moods[i]) != MoodColour(Moods[j])
  {
  }

  /** `getMoodTheme`: the class names of the mood's colour. */
  function GetMoodTheme(mood: string): Theme
  {
    ColourTheme(MoodColour(mood))
  }

  class ContactPage {
    var formData: FormData
    var step: nat
    var mood: string
    var errors: map<Field, string>
    var isSubmitting: bool
    var jokeIndex: nat

    ghost predicate Valid()
      reads this
    {
      1 <= step <= 3 && jokeIndex < 5 && formData.inquiryType in InquiryTypes
    }

    constructor ()
      ensures formData == EmptyForm && step == 1 && mood == "neutral"
      ensures errors == map[] && !isSubmitting && jokeIndex == 0
      ensures Valid()
    {
      formData := EmptyForm;
      step := 1;
      mood := "neutral";
      errors := map[];
      isSubmitting := false;
      jokeIndex := 0;
    }

    /** One of the four mood buttons. */
    method SelectMood(m: string)
      requires step == 1 && m in Moods
      modifies this`mood
      ensures mood == m
    {
      mood := m;
    }

    /** "Next" on the mood page. */
    method GoToForm()
      requires Valid() && step == 1
      modifies this`step
      ensures step == 2 && Valid()
    {
      step := 2;
    }

    /** The back arrow on the form. */
    method GoBack()
      requires Valid() && step == 2
      modifies this`step
      ensures step == 1 && Valid()
    {
      step := 1;
    }

    /** `handleChange`: an input or the inquiry-type select changed. */
    method HandleChange(f: Field, value: string)
      requires Valid() && step == 2
      requires f == InquiryType ==> value in InquiryTypes
      modifies this`formData, this`errors
      ensures formData == SetField(old(formData), f, value)
      ensures errors == ClearError(old(errors), f)
      ensures Valid()
    {
      formData := SetField(formData, f, value);
      if f in errors && errors[f] != "" {
        errors := errors[f := ""];
      }
    }

    /** `validateForm`: collects the errors of the current form, replaces
      the old ones with them, and reports whether there were none. */
    method ValidateForm() returns (valid: bool)
      modifies this`errors
      ensures forall f :: f in errors <==> FieldError(formData, f).Some?
      ensures forall f :: f in errors ==> errors[f] == FieldError(formData, f).value
      ensures valid <==> FormIsValid(formData)
    {
      TrimEmptyIffBlank(formData.name);
      TrimEmptyIffBlank(formData.email);
      TrimEmptyIffBlank(formData.message);
      ValidIffNoErrors(formData);
      var newErrors: map<Field, string> := map[];
      if Trim(formData.name) == "" {
        newErrors := newErrors[Name := NameRequired];
      }
      if Trim(formData.email) == "" {
        newErrors := newErrors[Email := EmailRequired];
      } else if !EmailPattern(formData.email) {
        newErrors := newErrors[Email := EmailInvalid];
      }
      if Trim(formData.message) == "" {
        newErrors := newErrors[Message := MessageRequired];
      }
      errors := newErrors;
      valid := |newErrors| == 0;
      assert forall f :: f in newErrors <==> FieldError(formData, f).Some?;
      if !valid {
        var f :| f in newErrors;
      }
    }

    /** `handleSubmit`, while the submit button is enabled: a rejected form
      only shows its errors; an accepted one starts sending. */
    method HandleSubmit() returns (valid: bool)
      requires Valid() && step == 2 && !isSubmitting
      modifies this`errors, this`isSubmitting
      ensures valid <==> FormIsValid(formData)
      ensures forall f :: f in errors <==> FieldError(formData, f).Some?
      ensures isSubmitting == valid
      ensures Valid()
    {
      valid := ValidateForm();
      if valid {
        isSubmitting := true;
      }
    }

    /** 1.5 s after an accepted submit, whatever page is showing by then. */
    method SubmitTimeout()
      requires Valid() && isSubmitting
      modifies this`isSubmitting, this`step
      ensures !isSubmitting && step == 3 && Valid()
    {
      isSubmitting := false;
      step := 3;
    }

    /** The joke button on the thank-you page. */
    method ShowNextJoke()
      requires Valid() && step == 3
      modifies this`jokeIndex
      ensures jokeIndex == NextJoke(old(jokeIndex)) && Valid()
    {
      jokeIndex := (jokeIndex + 1) % |Jokes|;
    }

    /** "New inquiry": an empty form and the mood page again; the mood,
      the errors and the joke are kept. */
    method NewInquiry()
      requires Valid() && step == 3
      modifies this`formData, this`step
      ensures formData == EmptyForm && step == 1 && Valid()
    {
      formData := EmptyForm;
      step := 1;
    }
  }
}

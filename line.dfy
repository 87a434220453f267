/** The mode engine: the quick-reply table and the per-message decision chain that maps the
    stored mode and the incoming text to a canned reply, a prompt for the completion
    service, and a new mode. */
module Line {
  import opened Common
  import opened DynamoDB
  import opened OpenAI

  // ---------------------------------------------------------------------------------------
  // Texts the engine recognises (the payloads of the quick-reply buttons)

  const ModePrefix: string := "【モード:"
  const CorrectionFinish: string := "【英文添削:完了】"
  const LectureFinish: string := "【会話フレーズ講義:完了】"
  const FreeTalkFinish: string := "【フリートーク:完了】"
  const DontKnowText: string := "I don't know."
  const PresentationFinish: string := "【発表練習:完了】"
  const PresentationDontKnowText: string := "【発表練習:分からない】"

  // ---------------------------------------------------------------------------------------
  // Announcements and prompts

  /** The fixed texts of the handler: the announcements of `mode_messages` (modes 0..4) and
      the wording of the prompts. Everything below is stated for any wording; the handler is
      built with `SourceWording`. */
  datatype Wording = Wording(
    endMessage: string, talkMessage: string, correctionMessage: string, practiceMessage: string,
    lectureMenu: string,
    talkFeedback: string, practiceFeedback: string, anotherQuestion: string,
    talkOpening: string, correctionOpening: string, practiceOpening: string,
    lectureHead: string, lectureTail: string)

  /** The source's texts (the indentation and blank lines of its multi-line literals are
      not kept). */
  const SourceWording: Wording := Wording(
    "モードを終了しました。",
    "Alright,I'm ready to help you with your. English conversation practice!\n Please let me know the topic you'd like to talk about.\n\n話したいトピックを英語で送ってください！フリートークを完了したい場合は下の「完了」ボタンを押してください。「完了」が押されるとこれまでの会話を踏まえてのフィードバックが行われます。フリートーク中に質問が分からない場合は下の「分からない」ボタンを押してください。\n\n「完了」を押した後に会話を通してのフィードバックが送信されます。※フィードバックが生成されるのには時間が掛かります。",
    "添削して欲しい英文を送ってください。※添削には時間が掛かります。",
    "練習したい発表原稿を送ってください！この原稿を元に想定される質問を考えます。質問に答えると次の質問をします。\n\n練習を完了したい場合は下の「完了」ボタンを押してください。発表中の質問で分からない質問は下の「分からない」ボタンを押してください。\n\n「完了」を押した後に発表練習を通してのフィードバックが送信されます。※フィードバックが生成されるのには時間が掛かります。",
    "習いたい講義内容を以下から選択してください！講義が始まります。講義生成には時間が掛かります。",
    "#これまでの私の英文から私へのフィードバックをしてください。また、以下の要件を守ってください。\n# フィードバックの作り方\n・適切なタイミングで改行して、読みやすさを確保してください。\n# あなたのルール\n・日本語で私にフィードバックしてください。\n・これまでの会話を踏まえて、私のよかった点と私の改善した方がよい点をこれまでの英語の文章を取り上げながら具体的にフィードバックしてください。\n# フォーマット\n今回の会話を通してのあなたへのフィードバックを行います。\nよかった点\n改善するべき点\n以上になります！ありがとうございました！",
    "#聞き手としてこれまでの会話から私へのフィードバックをしてください。また、以下の要件を守ってください。\n# フィードバックの作り方\n・適切なタイミングで改行して、読みやすさを確保してください。\n# あなたのルール\n・日本語でフィードバックしてください。\n・これまでの会話を踏まえて、発表の内容として私のよかった点と改善した方がよい点をこれまでの英語の文章を取り上げながら、具体的にフィードバックしてください。\n# フォーマット\n今回の会話を通してのあなたへのフィードバックを行います。\nよかった点\n改善するべき点\n以上になります！ありがとうございました！",
    "同じ話題で別の質問を英語でしてください。",
    "#あなたは英会話講師です。これから私が送る話したいトピックについて英語で話してください。\n#あなたのルール\n・英文は数行の文章を送ってください。\n・毎回１個だけ質問をしてください。\n・丁寧で文法的に正しい英語を使ってください。\n・絵文字をたくさん使用して会話を続けてください。\n・適切なタイミングで改行して、読みやすさを確保してください。",
    "#あなたは英文添削のプロです。私が送る英文を、文法的に丁寧で正しい英語に修正してください。",
    "#あなたは就職活動支援のプロです。これから私が練習したい英文を送るので、その英文から面接官が質問してくるであろう質問をしてください。\n\n#あなたのルール\n・あなたが文章を送る時は、１つだけ英語で質問をしてください。\n・質問は合計で3回してください。\n\n#質問形式の例\n私：I am interested in soccer.\nあなた：Q1:How did you become interested in soccer?\n私：I went to see a game with my father.\nあなた：Q2:What did you find interesting about soccer?",
    "#あなたは英会話の講師です。これから",
    "について、英会話でよく使われるフレーズをランダムで１つ題材にして講義を行なってください。講義ではフレーズの説明や例をあげてください。練習ではシナリオを作成して、会話練習してください。\n＃講義フォーマット\n【講義内容】\n【フレーズ】\n【例文】\n【練習】\n上記のシナリオのように、メッセージを送って練習してみましょう！")

  /** `mode_messages`: the announcement of modes 0..4. */
  function ModeMessage(t: Wording, m: int): string
    requires 0 <= m <= 4
  {
    if m == 0 then t.endMessage
    else if m == 1 then t.talkMessage
    else if m == 2 then t.correctionMessage
    else if m == 3 then t.practiceMessage
    else t.lectureMenu
  }

  /** The prompts the chain can send, named by what they ask the completion service for. */
  datatype Prompt =
    | TalkFeedback            // free-talk finish: feedback on the conversation
    | PracticeFeedback        // presentation finish: feedback as a listener
    | AnotherQuestion         // "don't know": another question on the same topic
    | TalkOpening             // mode 1 selected
    | CorrectionOpening       // mode 2 selected
    | PracticeOpening         // mode 3 selected
    | Lecture(topic: string)  // modes 5..16 selected: one template around the topic noun
    | Turn(text: string)      // the default chat turn

  /** The text sent for a prompt. */
  function PromptText(t: Wording, p: Prompt): string {
    match p
    case TalkFeedback => t.talkFeedback
    case PracticeFeedback => t.practiceFeedback
    case AnotherQuestion => t.anotherQuestion
    case TalkOpening => t.talkOpening
    case CorrectionOpening => t.correctionOpening
    case PracticeOpening => t.practiceOpening
    case Lecture(topic) => t.lectureHead + topic + t.lectureTail
    case Turn(text) => "ユーザー：" + text + "\nAI："
  }

  /** The `prompt` variable of the chain: `None` or the text of the chosen prompt. */
  function Render(t: Wording, p: Option<Prompt>): (r: Option<string>)
    ensures r.Some? <==> p.Some?
  {
    if p.Some? then Some(PromptText(t, p.value)) else None
  }

  // ---------------------------------------------------------------------------------------
  // The keyword table of the mode-select branch, in the order the chain tests it

  /** The keyword that selects mode `m`. */
  function Keyword(m: int): string
    requires 1 <= m <= 16
  {
    if m == 1 then "フリートーク"
    else if m == 2 then "英文添削"
    else if m == 3 then "発表練習"
    else if m == 4 then "会話フレーズ講義"
    else if m == 5 then "日常生活"
    else if m == 6 then "気持ち"
    else if m == 7 then "天気"
    else if m == 8 then "観光"
    else if m == 9 then "レストラン"
    else if m == 10 then "ショッピング"
    else if m == 11 then "学校"
    else if m == 12 then "スポーツ"
    else if m == 13 then "恋愛"
    else if m == 14 then "ビジネス"
    else if m == 15 then "電話"
    else "会議"
  }

  /** The first mode from `m` on whose keyword the text contains. */
  function FirstKeyword(text: string, m: int): (r: Option<int>)
    requires 1 <= m <= 17
    ensures r.Some? ==> m <= r.value <= 16 && Contains(text, Keyword(r.value))
    decreases 17 - m
  {
    if m == 17 then None
    else if Contains(text, Keyword(m)) then Some(m)
    else FirstKeyword(text, m + 1)
  }

  /** The mode a mode-select text chooses, if any. */
  function SelectMode(text: string): (r: Option<int>)
    ensures r.Some? ==> 1 <= r.value <= 16
  {
    FirstKeyword(text, 1)
  }

  /** Which of the keywords 1..16 the text contains, by mode number (index 0 unused). */
  function Hits(text: string): (h: seq<bool>)
    ensures |h| == 17 && forall j :: 1 <= j <= 16 ==> h[j] == Contains(text, Keyword(j))
  {
    seq(17, j => 1 <= j <= 16 && Contains(text, Keyword(j)))
  }

  /** The first index in `m..16` whose entry of `h` is set. */
  function FirstHit(h: seq<bool>, m: int): (r: Option<int>)
    requires |h| == 17 && 1 <= m <= 17
    decreases 17 - m
  {
    if m == 17 then None
    else if h[m] then Some(m)
    else FirstHit(h, m + 1)
  }

  lemma {:induction false} FirstHitIff(h: seq<bool>, from: int, m: int)
    requires |h| == 17 && 1 <= from <= 17
    ensures FirstHit(h, from) == Some(m) <==> from <= m <= 16 && h[m] && forall j :: from <= j < m ==> !h[j]
    ensures FirstHit(h, from) == None <==> forall j :: from <= j <= 16 ==> !h[j]
    decreases 17 - from
  {
    if from < 17 && !h[from] {
      FirstHitIff(h, from + 1, m);
    }
  }

  lemma {:induction false} FirstKeywordHits(text: string, from: int)
    requires 1 <= from <= 17
    ensures FirstKeyword(text, from) == FirstHit(Hits(text), from)
    decreases 17 - from
  {
    if from < 17 {
      FirstKeywordHits(text, from + 1);
    }
  }

  /** The keyword scan finds mode `m` exactly when the text contains `m`'s keyword and none
      of the keywords tried before it, and finds nothing exactly when it contains none. */
  lemma FirstKeywordIff(text: string, from: int, m: int)
    requires 1 <= from <= 17
    ensures FirstKeyword(text, from) == Some(m) <==>
              && from <= m <= 16 && Contains(text, Keyword(m))
              && forall j :: from <= j < m ==> !Contains(text, Keyword(j))
    ensures FirstKeyword(text, from) == None <==> forall j :: from <= j <= 16 ==> !Contains(text, Keyword(j))
  {
    FirstKeywordHits(text, from);
    FirstHitIff(Hits(text), from, m);
  }

  lemma SelectModeIff(text: string, m: int)
    ensures SelectMode(text) == Some(m) <==>
              && 1 <= m <= 16 && Contains(text, Keyword(m))
              && forall j :: 1 <= j < m ==> !Contains(text, Keyword(j))
    ensures SelectMode(text) == None <==> forall j :: 1 <= j <= 16 ==> !Contains(text, Keyword(j))
  {
    FirstKeywordIff(text, 1, m);
  }

  /** The chain of `SelectMode`, unrolled over the literal keywords. */
  lemma SelectModeUnrolled(text: string)
    ensures SelectMode(text) ==
      if Contains(text, "フリートーク") then Some(1)
      else if Contains(text, "英文添削") then Some(2)
      else if Contains(text, "発表練習") then Some(3)
      else if Contains(text, "会話フレーズ講義") then Some(4)
      else if Contains(text, "日常生活") then Some(5)
      else if Contains(text, "気持ち") then Some(6)
      else if Contains(text, "天気") then Some(7)
      else if Contains(text, "観光") then Some(8)
      else if Contains(text, "レストラン") then Some(9)
      else if Contains(text, "ショッピング") then Some(10)
      else if Contains(text, "学校") then Some(11)
      else if Contains(text, "スポーツ") then Some(12)
      else if Contains(text, "恋愛") then Some(13)
      else if Contains(text, "ビジネス") then Some(14)
      else if Contains(text, "電話") then Some(15)
      else if Contains(text, "会議") then Some(16)
      else None
  {
    assert FirstKeyword(text, 1) == if Contains(text, Keyword(1)) then Some(1) else FirstKeyword(text, 2);
    assert FirstKeyword(text, 2) == if Contains(text, Keyword(2)) then Some(2) else FirstKeyword(text, 3);
    assert FirstKeyword(text, 3) == if Contains(text, Keyword(3)) then Some(3) else FirstKeyword(text, 4);
    assert FirstKeyword(text, 4) == if Contains(text, Keyword(4)) then Some(4) else FirstKeyword(text, 5);
    assert FirstKeyword(text, 5) == if Contains(text, Keyword(5)) then Some(5) else FirstKeyword(text, 6);
    assert FirstKeyword(text, 6) == if Contains(text, Keyword(6)) then Some(6) else FirstKeyword(text, 7);
    assert FirstKeyword(text, 7) == if Contains(text, Keyword(7)) then Some(7) else FirstKeyword(text, 8);
    assert FirstKeyword(text, 8) == if Contains(text, Keyword(8)) then Some(8) else FirstKeyword(text, 9);
    assert FirstKeyword(text, 9) == if Contains(text, Keyword(9)) then Some(9) else FirstKeyword(text, 10);
    assert FirstKeyword(text, 10) == if Contains(text, Keyword(10)) then Some(10) else FirstKeyword(text, 11);
    assert FirstKeyword(text, 11) == if Contains(text, Keyword(11)) then Some(11) else FirstKeyword(text, 12);
    assert FirstKeyword(text, 12) == if Contains(text, Keyword(12)) then Some(12) else FirstKeyword(text, 13);
    assert FirstKeyword(text, 13) == if Contains(text, Keyword(13)) then Some(13) else FirstKeyword(text, 14);
    assert FirstKeyword(text, 14) == if Contains(text, Keyword(14)) then Some(14) else FirstKeyword(text, 15);
    assert FirstKeyword(text, 15) == if Contains(text, Keyword(15)) then Some(15) else FirstKeyword(text, 16);
    assert FirstKeyword(text, 16) == if Contains(text, Keyword(16)) then Some(16) else FirstKeyword(text, 17);
  }

  /** The prompt a newly selected mode sends (mode 4 has none: it replies with its menu). */
  function ModePrompt(m: int): Prompt
    requires 1 <= m <= 16 && m != 4
  {
    if m == 1 then TalkOpening
    else if m == 2 then CorrectionOpening
    else if m == 3 then PracticeOpening
    else Lecture(Keyword(m))
  }

  // ---------------------------------------------------------------------------------------
  // The decision

  /** Which branch of the chain a text takes. */
  datatype Path =
    | CannedFinish          // correction or phrase-lecture finish: back to mode 0 with no completion
    | FreeTalkFeedback      // free-talk finish: back to mode 0 with the feedback prompt
    | DontKnow              // "I don't know.": another question on the same topic
    | PresentationFeedback  // presentation finish: back to mode 0 with the feedback prompt
    | PresentationDontKnow  // presentation "don't know": another question on the same topic
    | ModeSelect(selected: Option<int>)  // a mode-select marker and the mode its keywords chose
    | Chat                  // anything else: a plain conversation turn

  /** Reply at once with the announcement of the new mode, or go to the completion service
      with a prompt (or with none). */
  datatype Action = Announce | Complete(prompt: Option<Prompt>)

  /** What the chain decides: the branch, the mode afterwards, whether it makes the zero-cost
      usage call (always with the new mode), whether it stores the mode itself, and the action. */
  datatype Decision = Decision(path: Path, mode: int, chargesZero: bool, storesMode: bool, action: Action)

  /** The bookkeeping of a decision is coherent: an announcement is of a mode 0..4 and either
      makes the zero-cost call or stores the mode itself, and a decision that skips the
      zero-cost call keeps the stored mode. */
  predicate Coherent(d: Decision, oldMode: int) {
    && (d.action.Announce? ==> 0 <= d.mode <= 4 && (d.chargesZero || d.storesMode))
    && (!d.chargesZero ==> d.mode == oldMode)
  }

  /** The decision for `text` when the stored mode is `oldMode`: exact sentinels first, then a
      mode-select marker with its first-match keyword, then a plain chat turn. */
  function Decide(oldMode: int, text: string): (d: Decision)
    ensures Coherent(d, oldMode)
    ensures 0 <= oldMode <= 16 ==> 0 <= d.mode <= 16
  {
    if text == CorrectionFinish || text == LectureFinish then
      Decision(CannedFinish, 0, true, false, Announce)
    else if text == FreeTalkFinish then
      Decision(FreeTalkFeedback, 0, true, false, Complete(Some(TalkFeedback)))
    else if text == DontKnowText then
      Decision(DontKnow, oldMode, false, false, Complete(Some(AnotherQuestion)))
    else if text == PresentationFinish then
      Decision(PresentationFeedback, 0, true, false, Complete(Some(PracticeFeedback)))
    else if text == PresentationDontKnowText then
      Decision(PresentationDontKnow, oldMode, false, false, Complete(Some(AnotherQuestion)))
    else if StartsWith(text, ModePrefix) then SelectDecision(oldMode, text)
    else Decision(Chat, oldMode, true, false, Complete(Some(Turn(text))))
  }

  /** The mode-select branch: the first keyword the text contains chooses the mode (the
      phrase-lecture menu answering at once); a new mode 0..4 is announced and stored; any
      other choice goes to the completion service with the mode's prompt, or with none when
      no keyword matched and the mode stays. */
  function SelectDecision(oldMode: int, text: string): (d: Decision)
    ensures Coherent(d, oldMode)
    ensures 0 <= oldMode <= 16 ==> 0 <= d.mode <= 16
  {
    var selected := SelectMode(text);
    if selected == Some(4) then
      Decision(ModeSelect(selected), 4, true, false, Announce)
    else
      var mode := if selected.Some? then selected.value else oldMode;
      if mode != oldMode && 0 <= mode <= 4 then
        Decision(ModeSelect(selected), mode, selected.Some?, true, Announce)
      else
        Decision(ModeSelect(selected), mode, selected.Some?, false,
                 Complete(if selected.Some? then Some(ModePrompt(selected.value)) else None))
  }

  // ---------------------------------------------------------------------------------------
  // Quick replies

  /** A quick-reply button: its label (title) and the text it sends when tapped. */
  datatype Button = Button(title: string, payload: string)

  /** The mode-select marker text for mode `m`. */
  function Marker(m: int): string
    requires 1 <= m <= 16
  {
    ModePrefix + Keyword(m) + "】"
  }

  /** The button that selects mode `m`, labelled with its keyword. */
  function MarkerButton(m: int): Button
    requires 1 <= m <= 16
  {
    Button(Keyword(m), Marker(m))
  }

  /** `generate_quick_reply_items`: total over all integers, never empty. */
  function QuickReplyItems(mode: int): (r: seq<Button>)
    ensures 1 <= |r| <= 12
  {
    if mode == 1 then [Button("完了", FreeTalkFinish), Button("分からない", DontKnowText)]
    else if mode == 2 then [Button("完了", CorrectionFinish)]
    else if mode == 3 then [Button("完了", PresentationFinish), Button("分からない", DontKnowText)]
    else if mode == 4 then
      [MarkerButton(5), MarkerButton(6), MarkerButton(7), MarkerButton(8), MarkerButton(9), MarkerButton(10),
       MarkerButton(11), MarkerButton(12), MarkerButton(13), MarkerButton(14), MarkerButton(15), MarkerButton(16)]
    else if 5 <= mode <= 16 then [Button("完了", LectureFinish)]
    else [MarkerButton(1), MarkerButton(2), MarkerButton(3), MarkerButton(4)]
  }

  /** One character of each keyword, in mode order. */
  const Signatures: string := "リ英発講日持天観ラョ学ポ恋ビ電議"

  /** A character of keyword `m` that lets a text be told apart from keyword `m`. */
  function Signature(m: int): (c: char)
    requires 1 <= m <= 16
    ensures c in Keyword(m)
  {
    Signatures[m - 1]
  }

  /** Keyword `m` has none of the signatures of the keywords tested before it. */
  ghost predicate SignaturesAbsent(m: int)
    requires 1 <= m <= 16
  {
    forall c :: c in Keyword(m) ==> c !in Signatures[..m - 1]
  }

  /** No signature occurs in the frame a marker puts around its keyword. */
  lemma SignatureOutsideFrame(j: int)
    requires 1 <= j <= 16
    ensures Signature(j) !in ModePrefix && Signature(j) !in "】"
  {
  }

  /** The marker of mode `m` is matched by keyword `m` when tested from mode `from` on. */
  lemma {:induction false} MarkerFirstKeyword(m: int, from: int)
    requires 1 <= from <= m <= 16
    requires SignaturesAbsent(m)
    ensures FirstKeyword(Marker(m), from) == Some(m)
    decreases m - from
  {
    if from < m {
      assert Signatures[..m - 1][from - 1] == Signature(from);
      SignatureOutsideFrame(from);
      NotContainsByChar(Marker(m), Keyword(from), Signature(from));
      MarkerFirstKeyword(m, from + 1);
    } else {
      ContainsInfix(ModePrefix, Keyword(m), "】");
    }
  }

  /** The marker of each mode selects that mode (the table is checked one mode at a time so
      that each proof stays small). */

  lemma MarkerSelects1()
    ensures StartsWith(Marker(1), ModePrefix) && SelectMode(Marker(1)) == Some(1)
  {
    assert SignaturesAbsent(1);
    MarkerFirstKeyword(1, 1);
  }

  lemma MarkerSelects2()
    ensures StartsWith(Marker(2), ModePrefix) && SelectMode(Marker(2)) == Some(2)
  {
    assert SignaturesAbsent(2);
    MarkerFirstKeyword(2, 1);
  }

  lemma MarkerSelects3()
    ensures StartsWith(Marker(3), ModePrefix) && SelectMode(Marker(3)) == Some(3)
  {
    assert SignaturesAbsent(3);
    MarkerFirstKeyword(3, 1);
  }

  lemma MarkerSelects4()
    ensures StartsWith(Marker(4), ModePrefix) && SelectMode(Marker(4)) == Some(4)
  {
    assert SignaturesAbsent(4);
    MarkerFirstKeyword(4, 1);
  }

  lemma MarkerSelects5()
    ensures StartsWith(Marker(5), ModePrefix) && SelectMode(Marker(5)) == Some(5)
  {
    assert SignaturesAbsent(5);
    MarkerFirstKeyword(5, 1);
  }

  lemma MarkerSelects6()
    ensures StartsWith(Marker(6), ModePrefix) && SelectMode(Marker(6)) == Some(6)
  {
    assert SignaturesAbsent(6);
    MarkerFirstKeyword(6, 1);
  }

  lemma MarkerSelects7()
    ensures StartsWith(Marker(7), ModePrefix) && SelectMode(Marker(7)) == Some(7)
  {
    assert SignaturesAbsent(7);
    MarkerFirstKeyword(7, 1);
  }

  lemma MarkerSelects8()
    ensures StartsWith(Marker(8), ModePrefix) && SelectMode(Marker(8)) == Some(8)
  {
    assert SignaturesAbsent(8);
    MarkerFirstKeyword(8, 1);
  }

  lemma MarkerSelects9()
    ensures StartsWith(Marker(9), ModePrefix) && SelectMode(Marker(9)) == Some(9)
  {
    assert SignaturesAbsent(9);
    MarkerFirstKeyword(9, 1);
  }

  lemma MarkerSelects10()
    ensures StartsWith(Marker(10), ModePrefix) && SelectMode(Marker(10)) == Some(10)
  {
    assert SignaturesAbsent(10);
    MarkerFirstKeyword(10, 1);
  }

  lemma MarkerSelects11()
    ensures StartsWith(Marker(11), ModePrefix) && SelectMode(Marker(11)) == Some(11)
  {
    assert SignaturesAbsent(11);
    MarkerFirstKeyword(11, 1);
  }

  lemma MarkerSelects12()
    ensures StartsWith(Marker(12), ModePrefix) && SelectMode(Marker(12)) == Some(12)
  {
    assert SignaturesAbsent(12);
    MarkerFirstKeyword(12, 1);
  }

  lemma MarkerSelects13()
    ensures StartsWith(Marker(13), ModePrefix) && SelectMode(Marker(13)) == Some(13)
  {
    assert SignaturesAbsent(13);
    MarkerFirstKeyword(13, 1);
  }

  lemma MarkerSelects14()
    ensures StartsWith(Marker(14), ModePrefix) && SelectMode(Marker(14)) == Some(14)
  {
    assert SignaturesAbsent(14);
    MarkerFirstKeyword(14, 1);
  }

  lemma MarkerSelects15()
    ensures StartsWith(Marker(15), ModePrefix) && SelectMode(Marker(15)) == Some(15)
  {
    assert SignaturesAbsent(15);
    MarkerFirstKeyword(15, 1);
  }

  lemma MarkerSelects16()
    ensures StartsWith(Marker(16), ModePrefix) && SelectMode(Marker(16)) == Some(16)
  {
    assert SignaturesAbsent(16);
    MarkerFirstKeyword(16, 1);
  }

  lemma MarkersSelect1To4(m: int)
    requires 1 <= m <= 4
    ensures StartsWith(Marker(m), ModePrefix) && SelectMode(Marker(m)) == Some(m)
  {
    if m == 1 {
      MarkerSelects1();
    } else if m == 2 {
      MarkerSelects2();
    } else if m == 3 {
      MarkerSelects3();
    } else {
      assert m == 4;
      MarkerSelects4();
    }
  }

  lemma MarkersSelect5To8(m: int)
    requires 5 <= m <= 8
    ensures StartsWith(Marker(m), ModePrefix) && SelectMode(Marker(m)) == Some(m)
  {
    if m == 5 {
      MarkerSelects5();
    } else if m == 6 {
      MarkerSelects6();
    } else if m == 7 {
      MarkerSelects7();
    } else {
      assert m == 8;
      MarkerSelects8();
    }
  }

  lemma MarkersSelect9To12(m: int)
    requires 9 <= m <= 12
    ensures StartsWith(Marker(m), ModePrefix) && SelectMode(Marker(m)) == Some(m)
  {
    if m == 9 {
      MarkerSelects9();
    } else if m == 10 {
      MarkerSelects10();
    } else if m == 11 {
      MarkerSelects11();
    } else {
      assert m == 12;
      MarkerSelects12();
    }
  }

  lemma MarkersSelect13To14(m: int)
    requires 13 <= m <= 14
    ensures StartsWith(Marker(m), ModePrefix) && SelectMode(Marker(m)) == Some(m)
  {
    if m == 13 {
      MarkerSelects13();
    } else {
      MarkerSelects14();
    }
  }

  lemma MarkersSelect15To16(m: int)
    requires 15 <= m <= 16
    ensures StartsWith(Marker(m), ModePrefix) && SelectMode(Marker(m)) == Some(m)
  {
    if m == 15 {
      MarkerSelects15();
    } else {
      assert m == 16;
      MarkerSelects16();
    }
  }

  /** The marker of mode `m` selects mode `m`: it carries the prefix, contains its own
      keyword and none of the keywords tested before it. */
  lemma MarkerSelects(m: int)
    requires 1 <= m <= 16
    ensures StartsWith(Marker(m), ModePrefix)
    ensures SelectMode(Marker(m)) == Some(m)
  {
    if m <= 4 {
      MarkersSelect1To4(m);
    } else if m <= 8 {
      MarkersSelect5To8(m);
    } else if m <= 12 {
      MarkersSelect9To12(m);
    } else if m <= 14 {
      MarkersSelect13To14(m);
    } else {
      MarkersSelect15To16(m);
    }
  }

  /** No marker is one of the exact sentinel texts. */
  lemma MarkerIsNoSentinel(m: int)
    requires 1 <= m <= 16
    ensures Marker(m) != CorrectionFinish && Marker(m) != LectureFinish && Marker(m) != FreeTalkFinish
    ensures Marker(m) != DontKnowText && Marker(m) != PresentationFinish && Marker(m) != PresentationDontKnowText
  {
    assert Marker(m)[1] == 'モ';
  }

  /** Tapping a marker button of any menu selects exactly the mode of that button, whatever
      the stored mode. */
  lemma MarkerButtonRoundTrip(oldMode: int, m: int)
    requires 1 <= m <= 16
    ensures Decide(oldMode, MarkerButton(m).payload).path == ModeSelect(Some(m))
    ensures Decide(oldMode, MarkerButton(m).payload).mode == m
  {
    MarkerIsNoSentinel(m);
    MarkerSelects(m);
  }

  lemma TopicMenuItems()
    ensures QuickReplyItems(4) == [MarkerButton(5), MarkerButton(6), MarkerButton(7), MarkerButton(8), MarkerButton(9),
                                   MarkerButton(10), MarkerButton(11), MarkerButton(12), MarkerButton(13),
                                   MarkerButton(14), MarkerButton(15), MarkerButton(16)]
  {
  }

  /** The phrase-lecture menu: its i-th button selects topic mode 5 + i. */
  lemma TopicMenuRoundTrip(oldMode: int, i: int)
    requires 0 <= i < |QuickReplyItems(4)|
    ensures |QuickReplyItems(4)| == 12
    ensures QuickReplyItems(4)[i] == MarkerButton(5 + i)
    ensures Decide(oldMode, QuickReplyItems(4)[i].payload).path == ModeSelect(Some(5 + i))
    ensures Decide(oldMode, QuickReplyItems(4)[i].payload).mode == 5 + i
  {
    TopicMenuItems();
    assert QuickReplyItems(4)[i] == MarkerButton(5 + i);
    MarkerButtonRoundTrip(oldMode, 5 + i);
  }

  lemma TopMenuItems(mode: int)
    requires !(1 <= mode <= 16)
    ensures QuickReplyItems(mode) == [MarkerButton(1), MarkerButton(2), MarkerButton(3), MarkerButton(4)]
  {
  }

  /** The top-level menu, shown in every mode outside 1..16: its i-th button selects mode
      1 + i. */
  lemma TopMenuRoundTrip(mode: int, oldMode: int, i: int)
    requires !(1 <= mode <= 16)
    requires 0 <= i < |QuickReplyItems(mode)|
    ensures |QuickReplyItems(mode)| == 4
    ensures QuickReplyItems(mode)[i] == MarkerButton(1 + i)
    ensures Decide(oldMode, QuickReplyItems(mode)[i].payload).path == ModeSelect(Some(1 + i))
    ensures Decide(oldMode, QuickReplyItems(mode)[i].payload).mode == 1 + i
  {
    TopMenuItems(mode);
    if i == 0 {
      MarkerButtonRoundTrip(oldMode, 1);
    } else if i == 1 {
      MarkerButtonRoundTrip(oldMode, 2);
    } else if i == 2 {
      MarkerButtonRoundTrip(oldMode, 3);
    } else {
      MarkerButtonRoundTrip(oldMode, 4);
    }
  }

  /** The "完了" button of modes 1..3 and 5..16 ends the mode: its payload takes the chain
      back to mode 0. In modes 1 and 3 the second button, "分からない", asks for another
      question and keeps the mode. */
  lemma FinishButtonsEndMode(mode: int, oldMode: int)
    requires 1 <= mode <= 16 && mode != 4
    ensures QuickReplyItems(mode)[0].title == "完了"
    ensures Decide(oldMode, QuickReplyItems(mode)[0].payload).mode == 0
    ensures mode == 1 || mode == 3 ==>
              && |QuickReplyItems(mode)| == 2 && QuickReplyItems(mode)[1].title == "分からない"
              && Decide(oldMode, QuickReplyItems(mode)[1].payload).path == DontKnow
              && Decide(oldMode, QuickReplyItems(mode)[1].payload).mode == oldMode
    ensures !(mode == 1 || mode == 3) ==> |QuickReplyItems(mode)| == 1
  {
  }

  /** No button of any menu sends a text that falls to the default chat path. */
  lemma NoButtonIsChat(mode: int, oldMode: int, i: int)
    requires 0 <= i < |QuickReplyItems(mode)|
    ensures Decide(oldMode, QuickReplyItems(mode)[i].payload).path != Chat
  {
    if mode == 4 {
      TopicMenuRoundTrip(oldMode, i);
    } else if !(1 <= mode <= 16) {
      TopMenuRoundTrip(mode, oldMode, i);
    }
  }

  // ---------------------------------------------------------------------------------------
  // The abstract system state and the specification of one processed message

  /** An emitted reply: token, text, mode, and the quick replies of that mode. */
  datatype Reply = Reply(replyToken: string, text: string, modeCode: int, quickReplies: seq<Button>)

  function ReplyOf(replyToken: string, text: string, mode: int): Reply {
    Reply(replyToken, text, mode, QuickReplyItems(mode))
  }

  /** Everything a request can change: the user table, the log, the completion calls made,
      and the replies emitted. */
  datatype World = World(users: Users, log: seq<LogEntry>, calls: seq<CompletionCall>, sent: seq<Reply>)

  /** What `process_user_message` returns: the prompt sent (if any), the mode, the reply text. */
  datatype Processed = Processed(prompt: Option<string>, modeCode: int, aiResponse: string)

  datatype ProcessStep = ProcessStep(result: Outcome<Processed>, world: World)

  function Emit(w: World, replyToken: string, text: string, mode: int): World {
    w.(sent := w.sent + [ReplyOf(replyToken, text, mode)])
  }

  /** `process_user_message` on the abstract store: decide, then carry the decision out. */
  function ProcessSpec(t: Wording, w: World, u: UserId, replyToken: string, text: string, now: int, service: Service): ProcessStep {
    Perform(t, w, u, replyToken, Decide(ModeOf(w.users, u), text), now, service)
  }

  /** Carrying out a decision: make the zero-cost usage call if the decision asks for it (its
      exception ends the call), then either reply at once or fetch the history and go through
      the completion gate. */
  function Perform(t: Wording, w: World, u: UserId, replyToken: string, d: Decision, now: int, service: Service): ProcessStep
    requires d.action.Announce? ==> 0 <= d.mode <= 4
  {
    var charged := if d.chargesZero then ApplyUsage(w.users, u, 0, d.mode, now) else Some(w.users);
    if charged.None? then ProcessStep(Raised(QuotaMessage), w)
    else
      var w1 := w.(users := charged.value);
      match d.action
      case Announce =>
        var message := ModeMessage(t, d.mode);
        var w2 := if d.storesMode then w1.(users := SetMode(w1.users, u, d.mode, now)) else w1;
        ProcessStep(Returned(Processed(None, d.mode, message)), Emit(w2, replyToken, message, d.mode))
      case Complete(prompt) => Answer(t, w1, u, replyToken, prompt, d.mode, now, service)
  }

  /** The completion tail of `process_user_message`: fetch the history, go through the
      completion gate, and reply with the answer unless the gate raised. */
  function Answer(t: Wording, w: World, u: UserId, replyToken: string, prompt: Option<Prompt>, mode: int, now: int,
                  service: Service): ProcessStep
  {
    var a := AiSpec(w.users, w.calls, u, Render(t, prompt), History(w.log, u), mode, now, service);
    var w1 := w.(users := a.users, calls := a.calls);
    match a.result
    case Raised(e) => ProcessStep(Raised(e), w1)
    case Returned(answer) => ProcessStep(Returned(Processed(Render(t, prompt), mode, answer)), Emit(w1, replyToken, answer, mode))
  }

  // ---------------------------------------------------------------------------------------
  // Properties of one processed message

  /** A decision that announces makes no completion call and writes no log entry. It fails
      only when its zero-cost usage call is refused, and then changes nothing; otherwise it
      replies with the announcement of its mode, once, and leaves that mode stored. */
  lemma AnnounceSpec(t: Wording, w: World, u: UserId, replyToken: string, d: Decision, now: int, service: Service)
    requires Coherent(d, ModeOf(w.users, u)) && d.action.Announce?
    ensures var s := Perform(t, w, u, replyToken, d, now, service);
            var message := ModeMessage(t, d.mode);
            && s.world.calls == w.calls && s.world.log == w.log
            && (s.result.Returned? <==> !d.chargesZero || EffectiveCount(w.users, u, UsageDay(now)) <= DailyLimit)
            && (s.result.Raised? ==> s == ProcessStep(Raised(QuotaMessage), w))
            && (s.result.Returned? ==>
                  && s.result.value == Processed(None, d.mode, message)
                  && s.world.sent == w.sent + [ReplyOf(replyToken, message, d.mode)]
                  && ModeOf(s.world.users, u) == d.mode)
  {
    ApplyUsageSpec(w.users, u, 0, d.mode, now);
  }

  /** A decision that reaches the completion gate writes no log entry and makes at most one
      completion call: exactly one, charged to `u` today and carrying the rendered prompt after
      the preamble and the user's history, when the zero-cost call (if any) was accepted and a
      unit of today's quota remains. A refused zero-cost call changes nothing; an exhausted
      quota replies with the quota text; otherwise the answer is the stripped reply on status
      200 and an exception carrying the body text on any other status. */
  lemma CompleteSpec(t: Wording, w: World, u: UserId, replyToken: string, d: Decision, now: int, service: Service)
    requires Coherent(d, ModeOf(w.users, u)) && d.action.Complete?
    ensures var s := Perform(t, w, u, replyToken, d, now, service);
            var spent := EffectiveCount(w.users, u, UsageDay(now));
            var prompt := Render(t, d.action.prompt);
            var messages := BuildMessages(prompt, History(w.log, u));
            var response := service(|w.calls|, messages);
            var admitted := !d.chargesZero || spent <= DailyLimit;
            && s.world.log == w.log
            && (!admitted ==> s == ProcessStep(Raised(QuotaMessage), w))
            && (admitted && spent >= DailyLimit ==>
                  && s.world.calls == w.calls
                  && s.result == Returned(Processed(prompt, d.mode, QuotaMessage))
                  && s.world.sent == w.sent + [ReplyOf(replyToken, QuotaMessage, d.mode)])
            && (admitted && spent < DailyLimit ==>
                  && s.world.calls == w.calls + [CompletionCall(u, UsageDay(now), messages)]
                  && (response.statusCode == 200 ==>
                        && s.result == Returned(Processed(prompt, d.mode, Strip(response.content)))
                        && s.world.sent == w.sent + [ReplyOf(replyToken, Strip(response.content), d.mode)])
                  && (response.statusCode != 200 ==>
                        && s.result == Raised(FailurePrefix + response.text)
                        && s.world.sent == w.sent))
  {
    var spent := EffectiveCount(w.users, u, UsageDay(now));
    ApplyUsageSpec(w.users, u, 0, d.mode, now);
    if !d.chargesZero || spent <= DailyLimit {
      var users1 := if d.chargesZero then ApplyUsage(w.users, u, 0, d.mode, now).value else w.users;
      assert EffectiveCount(users1, u, UsageDay(now)) == spent;
      var prompt := Render(t, d.action.prompt);
      AiSpecGate(users1, w.calls, u, prompt, History(w.log, u), d.mode, now, service);
      if spent < DailyLimit {
        AiSpecAnswer(users1, w.calls, u, prompt, History(w.log, u), d.mode, now, service);
      }
    }
  }

  /** Whatever path a message takes, a returned result's mode is the decided mode and is the
      mode the user table then holds for `u`. */
  lemma PerformStoresMode(t: Wording, w: World, u: UserId, replyToken: string, d: Decision, now: int, service: Service)
    requires Coherent(d, ModeOf(w.users, u))
    ensures var s := Perform(t, w, u, replyToken, d, now, service);
            s.result.Returned? ==> s.result.value.modeCode == d.mode && ModeOf(s.world.users, u) == d.mode
  {
    ApplyUsageSpec(w.users, u, 0, d.mode, now);
    if d.action.Complete? {
      var users1 := if d.chargesZero then ApplyUsage(w.users, u, 0, d.mode, now) else Some(w.users);
      if users1.Some? {
        ApplyUsageSpec(users1.value, u, 1, d.mode, now);
      }
    }
  }

  /** The completion tail keeps the user table within quota, adds to `u`'s units of today
      exactly the completion calls it made (none or one), and leaves every other user's units
      as they were. */
  lemma AnswerAccounting(t: Wording, w: World, u: UserId, replyToken: string, prompt: Option<Prompt>, mode: int,
                         now: int, service: Service, v: UserId, day: int)
    requires WithinQuota(w.users)
    ensures var s := Answer(t, w, u, replyToken, prompt, mode, now, service);
            && WithinQuota(s.world.users)
            && |w.calls| <= |s.world.calls| <= |w.calls| + 1
            && s.world.calls[..|w.calls|] == w.calls
            && EffectiveCount(s.world.users, u, UsageDay(now))
                 == EffectiveCount(w.users, u, UsageDay(now)) + (|s.world.calls| - |w.calls|)
            && (v != u ==> EffectiveCount(s.world.users, v, day) == EffectiveCount(w.users, v, day))
            && |w.sent| <= |s.world.sent| <= |w.sent| + 1
  {
    ApplyUsageSpec(w.users, u, 1, mode, now);
    if ApplyUsage(w.users, u, 1, mode, now).Some? {
      ApplyUsageKeepsQuota(w.users, u, 1, mode, now);
    }
  }

  /** A processed message keeps the user table within quota, adds to `u`'s units of today
      exactly the completion calls it made (none or one), leaves every other user's units of
      every day as they were, and emits at most one reply. */
  lemma PerformUsageAccounting(t: Wording, w: World, u: UserId, replyToken: string, d: Decision, now: int,
                               service: Service, v: UserId, day: int)
    requires Coherent(d, ModeOf(w.users, u)) && WithinQuota(w.users)
    ensures var s := Perform(t, w, u, replyToken, d, now, service);
            && WithinQuota(s.world.users)
            && |w.calls| <= |s.world.calls| <= |w.calls| + 1
            && s.world.calls[..|w.calls|] == w.calls
            && EffectiveCount(s.world.users, u, UsageDay(now))
                 == EffectiveCount(w.users, u, UsageDay(now)) + (|s.world.calls| - |w.calls|)
            && (v != u ==> EffectiveCount(s.world.users, v, day) == EffectiveCount(w.users, v, day))
            && |w.sent| <= |s.world.sent| <= |w.sent| + 1
  {
    var today := UsageDay(now);
    var charged := if d.chargesZero then ApplyUsage(w.users, u, 0, d.mode, now) else Some(w.users);
    ApplyUsageSpec(w.users, u, 0, d.mode, now);
    if charged.Some? {
      var w1 := w.(users := charged.value);
      if d.chargesZero {
        ApplyUsageKeepsQuota(w.users, u, 0, d.mode, now);
      }
      assert EffectiveCount(w1.users, u, today) == EffectiveCount(w.users, u, today);
      assert v != u ==> EffectiveCount(w1.users, v, day) == EffectiveCount(w.users, v, day);
      match d.action
      case Announce =>
        if d.storesMode {
          SetModeKeepsCounts(w1.users, u, d.mode, now, day);
          SetModeKeepsCounts(w1.users, u, d.mode, now, today);
        }
      case Complete(prompt) =>
        AnswerAccounting(t, w1, u, replyToken, prompt, d.mode, now, service, v, day);
    }
  }

  /** Every completion call a decision makes is charged to the requesting user and the usage
      day of the request. */
  lemma PerformChargesCaller(t: Wording, w: World, u: UserId, replyToken: string, d: Decision, now: int,
                             service: Service)
    requires Coherent(d, ModeOf(w.users, u))
    ensures ChargedFrom(Perform(t, w, u, replyToken, d, now, service).world.calls, |w.calls|, u, UsageDay(now))
  {
    if d.action.Announce? {
      AnnounceSpec(t, w, u, replyToken, d, now, service);
    } else {
      CompleteSpec(t, w, u, replyToken, d, now, service);
    }
  }

  /** Every completion call a processed message makes is charged to its user and its usage
      day. */
  lemma ProcessChargesCaller(t: Wording, w: World, u: UserId, replyToken: string, text: string, now: int,
                             service: Service)
    ensures ChargedFrom(ProcessSpec(t, w, u, replyToken, text, now, service).world.calls, |w.calls|, u, UsageDay(now))
  {
    PerformChargesCaller(t, w, u, replyToken, Decide(ModeOf(w.users, u), text), now, service);
  }

  // ---------------------------------------------------------------------------------------
  // The paths of the chain

  /** No finish or "don't know" text carries the mode-select prefix. */
  lemma SentinelsAreNoMarkers()
    ensures !StartsWith(CorrectionFinish, ModePrefix) && !StartsWith(LectureFinish, ModePrefix)
    ensures !StartsWith(FreeTalkFinish, ModePrefix) && !StartsWith(DontKnowText, ModePrefix)
    ensures !StartsWith(PresentationFinish, ModePrefix) && !StartsWith(PresentationDontKnowText, ModePrefix)
  {
    assert CorrectionFinish[1] != ModePrefix[1];
    assert LectureFinish[1] != ModePrefix[1];
    assert FreeTalkFinish[1] != ModePrefix[1];
    assert DontKnowText[0] != ModePrefix[0];
    assert PresentationFinish[1] != ModePrefix[1];
    assert PresentationDontKnowText[1] != ModePrefix[1];
  }

  /** Whatever path a message takes, a returned result's mode is the decided mode, in 0..16
      when the stored mode was, and is the mode the user table then holds. */
  lemma ProcessStoresMode(t: Wording, w: World, u: UserId, replyToken: string, text: string, now: int, service: Service)
    ensures var s := ProcessSpec(t, w, u, replyToken, text, now, service);
            s.result.Returned? ==>
              && s.result.value.modeCode == Decide(ModeOf(w.users, u), text).mode
              && ModeOf(s.world.users, u) == s.result.value.modeCode
              && (0 <= ModeOf(w.users, u) <= 16 ==> 0 <= s.result.value.modeCode <= 16)
  {
    PerformStoresMode(t, w, u, replyToken, Decide(ModeOf(w.users, u), text), now, service);
  }

  /** A processed message keeps the user table within quota and charges `u` today exactly the
      completion calls it made, which are appended to the trace. */
  lemma ProcessUsageAccounting(t: Wording, w: World, u: UserId, replyToken: string, text: string, now: int,
                               service: Service, v: UserId, day: int)
    requires WithinQuota(w.users)
    ensures var s := ProcessSpec(t, w, u, replyToken, text, now, service);
            && WithinQuota(s.world.users)
            && |w.calls| <= |s.world.calls| <= |w.calls| + 1
            && s.world.calls[..|w.calls|] == w.calls
            && EffectiveCount(s.world.users, u, UsageDay(now))
                 == EffectiveCount(w.users, u, UsageDay(now)) + (|s.world.calls| - |w.calls|)
            && (v != u ==> EffectiveCount(s.world.users, v, day) == EffectiveCount(w.users, v, day))
            && |w.sent| <= |s.world.sent| <= |w.sent| + 1
  {
    PerformUsageAccounting(t, w, u, replyToken, Decide(ModeOf(w.users, u), text), now, service, v, day);
  }

  /** The correction and phrase-lecture finish texts end the mode without a completion call:
      after the zero-cost usage call with mode 0 they reply with the announcement of mode 0,
      return no prompt and leave mode 0 stored. */
  lemma CannedFinishSpec(t: Wording, w: World, u: UserId, replyToken: string, text: string, now: int, service: Service)
    requires text == CorrectionFinish || text == LectureFinish
    ensures var s := ProcessSpec(t, w, u, replyToken, text, now, service);
            && s.world.calls == w.calls && s.world.log == w.log
            && (s.result.Returned? <==> EffectiveCount(w.users, u, UsageDay(now)) <= DailyLimit)
            && (s.result.Returned? ==>
                  && s.result.value == Processed(None, 0, ModeMessage(t, 0))
                  && s.world.sent == w.sent + [ReplyOf(replyToken, ModeMessage(t, 0), 0)]
                  && ModeOf(s.world.users, u) == 0)
  {
    var d := Decide(ModeOf(w.users, u), text);
    assert d == Decision(CannedFinish, 0, true, false, Announce);
    AnnounceSpec(t, w, u, replyToken, d, now, service);
  }

  /** The free-talk and presentation finish texts end the mode and ask for feedback: after the
      zero-cost usage call with mode 0 they go through the completion gate with the feedback
      prompt of their mode, and a returned result is in mode 0 with that prompt. */
  lemma FeedbackFinishSpec(t: Wording, w: World, u: UserId, replyToken: string, text: string, now: int, service: Service)
    requires text == FreeTalkFinish || text == PresentationFinish
    ensures var s := ProcessSpec(t, w, u, replyToken, text, now, service);
            var feedback := if text == FreeTalkFinish then t.talkFeedback else t.practiceFeedback;
            var spent := EffectiveCount(w.users, u, UsageDay(now));
            && (s.result.Returned? ==>
                  && s.result.value.prompt == Some(feedback) && s.result.value.modeCode == 0
                  && ModeOf(s.world.users, u) == 0)
            && (spent < DailyLimit ==>
                  s.world.calls == w.calls + [CompletionCall(u, UsageDay(now), BuildMessages(Some(feedback), History(w.log, u)))])
            && (spent >= DailyLimit ==> s.world.calls == w.calls)
  {
    var d := Decide(ModeOf(w.users, u), text);
    if text == FreeTalkFinish {
      assert d == Decision(FreeTalkFeedback, 0, true, false, Complete(Some(TalkFeedback)));
    } else {
      assert d == Decision(PresentationFeedback, 0, true, false, Complete(Some(PracticeFeedback)));
    }
    CompleteSpec(t, w, u, replyToken, d, now, service);
    PerformStoresMode(t, w, u, replyToken, d, now, service);
  }

  /** The two "don't know" texts ask for another question on the same topic: they make no
      zero-cost usage call and keep the stored mode, and go through the completion gate with
      that prompt; with today's quota used up they reply with the quota text and write
      nothing. */
  lemma DontKnowSpec(t: Wording, w: World, u: UserId, replyToken: string, text: string, now: int, service: Service)
    requires text == DontKnowText || text == PresentationDontKnowText
    ensures var s := ProcessSpec(t, w, u, replyToken, text, now, service);
            var mode := ModeOf(w.users, u);
            var spent := EffectiveCount(w.users, u, UsageDay(now));
            var prompt := Some(t.anotherQuestion);
            && ModeOf(s.world.users, u) == mode
            && (s.result.Returned? ==> s.result.value.prompt == prompt && s.result.value.modeCode == mode)
            && (spent < DailyLimit ==>
                  s.world.calls == w.calls + [CompletionCall(u, UsageDay(now), BuildMessages(prompt, History(w.log, u)))])
            && (spent >= DailyLimit ==>
                  && s.world.users == w.users && s.world.calls == w.calls
                  && s.result == Returned(Processed(prompt, mode, QuotaMessage)))
  {
    var mode := ModeOf(w.users, u);
    var d := Decide(mode, text);
    if text == DontKnowText {
      assert d == Decision(DontKnow, mode, false, false, Complete(Some(AnotherQuestion)));
    } else {
      assert d == Decision(PresentationDontKnow, mode, false, false, Complete(Some(AnotherQuestion)));
    }
    CompleteSpec(t, w, u, replyToken, d, now, service);
    ApplyUsageSpec(w.users, u, 1, mode, now);
  }

  /** A mode-select text: the first keyword it contains chooses the mode. Choosing the
      phrase-lecture menu, or a new mode in 0..4, replies with that mode's announcement
      without a completion call; any other text goes through the completion gate with the
      chosen mode's prompt, or with no prompt and the mode kept when no keyword matched. */
  lemma ModeSelectSpec(t: Wording, w: World, u: UserId, replyToken: string, text: string, now: int, service: Service)
    requires StartsWith(text, ModePrefix)
    ensures var s := ProcessSpec(t, w, u, replyToken, text, now, service);
            var oldMode := ModeOf(w.users, u);
            var selected := SelectMode(text);
            var mode := if selected.Some? then selected.value else oldMode;
            var shortcut := selected == Some(4) || (mode != oldMode && 0 <= mode <= 4);
            var spent := EffectiveCount(w.users, u, UsageDay(now));
            var prompt := if selected.Some? && !shortcut then Some(PromptText(t, ModePrompt(selected.value))) else None;
            && Decide(oldMode, text).path == ModeSelect(selected)
            && (shortcut ==>
                  && s.world.calls == w.calls
                  && (s.result.Returned? ==>
                        s.result.value == Processed(None, mode, ModeMessage(t, mode)) && ModeOf(s.world.users, u) == mode))
            && (!shortcut ==>
                  && (s.result.Returned? ==>
                        s.result.value.prompt == prompt && s.result.value.modeCode == mode
                        && ModeOf(s.world.users, u) == mode)
                  && (spent < DailyLimit ==>
                        s.world.calls == w.calls + [CompletionCall(u, UsageDay(now), BuildMessages(prompt, History(w.log, u)))])
                  && (spent >= DailyLimit ==> s.world.calls == w.calls))
  {
    var oldMode := ModeOf(w.users, u);
    SentinelsAreNoMarkers();
    var d := Decide(oldMode, text);
    assert d == SelectDecision(oldMode, text);
    if d.action.Announce? {
      AnnounceSpec(t, w, u, replyToken, d, now, service);
    } else {
      CompleteSpec(t, w, u, replyToken, d, now, service);
      PerformStoresMode(t, w, u, replyToken, d, now, service);
    }
  }

  /** A text that takes none of the earlier branches of the chain. */
  predicate IsChatText(text: string) {
    && text != CorrectionFinish && text != LectureFinish && text != FreeTalkFinish
    && text != DontKnowText && text != PresentationFinish && text != PresentationDontKnowText
    && !StartsWith(text, ModePrefix)
  }

  /** Free text is a conversation turn in the current mode. */
  lemma ChatDecision(mode: int, text: string)
    requires IsChatText(text)
    ensures Decide(mode, text) == Decision(Chat, mode, true, false, Complete(Some(Turn(text))))
  {
  }

  /** The turn prompt wraps the text as the user's line and opens the AI's. */
  lemma TurnPromptText(t: Wording, text: string)
    ensures Render(t, Some(Turn(text))) == Some("ユーザー：" + text + "\nAI：")
  {
  }

  /** A conversation turn keeps the mode and answers with the turn prompt. */
  lemma ChatSpec(t: Wording, w: World, u: UserId, replyToken: string, text: string, now: int, service: Service)
    requires IsChatText(text)
    ensures var s := ProcessSpec(t, w, u, replyToken, text, now, service);
            var mode := ModeOf(w.users, u);
            s.result.Returned? ==>
              && s.result.value.prompt == Some("ユーザー：" + text + "\nAI：")
              && s.result.value.modeCode == mode && ModeOf(s.world.users, u) == mode
  {
    var mode := ModeOf(w.users, u);
    var d := Decision(Chat, mode, true, false, Complete(Some(Turn(text))));
    ChatDecision(mode, text);
    CompleteSpec(t, w, u, replyToken, d, now, service);
    PerformStoresMode(t, w, u, replyToken, d, now, service);
    TurnPromptText(t, text);
  }

  /** A conversation turn goes through the completion gate after the zero-cost usage call:
      below the cap it makes exactly the one request with the turn prompt and returns exactly
      when that answers 200; at the cap it answers the quota text without a request; above
      the cap the zero-cost call itself raises and nothing changes. */
  lemma ChatGate(t: Wording, w: World, u: UserId, replyToken: string, text: string, now: int, service: Service)
    requires IsChatText(text)
    ensures var s := ProcessSpec(t, w, u, replyToken, text, now, service);
            var mode := ModeOf(w.users, u);
            var spent := EffectiveCount(w.users, u, UsageDay(now));
            var prompt := Render(t, Some(Turn(text)));
            var messages := BuildMessages(prompt, History(w.log, u));
            && (spent < DailyLimit ==>
                  && s.world.calls == w.calls + [CompletionCall(u, UsageDay(now), messages)]
                  && (s.result.Returned? <==> service(|w.calls|, messages).statusCode == 200))
            && (spent == DailyLimit ==> s.result == Returned(Processed(prompt, mode, QuotaMessage)) && s.world.calls == w.calls)
            && (spent > DailyLimit ==> s == ProcessStep(Raised(QuotaMessage), w))
  {
    var mode := ModeOf(w.users, u);
    var d := Decision(Chat, mode, true, false, Complete(Some(Turn(text))));
    ChatDecision(mode, text);
    CompleteSpec(t, w, u, replyToken, d, now, service);
  }

  /** The keyword chain of `process_user_message` for a mode-select text: the first keyword
      the text contains gives the mode and its prompt. (Each branch of the source also makes
      the same zero-cost usage call; `ProcessUserMessage` makes it once, after the chain.) */
  method SelectKeyword(userMessage: string) returns (selected: Option<int>, prompt: Option<Prompt>)
    ensures selected == SelectMode(userMessage)
    ensures prompt == if selected.Some? && selected.value != 4 then Some(ModePrompt(selected.value)) else None
  {
    selected, prompt := None, None;
    if Contains(userMessage, "フリートーク") {
      selected, prompt := Some(1), Some(TalkOpening);
    } else if Contains(userMessage, "英文添削") {
      selected, prompt := Some(2), Some(CorrectionOpening);
    } else if Contains(userMessage, "発表練習") {
      selected, prompt := Some(3), Some(PracticeOpening);
    } else if Contains(userMessage, "会話フレーズ講義") {
      selected := Some(4);
    } else if Contains(userMessage, "日常生活") {
      selected, prompt := Some(5), Some(Lecture(Keyword(5)));
    } else if Contains(userMessage, "気持ち") {
      selected, prompt := Some(6), Some(Lecture(Keyword(6)));
    } else if Contains(userMessage, "天気") {
      selected, prompt := Some(7), Some(Lecture(Keyword(7)));
    } else if Contains(userMessage, "観光") {
      selected, prompt := Some(8), Some(Lecture(Keyword(8)));
    } else if Contains(userMessage, "レストラン") {
      selected, prompt := Some(9), Some(Lecture(Keyword(9)));
    } else if Contains(userMessage, "ショッピング") {
      selected, prompt := Some(10), Some(Lecture(Keyword(10)));
    } else if Contains(userMessage, "学校") {
      selected, prompt := Some(11), Some(Lecture(Keyword(11)));
    } else if Contains(userMessage, "スポーツ") {
      selected, prompt := Some(12), Some(Lecture(Keyword(12)));
    } else if Contains(userMessage, "恋愛") {
      selected, prompt := Some(13), Some(Lecture(Keyword(13)));
    } else if Contains(userMessage, "ビジネス") {
      selected, prompt := Some(14), Some(Lecture(Keyword(14)));
    } else if Contains(userMessage, "電話") {
      selected, prompt := Some(15), Some(Lecture(Keyword(15)));
    } else if Contains(userMessage, "会議") {
      selected, prompt := Some(16), Some(Lecture(Keyword(16)));
    }
    SelectModeUnrolled(userMessage);
  }

  // ---------------------------------------------------------------------------------------
  // The handler

  class LineHandler {
    const db: DynamoDbHandler
    const ai: OpenAiHandler
    /** `mode_messages` and the prompt wording. */
    const wording: Wording
    /** Every reply handed to the messaging platform so far. */
    var sent: seq<Reply>

    constructor (db: DynamoDbHandler, ai: OpenAiHandler)
      ensures this.db == db && this.ai == ai && wording == SourceWording && sent == []
    {
      this.db := db;
      this.ai := ai;
      wording := SourceWording;
      sent := [];
    }

    function Snapshot(): World
      reads this, db, ai
    {
      World(db.users, db.log, ai.calls, sent)
    }

    /** `reply_message`: emit the text with the quick replies of the mode. */
    method ReplyMessage(replyToken: string, aiResponse: string, modeCode: int)
      modifies this
      ensures sent == old(sent) + [ReplyOf(replyToken, aiResponse, modeCode)]
    {
      var quickReplyItems := QuickReplyItems(modeCode);
      sent := sent + [Reply(replyToken, aiResponse, modeCode, quickReplyItems)];
    }

    /** `process_user_message`. */
    method ProcessUserMessage(userMessage: string, replyToken: string, userId: UserId, now: int)
      returns (r: Outcome<Processed>)
      requires ai.db == db
      modifies this, db, ai
      ensures ProcessStep(r, Snapshot()) == ProcessSpec(wording, old(Snapshot()), userId, replyToken, userMessage, now, ai.service)
    {
      ghost var w0 := Snapshot();
      var oldModeCode := db.GetModeCode(userId);
      var modeCode := oldModeCode;
      var prompt: Option<Prompt> := None;
      ghost var d := Decide(oldModeCode, userMessage);

      if userMessage == CorrectionFinish || userMessage == LectureFinish {
        assert d == Decision(CannedFinish, 0, true, false, Announce);
        modeCode := 0;
        var charged := db.UpdateUserUsage(userId, 0, modeCode, now);
        if charged.Raised? {
          return Raised(charged.message);
        }
        var aiResponse := ModeMessage(wording, 0);
        ReplyMessage(replyToken, aiResponse, modeCode);
        return Returned(Processed(None, modeCode, aiResponse));
      } else if userMessage == FreeTalkFinish {
        assert d == Decision(FreeTalkFeedback, 0, true, false, Complete(Some(TalkFeedback)));
        modeCode := 0;
        var charged := db.UpdateUserUsage(userId, 0, modeCode, now);
        if charged.Raised? {
          return Raised(charged.message);
        }
        prompt := Some(TalkFeedback);
      } else if userMessage == DontKnowText {
        assert d == Decision(DontKnow, oldModeCode, false, false, Complete(Some(AnotherQuestion)));
        prompt := Some(AnotherQuestion);
      } else if userMessage == PresentationFinish {
        assert d == Decision(PresentationFeedback, 0, true, false, Complete(Some(PracticeFeedback)));
        modeCode := 0;
        var charged := db.UpdateUserUsage(userId, 0, modeCode, now);
        if charged.Raised? {
          return Raised(charged.message);
        }
        prompt := Some(PracticeFeedback);
      } else if userMessage == PresentationDontKnowText {
        assert d == Decision(PresentationDontKnow, oldModeCode, false, false, Complete(Some(AnotherQuestion)));
        prompt := Some(AnotherQuestion);
      } else if StartsWith(userMessage, ModePrefix) {
        assert d == SelectDecision(oldModeCode, userMessage);
        r := SelectBranch(userMessage, replyToken, userId, oldModeCode, now);
        return;
      } else {
        assert d == Decision(Chat, oldModeCode, true, false, Complete(Some(Turn(userMessage))));
        prompt := Some(Turn(userMessage));
        var charged := db.UpdateUserUsage(userId, 0, modeCode, now);
        if charged.Raised? {
          return Raised(charged.message);
        }
      }
      assert d.action == Complete(prompt) && d.mode == modeCode;
      r := AnswerPrompt(prompt, userId, replyToken, modeCode, now);
    }

    /** The mode-select branch of `process_user_message`, from the keyword chain to the
        reply. */
    method SelectBranch(userMessage: string, replyToken: string, userId: UserId, oldModeCode: int, now: int)
      returns (r: Outcome<Processed>)
      requires ai.db == db
      modifies this, db, ai
      ensures ProcessStep(r, Snapshot())
              == Perform(wording, old(Snapshot()), userId, replyToken, SelectDecision(oldModeCode, userMessage), now, ai.service)
    {
      ghost var d := SelectDecision(oldModeCode, userMessage);
      var modeCode := oldModeCode;
      var selected, prompt := SelectKeyword(userMessage);
      if selected.Some? {
        modeCode := selected.value;
        var charged := db.UpdateUserUsage(userId, 0, modeCode, now);
        if charged.Raised? {
          return Raised(charged.message);
        }
        if modeCode == 4 {
          assert d == Decision(ModeSelect(selected), 4, true, false, Announce);
          var aiResponse := ModeMessage(wording, 4);
          ReplyMessage(replyToken, aiResponse, modeCode);
          return Returned(Processed(None, modeCode, aiResponse));
        }
      }
      if modeCode != oldModeCode && 0 <= modeCode <= 4 {
        assert d == Decision(ModeSelect(selected), modeCode, selected.Some?, true, Announce);
        var aiResponse := ModeMessage(wording, modeCode);
        ReplyMessage(replyToken, aiResponse, modeCode);
        db.UpdateModeCode(userId, modeCode, now);
        return Returned(Processed(None, modeCode, aiResponse));
      }
      assert d == Decision(ModeSelect(selected), modeCode, selected.Some?, false, Complete(prompt));
      r := AnswerPrompt(prompt, userId, replyToken, modeCode, now);
    }

    /** The tail of `process_user_message` once a prompt is chosen. */
    method AnswerPrompt(prompt: Option<Prompt>, userId: UserId, replyToken: string, modeCode: int, now: int)
      returns (r: Outcome<Processed>)
      requires ai.db == db
      modifies this, db, ai
      ensures ProcessStep(r, Snapshot()) == Answer(wording, old(Snapshot()), userId, replyToken, prompt, modeCode, now, ai.service)
    {
      var conversationHistory := db.GetConversationHistory(userId);
      var aiResponse := ai.GetAiResponse(Render(wording, prompt), userId, conversationHistory, modeCode, now);
      if aiResponse.Raised? {
        return Raised(aiResponse.message);
      }
      ReplyMessage(replyToken, aiResponse.value, modeCode);
      r := Returned(Processed(Render(wording, prompt), modeCode, aiResponse.value));
    }
  }

}

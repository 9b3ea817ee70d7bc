/**
 * The analysis texts of the PDF report. Each analysis starts from a fixed
 * header and appends paragraphs chosen by thresholds on the answers' scores
 * (at least 4, at most 2). The specification of each text is its sequence of
 * paragraphs; the methods build the text by repeated appending, as the
 * report generator does, and are proved to produce the paragraphs joined in
 * order.
 */
module ReportText {

  import opened Wrappers
  import opened JsValues
  import opened ResultsRules

  /** The paragraphs the analyses and the recommendations are built from. */
  datatype Paragraph =
    | EmotionalHeader | JoyHigh | JoyLow | NegativeEmotions
    | SocialHeader | FriendsHigh | FriendsLow | PlaysAlone
    | RegulationHeader | RulesHigh | RulesLow | Impulsive
    | RecommendationsHeader | Recommendation1 | Recommendation2 | Recommendation3
    | Recommendation4 | Recommendation5 | Disclaimer

  const EmotionalHeaderText := "Анализ эмоциональной сферы:\n\n"
  const JoyHighText := "Ребенок демонстрирует высокий уровень позитивных эмоций, что является благоприятным показателем эмоционального развития.\n\n"
  const JoyLowText := "Отмечается низкий уровень проявления радости и удовольствия. Рекомендуется обратить внимание на эмоциональное состояние ребенка.\n\n"
  const NegativeEmotionsText := "Высокий уровень проявления негативных эмоций может указывать на необходимость дополнительной психологической поддержки.\n\n"
  const SocialHeaderText := "Анализ социального взаимодействия:\n\n"
  const FriendsHighText := "Ребенок демонстрирует хорошие социальные навыки и легко устанавливает контакты со сверстниками.\n\n"
  const FriendsLowText := "Отмечаются трудности в установлении социальных контактов. Рекомендуется работа над развитием коммуникативных навыков.\n\n"
  const PlaysAloneText := "Ребенок предпочитает одиночные игры, что может указывать на интровертированность или социальные трудности.\n\n"
  const RegulationHeaderText := "Анализ саморегуляции и поведения:\n\n"
  const RulesHighText := "Ребенок демонстрирует хорошие навыки саморегуляции и способность следовать правилам.\n\n"
  const RulesLowText := "Отмечаются трудности с соблюдением правил и инструкций. Рекомендуется работа над развитием самоконтроля.\n\n"
  const ImpulsiveText := "Высокий уровень импульсивности требует особого внимания и возможной коррекционной работы.\n\n"
  const RecommendationsHeaderText := "Рекомендации для развития ребенка:\n\n"
  const Recommendation1Text := "1. Регулярные игры и творческие занятия для развития эмоциональной сферы.\n\n"
  const Recommendation2Text := "2. Поощрение социального взаимодействия через групповые активности.\n\n"
  const Recommendation3Text := "3. Установление четких, но справедливых правил и границ.\n\n"
  const Recommendation4Text := "4. Развитие навыков эмоциональной регуляции через обучение техникам самоуспокоения.\n\n"
  const Recommendation5Text := "5. Консультация с детским психологом для более детального анализа особенностей развития.\n\n"
  const DisclaimerText := "Данный анализ носит рекомендательный характер. For получения профессиональной помощи обратитесь к квалифицированному детскому психологу."

  /** The text of each paragraph; the closing disclaimer keeps its mixed-language wording. */
  function Wording(p: Paragraph): string
  {
    match p
    case EmotionalHeader => EmotionalHeaderText
    case JoyHigh => JoyHighText
    case JoyLow => JoyLowText
    case NegativeEmotions => NegativeEmotionsText
    case SocialHeader => SocialHeaderText
    case FriendsHigh => FriendsHighText
    case FriendsLow => FriendsLowText
    case PlaysAlone => PlaysAloneText
    case RegulationHeader => RegulationHeaderText
    case RulesHigh => RulesHighText
    case RulesLow => RulesLowText
    case Impulsive => ImpulsiveText
    case RecommendationsHeader => RecommendationsHeaderText
    case Recommendation1 => Recommendation1Text
    case Recommendation2 => Recommendation2Text
    case Recommendation3 => Recommendation3Text
    case Recommendation4 => Recommendation4Text
    case Recommendation5 => Recommendation5Text
    case Disclaimer => DisclaimerText
  }

  /**
   * The paragraphs' texts concatenated in order, each paragraph written as
   * `wording` gives it; the report writes them with `Wording`.
   */
  function Join(ps: seq<Paragraph>, wording: Paragraph -> string): string
  {
    if ps == [] then "" else Join(ps[..|ps| - 1], wording) + wording(ps[|ps| - 1])
  }

  /** Appending a paragraph appends its text. */
  lemma JoinAppend(ps: seq<Paragraph>, p: Paragraph, wording: Paragraph -> string)
    ensures Join(ps + [p], wording) == Join(ps, wording) + wording(p)
  {
    assert (ps + [p])[..|ps|] == ps;
  }

  /** The joined text starts with the first paragraph's text and ends with the last one's. */
  lemma {:induction false} JoinBounds(ps: seq<Paragraph>, wording: Paragraph -> string)
    requires ps != []
    ensures wording(ps[0]) <= Join(ps, wording)
    ensures var last := wording(ps[|ps| - 1]);
            |last| <= |Join(ps, wording)| && Join(ps, wording)[|Join(ps, wording)| - |last|..] == last
    decreases |ps|
  {
    var init := ps[..|ps| - 1];
    if |ps| > 1 {
      JoinBounds(init, wording);
      assert init[0] == ps[0];
    } else {
      assert Join(init, wording) == "";
    }
  }

  predicate Distinct(header: Paragraph, high: Paragraph, low: Paragraph, extra: Paragraph)
  {
    header != high && header != low && header != extra && high != low && high != extra && low != extra
  }

  /**
   * The shape shared by the three analyses: the header, then the high or the
   * low paragraph for the main score (neither for a middle score), then the
   * extra paragraph when its condition holds.
   */
  function AnalysisParagraphs(header: Paragraph, high: Paragraph, low: Paragraph, extra: Paragraph, score: Score, extraOn: bool): seq<Paragraph>
  {
    [header] + ScoreParagraph(high, low, score) + ExtraParagraph(extra, extraOn)
  }

  /** The high paragraph for a score of at least 4, the low one for at most 2, none between. */
  function ScoreParagraph(high: Paragraph, low: Paragraph, score: Score): seq<Paragraph>
  {
    if AtLeast(score, 4) then [high] else if AtMost(score, 2) then [low] else []
  }

  /** The extra paragraph when its condition holds. */
  function ExtraParagraph(extra: Paragraph, extraOn: bool): seq<Paragraph>
  {
    if extraOn then [extra] else []
  }

  /** Where the paragraphs of an analysis stand: the header first, the extra paragraph last, no others. */
  lemma AnalysisParagraphsLayout(header: Paragraph, high: Paragraph, low: Paragraph, extra: Paragraph, score: Score, extraOn: bool)
    ensures 1 <= |AnalysisParagraphs(header, high, low, extra, score, extraOn)| <= 3
    ensures AnalysisParagraphs(header, high, low, extra, score, extraOn)[0] == header
    ensures extraOn ==> var ps := AnalysisParagraphs(header, high, low, extra, score, extraOn); ps[|ps| - 1] == extra
    ensures forall p :: p in AnalysisParagraphs(header, high, low, extra, score, extraOn) ==> p == header || p == high || p == low || p == extra
  {
    var ps := AnalysisParagraphs(header, high, low, extra, score, extraOn);
    if extraOn {
      assert ExtraParagraph(extra, extraOn) == [extra];
      if AtLeast(score, 4) {
        assert ps == [header, high, extra];
      } else if AtMost(score, 2) {
        assert ps == [header, low, extra];
      } else {
        assert ps == [header, extra];
      }
    } else {
      assert ExtraParagraph(extra, extraOn) == [];
      if AtLeast(score, 4) {
        assert ps == [header, high];
      } else if AtMost(score, 2) {
        assert ps == [header, low];
      } else {
        assert ps == [header];
      }
    }
  }

  /** Which of the four paragraphs an analysis holds. */
  lemma AnalysisParagraphsChoice(header: Paragraph, high: Paragraph, low: Paragraph, extra: Paragraph, score: Score, extraOn: bool)
    requires Distinct(header, high, low, extra)
    ensures high in AnalysisParagraphs(header, high, low, extra, score, extraOn) <==> AtLeast(score, 4)
    ensures low in AnalysisParagraphs(header, high, low, extra, score, extraOn) <==> AtMost(score, 2)
    ensures extra in AnalysisParagraphs(header, high, low, extra, score, extraOn) <==> extraOn
  {
    var ps := AnalysisParagraphs(header, high, low, extra, score, extraOn);
    if extraOn {
      assert ExtraParagraph(extra, extraOn) == [extra];
      if AtLeast(score, 4) {
        assert ps == [header, high, extra];
      } else if AtMost(score, 2) {
        assert ps == [header, low, extra];
      } else {
        assert ps == [header, extra];
      }
    } else {
      assert ExtraParagraph(extra, extraOn) == [];
      if AtLeast(score, 4) {
        assert ps == [header, high];
      } else if AtMost(score, 2) {
        assert ps == [header, low];
      } else {
        assert ps == [header];
      }
    }
  }

  const AngerKey := "anger_without_reason"
  const AvoidsPlayingKey := "avoids_playing_with_children"
  const FollowsRulesKey := "follows_rules"
  const ImpulseKey := "impulse_control_difficulty"
  const ConcernsKey := "development_concerns"


  /** The paragraphs of the emotional analysis for the joy, sadness and anger scores. */
  function EmotionalParagraphs(joy: Score, sadness: Score, anger: Score): (ps: seq<Paragraph>)
    ensures 1 <= |ps| <= 3 && ps[0] == EmotionalHeader
    ensures JoyHigh in ps <==> AtLeast(joy, 4)
    ensures JoyLow in ps <==> AtMost(joy, 2)
    ensures NegativeEmotions in ps <==> AtLeast(sadness, 4) || AtLeast(anger, 4)
    ensures forall p :: p in ps ==> p == EmotionalHeader || p == JoyHigh || p == JoyLow || p == NegativeEmotions
  {
    AnalysisParagraphsLayout(EmotionalHeader, JoyHigh, JoyLow, NegativeEmotions, joy, AtLeast(sadness, 4) || AtLeast(anger, 4));
    AnalysisParagraphsChoice(EmotionalHeader, JoyHigh, JoyLow, NegativeEmotions, joy, AtLeast(sadness, 4) || AtLeast(anger, 4));
    AnalysisParagraphs(EmotionalHeader, JoyHigh, JoyLow, NegativeEmotions, joy, AtLeast(sadness, 4) || AtLeast(anger, 4))
  }


  /** The paragraphs of the social analysis for the friends and solitary-play scores. */
  function SocialParagraphs(friends: Score, avoidsPlaying: Score): (ps: seq<Paragraph>)
    ensures 1 <= |ps| <= 3 && ps[0] == SocialHeader
    ensures FriendsHigh in ps <==> AtLeast(friends, 4)
    ensures FriendsLow in ps <==> AtMost(friends, 2)
    ensures PlaysAlone in ps <==> AtLeast(avoidsPlaying, 4)
    ensures forall p :: p in ps ==> p == SocialHeader || p == FriendsHigh || p == FriendsLow || p == PlaysAlone
  {
    AnalysisParagraphsLayout(SocialHeader, FriendsHigh, FriendsLow, PlaysAlone, friends, AtLeast(avoidsPlaying, 4));
    AnalysisParagraphsChoice(SocialHeader, FriendsHigh, FriendsLow, PlaysAlone, friends, AtLeast(avoidsPlaying, 4));
    AnalysisParagraphs(SocialHeader, FriendsHigh, FriendsLow, PlaysAlone, friends, AtLeast(avoidsPlaying, 4))
  }


  /** The paragraphs of the self-regulation analysis for the rules and impulsivity scores. */
  function RegulationParagraphs(followsRules: Score, impulse: Score): (ps: seq<Paragraph>)
    ensures 1 <= |ps| <= 3 && ps[0] == RegulationHeader
    ensures RulesHigh in ps <==> AtLeast(followsRules, 4)
    ensures RulesLow in ps <==> AtMost(followsRules, 2)
    ensures Impulsive in ps <==> AtLeast(impulse, 4)
    ensures forall p :: p in ps ==> p == RegulationHeader || p == RulesHigh || p == RulesLow || p == Impulsive
  {
    AnalysisParagraphsLayout(RegulationHeader, RulesHigh, RulesLow, Impulsive, followsRules, AtLeast(impulse, 4));
    AnalysisParagraphsChoice(RegulationHeader, RulesHigh, RulesLow, Impulsive, followsRules, AtLeast(impulse, 4));
    AnalysisParagraphs(RegulationHeader, RulesHigh, RulesLow, Impulsive, followsRules, AtLeast(impulse, 4))
  }

  /** Joining two paragraph lists one after the other concatenates their texts. */
  lemma {:induction false} JoinConcat(ps: seq<Paragraph>, qs: seq<Paragraph>, wording: Paragraph -> string)
    ensures Join(ps + qs, wording) == Join(ps, wording) + Join(qs, wording)
    decreases |qs|
  {
    if qs == [] {
      assert ps + qs == ps;
    } else {
      var init := qs[..|qs| - 1];
      assert (ps + qs)[..|ps + qs| - 1] == ps + init;
      assert (ps + qs)[|ps + qs| - 1] == qs[|qs| - 1];
      JoinConcat(ps, init, wording);
      ConcatAssoc(Join(ps, wording), Join(init, wording), wording(qs[|qs| - 1]));
    }
  }

  /**
   * An analysis's text is its header's text, then the high or the low
   * paragraph's text for the main score, then the extra paragraph's text
   * when its condition holds.
   */
  lemma AnalysisText(header: Paragraph, high: Paragraph, low: Paragraph, extra: Paragraph, score: Score, extraOn: bool,
                     wording: Paragraph -> string)
    ensures Join(AnalysisParagraphs(header, high, low, extra, score, extraOn), wording)
            == wording(header)
               + (if AtLeast(score, 4) then wording(high) else if AtMost(score, 2) then wording(low) else "")
               + (if extraOn then wording(extra) else "")
  {
    var mid, tail := ScoreParagraph(high, low, score), ExtraParagraph(extra, extraOn);
    JoinConcat([header] + mid, tail, wording);
    JoinConcat([header], mid, wording);
    assert Join([header], wording) == wording(header) by {
      assert [header][..0] == [];
    }
    assert Join(mid, wording) == if AtLeast(score, 4) then wording(high) else if AtMost(score, 2) then wording(low) else "" by {
      if mid != [] { assert mid[..0] == []; }
    }
    assert Join(tail, wording) == if extraOn then wording(extra) else "" by {
      if tail != [] { assert tail[..0] == []; }
    }
  }

  /**
   * The appending the three analyses share: start from the header, append
   * the high or the low paragraph for the main score, then the extra
   * paragraph when its condition holds.
   */
  method AppendParagraphs(header: Paragraph, high: Paragraph, low: Paragraph, extra: Paragraph, score: Score, extraOn: bool,
                          wording: Paragraph -> string)
    returns (text: string)
    ensures text == Join(AnalysisParagraphs(header, high, low, extra, score, extraOn), wording)
  {
    text := wording(header);
    if AtLeast(score, 4) {
      text := text + wording(high);
    } else if AtMost(score, 2) {
      text := text + wording(low);
    }
    if extraOn {
      text := text + wording(extra);
    }
    AnalysisText(header, high, low, extra, score, extraOn, wording);
  }

  /** Every analysis text starts with its header's text. */
  lemma AnalysisStartsWithHeader(header: Paragraph, high: Paragraph, low: Paragraph, extra: Paragraph, score: Score, extraOn: bool,
                                 wording: Paragraph -> string)
    ensures wording(header) <= Join(AnalysisParagraphs(header, high, low, extra, score, extraOn), wording)
  {
    var ps := AnalysisParagraphs(header, high, low, extra, score, extraOn);
    assert ps[0] == header;
    JoinBounds(ps, wording);
  }

  /** `analyzeEmotionalSphere`. */
  method AnalyzeEmotionalSphere(answers: map<string, Value>) returns (analysis: string)
    ensures analysis == Join(EmotionalParagraphs(ScoreOf(answers, JoyKey), ScoreOf(answers, SadnessKey), ScoreOf(answers, AngerKey)), Wording)
  {
    var joy := ScoreOf(answers, JoyKey);
    var sadness := ScoreOf(answers, SadnessKey);
    var anger := ScoreOf(answers, AngerKey);
    analysis := AppendParagraphs(EmotionalHeader, JoyHigh, JoyLow, NegativeEmotions, joy, AtLeast(sadness, 4) || AtLeast(anger, 4), Wording);
  }

  /** `analyzeSocialInteraction`. */
  method AnalyzeSocialInteraction(answers: map<string, Value>) returns (analysis: string)
    ensures analysis == Join(SocialParagraphs(ScoreOf(answers, FriendsKey), ScoreOf(answers, AvoidsPlayingKey)), Wording)
  {
    var friends := ScoreOf(answers, FriendsKey);
    var avoidsPlaying := ScoreOf(answers, AvoidsPlayingKey);
    analysis := AppendParagraphs(SocialHeader, FriendsHigh, FriendsLow, PlaysAlone, friends, AtLeast(avoidsPlaying, 4), Wording);
  }

  /** `analyzeSelfRegulation`. */
  method AnalyzeSelfRegulation(answers: map<string, Value>) returns (analysis: string)
    ensures analysis == Join(RegulationParagraphs(ScoreOf(answers, FollowsRulesKey), ScoreOf(answers, ImpulseKey)), Wording)
  {
    var followsRules := ScoreOf(answers, FollowsRulesKey);
    var impulse := ScoreOf(answers, ImpulseKey);
    analysis := AppendParagraphs(RegulationHeader, RulesHigh, RulesLow, Impulsive, followsRules, AtLeast(impulse, 4), Wording);
  }

  /** The paragraphs of the recommendations; `concerns` is whether development concerns were given. */
  function RecommendationParagraphs(concerns: bool): (ps: seq<Paragraph>)
    ensures |ps| >= 6
    ensures ps[..5] == [RecommendationsHeader, Recommendation1, Recommendation2, Recommendation3, Recommendation4]
    ensures ps[|ps| - 1] == Disclaimer
    ensures Recommendation5 in ps <==> concerns
  {
    [RecommendationsHeader, Recommendation1, Recommendation2, Recommendation3, Recommendation4]
    + (if concerns then [Recommendation5] else [])
    + [Disclaimer]
  }

  /**
   * The appending of the recommendations: the header and items 1 to 4, item
   * 5 when there are concerns, and the disclaimer.
   */
  method AppendRecommendations(concerns: bool, wording: Paragraph -> string) returns (text: string)
    ensures text == Join(RecommendationParagraphs(concerns), wording)
    ensures wording(RecommendationsHeader) <= text
    ensures |wording(Disclaimer)| <= |text| && text[|text| - |wording(Disclaimer)|..] == wording(Disclaimer)
  {
    text := wording(RecommendationsHeader);
    ghost var ps := [RecommendationsHeader];
    JoinAppend([], RecommendationsHeader, wording);
    JoinAppend(ps, Recommendation1, wording);
    text := text + wording(Recommendation1);
    ps := ps + [Recommendation1];
    JoinAppend(ps, Recommendation2, wording);
    text := text + wording(Recommendation2);
    ps := ps + [Recommendation2];
    JoinAppend(ps, Recommendation3, wording);
    text := text + wording(Recommendation3);
    ps := ps + [Recommendation3];
    JoinAppend(ps, Recommendation4, wording);
    text := text + wording(Recommendation4);
    ps := ps + [Recommendation4];
    if concerns {
      JoinAppend(ps, Recommendation5, wording);
      text := text + wording(Recommendation5);
      ps := ps + [Recommendation5];
    }
    JoinAppend(ps, Disclaimer, wording);
    text := text + wording(Disclaimer);
    ps := ps + [Disclaimer];
    assert ps == RecommendationParagraphs(concerns);
    JoinBounds(ps, wording);
  }

  /** `generateRecommendations`: item 5 is added when `development_concerns` is truthy. */
  method GenerateRecommendations(answers: map<string, Value>) returns (recommendations: string)
    ensures recommendations == Join(RecommendationParagraphs(Truthy(Lookup(answers, ConcernsKey))), Wording)
    ensures Wording(RecommendationsHeader) <= recommendations
    ensures |Wording(Disclaimer)| <= |recommendations| &&
            recommendations[|recommendations| - |Wording(Disclaimer)|..] == Wording(Disclaimer)
  {
    recommendations := AppendRecommendations(Truthy(Lookup(answers, ConcernsKey)), Wording);
  }

  /**
   * A missing answer scores 0, so each analysis takes its low paragraph and
   * none of the extra ones.
   */
  lemma MissingAnswersTakeLowParagraphs(answers: map<string, Value>)
    requires JoyKey !in answers && SadnessKey !in answers && AngerKey !in answers
    requires FriendsKey !in answers && AvoidsPlayingKey !in answers
    requires FollowsRulesKey !in answers && ImpulseKey !in answers
    ensures EmotionalParagraphs(ScoreOf(answers, JoyKey), ScoreOf(answers, SadnessKey), ScoreOf(answers, AngerKey))
            == [EmotionalHeader, JoyLow]
    ensures SocialParagraphs(ScoreOf(answers, FriendsKey), ScoreOf(answers, AvoidsPlayingKey)) == [SocialHeader, FriendsLow]
    ensures RegulationParagraphs(ScoreOf(answers, FollowsRulesKey), ScoreOf(answers, ImpulseKey)) == [RegulationHeader, RulesLow]
  {
    var zero := Num(0);
    assert !AtLeast(zero, 4);
    assert ScoreOf(answers, JoyKey) == zero && ScoreOf(answers, SadnessKey) == zero && ScoreOf(answers, AngerKey) == zero;
    assert ScoreOf(answers, FriendsKey) == zero && ScoreOf(answers, AvoidsPlayingKey) == zero;
    assert ScoreOf(answers, FollowsRulesKey) == zero && ScoreOf(answers, ImpulseKey) == zero;
    ZeroScoreTakesLowParagraph(EmotionalHeader, JoyHigh, JoyLow, NegativeEmotions);
    ZeroScoreTakesLowParagraph(SocialHeader, FriendsHigh, FriendsLow, PlaysAlone);
    ZeroScoreTakesLowParagraph(RegulationHeader, RulesHigh, RulesLow, Impulsive);
  }

  lemma ZeroScoreTakesLowParagraph(header: Paragraph, high: Paragraph, low: Paragraph, extra: Paragraph)
    ensures AnalysisParagraphs(header, high, low, extra, Num(0), false) == [header, low]
  {
    assert ScoreParagraph(high, low, Num(0)) == [low];
  }

  /**
   * The results screen and the report read the same scores the same way:
   * a normal emotional verdict comes with the high joy paragraph, the low
   * joy paragraph with the attention verdict, and the social verdicts match
   * the friends paragraphs.
   */
  lemma ScreenAgreesWithReport(answers: map<string, Value>)
    ensures var ps := EmotionalParagraphs(ScoreOf(answers, JoyKey), ScoreOf(answers, SadnessKey), ScoreOf(answers, AngerKey));
            (EmotionalAnalysis(answers) == EmotionalNormal ==> JoyHigh in ps) &&
            (JoyLow in ps ==> EmotionalAnalysis(answers) == EmotionalAttention) &&
            (AtLeast(ScoreOf(answers, SadnessKey), 4) ==> NegativeEmotions in ps && EmotionalAnalysis(answers) == EmotionalAttention)
    ensures var ps := SocialParagraphs(ScoreOf(answers, FriendsKey), ScoreOf(answers, AvoidsPlayingKey));
            (SocialAnalysis(answers) == SocialGood <==> FriendsHigh in ps) &&
            (SocialAnalysis(answers) == SocialDifficulty <==> FriendsLow in ps)
  {
  }

  /**
   * As written, scale answers stored as labels score NaN, so the report's
   * analyses are their bare headers whatever labels were chosen.
   */
  lemma LabelAnswersGiveBareHeaders(answers: map<string, Value>, joy: nat, sadness: nat, anger: nat, friends: nat, avoids: nat)
    requires joy < |ScaleLabels| && Lookup(answers, JoyKey) == Text(ScaleLabels[joy])
    requires sadness < |ScaleLabels| && Lookup(answers, SadnessKey) == Text(ScaleLabels[sadness])
    requires anger < |ScaleLabels| && Lookup(answers, AngerKey) == Text(ScaleLabels[anger])
    requires friends < |ScaleLabels| && Lookup(answers, FriendsKey) == Text(ScaleLabels[friends])
    requires avoids < |ScaleLabels| && Lookup(answers, AvoidsPlayingKey) == Text(ScaleLabels[avoids])
    ensures EmotionalParagraphs(ScoreOf(answers, JoyKey), ScoreOf(answers, SadnessKey), ScoreOf(answers, AngerKey))
            == [EmotionalHeader]
    ensures SocialParagraphs(ScoreOf(answers, FriendsKey), ScoreOf(answers, AvoidsPlayingKey)) == [SocialHeader]
  {
    LabelScoreIsNaN(answers, JoyKey, joy);
    LabelScoreIsNaN(answers, SadnessKey, sadness);
    LabelScoreIsNaN(answers, AngerKey, anger);
    LabelScoreIsNaN(answers, FriendsKey, friends);
    LabelScoreIsNaN(answers, AvoidsPlayingKey, avoids);
  }

  /**
   * With the intended label scores, the report's paragraphs follow the
   * chosen labels: "often" or "always" take the high paragraph and the extra
   * one, "very rarely" or "rarely" the low one.
   */
  lemma ScaleScoresChooseParagraphs(answers: map<string, Value>, joy: nat, sadness: nat, anger: nat)
    requires joy < |ScaleLabels| && Lookup(answers, JoyKey) == Text(ScaleLabels[joy])
    requires sadness < |ScaleLabels| && Lookup(answers, SadnessKey) == Text(ScaleLabels[sadness])
    requires anger < |ScaleLabels| && Lookup(answers, AngerKey) == Text(ScaleLabels[anger])
    ensures var ps := EmotionalParagraphs(ScaleScoreOf(answers, JoyKey), ScaleScoreOf(answers, SadnessKey), ScaleScoreOf(answers, AngerKey));
            (JoyHigh in ps <==> joy >= 3) &&
            (JoyLow in ps <==> joy <= 1) &&
            (NegativeEmotions in ps <==> sadness >= 3 || anger >= 3)
  {
    ScaleLabelsReachThresholds(answers, JoyKey, joy);
    ScaleLabelsReachThresholds(answers, SadnessKey, sadness);
    ScaleLabelsReachThresholds(answers, AngerKey, anger);
  }
}

/** The rule-based advisory engine (`get_advice`): one framing line chosen by
    the label, then one line per metric in a fixed order, joined with
    newlines. The rules choose a `Tip`; `Text` gives its French wording. */
module Advice {
  import opened Records
  import PyText

  /** The advisory lines `get_advice` can emit, one constructor each. */
  datatype Tip =
    | AtRiskOpening
    | NotAtRiskOpening
    | LowStudy
    | ModerateStudy
    | HeavyStudy
    | NoScreen
    | ModerateScreen
    | HighScreen
    | ShortSleep
    | GoodSleep
    | LongSleep
    | LowMental
    | MediumMental
    | HighMental
    | GoodAttendance
    | PoorAttendance
    | PartTimeNote
    | WithActivities
    | WithoutActivities

  /** The French text of each advisory line, exactly as the view emits it:
      the two framing lines address the student, every other line is a
      bullet. Each literal is written as a concatenation of short pieces,
      which keeps the verifier's reasoning about its characters cheap. */
  function Text(tip: Tip): string
  {
    match tip
    case AtRiskOpening =>
      "Vous " + ("semblez en " + "difficulté. " + "Voici une " + "analyse "
        + "personnalisée " + "de vos " + "habitudes :")
    case NotAtRiskOpening =>
      "Vous " + ("n'êtes " + "pas en " + "difficulté. " + "Voici une "
        + "évaluation " + "de vos " + "habitudes :")
    case _ =>
      "- " + Bullet(tip)
  }

  /** The wording of a bullet line after its leading "- ". */
  function Bullet(tip: Tip): string
    requires !(tip.AtRiskOpening? || tip.NotAtRiskOpening?)
  {
    match tip
    case LowStudy =>
      "Vous " + "étudiez " + "peu. " + "Essayez " + "d’atteindre "
      + "au moins 2 " + "à 3h/jour."
    case ModerateStudy =>
      "Temps " + "d’étude " + "modéré, " + "c’est une " + "bonne base."
    case HeavyStudy =>
      "Vous " + "étudiez " + "beaucoup. " + "Attention " + "au "
      + "surmenage, " + "ménagez-vous."
    case NoScreen =>
      "Aucun " + "écran " + "détecté. Si " + "c’est " + "volontaire, "
      + "parfait ! " + "Sinon, " + "n’hésitez " + "pas à vous "
      + "accorder du " + "temps libre " + "sainement."
    case ModerateScreen =>
      "Temps " + "d’écran " + "modéré. " + "Restez " + "vigilant à "
      + "l'équilibre."
    case HighScreen =>
      "Temps " + "d’écran " + "élevé. " + "Réduisez un "
      + "peu pour ne " + "pas " + "impacter " + "vos " + "performances."
    case ShortSleep =>
      "Sommeil " + "insuffisant. " + "Essayez " + "d’atteindre "
      + "7-8h pour " + "mieux " + "apprendre."
    case GoodSleep =>
      "Sommeil " + "correct. " + "Continuez à " + "bien dormir."
    case LongSleep =>
      "Sommeil " + "long. " + "Assurez-vous " + "qu’il ne "
      + "remplace " + "pas du " + "temps " + "d’étude."
    case LowMental =>
      "Votre " + "état mental " + "est bas. " + "N'hésitez "
      + "pas à en " + "parler à un " + "adulte ou " + "un " + "professionnel."
    case MediumMental =>
      "Santé " + "mentale " + "moyenne. " + "Prenez soin "
      + "de vous et " + "accordez-vous " + "des pauses."
    case HighMental =>
      "Très " + "bonne santé " + "mentale. " + "C’est un "
      + "point fort " + "à maintenir."
    case GoodAttendance =>
      "Très " + "bonne " + "présence en " + "classe. " + "Cela "
      + "favorise " + "vos " + "apprentissages."
    case PoorAttendance =>
      "Présence " + "en classe " + "moyenne ou " + "faible. "
      + "Essayez " + "d'être plus " + "régulier."
    case PartTimeNote =>
      "Vous avez " + "un job à " + "côté. " + "Pensez à "
      + "bien gérer " + "votre " + "énergie et " + "votre " + "emploi du "
      + "temps."
    case WithActivities =>
      "Vous " + "participez " + "à des " + "activités. " + "Cela "
      + "renforce " + "l’équilibre " + "et la " + "motivation."
    case WithoutActivities =>
      "Vous " + "n'avez pas " + "d'activités " + "extérieures. "
      + "Envisagez-en " + "une pour " + "vous aérer " + "l’esprit."
  }

  /** The opening line: the "en difficulté" framing exactly for label 1. */
  function Opening(prediction: int): (tip: Tip)
    ensures tip == AtRiskOpening <==> prediction == 1
    ensures tip == NotAtRiskOpening <==> prediction != 1
  {
    if prediction == 1 then AtRiskOpening else NotAtRiskOpening
  }

  /** Study hours: below 2, from 2 to 4 inclusive, above 4. */
  function StudyTip(study: real): (tip: Tip)
    ensures tip == LowStudy <==> study < 2.0
    ensures tip == ModerateStudy <==> 2.0 <= study <= 4.0
    ensures tip == HeavyStudy <==> 4.0 < study
  {
    if study < 2.0 then LowStudy
    else if 2.0 <= study <= 4.0 then ModerateStudy
    else HeavyStudy
  }

  /** Screen time, on the sum of social-media and Netflix hours: exactly 0,
      otherwise at most 3 (a negative sum included), otherwise above 3. */
  function ScreenTip(totalScreen: real): (tip: Tip)
    ensures tip == NoScreen <==> totalScreen == 0.0
    ensures tip == ModerateScreen <==> totalScreen != 0.0 && totalScreen <= 3.0
    ensures tip == HighScreen <==> 3.0 < totalScreen
  {
    if totalScreen == 0.0 then NoScreen
    else if totalScreen <= 3.0 then ModerateScreen
    else HighScreen
  }

  /** Sleep hours: below 6, from 6 to 8 inclusive, above 8. */
  function SleepTip(sleep: real): (tip: Tip)
    ensures tip == ShortSleep <==> sleep < 6.0
    ensures tip == GoodSleep <==> 6.0 <= sleep <= 8.0
    ensures tip == LongSleep <==> 8.0 < sleep
  {
    if sleep < 6.0 then ShortSleep
    else if 6.0 <= sleep <= 8.0 then GoodSleep
    else LongSleep
  }

  /** Mental-health rating: at most 3, from 4 to 6, at least 7. */
  function MentalTip(mental: int): (tip: Tip)
    ensures tip == LowMental <==> mental <= 3
    ensures tip == MediumMental <==> 4 <= mental <= 6
    ensures tip == HighMental <==> 7 <= mental
  {
    if mental <= 3 then LowMental
    else if 4 <= mental <= 6 then MediumMental
    else HighMental
  }

  /** Attendance: 90 per cent or more is the positive line. */
  function AttendanceTip(attendance: real): (tip: Tip)
    ensures tip == GoodAttendance <==> 90.0 <= attendance
    ensures tip == PoorAttendance <==> attendance < 90.0
  {
    if attendance >= 90.0 then GoodAttendance else PoorAttendance
  }

  /** Extracurricular participation: encouragement or a suggestion. */
  function ExtracurricularTip(extra: bool): (tip: Tip)
    ensures tip == WithActivities <==> extra
    ensures tip == WithoutActivities <==> !extra
  {
    if extra then WithActivities else WithoutActivities
  }

  /** The advisory in order: opening, study, screen, sleep, mental health,
      attendance, the part-time note when there is a job, and the
      extracurricular line last. */
  function AdviceTips(data: InputRecord, prediction: int): (tips: seq<Tip>)
    ensures |tips| == if data.partTimeJob then 8 else 7
    ensures tips[0] == Opening(prediction)
    ensures tips[1] == StudyTip(data.studyHours)
    ensures tips[2] == ScreenTip(data.socialMediaHours + data.netflixHours)
    ensures tips[3] == SleepTip(data.sleepHours)
    ensures tips[4] == MentalTip(data.mentalHealthRating)
    ensures tips[5] == AttendanceTip(data.attendancePercentage)
    ensures (tips[6] == PartTimeNote) == data.partTimeJob
    ensures tips[|tips| - 1] == ExtracurricularTip(data.extracurricular)
    ensures forall i :: 0 <= i < |tips| ==>
      (tips[i] == PartTimeNote <==> i == 6 && data.partTimeJob)
  {
    [ Opening(prediction),
      StudyTip(data.studyHours),
      ScreenTip(data.socialMediaHours + data.netflixHours),
      SleepTip(data.sleepHours),
      MentalTip(data.mentalHealthRating),
      AttendanceTip(data.attendancePercentage) ]
    + (if data.partTimeJob then [PartTimeNote] else [])
    + [ExtracurricularTip(data.extracurricular)]
  }

  /** The wording of a sequence of tips, line by line. */
  function Texts(tips: seq<Tip>): (lines: seq<string>)
    ensures |lines| == |tips|
    ensures forall i :: 0 <= i < |tips| ==> lines[i] == Text(tips[i])
  {
    seq(|tips|, i requires 0 <= i < |tips| => Text(tips[i]))
  }

  /** The advisory lines `get_advice` joins. */
  function AdviceLines(data: InputRecord, prediction: int): seq<string>
  {
    Texts(AdviceTips(data, prediction))
  }

  /** `get_advice`: appends one line per rule, in order, and joins them with
      newlines. Each appended line is named by its `Tip` (`Text` gives its
      wording) and chosen by the rule function above that holds the
      branches of that rule. */
  method GetAdvice(data: InputRecord, prediction: int) returns (advice: string)
    ensures advice == PyText.JoinLines(AdviceLines(data, prediction))
  {
    var adviceLines: seq<Tip> := [];
    adviceLines := adviceLines + [Opening(prediction)];
    adviceLines := adviceLines + [StudyTip(data.studyHours)];
    var totalScreen := data.socialMediaHours + data.netflixHours;
    adviceLines := adviceLines + [ScreenTip(totalScreen)];
    adviceLines := adviceLines + [SleepTip(data.sleepHours)];
    adviceLines := adviceLines + [MentalTip(data.mentalHealthRating)];
    adviceLines := adviceLines + [AttendanceTip(data.attendancePercentage)];
    if data.partTimeJob {
      adviceLines := adviceLines + [PartTimeNote];
    }
    adviceLines := adviceLines + [ExtracurricularTip(data.extracurricular)];
    assert adviceLines == AdviceTips(data, prediction);
    advice := PyText.JoinLines(Texts(adviceLines));
  }

  /** The label decides the opening line and nothing else; the screen line
      sees only the sum of the two screen metrics. */
  lemma LabelOnlyFramesOpening(d1: InputRecord, d2: InputRecord, p1: int, p2: int)
    requires d1.studyHours == d2.studyHours && d1.sleepHours == d2.sleepHours
    requires d1.socialMediaHours + d1.netflixHours == d2.socialMediaHours + d2.netflixHours
    requires d1.mentalHealthRating == d2.mentalHealthRating
    requires d1.attendancePercentage == d2.attendancePercentage
    requires d1.partTimeJob == d2.partTimeJob && d1.extracurricular == d2.extracurricular
    ensures AdviceTips(d1, p1)[1..] == AdviceTips(d2, p2)[1..]
    ensures AdviceTips(d1, p1)[0] == AdviceTips(d2, p2)[0] <==> (p1 == 1 <==> p2 == 1)
  {
  }

  /** A line the report can draw as it is: it holds no newline, so splitting
      the joined advisory cannot cut it, and it neither starts nor ends with
      white space, so `strip()` leaves it unchanged. */
  predicate Clean(line: string)
  {
    && '\n' !in line
    && (line == [] || (!PyText.IsSpace(line[0]) && !PyText.IsSpace(line[|line| - 1])))
  }

  lemma CleanLineIsStripped(line: string)
    requires Clean(line)
    ensures PyText.Strip(line) == line
  {
    PyText.StripSpec(line);
  }

  /** Every advisory text is clean. The texts are checked one by one, each
      in a proof of its own, which keeps every proof small. */
  lemma {:induction false} TextIsClean(tip: Tip)
    ensures Clean(Text(tip))
  {
    match tip
    case AtRiskOpening => AtRiskOpeningIsClean();
    case NotAtRiskOpening => NotAtRiskOpeningIsClean();
    case LowStudy => LowStudyIsClean();
    case ModerateStudy => ModerateStudyIsClean();
    case HeavyStudy => HeavyStudyIsClean();
    case NoScreen => NoScreenIsClean();
    case ModerateScreen => ModerateScreenIsClean();
    case HighScreen => HighScreenIsClean();
    case ShortSleep => ShortSleepIsClean();
    case GoodSleep => GoodSleepIsClean();
    case LongSleep => LongSleepIsClean();
    case LowMental => LowMentalIsClean();
    case MediumMental => MediumMentalIsClean();
    case HighMental => HighMentalIsClean();
    case GoodAttendance => GoodAttendanceIsClean();
    case PoorAttendance => PoorAttendanceIsClean();
    case PartTimeNote => PartTimeNoteIsClean();
    case WithActivities => WithActivitiesIsClean();
    case WithoutActivities => WithoutActivitiesIsClean();
  }

  lemma AtRiskOpeningIsClean() ensures Clean(Text(AtRiskOpening)) {}
  lemma NotAtRiskOpeningIsClean() ensures Clean(Text(NotAtRiskOpening)) {}
  lemma LowStudyIsClean() ensures Clean(Text(LowStudy)) {}
  lemma ModerateStudyIsClean() ensures Clean(Text(ModerateStudy)) {}
  lemma HeavyStudyIsClean() ensures Clean(Text(HeavyStudy)) {}
  lemma NoScreenIsClean() ensures Clean(Text(NoScreen)) {}
  lemma ModerateScreenIsClean() ensures Clean(Text(ModerateScreen)) {}
  lemma HighScreenIsClean() ensures Clean(Text(HighScreen)) {}
  lemma ShortSleepIsClean() ensures Clean(Text(ShortSleep)) {}
  lemma GoodSleepIsClean() ensures Clean(Text(GoodSleep)) {}
  lemma LongSleepIsClean() ensures Clean(Text(LongSleep)) {}
  lemma LowMentalIsClean() ensures Clean(Text(LowMental)) {}
  lemma MediumMentalIsClean() ensures Clean(Text(MediumMental)) {}
  lemma HighMentalIsClean() ensures Clean(Text(HighMental)) {}
  lemma GoodAttendanceIsClean() ensures Clean(Text(GoodAttendance)) {}
  lemma PoorAttendanceIsClean() ensures Clean(Text(PoorAttendance)) {}
  lemma PartTimeNoteIsClean() ensures Clean(Text(PartTimeNote)) {}
  lemma WithActivitiesIsClean() ensures Clean(Text(WithActivities)) {}
  lemma WithoutActivitiesIsClean() ensures Clean(Text(WithoutActivities)) {}

  /** The joined advisory splits back into exactly its lines, as the report
      renderer's `advice.split('\n')` needs. */
  lemma AdviceSplitsBack(data: InputRecord, prediction: int)
    ensures PyText.SplitLines(PyText.JoinLines(AdviceLines(data, prediction)))
         == AdviceLines(data, prediction)
  {
    var tips := AdviceTips(data, prediction);
    var lines := AdviceLines(data, prediction);
    forall i | 0 <= i < |lines| ensures '\n' !in lines[i] {
      TextIsClean(tips[i]);
    }
    PyText.SplitJoin(lines);
  }

  /** The two framing lines address the student ("Vous ..."); every other
      line is a bullet starting with "- ". */
  lemma TextShape(tip: Tip)
    ensures tip.AtRiskOpening? || tip.NotAtRiskOpening? ==> |Text(tip)| >= 5 && Text(tip)[..5] == "Vous "
    ensures !(tip.AtRiskOpening? || tip.NotAtRiskOpening?) ==> |Text(tip)| >= 2 && Text(tip)[..2] == "- "
    ensures |Text(tip)| >= 1 && (Text(tip)[0] == 'V' <==> tip.AtRiskOpening? || tip.NotAtRiskOpening?)
  {
  }

  /** The report draws every advisory line unchanged by `line.strip()`. */
  lemma AdviceLinesNeedNoStrip(data: InputRecord, prediction: int)
    ensures forall i :: 0 <= i < |AdviceLines(data, prediction)| ==>
      PyText.Strip(AdviceLines(data, prediction)[i]) == AdviceLines(data, prediction)[i]
  {
    var tips := AdviceTips(data, prediction);
    var lines := AdviceLines(data, prediction);
    forall i | 0 <= i < |lines| ensures PyText.Strip(lines[i]) == lines[i] {
      TextIsClean(tips[i]);
      CleanLineIsStripped(lines[i]);
    }
  }

  /** The worked example of the rule table: a student at risk with every
      metric in its worst bucket and a part-time job. */
  lemma WorstCaseExample()
    ensures AdviceTips(InputRecord(1.0, 2.0, 2.0, 5.0, 2, 60.0, true, false), 1)
         == [AtRiskOpening, LowStudy, HighScreen, ShortSleep, LowMental,
             PoorAttendance, PartTimeNote, WithoutActivities]
  {
  }
}

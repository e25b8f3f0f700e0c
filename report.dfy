/** The PDF report (`generate_prediction_pdf`): a canvas that records every
    `drawString` as a draw event, the vertical cursor that places the lines,
    and the layout the two loops produce. */
module Report {
  import opened Records
  import PyText
  import Advice

  /** The height of A4 in PostScript points: 297 mm at 72 points per inch. */
  const PageHeight: real := 106920.0 / 127.0
  /** Where the cursor restarts on a new page. */
  const TopMargin: real := PageHeight - 50.0
  const LeftMargin: real := 50.0
  const TextIndent: real := 70.0
  const LineStep: real := 18.0
  /** The input summary breaks the page below this height... */
  const SummaryBottom: real := 70.0
  /** ...and the advice list below this one. */
  const AdviceBottom: real := 50.0

  const Title := "EduPredict - Rapport de prédiction scolaire"
  const ResultHeading := "Résultat de la prédiction :"
  const SummaryHeading := "Résumé des données saisies :"
  const AdviceHeading := "Conseils pratiques :"

  /** One `drawString` call, with the page it landed on (pages count from 0). */
  datatype Draw = Draw(page: nat, x: real, y: real, text: string)

  /** The layout cursor: the current page and the baseline of the next line. */
  datatype Cursor = Cursor(page: nat, y: real)

  /** One pass of a drawing loop after its line: move down one line, and
      start a new page at the top when the cursor fell below `bottom`. */
  function NextLine(c: Cursor, bottom: real): (next: Cursor)
    ensures next.page == c.page || next.page == c.page + 1
    ensures next.page == c.page + 1 <==> c.y - LineStep < bottom
    ensures bottom <= TopMargin ==> next.y >= bottom
  {
    if c.y - LineStep < bottom then Cursor(c.page + 1, TopMargin)
    else Cursor(c.page, c.y - LineStep)
  }

  /** The cursor after `n` lines of a loop that started at `start`. */
  function Advance(start: Cursor, n: nat, bottom: real): (c: Cursor)
    ensures start.page <= c.page <= start.page + n
  {
    if n == 0 then start else NextLine(Advance(start, n - 1, bottom), bottom)
  }

  /** Line `i` of a drawing loop: indented, where the cursor is after `i`
      lines. */
  function PlaceAt(text: string, start: Cursor, i: nat, bottom: real): Draw
  {
    var c := Advance(start, i, bottom);
    Draw(c.page, TextIndent, c.y, text)
  }

  /** The draws of a drawing loop, one per text, in order. */
  function Column(texts: seq<string>, start: Cursor, bottom: real): (draws: seq<Draw>)
    ensures |draws| == |texts|
  {
    seq(|texts|, i requires 0 <= i < |texts| => PlaceAt(texts[i], start, i, bottom))
  }

  lemma ColumnSnoc(texts: seq<string>, t: string, start: Cursor, bottom: real)
    ensures Column(texts + [t], start, bottom)
         == Column(texts, start, bottom)
            + [PlaceAt(t, start, |texts|, bottom)]
  {
    var long := Column(texts + [t], start, bottom);
    var short := Column(texts, start, bottom);
    assert forall i :: 0 <= i < |texts| ==> long[i] == short[i];
  }

  /** The cursor never goes back a page, and goes forward at most one page
      per line. */
  lemma {:induction false} PagesGrow(start: Cursor, i: nat, j: nat, bottom: real)
    requires i <= j
    ensures Advance(start, i, bottom).page <= Advance(start, j, bottom).page
    ensures Advance(start, j, bottom).page <= Advance(start, i, bottom).page + (j - i)
  {
    if i < j {
      PagesGrow(start, i, j - 1, bottom);
    }
  }

  /** After every line, the cursor is at or above the bottom margin (the
      top margin being above it). */
  lemma AboveBottomAfterEachLine(start: Cursor, n: nat, bottom: real)
    requires n >= 1 && bottom <= TopMargin
    ensures Advance(start, n, bottom).y >= bottom
  {
  }

  /** A loop of `n` lines stays on its first page exactly when `n` steps fit
      above the bottom margin, and then each line is one step lower. */
  lemma {:induction false} FitsIff(start: Cursor, n: nat, bottom: real)
    requires start.y >= bottom
    ensures Advance(start, n, bottom).page == start.page <==> start.y - LineStep * n as real >= bottom
    ensures Advance(start, n, bottom).page == start.page ==> Advance(start, n, bottom).y == start.y - LineStep * n as real
  {
    if n > 0 {
      var prev := Advance(start, n - 1, bottom);
      var here := Advance(start, n, bottom);
      FitsIff(start, n - 1, bottom);
      PagesGrow(start, 0, n - 1, bottom);
      assert here == NextLine(prev, bottom);
      assert LineStep * n as real == LineStep * (n - 1) as real + LineStep;
      if prev.page == start.page {
        assert prev.y == start.y - LineStep * (n - 1) as real;
      } else {
        assert start.y - LineStep * (n - 1) as real < bottom;
        assert here.page >= prev.page > start.page;
      }
    }
  }

  /** The drawing loop's step rule, between consecutive lines of a column:
      one line lower on the same page, or the top of the next page exactly
      when one line lower would be below the margin. */
  lemma ColumnStep(texts: seq<string>, start: Cursor, bottom: real, i: nat)
    requires i + 1 < |texts|
    ensures var d := Column(texts, start, bottom);
      && (d[i].y - LineStep >= bottom ==> d[i + 1].page == d[i].page && d[i + 1].y == d[i].y - LineStep)
      && (d[i].y - LineStep < bottom ==> d[i + 1].page == d[i].page + 1 && d[i + 1].y == TopMargin)
  {
  }

  /** Python's `str(value)` for a decoded JSON value: `None`, `True` and
      `False` for the constants, the string itself for a string. How numbers,
      lists and objects print is the parameter `show`. */
  function Format(v: Json, show: Json -> string): (text: string)
    ensures v.JString? ==> text == v.s
    ensures v == JNull ==> text == "None"
    ensures v.JBool? ==> (text == "True" <==> v.b) && (text == "True" || text == "False")
  {
    match v
    case JNull => "None"
    case JBool(b) => if b then "True" else "False"
    case JString(s) => s
    case _ => show(v)
  }

  /** `"Oui" if value else "Non"`. */
  function YesNo(v: Json): (text: string)
    ensures text == "Oui" || text == "Non"
    ensures text == "Non" <==> Falsy(v)
  {
    if Truthy(v) then "Oui" else "Non"
  }

  /** The request keys of the six metrics the summary prints with `str()`. */
  const MetricKeys: seq<string> :=
    [ "study_hours_per_day", "social_media_hours", "netflix_hours",
      "sleep_hours", "mental_health_rating", "attendance_percentage" ]

  /** The label-to-value table of the input summary, in its written order. */
  function SummaryEntries(inputs: map<string, Json>, show: Json -> string): (entries: seq<(string, string)>)
    ensures |entries| == 8
  {
    [ ("Heures d’étude par jour", Format(Get(inputs, MetricKeys[0]), show)),
      ("Heures sur les réseaux sociaux", Format(Get(inputs, MetricKeys[1]), show)),
      ("Heures de Netflix", Format(Get(inputs, MetricKeys[2]), show)),
      ("Heures de sommeil", Format(Get(inputs, MetricKeys[3]), show)),
      ("État de santé mentale", Format(Get(inputs, MetricKeys[4]), show)),
      ("Présence en classe (%)", Format(Get(inputs, MetricKeys[5]), show)),
      ("Travail à temps partiel", YesNo(Get(inputs, "part_time_job"))),
      ("Activités extrascolaires", YesNo(Get(inputs, "extracurricular_participation"))) ]
  }

  /** `f"- {label} : {value}"`. */
  function SummaryLine(entry: (string, string)): (line: string)
    ensures |line| == |entry.0| + |entry.1| + 5
  {
    "- " + entry.0 + " : " + entry.1
  }

  function SummaryTexts(inputs: map<string, Json>, show: Json -> string): (texts: seq<string>)
    ensures |texts| == 8
  {
    var entries := SummaryEntries(inputs, show);
    seq(8, i requires 0 <= i < 8 => SummaryLine(entries[i]))
  }

  /** What the advice loop draws: each piece of `advice.split('\n')`, stripped. */
  function AdviceTexts(advice: string): (texts: seq<string>)
    ensures |texts| == |PyText.SplitLines(advice)|
  {
    var lines := PyText.SplitLines(advice);
    seq(|lines|, i requires 0 <= i < |lines| => PyText.Strip(lines[i]))
  }

  /** The fixed header: title, student, date, result and summary heading. */
  function HeaderDraws(user: User, date: string, prediction: string): (d: seq<Draw>)
    ensures |d| == 7
  {
    [ Draw(0, LeftMargin, PageHeight - 50.0, Title),
      Draw(0, LeftMargin, PageHeight - 90.0, "Nom : " + user.fullName),
      Draw(0, LeftMargin, PageHeight - 110.0, "Email : " + user.email),
      Draw(0, LeftMargin, PageHeight - 130.0, "Date : " + date),
      Draw(0, LeftMargin, PageHeight - 170.0, ResultHeading),
      Draw(0, TextIndent, PageHeight - 190.0, prediction),
      Draw(0, LeftMargin, PageHeight - 230.0, SummaryHeading) ]
  }

  /** The summary table's eight labels are distinct, so the dictionary keeps
      all eight entries; a metric missing from the inputs shows as `None`, a
      string metric as itself, and the two booleans as "Oui" exactly when
      truthy. */
  lemma SummaryTable(inputs: map<string, Json>, show: Json -> string)
    ensures var entries := SummaryEntries(inputs, show);
      && (forall i, j :: 0 <= i < j < 8 ==> entries[i].0 != entries[j].0)
      && (forall i :: 0 <= i < 6 && MetricKeys[i] !in inputs ==> entries[i].1 == "None")
      && (forall i :: 0 <= i < 6 && MetricKeys[i] in inputs && inputs[MetricKeys[i]].JString?
            ==> entries[i].1 == inputs[MetricKeys[i]].s)
      && (entries[6].1 == "Oui" <==> Truthy(Get(inputs, "part_time_job")))
      && (entries[7].1 == "Oui" <==> Truthy(Get(inputs, "extracurricular_participation")))
  {
  }

  /** The dash, the label, the separator and the value of a summary line
      can be read back from their places in it. */
  lemma SummaryLineParts(entry: (string, string))
    ensures var line := SummaryLine(entry);
      && line[..2] == "- " && line[2..2 + |entry.0|] == entry.0
      && line[2 + |entry.0|..5 + |entry.0|] == " : " && line[5 + |entry.0|..] == entry.1
  {
  }

  /** The header is drawn top down on the first page, between the top
      margin and the start of the summary; only the result is indented. */
  lemma HeaderLayout(user: User, date: string, prediction: string)
    ensures var d := HeaderDraws(user, date, prediction);
      && (forall i :: 0 <= i < 7 ==> d[i].page == 0 && SummaryStart().y < d[i].y <= TopMargin)
      && (forall i, j :: 0 <= i < j < 7 ==> d[i].y > d[j].y)
      && (forall i :: 0 <= i < 7 ==> (d[i].x == TextIndent <==> i == 5))
      && d[5].text == prediction
  {
  }

  function SummaryStart(): Cursor
  {
    Cursor(0, PageHeight - 250.0)
  }

  /** The cursor after the summary loop. */
  function AfterSummary(): Cursor
  {
    Advance(SummaryStart(), 8, SummaryBottom)
  }

  /** Where the advice loop starts: 40 points below the summary, with the
      advice heading drawn half way and no page check. */
  function AdviceStart(): Cursor
  {
    Cursor(AfterSummary().page, AfterSummary().y - 40.0)
  }

  /** The draws before the advice loop: header, summary, advice heading. */
  function ReportPrefix(user: User, date: string, prediction: string,
                        inputs: map<string, Json>, show: Json -> string): seq<Draw>
  {
    HeaderDraws(user, date, prediction)
    + Column(SummaryTexts(inputs, show), SummaryStart(), SummaryBottom)
    + [Draw(AfterSummary().page, LeftMargin, AfterSummary().y - 20.0, AdviceHeading)]
  }

  /** Every draw of the report, in drawing order. */
  function ReportDraws(user: User, date: string, prediction: string, advice: string,
                       inputs: map<string, Json>, show: Json -> string): seq<Draw>
  {
    ReportPrefix(user, date, prediction, inputs, show)
    + Column(AdviceTexts(advice), AdviceStart(), AdviceBottom)
  }

  /** The number of pages: the final `showPage` closes the page the advice
      loop left the cursor on. */
  function PageCount(advice: string): nat
  {
    Advance(AdviceStart(), |PyText.SplitLines(advice)|, AdviceBottom).page + 1
  }

  /** The eight summary lines always fit on the first page: the summary ends
      394 points below the top of the page and the advice list starts at
      434 (the heading between them is placed in `ReportSections`). */
  lemma SummaryFitsFirstPage()
    ensures AfterSummary() == Cursor(0, PageHeight - 394.0)
    ensures AdviceStart() == Cursor(0, PageHeight - 434.0)
  {
    FitsIff(SummaryStart(), 8, SummaryBottom);
  }

  /** The report is laid out section by section: the seven header lines,
      then each summary line one step lower on the first page, then the
      advice heading, then exactly one draw per advice line, in order. */
  lemma ReportSections(user: User, date: string, prediction: string, advice: string,
                       inputs: map<string, Json>, show: Json -> string)
    ensures var d := ReportDraws(user, date, prediction, advice, inputs, show);
      var lines := PyText.SplitLines(advice);
      && |d| == 16 + |lines|
      && d[..7] == HeaderDraws(user, date, prediction)
      && (forall k :: 0 <= k < 8 ==>
            d[7 + k] == Draw(0, TextIndent, PageHeight - 250.0 - LineStep * k as real,
                             SummaryTexts(inputs, show)[k]))
      && d[15] == Draw(0, LeftMargin, PageHeight - 414.0, AdviceHeading)
      && (forall i :: 0 <= i < |lines| ==> d[16 + i].text == PyText.Strip(lines[i]) && d[16 + i].x == TextIndent)
  {
    SummaryFitsFirstPage();
    var d := ReportDraws(user, date, prediction, advice, inputs, show);
    var summary := Column(SummaryTexts(inputs, show), SummaryStart(), SummaryBottom);
    forall k | 0 <= k < 8
      ensures d[7 + k] == Draw(0, TextIndent, PageHeight - 250.0 - LineStep * k as real,
                               SummaryTexts(inputs, show)[k])
    {
      FitsIff(SummaryStart(), k, SummaryBottom);
      assert d[7 + k] == summary[k];
    }
  }

  /** Draw `16 + i` of the report is advice line `i`: the advice column
      follows the sixteen draws before it. */
  lemma AdviceDrawAt(user: User, date: string, prediction: string, advice: string,
                     inputs: map<string, Json>, show: Json -> string, i: nat)
    requires i < |PyText.SplitLines(advice)|
    ensures |ReportDraws(user, date, prediction, advice, inputs, show)| == 16 + |PyText.SplitLines(advice)|
    ensures ReportDraws(user, date, prediction, advice, inputs, show)[16 + i]
         == Column(AdviceTexts(advice), AdviceStart(), AdviceBottom)[i]
  {
    var prefix := ReportPrefix(user, date, prediction, inputs, show);
    var column := Column(AdviceTexts(advice), AdviceStart(), AdviceBottom);
    assert |prefix| == 16;
    assert ReportDraws(user, date, prediction, advice, inputs, show) == prefix + column;
  }

  /** Every advice line is drawn at or above the advice margin, and
      consecutive advice lines follow the loop's step rule: one line lower
      on the same page, or the top of the next page exactly when one line
      lower would be below the margin. */
  lemma AdviceLinesPlacement(advice: string, i: nat)
    requires i < |PyText.SplitLines(advice)|
    ensures var c := Column(AdviceTexts(advice), AdviceStart(), AdviceBottom);
      && c[i].y >= AdviceBottom
      && (i >= 1 && c[i - 1].y - LineStep >= AdviceBottom ==>
            c[i].page == c[i - 1].page && c[i].y == c[i - 1].y - LineStep)
      && (i >= 1 && c[i - 1].y - LineStep < AdviceBottom ==>
            c[i].page == c[i - 1].page + 1 && c[i].y == TopMargin)
  {
    if i == 0 {
      SummaryFitsFirstPage();
    } else {
      ColumnStep(AdviceTexts(advice), AdviceStart(), AdviceBottom, i - 1);
      AboveBottomAfterEachLine(AdviceStart(), i, AdviceBottom);
    }
  }

  /** The report is a single page exactly when the advice has at most 19
      lines: 19 steps of 18 points fit between 434 points below the top and
      the 50-point margin of an A4 page, 20 do not. */
  lemma SinglePageIff(advice: string)
    ensures PageCount(advice) == 1 <==> |PyText.SplitLines(advice)| <= 19
  {
    SummaryFitsFirstPage();
    FitsIff(AdviceStart(), |PyText.SplitLines(advice)|, AdviceBottom);
  }

  /** The advice the prediction view produces always fits on one page. */
  lemma PredictedAdviceFitsOnePage(data: InputRecord, prediction: int)
    ensures PageCount(PyText.JoinLines(Advice.AdviceLines(data, prediction))) == 1
  {
    Advice.AdviceSplitsBack(data, prediction);
    SinglePageIff(PyText.JoinLines(Advice.AdviceLines(data, prediction)));
  }

  /** Everything before the advice loop is on the first page. */
  lemma PrefixOnFirstPage(user: User, date: string, prediction: string,
                          inputs: map<string, Json>, show: Json -> string)
    ensures var prefix := ReportPrefix(user, date, prediction, inputs, show);
      |prefix| == 16 && forall i :: 0 <= i < 16 ==> prefix[i].page == 0
  {
    SummaryFitsFirstPage();
    var summary := Column(SummaryTexts(inputs, show), SummaryStart(), SummaryBottom);
    forall k | 0 <= k < 8
      ensures summary[k].page == 0
    {
      PagesGrow(SummaryStart(), k, 8, SummaryBottom);
    }
  }

  /** Draw `i` of the report, for `i` below 16, is on the first page. */
  lemma PrefixDrawAt(user: User, date: string, prediction: string, advice: string,
                     inputs: map<string, Json>, show: Json -> string, i: nat)
    requires i < 16
    ensures |ReportDraws(user, date, prediction, advice, inputs, show)| >= 16
    ensures ReportDraws(user, date, prediction, advice, inputs, show)[i].page == 0
  {
    var prefix := ReportPrefix(user, date, prediction, inputs, show);
    PrefixOnFirstPage(user, date, prediction, inputs, show);
    assert ReportDraws(user, date, prediction, advice, inputs, show)[i] == prefix[i];
  }

  /** When the step after the last advice line breaks the page, the final
      `showPage` closes the page after the one that line is on. */
  lemma LastStepBreaks(advice: string)
    requires Advance(AdviceStart(), |PyText.SplitLines(advice)| - 1, AdviceBottom).y - LineStep < AdviceBottom
    ensures PageCount(advice) - 1
         == Advance(AdviceStart(), |PyText.SplitLines(advice)| - 1, AdviceBottom).page + 1
  {
    var n := |PyText.SplitLines(advice)|;
    assert Advance(AdviceStart(), n, AdviceBottom)
        == NextLine(Advance(AdviceStart(), n - 1, AdviceBottom), AdviceBottom);
  }

  /** When the step after the last advice line breaks the page, the report's
      last page stays blank: every draw is on an earlier page. */
  lemma BlankLastPage(user: User, date: string, prediction: string, advice: string,
                      inputs: map<string, Json>, show: Json -> string, i: nat)
    requires Advance(AdviceStart(), |PyText.SplitLines(advice)| - 1, AdviceBottom).y - LineStep < AdviceBottom
    requires i < 16 + |PyText.SplitLines(advice)|
    ensures |ReportDraws(user, date, prediction, advice, inputs, show)| == 16 + |PyText.SplitLines(advice)|
    ensures ReportDraws(user, date, prediction, advice, inputs, show)[i].page < PageCount(advice) - 1
  {
    LastStepBreaks(advice);
    AdviceDrawAt(user, date, prediction, advice, inputs, show, 0);
    if i >= 16 {
      AdviceLineBeforeLastPage(user, date, prediction, advice, inputs, show, i - 16);
    } else {
      PrefixDrawAt(user, date, prediction, advice, inputs, show, i);
    }
  }

  /** Advice line `i` is on the page of the last advice line or an earlier
      one. */
  lemma AdviceLineBeforeLastPage(user: User, date: string, prediction: string, advice: string,
                                 inputs: map<string, Json>, show: Json -> string, i: nat)
    requires i < |PyText.SplitLines(advice)|
    ensures ReportDraws(user, date, prediction, advice, inputs, show)[16 + i].page
         <= Advance(AdviceStart(), |PyText.SplitLines(advice)| - 1, AdviceBottom).page
  {
    AdviceDrawAt(user, date, prediction, advice, inputs, show, i);
    PagesGrow(AdviceStart(), i, |PyText.SplitLines(advice)| - 1, AdviceBottom);
  }

  /** The ReportLab canvas as far as the layout goes: the current page, the
      log of draws and whether it was saved. */
  class Canvas {
    var page: nat
    var draws: seq<Draw>
    var saved: bool

    constructor ()
      ensures page == 0 && draws == [] && !saved
    {
      page := 0;
      draws := [];
      saved := false;
    }

    /** `drawString(x, y, text)` on the current page. */
    method DrawString(x: real, y: real, text: string)
      modifies this
      ensures draws == old(draws) + [Draw(page, x, y, text)]
      ensures page == old(page) && saved == old(saved)
    {
      draws := draws + [Draw(page, x, y, text)];
    }

    /** `showPage()`: closes the current page; later draws go on the next. */
    method ShowPage()
      modifies this
      ensures page == old(page) + 1
      ensures draws == old(draws) && saved == old(saved)
    {
      page := page + 1;
    }

    /** `save()`: finishes the document. */
    method Save()
      modifies this
      ensures saved
      ensures page == old(page) && draws == old(draws)
    {
      saved := true;
    }

    /** The body both drawing loops share: `drawString(70, y, text)`, then
        `y -= 18`, then `showPage()` and `y = height - 50` when `y` fell
        below `bottom`. */
    method DrawLine(y: real, text: string, bottom: real) returns (next: real)
      modifies this
      ensures draws == old(draws) + [Draw(old(page), TextIndent, y, text)]
      ensures Cursor(page, next) == NextLine(Cursor(old(page), y), bottom)
      ensures saved == old(saved)
    {
      DrawString(TextIndent, y, text);
      next := y - LineStep;
      if next < bottom {
        ShowPage();
        next := TopMargin;
      }
    }
  }

  /** The fixed lines at the top of the first page: title, name, e-mail,
      date, result heading, result and summary heading. */
  method DrawHeader(p: Canvas, user: User, date: string, prediction: string)
    requires p.page == 0 && p.draws == []
    modifies p
    ensures p.draws == HeaderDraws(user, date, prediction)
    ensures p.page == 0 && p.saved == old(p.saved)
  {
    p.DrawString(LeftMargin, PageHeight - 50.0, Title);
    p.DrawString(LeftMargin, PageHeight - 90.0, "Nom : " + user.fullName);
    p.DrawString(LeftMargin, PageHeight - 110.0, "Email : " + user.email);
    p.DrawString(LeftMargin, PageHeight - 130.0, "Date : " + date);
    p.DrawString(LeftMargin, PageHeight - 170.0, ResultHeading);
    p.DrawString(TextIndent, PageHeight - 190.0, prediction);
    p.DrawString(LeftMargin, PageHeight - 230.0, SummaryHeading);
  }

  /** The summary loop of `generate_prediction_pdf`: one line per entry,
      starting at height `y0` on the current page, breaking below 70 points. */
  method DrawSummary(p: Canvas, inputs: map<string, Json>, show: Json -> string, y0: real)
    returns (y: real)
    modifies p
    ensures p.draws == old(p.draws) + Column(SummaryTexts(inputs, show), Cursor(old(p.page), y0), SummaryBottom)
    ensures Cursor(p.page, y) == Advance(Cursor(old(p.page), y0), 8, SummaryBottom)
    ensures p.saved == old(p.saved)
  {
    ghost var start := Cursor(p.page, y0);
    ghost var before := p.draws;
    y := y0;
    var entries := SummaryEntries(inputs, show);
    ghost var texts := SummaryTexts(inputs, show);
    var i := 0;
    while i < |entries|
      invariant 0 <= i <= |entries|
      invariant p.draws == before + Column(texts[..i], start, SummaryBottom)
      invariant Cursor(p.page, y) == Advance(start, i, SummaryBottom)
      invariant p.saved == old(p.saved)
    {
      ColumnSnoc(texts[..i], texts[i], start, SummaryBottom);
      assert texts[..i + 1] == texts[..i] + [texts[i]];
      y := p.DrawLine(y, SummaryLine(entries[i]), SummaryBottom);
      i := i + 1;
    }
    assert texts[..i] == texts;
  }

  /** The advice loop of `generate_prediction_pdf`: each piece of
      `advice.split('\n')`, stripped, starting at height `y0` on the current
      page, breaking below 50 points. */
  method DrawAdvice(p: Canvas, advice: string, y0: real)
    returns (y: real)
    modifies p
    ensures p.draws == old(p.draws) + Column(AdviceTexts(advice), Cursor(old(p.page), y0), AdviceBottom)
    ensures Cursor(p.page, y) == Advance(Cursor(old(p.page), y0), |PyText.SplitLines(advice)|, AdviceBottom)
    ensures p.saved == old(p.saved)
  {
    ghost var start := Cursor(p.page, y0);
    ghost var before := p.draws;
    y := y0;
    var lines := PyText.SplitLines(advice);
    ghost var stripped := AdviceTexts(advice);
    var j := 0;
    while j < |lines|
      invariant 0 <= j <= |lines|
      invariant p.draws == before + Column(stripped[..j], start, AdviceBottom)
      invariant Cursor(p.page, y) == Advance(start, j, AdviceBottom)
      invariant p.saved == old(p.saved)
    {
      ColumnSnoc(stripped[..j], stripped[j], start, AdviceBottom);
      assert stripped[..j + 1] == stripped[..j] + [stripped[j]];
      y := p.DrawLine(y, PyText.Strip(lines[j]), AdviceBottom);
      j := j + 1;
    }
    assert stripped[..j] == stripped;
  }

  /** `generate_prediction_pdf`: the header, the summary loop, the advice
      heading 20 points below the cursor with no page check, the advice loop
      40 points below it, a last `showPage` and `save`. The formatted current
      date is the parameter `date`. */
  method GeneratePredictionPdf(user: User, prediction: string, advice: string,
                               inputs: map<string, Json>, date: string, show: Json -> string)
    returns (p: Canvas)
    ensures fresh(p)
    ensures p.draws == ReportDraws(user, date, prediction, advice, inputs, show)
    ensures p.page == PageCount(advice)
    ensures p.saved
  {
    p := new Canvas();
    DrawHeader(p, user, date, prediction);

    var y := DrawSummary(p, inputs, show, PageHeight - 250.0);
    p.DrawString(LeftMargin, y - 20.0, AdviceHeading);
    assert p.draws == ReportPrefix(user, date, prediction, inputs, show);
    y := y - 40.0;
    y := DrawAdvice(p, advice, y);

    p.ShowPage();
    p.Save();
  }
}

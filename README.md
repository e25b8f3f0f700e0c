# EduPredict prediction core, modelled in Dafny

EduPredict lets an authenticated student submit eight self-reported metrics
and get back three things: a binary "en difficulté" classification from a
trained model, a rule-based advisory in French, and later a PDF report of
that result. Each prediction is stored, and a dashboard counts the student's
predictions and lists them newest first. All of this logic sits in
`predictor/views.py`. This project models it in five pieces, one Dafny module
each, on top of two helper modules:

- `Records` (records.dfy): the submitted metrics (`InputRecord`), the label,
  the stored `Prediction` row, the user, and decoded JSON values with
  Python's truth value and `dict.get`.
- `PyText` (py_text.dfy): the Python string operations the views rely on:
  `"\n".join`, `str.split('\n')`, `str.strip()` and `str(int)`.
- `Advice` (advice.dfy): `get_advice`. There is one rule function per
  metric, each with its exact bucket boundaries, and the ordered line
  sequence they produce. The imperative `GetAdvice` appends those lines one
  by one and joins them with newlines, like the source.
- `Predict` (predict.dfy): `PredictView.post`. It builds the eight-feature
  vector, calls the classifier (a function parameter returning 0 or 1),
  derives the display string, appends exactly one row to the prediction
  table (a class holding a sequence), and returns the advice.
- `Dashboard` (dashboard.dfy): `DashboardStatsView.get`. It filters the rows
  by owner, sorts them newest first, counts them by label and builds the
  history list.
- `Report` (report.dfy): `generate_prediction_pdf`. The ReportLab canvas is a
  class that logs every `drawString` with its page. The two drawing loops are
  methods proved against a pure layout (`Column`, `Advance`) of the vertical
  cursor. That cursor moves down 18 points per line, breaks the page below 70
  points in the input summary and below 50 points in the advice, and restarts
  50 points below the top of an A4 page.
- `Download` (download.dfy): `DownloadReportView.post`. It checks the request
  fields, then renders the report and names the attachment.

Hours, percentages and features are exact `real`s, and the rating is an
`int`. The classifier, the clock, the formatted date and Python's `str()` of
JSON numbers and containers are all parameters.

Behaviour of the code worth knowing:
- The screen-time rule: any total other than exactly 0 that is at most 3 gets
  the "modéré" line. That includes a negative total, since nothing bounds the
  fields from below.
- Page breaks: the input summary breaks below 70 points and the advice below
  50. The "Conseils pratiques" heading is drawn with no page check.
- The download guard checks only that the prediction and advice values are
  truthy and that `inputs` is an object. It does not check that the inputs
  form a well-formed record. A truthy prediction or advice that is not a
  string passes the guard, and the renderer then raises an exception.

## Model

| member | source | states |
|---|---|---|
| `Records.Get` | predictor/views.py:223-225 | `d.get(key)` gives the stored value when the key is present and `None` otherwise |
| `Records.Truthy` | predictor/views.py:227 | a JSON value is false exactly when it is `None`, `False`, integer or float zero, the empty string, the empty list or the empty dict |
| `PyText.SplitLines` | predictor/views.py:207 | `split('\n')` gives one piece more than the text has newlines, and no piece holds a newline |
| `PyText.SplitJoin` | predictor/views.py:207 | splitting a `"\n".join` of newline-free lines gives back exactly those lines |
| `PyText.JoinSplit` | predictor/views.py:207 | joining the pieces of `split('\n')` with newlines gives back the original text |
| `PyText.StripSpec` | predictor/views.py:208 | `strip()` gives the slice of the line left after removing white space from both ends: only white space lies outside it, it neither starts nor ends with white space, and a line with no white space at its ends is unchanged |
| `PyText.NatString` | predictor/views.py:230 | `str(user.id)` is a non-empty decimal numeral, with no leading zero, whose value is the id |
| `Advice.TextShape` | predictor/views.py:37-81 | the two framing lines start with "Vous ", every other advisory line starts with "- ", and the first character tells them apart |
| `Advice.Opening` | predictor/views.py:36-39 | the "semblez en difficulté" opening exactly when the prediction is 1, the "n'êtes pas en difficulté" opening otherwise |
| `Advice.StudyTip` | predictor/views.py:41-46 | below 2 h gives "étudiez peu"; 2 to 4 h, both ends included, gives "modéré"; above 4 gives "beaucoup" |
| `Advice.ScreenTip` | predictor/views.py:48-54 | a total of exactly 0 gives "Aucun écran"; any other total up to 3 gives "modéré"; above 3 gives "élevé" |
| `Advice.SleepTip` | predictor/views.py:56-61 | below 6 h gives "insuffisant"; 6 to 8 h, both ends included, gives "correct"; above 8 gives "long" |
| `Advice.MentalTip` | predictor/views.py:63-68 | a rating of at most 3 gives "bas"; 4 to 6 gives "moyenne"; 7 and above gives "Très bonne" |
| `Advice.AttendanceTip` | predictor/views.py:70-73 | 90 % or more, 90 included, gives the positive line; anything below gives "moyenne ou faible" |
| `Advice.ExtracurricularTip` | predictor/views.py:78-81 | participation gives the encouragement line; no participation gives the suggestion to join an activity |
| `Advice.AdviceTips` | predictor/views.py:34-81 | 7 lines, or 8 with a part-time job, in the order opening, study, screen, sleep, mental, attendance, [part-time], extracurricular; the part-time line appears at index 6 only, and only with a job; the extracurricular line is last |
| `Advice.GetAdvice` | predictor/views.py:24-83 | the successive appends give exactly the newline-joined rule lines in that order |
| `Advice.LabelOnlyFramesOpening` | predictor/views.py:36-81 | the label changes only the opening line, and the screen line depends only on social + Netflix |
| `Advice.TextIsClean` | predictor/views.py:37-81 | no advisory line holds a newline or starts or ends with white space |
| `Advice.AdviceSplitsBack` | predictor/views.py:83 | the joined advisory splits back into exactly its lines |
| `Advice.AdviceLinesNeedNoStrip` | predictor/views.py:208 | `strip()` leaves every advisory line unchanged |
| `Advice.WorstCaseExample` | predictor/views.py:34-83 | study 1, screen 2+2, sleep 5, mental 2, attendance 60, a job and no activity, at risk: at-risk opening, low study, high screen, short sleep, low mental, poor attendance, part-time note, no activities |
| `Predict.FeatureVector` | predictor/views.py:94-103 | the feature vector has the eight features in the trained model's column order, the rating as a number and the two booleans as 1 or 0 |
| `Predict.FeatureVectorRoundTrip` | predictor/views.py:94-103 | the eight-feature vector in the model's order (booleans as 0/1) loses nothing: decoding it gives back the submission |
| `Predict.FromFeaturesInverse` | predictor/views.py:94-103 | every row that decodes is the vector of what it decodes to |
| `Predict.ResultText` | predictor/views.py:106 | the "Vous risquez d'être en difficulté" text exactly when the prediction is 1 |
| `Predict.ResultMatchesOpening` | predictor/views.py:106 | the display string and the advisory's opening give the same verdict for every label |
| `Predict.PredictionStore.Create` | predictor/views.py:108-112 | creating a prediction appends exactly one row, with the student, the metrics and the result |
| `Predict.Post` | predictor/views.py:89-125 | invalid data gives the error answer and stores nothing; valid data stores exactly one row, whose result is the raw label returned, and answers with the matching display string and advice |
| `Dashboard.OwnedBy` | predictor/views.py:132 | the filter keeps every row of the user, each as many times as stored, and no row of anyone else |
| `Dashboard.SortNewest` | predictor/views.py:132 | `order_by('-created_at')` is a permutation of the rows, newest first |
| `Dashboard.Count` | predictor/views.py:135-136 | a label count never exceeds the number of rows |
| `Dashboard.CountExtremes` | predictor/views.py:135-136 | a label count is 0 exactly when no row has that label, and equals the number of rows exactly when every row has it |
| `Dashboard.Entries` | predictor/views.py:138-144 | the history has one entry per row, in row order, each holding that row's time and label |
| `Dashboard.DashboardStats` | predictor/views.py:130-151 | `total` is the number of the user's rows and the history length; the two counts are the user's rows labelled 1 and 0; the history is newest first and has one entry per row |
| `Dashboard.CountSorted` | predictor/views.py:135-136 | ordering the rows does not change the count for a label |
| `Dashboard.EntriesSorted` | predictor/views.py:138-144 | the history of the ordered rows holds the same entries as the rows |
| `Dashboard.CountsAddUp` | predictor/views.py:134-136 | `difficulte + non_difficulte <= total`, with equality when every stored result is 0 or 1 |
| `Dashboard.OtherUsersRowIsInvisible` | predictor/views.py:132 | another student's new row changes nothing on this user's dashboard |
| `Dashboard.NewestRowComesFirst` | predictor/views.py:132-150 | a new row of the user, strictly newer than every stored row, heads the history and adds one to the total and to its label's count |
| `Report.NextLine` | predictor/views.py:196-199 | one loop step stays on the page or moves to the next one; it moves exactly when 18 points lower is below the margin; with a margin no higher than the top margin, the cursor never ends below the margin |
| `Report.Advance` | predictor/views.py:196-199 | after `n` steps the cursor is on its starting page or at most `n` pages later |
| `Report.PagesGrow` | predictor/views.py:207-212 | in a drawing loop the page never goes back and goes forward at most one page per line |
| `Report.AboveBottomAfterEachLine` | predictor/views.py:209-212 | after every step of a loop the cursor is at or above that loop's bottom margin |
| `Report.FitsIff` | predictor/views.py:207-212 | `n` lines stay on the first page exactly when `n` steps of 18 points stay above the margin, each line then 18 points below the last |
| `Report.ColumnStep` | predictor/views.py:207-212 | consecutive lines are 18 points apart on one page, or the next line is at the top of the next page exactly when 18 points lower is below the margin |
| `Report.HeaderLayout` | predictor/views.py:160-179 | the seven header lines are drawn top down on page one, between the top margin and the start of the summary, and only the prediction text is indented |
| `Report.Format` | predictor/views.py:185-195 | `str()` of a string is the string, of `None` is `None`, and of a boolean is `True` exactly when it is true, otherwise `False` |
| `Report.YesNo` | predictor/views.py:192-193 | the answer is "Oui" or "Non", and it is "Non" exactly for a falsy value |
| `Report.SummaryTable` | predictor/views.py:185-193 | the eight summary labels are distinct, so the dict keeps all eight entries; a missing metric prints `None`, a string metric prints as itself, and each boolean line says "Oui" exactly when its input is truthy |
| `Report.SummaryLineParts` | predictor/views.py:195 | a summary line is "- ", the label, " : ", then the value, each readable back from its place |
| `Report.SummaryFitsFirstPage` | predictor/views.py:181-204 | the eight summary lines never break the page: the summary ends 394 points below the top and the advice starts at 434 |
| `Report.ReportSections` | predictor/views.py:153-212 | the draws are the seven header lines, the eight summary lines one step apart on page one, the advice heading 414 points below the top of page one, then one draw per piece of `advice.split('\n')`, stripped, in order |
| `Report.AdviceDrawAt` | predictor/views.py:201-212 | draw `16 + i` of the report is advice line `i`, drawn where the cursor is after `i` advice lines |
| `Report.AdviceLinesPlacement` | predictor/views.py:207-212 | every advice line is at or above 50 points, and each break sends the next line to the top of a new page exactly when 18 points lower is below 50 |
| `Report.SinglePageIff` | predictor/views.py:201-214 | the report has one page exactly when the advice has at most 19 lines |
| `Report.PredictedAdviceFitsOnePage` | predictor/views.py:201-214 | the report of an advisory from `get_advice` has exactly one page |
| `Report.PrefixOnFirstPage` | predictor/views.py:160-204 | everything drawn before the advice loop is on the first page |
| `Report.PrefixDrawAt` | predictor/views.py:160-204 | each of the first 16 draws of the report is on the first page |
| `Report.BlankLastPage` | predictor/views.py:207-214 | when the step after the last advice line breaks the page, the final `showPage` leaves a last page with nothing on it |
| `Report.Canvas.DrawString` | predictor/views.py:195 | a draw is logged on the current page, after the earlier ones |
| `Report.Canvas.ShowPage` | predictor/views.py:198 | `showPage` moves to the next page and draws nothing |
| `Report.Canvas.Save` | predictor/views.py:215 | `save` finishes the document and draws nothing |
| `Report.Canvas.DrawLine` | predictor/views.py:195-199 | a loop step logs one draw at the cursor, then moves the cursor down a line or to the top of the next page |
| `Report.DrawHeader` | predictor/views.py:160-179 | the title, name, e-mail, date, result heading, result and summary heading are drawn on page one at their fixed heights |
| `Report.DrawSummary` | predictor/views.py:181-199 | the summary loop draws the eight labelled values in order along the cursor, breaking below 70 points |
| `Report.DrawAdvice` | predictor/views.py:205-212 | the advice loop draws each stripped piece of `advice.split('\n')` once, in order, along the cursor, breaking below 50 points |
| `Report.GeneratePredictionPdf` | predictor/views.py:153-217 | the canvas holds exactly the report's draws in order, its page count is one past the advice loop's last page, and it is saved |
| `Download.Accepts` | predictor/views.py:227 | the guard accepts exactly when neither the prediction nor the advice is falsy and the inputs are a JSON object; a missing prediction or advice is rejected |
| `Download.AcceptsStrings` | predictor/views.py:227-228 | for string fields the request is accepted exactly when the prediction and advice are non-empty and the inputs are an object; a missing field is always rejected |
| `Download.AttachmentName` | predictor/views.py:230 | the file name is `rapport_pred_`, the user id in decimal, then `.pdf` |
| `Download.Post` | predictor/views.py:222-231 | a request failing the guard gets the 400 message and no rendering; a passing request with string fields gets the full report under the user's file name; a passing non-string field ends in an exception |

## Left out

- Loading the trained model with joblib (predictor/views.py:18-22) is left out. Its failure is a start-up concern, and `model.predict` is the parameter `classify`, which answers 0 or 1.
- The serializer's field validation (predictor/serializers.py) is generated by the framework and has no visible logic. `Predict.Post` receives its outcome: the validated metrics or the per-field errors.
- `Dashboard.DashboardStats`: the view's four queries (the total, the two label counts and the history) are modelled as reads of one snapshot of the table. A prediction stored by a concurrent request between two of those queries is not modelled; in that case `total` could differ from the history length, and the counts could fail to add up to it, which `Dashboard.CountsAddUp` does not cover.
- Persistence is modelled as a table that always accepts the row. A database error in `Prediction.objects.create` is not modelled, and neither is the foreign-key cascade in predictor/models.py.
- `Dashboard.SortNewest`: rows with equal `created_at` come out in an order the database chooses. The model fixes one order (the later row first), and only "newest first" is claimed.
- Time values are left out. The creation time is an opaque `Timestamp`, and the history carries it unformatted; `strftime` in the history and `now()` in the report are left out. The report's date line receives its text as the parameter `date`.
- Python's `str()` of a JSON integer, float, list or object in the input summary is the parameter `show`. Integers and floats are distinct values, so `show` can print `7` and `7.0` differently, as Python does. `None`, `True`, `False` and strings are modelled as Python prints them.
- ReportLab fonts, colours, the `BytesIO` buffer, the PDF bytes and the `FileResponse` are left out. The report is the log of draws (page, x, y, text) and the page count.
- IEEE floating point is not modelled: hours, percentages and the feature vector are exact reals.
- accounts/*, the URL routing files and the DRF permission classes are authentication and routing plumbing. They are not part of this model; the authenticated user is a parameter.
- `get_advice` is only ever called with validated data, so every field is present. The exception it would raise on a missing field is not modelled.

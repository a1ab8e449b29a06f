/**
 * The plot state of the Dash viewer in dichroview_dash.py: `new_graph`,
 * `update_graph` and the dispatch of the `build_graph` callback.
 *
 * The Plotly figure is the record `Figure(xTitle, yTitle, xs, ys)`: the two
 * axis titles (which `px.scatter` sets to the data-frame column names) and the
 * points of the one scatter trace. Numbers are `real`; nothing is claimed
 * about floating-point rounding.
 */
module DichroviewDash {
  import opened Wrappers

  /** One entry of `hints["dimensions"]`: the field names of a dimension and its stream. */
  datatype Dimension = Dimension(fields: seq<string>, stream: string)

  datatype Hints = Hints(dimensions: seq<Dimension>, fields: seq<string>)

  /** The run-start document carried by a "new-run" message. */
  datatype StartDoc = StartDoc(
    uid: string,
    scanId: int,
    project: string,
    purpose: string,
    scanType: string,
    time: real,
    hints: Hints,
    normalizationSignals: Option<seq<string>>)

  /** The event document carried by an "add-data" message. */
  datatype EventDoc = EventDoc(time: real, data: map<string, real>)

  datatype Figure = Figure(xTitle: string, yTitle: string, xs: seq<real>, ys: seq<real>)

  /** The exceptions the callback can raise; every one leaves the displayed outputs as they were. */
  datatype PlotError =
    | PreventUpdate              // raised on purpose when nothing triggered the callback
    | IndexError                 // an empty `dimensions` or `fields` list in the hints
    | MissingField(name: string) // `msg["data"][name]` raised KeyError
    | ZeroDivision               // the normalization value is zero
    | NoFigure                   // `update_graph` before any figure was built
    | NoMessage                  // the triggering websocket has not delivered a message
    | UnboundFigure              // a trigger that is neither input leaves `fig` unassigned

  /** `timestamp` output: the POSIX time `posix` as text in America/Los_Angeles. */
  datatype Timestamp = LocalTime(posix: real)

  /** One output of the callback: `dash.no_update` or a new value. */
  datatype Update<T> = NoUpdate | Set(value: T)

  datatype GraphOutput = GraphOutput(
    figure: Figure,
    project: Update<string>,
    scanId: Update<int>,
    scanUid: Update<string>,
    timestamp: Update<Timestamp>,
    purpose: Update<string>,
    scanType: Update<string>)

  // ---------------------------------------------------------------------------
  // Splitting and joining the y-axis title
  // ---------------------------------------------------------------------------

  /** The position of the last '/' in `s`. */
  function LastSlash(s: string): (r: Option<nat>)
    ensures r.None? <==> '/' !in s
    ensures r.Some? ==> r.value < |s| && s[r.value] == '/' && '/' !in s[r.value + 1..]
  {
    if s == [] then None
    else if s[|s| - 1] == '/' then Some(|s| - 1)
    else
      assert s == s[..|s| - 1] + [s[|s| - 1]];
      LastSlash(s[..|s| - 1])
  }

  /**
   * `title.rsplit('/', 1)`: the text before the last '/' and the text after
   * it, or the whole title and no suffix when it holds no '/'.
   */
  function SplitTitle(title: string): (r: (string, Option<string>))
    ensures r.1.None? ==> '/' !in title && r.0 == title
    ensures r.1.Some? ==> title == r.0 + "/" + r.1.value && '/' !in r.1.value
  {
    match LastSlash(title)
    case None => (title, None)
    case Some(i) =>
      assert title == title[..i] + "/" + title[i + 1..];
      (title[..i], Some(title[i + 1..]))
  }

  /** Splitting a title built as `raw + "/" + signal` gives back both parts, when the signal holds no '/'. */
  lemma SplitJoinRoundTrip(raw: string, signal: string)
    requires '/' !in signal
    ensures SplitTitle(raw + "/" + signal) == (raw, Some(signal))
  {
    var t := raw + "/" + signal;
    var i := LastSlash(t).value;
    assert t[|raw|] == '/';
    assert i == |raw|;
    assert t[..i] == raw;
    assert t[i + 1..] == signal;
  }

  /** A label with no '/' splits into itself and no signal. */
  lemma SplitPlainLabel(raw: string)
    requires '/' !in raw
    ensures SplitTitle(raw) == (raw, None)
  {
  }

  // ---------------------------------------------------------------------------
  // new_graph and update_graph
  // ---------------------------------------------------------------------------

  /** `msg.get("normalization_signals")` when it is a non-empty list: its first entry. */
  function Normalization(msg: StartDoc): Option<string>
  {
    match msg.normalizationSignals
    case Some(signals) => if |signals| > 0 then Some(signals[0]) else None
    case None => None
  }

  /**
   * `new_graph`: an empty scatter over `hints.dimensions[0][0][0]` against
   * `hints.fields[0]`, with `"/" + signal` appended to the y title when a
   * normalization signal is given.
   */
  function NewGraph(msg: StartDoc): (r: Result<Figure, PlotError>)
    ensures r.Ok? <==>
      |msg.hints.dimensions| > 0 && |msg.hints.dimensions[0].fields| > 0 && |msg.hints.fields| > 0
    ensures r.Err? ==> r.error == IndexError
    ensures r.Ok? ==>
      && r.value.xs == [] && r.value.ys == []
      && r.value.xTitle == msg.hints.dimensions[0].fields[0]
      && r.value.yTitle == (match Normalization(msg)
                            case Some(signal) => msg.hints.fields[0] + "/" + signal
                            case None => msg.hints.fields[0])
  {
    var hints := msg.hints;
    if |hints.dimensions| == 0 || |hints.dimensions[0].fields| == 0 || |hints.fields| == 0 then
      Err(IndexError)
    else
      var xLabel := hints.dimensions[0].fields[0];
      var yLabel := hints.fields[0];
      var fig := Figure(xLabel, yLabel, [], []);
      match Normalization(msg)
      case Some(signal) => Ok(fig.(yTitle := fig.yTitle + "/" + signal))
      case None => Ok(fig)
  }

  /** The signal `update_graph` divides by: the split-off suffix, unless it is empty. */
  function ActiveSignal(title: string): Option<string>
  {
    match SplitTitle(title).1
    case Some(signal) => if signal != "" then Some(signal) else None
    case None => None
  }

  /**
   * `update_graph`: read the raw y label and the signal back from the y
   * title, look the values up in the event's data, divide by the signal and
   * append one point. A missing key or a zero divisor raises before anything
   * is appended.
   */
  function UpdateGraph(msg: EventDoc, figure: Option<Figure>): (r: Result<Figure, PlotError>)
    ensures figure.None? ==> r == Err(NoFigure)
    ensures r.Ok? ==>
      && figure.Some?
      && r.value.xTitle == figure.value.xTitle
      && figure.value.xTitle in msg.data
      && r.value.xs == figure.value.xs + [msg.data[figure.value.xTitle]]
      && |r.value.ys| == |figure.value.ys| + 1
      && r.value.ys[..|figure.value.ys|] == figure.value.ys
  {
    match figure
    case None => Err(NoFigure)
    case Some(fig) =>
      var yLabel := SplitTitle(fig.yTitle).0;
      var signal := ActiveSignal(fig.yTitle);
      if fig.xTitle !in msg.data then Err(MissingField(fig.xTitle))
      else if yLabel !in msg.data then Err(MissingField(yLabel))
      else
        match signal
        case None =>
          Ok(Figure(fig.xTitle, yLabel, fig.xs + [msg.data[fig.xTitle]], fig.ys + [msg.data[yLabel]]))
        case Some(y0Label) =>
          if y0Label !in msg.data then Err(MissingField(y0Label))
          else if msg.data[y0Label] == 0.0 then Err(ZeroDivision)
          else
            var y := msg.data[yLabel] / msg.data[y0Label];
            Ok(Figure(fig.xTitle, yLabel + "/" + y0Label, fig.xs + [msg.data[fig.xTitle]], fig.ys + [y]))
  }

  /** The appended y is the raw value, divided by the signal's value when a signal is active. */
  lemma UpdateGraphPoint(msg: EventDoc, fig: Figure)
    requires UpdateGraph(msg, Some(fig)).Ok?
    ensures var r := UpdateGraph(msg, Some(fig)).value;
      var raw := SplitTitle(fig.yTitle).0;
      && raw in msg.data
      && match ActiveSignal(fig.yTitle)
         case None => r.ys[|fig.ys|] == msg.data[raw]
         case Some(signal) =>
           && signal in msg.data && msg.data[signal] != 0.0
           && r.ys[|fig.ys|] * msg.data[signal] == msg.data[raw]
  {
  }

  /**
   * `update_graph` raises exactly when the x field, the raw y field or the
   * active signal is missing from the data, or the signal's value is zero.
   */
  lemma UpdateGraphFails(msg: EventDoc, fig: Figure)
    ensures var raw := SplitTitle(fig.yTitle).0;
      var sig := ActiveSignal(fig.yTitle);
      UpdateGraph(msg, Some(fig)).Err? <==>
        || fig.xTitle !in msg.data
        || raw !in msg.data
        || (sig.Some? && (sig.value !in msg.data || msg.data[sig.value] == 0.0))
  {
  }

  /** With a non-empty signal the rebuilt y title equals the old one, so normalization survives every update. */
  lemma UpdateGraphKeepsTitle(msg: EventDoc, fig: Figure)
    requires UpdateGraph(msg, Some(fig)).Ok?
    requires ActiveSignal(fig.yTitle).Some?
    ensures UpdateGraph(msg, Some(fig)).value.yTitle == fig.yTitle
  {
  }

  /**
   * The title `new_graph` writes is read back by `update_graph` as the raw
   * y field and the signal, provided neither label holds a '/'.
   */
  lemma NewGraphTitleRoundTrip(msg: StartDoc)
    requires NewGraph(msg).Ok?
    requires '/' !in msg.hints.fields[0]
    requires Normalization(msg).Some? ==> '/' !in Normalization(msg).value
    ensures SplitTitle(NewGraph(msg).value.yTitle).0 == msg.hints.fields[0]
    ensures ActiveSignal(NewGraph(msg).value.yTitle) ==
      (match Normalization(msg)
       case Some(signal) => if signal != "" then Some(signal) else None
       case None => None)
  {
    match Normalization(msg)
    case Some(signal) => SplitJoinRoundTrip(msg.hints.fields[0], signal);
    case None => SplitPlainLabel(msg.hints.fields[0]);
  }

  /**
   * A y field whose name holds '/' and no normalization: `update_graph` reads
   * the text before the last '/' as the y field and the text after it as a
   * signal, and divides by it.
   */
  lemma SlashInFieldReadAsSignal(doc: StartDoc, a: string, b: string, ev: EventDoc)
    requires NewGraph(doc).Ok?
    requires doc.hints.fields[0] == a + "/" + b && Normalization(doc) == None
    requires '/' !in b && b != ""
    requires UpdateGraph(ev, Some(NewGraph(doc).value)).Ok?
    ensures a in ev.data && b in ev.data && ev.data[b] != 0.0
    ensures UpdateGraph(ev, Some(NewGraph(doc).value)).value.ys == [ev.data[a] / ev.data[b]]
  {
    SplitJoinRoundTrip(a, b);
  }

  // ---------------------------------------------------------------------------
  // build_graph
  // ---------------------------------------------------------------------------

  /** `prop_id.split('.')[0]`: the text before the first '.'. */
  function TriggerId(propId: string): (r: string)
    ensures '.' !in r
    ensures |r| <= |propId| && r == propId[..|r|]
    ensures |r| < |propId| ==> propId[|r|] == '.'
  {
    if propId == [] || propId[0] == '.' then []
    else [propId[0]] + TriggerId(propId[1..])
  }

  /** The component id comes back out of `id + "." + property`. */
  lemma {:induction false} TriggerIdOfProp(id: string, property: string)
    requires '.' !in id
    ensures TriggerId(id + "." + property) == id
  {
    if id != [] {
      assert (id + "." + property)[1..] == id[1..] + "." + property;
      TriggerIdOfProp(id[1..], property);
    }
  }

  /**
   * `build_graph`: no trigger raises PreventUpdate; otherwise dispatch on the
   * id of the first trigger. "new-run" builds a fresh figure and sets every
   * header; "add-data" appends a point and sets only the timestamp.
   */
  function BuildGraph(triggered: seq<string>, newRun: Option<StartDoc>, addData: Option<EventDoc>,
                      figure: Option<Figure>): (r: Result<GraphOutput, PlotError>)
    ensures triggered == [] ==> r == Err(PreventUpdate)
    ensures r.Ok? ==> triggered != [] && TriggerId(triggered[0]) in {"new-run", "add-data"}
  {
    if triggered == [] then Err(PreventUpdate)
    else
      var msgId := TriggerId(triggered[0]);
      if msgId == "new-run" then
        match newRun
        case None => Err(NoMessage)
        case Some(msg) =>
          match NewGraph(msg)
          case Err(e) => Err(e)
          case Ok(fig) =>
            Ok(GraphOutput(fig, Set(msg.project), Set(msg.scanId), Set(msg.uid),
                           Set(LocalTime(msg.time)), Set(msg.purpose), Set("[" + msg.scanType + "]")))
      else if msgId == "add-data" then
        match addData
        case None => Err(NoMessage)
        case Some(msg) =>
          match UpdateGraph(msg, figure)
          case Err(e) => Err(e)
          case Ok(fig) =>
            Ok(GraphOutput(fig, NoUpdate, NoUpdate, NoUpdate, Set(LocalTime(msg.time)), NoUpdate, NoUpdate))
      else
        Err(UnboundFigure)
  }

  /** A "new-run" trigger resets the series and sets every header field, the scan type in brackets. */
  lemma BuildGraphNewRun(property: string, rest: seq<string>, msg: StartDoc, addData: Option<EventDoc>,
                         figure: Option<Figure>)
    requires NewGraph(msg).Ok?
    ensures var r := BuildGraph(["new-run" + "." + property] + rest, Some(msg), addData, figure);
      && r.Ok?
      && r.value.figure.xs == [] && r.value.figure.ys == []
      && r.value.project == Set(msg.project)
      && r.value.scanId == Set(msg.scanId)
      && r.value.scanUid == Set(msg.uid)
      && r.value.timestamp == Set(LocalTime(msg.time))
      && r.value.purpose == Set(msg.purpose)
      && r.value.scanType == Set("[" + msg.scanType + "]")
  {
    assert (["new-run" + "." + property] + rest)[0] == "new-run" + "." + property;
    TriggerIdOfProp("new-run", property);
  }

  /** An "add-data" trigger updates the figure and the timestamp and leaves every other header alone. */
  lemma BuildGraphAddData(property: string, rest: seq<string>, newRun: Option<StartDoc>, msg: EventDoc,
                          figure: Option<Figure>)
    ensures var r := BuildGraph(["add-data" + "." + property] + rest, newRun, Some(msg), figure);
      && (r.Ok? <==> UpdateGraph(msg, figure).Ok?)
      && (r.Err? ==> r.error == UpdateGraph(msg, figure).error)
      && (r.Ok? ==>
            && r.value.figure == UpdateGraph(msg, figure).value
            && r.value.timestamp == Set(LocalTime(msg.time))
            && r.value.project == NoUpdate && r.value.scanId == NoUpdate && r.value.scanUid == NoUpdate
            && r.value.purpose == NoUpdate && r.value.scanType == NoUpdate)
  {
    assert (["add-data" + "." + property] + rest)[0] == "add-data" + "." + property;
    TriggerIdOfProp("add-data", property);
  }

  // ---------------------------------------------------------------------------
  // The viewer over a stream of messages
  // ---------------------------------------------------------------------------

  /** A message on one of the two websockets. */
  datatype Message = NewRun(start: StartDoc) | AddData(event: EventDoc)

  /** One callback run: the figure it returns, or the old figure when the callback raised. */
  function Step(figure: Option<Figure>, m: Message): Option<Figure>
  {
    var out := match m
      case NewRun(doc) => BuildGraph(["new-run" + "." + "message"], Some(doc), None, figure)
      case AddData(ev) => BuildGraph(["add-data" + "." + "message"], None, Some(ev), figure);
    if out.Ok? then Some(out.value.figure) else figure
  }

  /** The figure after the callback has run for each message in turn. */
  function Replay(figure: Option<Figure>, ms: seq<Message>): Option<Figure>
    decreases |ms|
  {
    if ms == [] then figure else Replay(Step(figure, ms[0]), ms[1..])
  }

  predicate Aligned(figure: Option<Figure>)
  {
    figure.Some? ==> |figure.value.xs| == |figure.value.ys|
  }

  /** A "new-run" message that the callback accepts replaces the figure by an empty one; otherwise nothing changes. */
  lemma StepNewRun(figure: Option<Figure>, doc: StartDoc)
    ensures Step(figure, NewRun(doc)) == (if NewGraph(doc).Ok? then Some(NewGraph(doc).value) else figure)
    ensures NewGraph(doc).Ok? ==> Step(figure, NewRun(doc)).value.xs == [] && Step(figure, NewRun(doc)).value.ys == []
  {
    TriggerIdOfProp("new-run", "message");
  }

  /** An "add-data" message shows the updated figure, or leaves the figure alone when `update_graph` raises. */
  lemma StepAddData(figure: Option<Figure>, ev: EventDoc)
    ensures Step(figure, AddData(ev)) == (if UpdateGraph(ev, figure).Ok? then Some(UpdateGraph(ev, figure).value) else figure)
  {
    BuildGraphAddData("message", [], None, ev, figure);
  }

  lemma StepAligned(figure: Option<Figure>, m: Message)
    requires Aligned(figure)
    ensures Aligned(Step(figure, m))
  {
    match m
    case NewRun(doc) => StepNewRun(figure, doc);
    case AddData(ev) => StepAddData(figure, ev);
  }

  /** Every figure the viewer ever shows has as many x values as y values. */
  lemma {:induction false} ReplayAligned(figure: Option<Figure>, ms: seq<Message>)
    requires Aligned(figure)
    ensures Aligned(Replay(figure, ms))
    decreases |ms|
  {
    if ms != [] {
      StepAligned(figure, ms[0]);
      ReplayAligned(Step(figure, ms[0]), ms[1..]);
    }
  }

  function IsAddData(m: Message): bool { m.AddData? }

  /** Data messages only ever add points: earlier points and the x title stay as they were. */
  lemma {:induction false} ReplayKeepsPoints(fig: Figure, ms: seq<Message>)
    requires forall i :: 0 <= i < |ms| ==> IsAddData(ms[i])
    ensures Replay(Some(fig), ms).Some?
    ensures Replay(Some(fig), ms).value.xTitle == fig.xTitle
    ensures |fig.xs| <= |Replay(Some(fig), ms).value.xs|
    ensures |fig.ys| <= |Replay(Some(fig), ms).value.ys|
    ensures Replay(Some(fig), ms).value.xs[..|fig.xs|] == fig.xs
    ensures Replay(Some(fig), ms).value.ys[..|fig.ys|] == fig.ys
    decreases |ms|
  {
    if ms != [] {
      assert IsAddData(ms[0]);
      StepAddData(Some(fig), ms[0].event);
      var next := Step(Some(fig), ms[0]).value;
      assert forall i :: 0 <= i < |ms[1..]| ==> IsAddData(ms[1..][i]);
      ReplayKeepsPoints(next, ms[1..]);
      var last := Replay(Some(next), ms[1..]).value;
      assert last.xs[..|fig.xs|] == last.xs[..|next.xs|][..|fig.xs|];
      assert last.ys[..|fig.ys|] == last.ys[..|next.ys|][..|fig.ys|];
    }
  }

  /**
   * A run-start document over x against y normalized by n, then one event:
   * the figure shows the single point (x value, y value / n value). For
   * instance "energy" against "intensity" normalized by "io" with the data
   * 700, 50 and 10 shows the point (700, 5).
   */
  lemma NormalizedRunScenario(start: StartDoc, ev: EventDoc, x: string, y: string, n: string)
    requires start.hints.dimensions == [Dimension([x], "primary")] && start.hints.fields == [y]
    requires start.normalizationSignals == Some([n]) && n != "" && '/' !in n
    requires ev.data == map[x := 700.0, y := 50.0, n := 10.0] && x != y && x != n && y != n
    ensures Replay(None, [NewRun(start), AddData(ev)]) == Some(Figure(x, y + "/" + n, [700.0], [5.0]))
  {
    StepNewRun(None, start);
    var fig := Figure(x, y + "/" + n, [], []);
    assert Step(None, NewRun(start)) == Some(fig);
    SplitJoinRoundTrip(y, n);
    assert ActiveSignal(fig.yTitle) == Some(n);
    assert SplitTitle(fig.yTitle).0 == y;
    assert ev.data[x] == 700.0 && ev.data[y] == 50.0 && ev.data[n] == 10.0;
    UpdateGraphFails(ev, fig);
    var upd := UpdateGraph(ev, Some(fig));
    UpdateGraphPoint(ev, fig);
    UpdateGraphKeepsTitle(ev, fig);
    assert upd.value.ys[0] * 10.0 == 50.0;
    assert upd.value == Figure(x, y + "/" + n, [700.0], [5.0]);
    StepAddData(Some(fig), ev);
    var ms := [NewRun(start), AddData(ev)];
    assert ms[1..] == [AddData(ev)];
    assert Replay(None, ms) == Replay(Some(fig), [AddData(ev)]);
    assert Replay(Some(fig), [AddData(ev)]) == Replay(Some(upd.value), []);
  }
}

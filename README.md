# dichroview: live-plot broadcast and plot state, in Dafny

dichroview streams the documents of a bluesky run (a run-start document, then
event documents holding data points) from a producer to live viewers. Three
pieces of its logic are modelled here and proved about.

- **Notifier** (`dichroview.py`, module `Dichroview`). Each channel has a
  `Notifier`: a list of subscriber websockets. `connect` appends one.
  `remove` deletes one with Python's `list.remove`. `_notify` (reached through
  `push`) pops every websocket from the end, sends it the message, and
  rebuilds the list from the websockets it served. The model is the class
  `Notifier<C, M>`. `connections` is the list, and `log` holds every completed
  send. `Inbox(log, c)` is what subscriber `c` has received. A send that
  raises is modelled by the parameter `broken`: sends to those connections
  raise.
- **Plot reducer** (`dichroview_dash.py`, module `DichroviewDash`). `new_graph`
  builds an empty scatter from a run-start document's hints. When a
  normalization signal is given, it appends `"/" + signal` to the y-axis
  title. `update_graph` splits the y title at its last `/` to get back the
  raw y field and the signal. It then appends one point. `build_graph` is the
  Dash callback: it dispatches on the id of the triggering websocket and fills
  the header fields. The Plotly figure is the record
  `Figure(xTitle, yTitle, xs, ys)`. `Step` and `Replay` run the callback over a
  stream of messages. A callback that raises leaves the figure as it was.
- **Producer helpers** (`newest_run.py`, module `NewestRun`).
  - `is_subrange_of` compares two 2-element energy ranges, whatever the order
    of each range's endpoints.
  - `get_pre_edge` looks a range up in the nested `pre_edges` table.
  - `array_to_str` turns lists and arrays into text.
  - `ApiDelayedCallback.event` explodes an event whose first data value is a
    list into one event per index of that list; the other values only need to
    be indexable (a string gives one character per event). The events are numbered by a counter that
    persists across calls.

`wrappers.dfy` holds `Option`, `Result` and `Outcome`. An `Err` or `Fail`
stands for an exception the Python code raises.

One might expect `remove` of an absent connection to be a no-op, and a
failing send to evict that connection while delivery goes on to the others.
The code does neither. `list.remove` raises `ValueError`. A send that raises
escapes `_notify`: the connections already served and the failing one are
dropped, and the ones not yet popped stay in the list. The exception also
escapes the notification generator behind `push` and finishes it, so every
later `push` on that channel raises `StopAsyncIteration` and reaches nobody.
The model follows the code (`Notifier.Remove`, `NotifyFailureDropsServed`,
`Notifier.Push`). The signal a run is normalized by is not a field of its
own: the code encodes it in the y title, and so does the model.
`SlashInFieldReadAsSignal` shows what that encoding does to a y field whose
name contains `/`.

## Model

| member | source | states |
|---|---|---|
| Dichroview.Notifier.constructor | dichroview.py:44-46 | a new notifier has no connections, has sent nothing, and its notification generator is live |
| Dichroview.Notifier.Connect | dichroview.py:57-59 | the websocket is appended at the end; every existing entry keeps its position; nothing is sent |
| Dichroview.Notifier.Remove | dichroview.py:62-63 | a present websocket loses its first occurrence; an absent one raises ValueError and the list is unchanged |
| Dichroview.Notifier.Notify | dichroview.py:66-74 | the new list, the sends made and the raised failure are those of `NotifyRound` on the old list: pop, send and collect; on success the list is rebuilt from the connections served |
| Dichroview.Notifier.Push | dichroview.py:48-55 | on a live generator, `push` hands the message unchanged to one `_notify` and has its effect; a send that raises finishes the generator, and on a finished generator `push` raises `StopAsyncIteration`, sends nothing and leaves the list as it is |
| Dichroview.RemoveFirstSplices | dichroview.py:63 | `list.remove` splices out exactly the first occurrence; entries before and after keep their order |
| Dichroview.RemoveFirstMultiset | dichroview.py:63 | removal drops one occurrence and keeps every other connection as often as before |
| Dichroview.LiveSuffix | dichroview.py:68-72 | the connections served before a failure are the end of the list back to the last connection whose send raises |
| Dichroview.NotifyEmptyRegistry | dichroview.py:67-74 | on an empty registry nothing is sent and the list stays empty |
| Dichroview.NotifyDeliversOnce | dichroview.py:66-73 | with no failing send, each connection gets the message once per registration, and a connection not registered gets nothing |
| Dichroview.NotifyReversesRegistry | dichroview.py:67-74 | with no failing send, the list keeps the same connections, equally often, in reversed order |
| Dichroview.ReversedInvolutive | dichroview.py:71-74 | reversing twice restores the order, so two notifications in a row restore the list |
| Dichroview.NotifyFailureDropsServed | dichroview.py:71-74 | when a send raises, the failing connection is one that raises; the list keeps only the entries not yet popped; those and the failing one and the served ones (reversed) make up the old list |
| Dichroview.SequentialPushesInOrder | dichroview.py:48-55 | two pushes in a row reach every subscriber in push order, and the list is back in its first order |
| Dichroview.InboxOfDeliveries | dichroview.py:71-73 | a message sent to a list of connections reaches each as often as it occurs in the list |
| DichroviewDash.LastSlash | dichroview_dash.py:152 | finds a '/' with no '/' after it, and none exactly when the text has no '/' |
| DichroviewDash.SplitTitle | dichroview_dash.py:152-157 | `rsplit('/', 1)`: the title is prefix + "/" + suffix with no '/' in the suffix, or the whole title with no suffix when it has no '/' |
| DichroviewDash.SplitJoinRoundTrip | dichroview_dash.py:136-155 | splitting `y + "/" + n` gives back exactly `(y, n)` when `n` has no '/' |
| DichroviewDash.NewGraph | dichroview_dash.py:125-141 | empty series; x title `hints.dimensions[0][0][0]`, y title `hints.fields[0]` with "/" + signal appended iff `normalization_signals` is present and non-empty; an empty hint list raises IndexError |
| DichroviewDash.NewGraphTitleRoundTrip | dichroview_dash.py:134-157 | the title new_graph writes is read back by update_graph as the raw y field and the same signal, when neither contains '/' |
| DichroviewDash.UpdateGraph | dichroview_dash.py:144-170 | with no figure it fails; on success the x title is kept, `data[x]` is appended to xs, and exactly one y is appended with the earlier ys kept |
| DichroviewDash.UpdateGraphPoint | dichroview_dash.py:160-163 | the appended y is `data[raw]`, or `data[raw] / data[signal]` with a non-zero divisor when a signal is active |
| DichroviewDash.UpdateGraphFails | dichroview_dash.py:160-163 | update_graph raises exactly when the x field, the raw y field or the active signal is missing, or the signal's value is zero |
| DichroviewDash.UpdateGraphKeepsTitle | dichroview_dash.py:161-164 | with a non-empty signal the rebuilt y title equals the old one, so normalization survives every update |
| DichroviewDash.SlashInFieldReadAsSignal | dichroview_dash.py:152-163 | a y field named `a/b` with no normalization is read as field `a` divided by field `b` |
| DichroviewDash.TriggerId | dichroview_dash.py:98 | `prop_id.split('.')[0]`: the longest prefix without '.', ending at the first '.' |
| DichroviewDash.TriggerIdOfProp | dichroview_dash.py:98 | the id comes back out of `id + "." + property` when the id has no '.' |
| DichroviewDash.BuildGraph | dichroview_dash.py:68-122 | no trigger raises PreventUpdate; a success needs a first trigger whose id is "new-run" or "add-data" |
| DichroviewDash.BuildGraphNewRun | dichroview_dash.py:100-112 | a "new-run" trigger resets the series and sets every header field, with the scan type as "[" + scan_type + "]" |
| DichroviewDash.BuildGraphAddData | dichroview_dash.py:113-120 | an "add-data" trigger succeeds iff update_graph does, shows its figure, sets the timestamp and leaves every other header as no_update |
| DichroviewDash.StepNewRun | dichroview_dash.py:100-105 | an accepted run-start replaces the figure by an empty one; a rejected one leaves the figure |
| DichroviewDash.StepAddData | dichroview_dash.py:113-118 | an event shows the updated figure, or leaves the figure when update_graph raises |
| DichroviewDash.StepAligned | dichroview_dash.py:146-166 | one callback keeps as many x values as y values |
| DichroviewDash.ReplayAligned | dichroview_dash.py:146-166 | over any message stream, every figure shown has as many x values as y values |
| DichroviewDash.ReplayKeepsPoints | dichroview_dash.py:146-166 | data messages only add points: the x title and all earlier points are kept |
| DichroviewDash.NormalizedRunScenario | dichroview_dash.py:125-170 | a run over x against y normalized by n, then the data (700, 50, 10), shows the single point (700, 5) under the title "y/n" |
| NewestRun.ArrayToStr | newest_run.py:59-63 | lists and arrays become their `str` text; every other value is returned unchanged; the result is never a list or array |
| NewestRun.ArrayToStrIdempotent | newest_run.py:59-63 | converting twice is converting once |
| NewestRun.Sort2 | newest_run.py:91-94 | the sorted copy holds the same two values, smaller first |
| NewestRun.IsSubrangeOf | newest_run.py:85-99 | true iff every value between the subrange's endpoints lies between the full range's endpoints |
| NewestRun.IsSubrangeOfOrderFree | newest_run.py:91-99 | swapping the endpoints of either range does not change the answer |
| NewestRun.IsSubrangeOfReflexive | newest_run.py:96-99 | every range is a subrange of itself |
| NewestRun.IsSubrangeOfTransitive | newest_run.py:96-99 | a subrange of a subrange is a subrange |
| NewestRun.GetPreEdge | newest_run.py:101-115 | `[None, None]` exactly when the name is absent or maps to an empty entry |
| NewestRun.GetPreEdgeChoosesRange | newest_run.py:109-115 | on a well-formed element: the signal's own range when the signal has an entry, the default range otherwise (also with no signal); a signal named "energy" raises TypeError |
| NewestRun.PreEdgesWellFormed | newest_run.py:65-84 | every element of the `pre_edges` table has a default range and signal tables holding a range |
| NewestRun.PreEdgeExamples | newest_run.py:65-115 | ("Fe", "LY SCVM") gives [701.5, 703.5]; ("Co", no signal) gives [771.5, 773.5]; an unknown element gives [None, None] |
| NewestRun.DataAt | newest_run.py:168 | `{k: v[i]}` keeps the keys in order and takes item i of each value; it raises iff some value cannot be indexed at i |
| NewestRun.FirstFailure | newest_run.py:160-168 | the first index whose data cannot be built, or the length when every index can |
| NewestRun.ExplodeSplits | newest_run.py:156-170 | a list of length n as the first value, indexable in every value, gives exactly n events; event i has number first + i, the copied keys without uid and seq_num, and data `{k: v[i]}` |
| NewestRun.ExplodeIgnoresNonList | newest_run.py:157-158 | a first value that is not a list posts nothing and draws no number |
| NewestRun.ExplodeNumbering | newest_run.py:155-166 | posted events carry consecutive numbers from the counter; without an error every number drawn is posted |
| NewestRun.ExplodeKeepsNumbering | newest_run.py:152-166 | after any call the posted numbers are still increasing and below the counter, and still 1, 2, 3, ... when the call raises nothing |
| NewestRun.DelayedCallback.constructor | newest_run.py:152-155 | the counter starts at 1 with nothing posted |
| NewestRun.DelayedCallback.Event | newest_run.py:156-170 | posts the events of `Explode` and advances the counter by the numbers drawn; numbers stay increasing across calls, and stay 1, 2, 3, ... while no call fails |
| NewestRun.DelayedCallback.PostEach | newest_run.py:159-170 | the loop over the indices of a list-valued first value posts the events of `Explode` in order, drawing one number per index tried and stopping at the first index that raises |

## Left out

- The FastAPI routes, the websocket accept, receive and echo loops, uvicorn and the Dash/Flask mounting (dichroview.py:35-41, 81-142) are network I/O and framework plumbing. Only their effect on the registry is modelled: `Connect` when a websocket opens and `Remove` when it disconnects.
- The async generator behind `push` (dichroview.py:46-51) is modelled only by whether it has finished (`Notifier.exhausted`); its priming at startup (dichroview.py:128-132) is taken as done, so the `TypeError` of an `asend` to an unprimed generator is not modelled.
- A disconnect handled while `_notify` is suspended in a send (dichroview.py:69-70) is concurrency. The model is sequential.
- Which sends fail is an input (`broken`), fixed for one call. A send that fails after delivering is not modelled.
- Dichroview.Notifier.Connect: `websocket.accept()` may raise before the append. The model always appends.
- Figures are built with Plotly and pandas (dichroview_dash.py:130-133, 167-169). A figure is a record, and `px.scatter` is taken to set the axis titles to the column names.
- Timestamps are formatted with pytz and strftime (dichroview_dash.py:109-110, 119-120; dichroview.py:111-113). The header timestamp is the token `LocalTime(t)` for the POSIX time `t`.
- Numbers are `real`. Floating-point rounding of the normalization division and of the range comparisons is not modelled, and neither are NaN and infinities.
- Documents are typed records. A missing top-level key such as `hints`, `project` or `time` (a KeyError) and the JSON decoding of websocket messages are not modelled. Lookups in an event's `data` are modelled with their KeyError.
- DichroviewDash.BuildGraph: `ctx.triggered` is the list of triggering property ids. The callback's inputs are the last message on each websocket, as `Option`s.
- NewestRun.IsSubrangeOf: ranges of two elements only, as the function's documentation asks. The function works on copies, so its arguments are unchanged; with value semantics the model states this by construction.
- NewestRun.ArrayToStr: Python's `str` of a list or array is the parameter `str`, not a formatter of its own.
- `main()`, the catalog search and replay, and the unreachable code after `return(0)` (newest_run.py:177-251) are external catalog I/O.
- The HTTP posts of `ApiCallback.start` and `ApiCallback.event` (newest_run.py:121-142) are not modelled. `ApiDelayedCallback.event`'s posts are the appends to `posted` and are assumed to succeed. A failed post (`raise_for_status`) is not modelled.
- `sleep` is not modelled. `uuid.uuid4()` is not modelled either: a posted event's "uid" is fresh and its value is left open.

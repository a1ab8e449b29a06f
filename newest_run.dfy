/**
 * The data helpers of newest_run.py: `array_to_str`, `is_subrange_of`, the
 * `pre_edges` table with `get_pre_edge`, and the splitting of an array-valued
 * event document into scalar events by `ApiDelayedCallback.event`.
 */
module NewestRun {
  import opened Wrappers

  /** A value in a document: a number, a string, a Python list or a numpy array. */
  datatype Value =
    | Number(x: real)
    | Text(s: string)
    | List(items: seq<Value>)
    | Array(items: seq<Value>)

  // ---------------------------------------------------------------------------
  // array_to_str
  // ---------------------------------------------------------------------------

  /**
   * `array_to_str`: a list or an array becomes its string form `str(value)`
   * (Python's `str`, passed in as `str`); every other value is returned as it is.
   */
  function ArrayToStr(value: Value, str: Value -> string): (r: Value)
    ensures !r.List? && !r.Array?
    ensures !value.List? && !value.Array? ==> r == value
    ensures value.List? || value.Array? ==> r == Text(str(value))
  {
    if value.List? || value.Array? then Text(str(value)) else value
  }

  /** Converting twice changes nothing more than converting once. */
  lemma ArrayToStrIdempotent(value: Value, str: Value -> string)
    ensures ArrayToStr(ArrayToStr(value, str), str) == ArrayToStr(value, str)
  {
  }

  // ---------------------------------------------------------------------------
  // is_subrange_of
  // ---------------------------------------------------------------------------

  /** `sorted(r)` for a two-element list: the same two values, smaller first. */
  function Sort2(r: seq<real>): (s: seq<real>)
    requires |r| == 2
    ensures |s| == 2 && s[0] <= s[1]
    ensures s == r || s == [r[1], r[0]]
  {
    if r[0] <= r[1] then r else [r[1], r[0]]
  }

  /** `v` lies between the two endpoints of `r`, whichever order they come in. */
  predicate Within(v: real, r: seq<real>)
    requires |r| == 2
  {
    (r[0] <= v <= r[1]) || (r[1] <= v <= r[0])
  }

  /**
   * `is_subrange_of`: sort copies of both ranges and compare the smaller
   * endpoints and the larger endpoints. The result says that every value in
   * the first range is in the second.
   */
  function IsSubrangeOf(subrange: seq<real>, fullRange: seq<real>): (r: bool)
    requires |subrange| == 2 && |fullRange| == 2
    ensures r <==> forall v :: Within(v, subrange) ==> Within(v, fullRange)
  {
    var sub := Sort2(subrange);
    var full := Sort2(fullRange);
    assert Within(sub[0], subrange) && Within(sub[1], subrange);
    sub[0] >= full[0] && sub[|sub| - 1] <= full[|full| - 1]
  }

  /** The order of the endpoints of either range does not matter. */
  lemma IsSubrangeOfOrderFree(subrange: seq<real>, fullRange: seq<real>)
    requires |subrange| == 2 && |fullRange| == 2
    ensures IsSubrangeOf(subrange, fullRange) == IsSubrangeOf([subrange[1], subrange[0]], fullRange)
    ensures IsSubrangeOf(subrange, fullRange) == IsSubrangeOf(subrange, [fullRange[1], fullRange[0]])
  {
    var s', f' := [subrange[1], subrange[0]], [fullRange[1], fullRange[0]];
    assert forall v :: Within(v, s') == Within(v, subrange);
    assert forall v :: Within(v, f') == Within(v, fullRange);
  }

  lemma IsSubrangeOfReflexive(r: seq<real>)
    requires |r| == 2
    ensures IsSubrangeOf(r, r)
  {
  }

  lemma IsSubrangeOfTransitive(a: seq<real>, b: seq<real>, c: seq<real>)
    requires |a| == 2 && |b| == 2 && |c| == 2
    requires IsSubrangeOf(a, b) && IsSubrangeOf(b, c)
    ensures IsSubrangeOf(a, c)
  {
  }

  // ---------------------------------------------------------------------------
  // pre_edges and get_pre_edge
  // ---------------------------------------------------------------------------

  /** A value of the nested `pre_edges` table: an energy range or a further table. */
  datatype Entry = Range(bounds: seq<real>) | Table(entries: map<string, Entry>)

  /** What `get_pre_edge` returns: `[None, None]`, or the entry found under "energy". */
  datatype PreEdge = NoRange | Energy(entry: Entry)

  /** The exceptions of the lookups in `get_pre_edge`. */
  datatype LookupError =
    | KeyError(key: string) // `pre_edge_range["energy"]` on a table without that key
    | TypeError             // `pre_edge_range["energy"]` on a list
    | AttributeError        // `ranges.get(...)` on a list

  /** The element table: signal-specific ranges and a default range per element. */
  const PreEdges: map<string, Entry> := map[
    "Fe" := Table(map[
      "EY SCVM" := Table(map["energy" := Range([697.5, 699.5])]),
      "LY SCVM" := Table(map["energy" := Range([701.5, 703.5])]),
      "energy" := Range([697.5, 699.5])]),
    "Co" := Table(map[
      "EY SCVM" := Table(map["energy" := Range([771.5, 773.5])]),
      "LY SCVM" := Table(map["energy" := Range([773.75, 775.5])]),
      "energy" := Range([771.5, 773.5])])]

  /** Python truthiness of an entry: a non-empty list or dict. */
  predicate Truthy(e: Entry)
  {
    match e
    case Range(bounds) => |bounds| > 0
    case Table(entries) => |entries| > 0
  }

  /**
   * `get_pre_edge(map, name, signal)`: no entry (or an empty one) gives
   * `[None, None]`; otherwise the signal's own table if it has one, else the
   * name's table, and from it the value under "energy".
   */
  function GetPreEdge(table: map<string, Entry>, name: string, signal: Option<string>): (r: Result<PreEdge, LookupError>)
    ensures r == Ok(NoRange) <==> name !in table || !Truthy(table[name])
    ensures r.Ok? && r.value.Energy? ==> name in table && table[name].Table?
  {
    if name !in table || !Truthy(table[name]) then Ok(NoRange)
    else
      match table[name]
      case Range(_) => Err(AttributeError)
      case Table(ranges) =>
        var chosen := if signal.Some? && signal.value in ranges then ranges[signal.value] else table[name];
        match chosen
        case Range(_) => Err(TypeError)
        case Table(fields) => if "energy" in fields then Ok(Energy(fields["energy"])) else Err(KeyError("energy"))
  }

  /** The shape of one element's entry in `pre_edges`: a default range and signal tables holding a range. */
  predicate WellFormedElement(e: Entry)
  {
    && e.Table?
    && "energy" in e.entries && e.entries["energy"].Range?
    && forall k :: k in e.entries && k != "energy" ==>
         e.entries[k].Table? && "energy" in e.entries[k].entries && e.entries[k].entries["energy"].Range?
  }

  lemma PreEdgesWellFormed()
    ensures forall name :: name in PreEdges ==> WellFormedElement(PreEdges[name])
  {
  }

  /**
   * On a well-formed element, `get_pre_edge` gives the signal's own range
   * when the signal has an entry and the element's default range otherwise
   * (also for no signal); a signal named "energy" picks the default list
   * itself, and indexing it by "energy" raises.
   */
  lemma GetPreEdgeChoosesRange(table: map<string, Entry>, name: string, signal: Option<string>)
    requires name in table && WellFormedElement(table[name])
    ensures var entries := table[name].entries;
      GetPreEdge(table, name, signal) ==
        if signal == Some("energy") then Err(TypeError)
        else if signal.Some? && signal.value in entries then Ok(Energy(entries[signal.value].entries["energy"]))
        else Ok(Energy(entries["energy"]))
  {
  }

  /** Iron measured in LY SCVM uses its own range; cobalt with no signal uses its default. */
  lemma PreEdgeExamples()
    ensures GetPreEdge(PreEdges, "Fe", Some("LY SCVM")) == Ok(Energy(Range([701.5, 703.5])))
    ensures GetPreEdge(PreEdges, "Co", None) == Ok(Energy(Range([771.5, 773.5])))
    ensures GetPreEdge(PreEdges, "Ni", None) == Ok(NoRange)
  {
    PreEdgesWellFormed();
    GetPreEdgeChoosesRange(PreEdges, "Fe", Some("LY SCVM"));
    GetPreEdgeChoosesRange(PreEdges, "Co", None);
  }

  // ---------------------------------------------------------------------------
  // ApiDelayedCallback.event
  // ---------------------------------------------------------------------------

  /** An event document: its keys other than "data", and the "data" entries in insertion order. */
  datatype EventDoc = EventDoc(meta: map<string, Value>, data: seq<(string, Value)>)

  /**
   * One posted event: the copied keys other than "uid" and "seq_num", its
   * "seq_num", and its "data". Its "uid" is a freshly drawn uuid4 string,
   * whose value the model leaves open.
   */
  datatype Posted = Posted(meta: map<string, Value>, seqNum: nat, data: seq<(string, Value)>)

  datatype EventError =
    | StopIteration    // the "data" mapping is empty
    | IndexError       // `value[i]` past the end of a list, array or string
    | NotSubscriptable // `value[i]` on a number raised TypeError

  /** `value[i]`. */
  function Index(v: Value, i: nat): Result<Value, EventError>
  {
    match v
    case List(items) => if i < |items| then Ok(items[i]) else Err(IndexError)
    case Array(items) => if i < |items| then Ok(items[i]) else Err(IndexError)
    case Text(s) => if i < |s| then Ok(Text([s[i]])) else Err(IndexError)
    case Number(_) => Err(NotSubscriptable)
  }

  /** `{key: value[i] for key, value in data.items()}`, raising at the first value that cannot be indexed. */
  function DataAt(data: seq<(string, Value)>, i: nat): (r: Result<seq<(string, Value)>, EventError>)
    ensures r.Ok? <==> forall j :: 0 <= j < |data| ==> Index(data[j].1, i).Ok?
    ensures r.Ok? ==> |r.value| == |data|
    ensures r.Ok? ==> forall j :: 0 <= j < |data| ==> r.value[j].0 == data[j].0 && Index(data[j].1, i) == Ok(r.value[j].1)
  {
    if data == [] then Ok([])
    else
      match Index(data[0].1, i)
      case Err(e) => Err(e)
      case Ok(v) =>
        match DataAt(data[1..], i)
        case Err(e) =>
          assert exists j :: 1 <= j < |data| && Index(data[j].1, i).Err?;
          Err(e)
        case Ok(rest) => Ok([(data[0].0, v)] + rest)
  }

  /** The first index below `n`, from `i` on, whose data cannot be built; `n` if there is none. */
  function FirstFailure(data: seq<(string, Value)>, i: nat, n: nat): (k: nat)
    requires i <= n
    ensures i <= k <= n
    ensures forall j :: i <= j < k ==> DataAt(data, j).Ok?
    ensures k < n ==> DataAt(data, k).Err?
    decreases n - i
  {
    if i == n || DataAt(data, i).Err? then i else FirstFailure(data, i + 1, n)
  }

  /** The event posted for index `i` with sequence number `seqNum`. */
  function EventAt(doc: EventDoc, seqNum: nat, i: nat): Posted
    requires DataAt(doc.data, i).Ok?
  {
    Posted(doc.meta - {"uid", "seq_num"}, seqNum, DataAt(doc.data, i).value)
  }

  /** The events for indices `0 .. k-1`, numbered from `first`. */
  function Events(doc: EventDoc, first: nat, k: nat): (r: seq<Posted>)
    requires forall j :: 0 <= j < k ==> DataAt(doc.data, j).Ok?
    ensures |r| == k
  {
    if k == 0 then [] else Events(doc, first, k - 1) + [EventAt(doc, first + k - 1, k - 1)]
  }

  /** One more index appends its event at the end. */
  lemma EventsSnoc(doc: EventDoc, first: nat, i: nat)
    requires forall j :: 0 <= j < i + 1 ==> DataAt(doc.data, j).Ok?
    ensures Events(doc, first, i + 1) == Events(doc, first, i) + [EventAt(doc, first + i, i)]
  {
  }

  lemma {:induction false} EventsAt(doc: EventDoc, first: nat, k: nat, i: nat)
    requires forall j :: 0 <= j < k ==> DataAt(doc.data, j).Ok?
    requires i < k
    ensures Events(doc, first, k)[i] == EventAt(doc, first + i, i)
  {
    EventsSnoc(doc, first, k - 1);
    if i < k - 1 {
      EventsAt(doc, first, k - 1, i);
    }
  }

  /** What one call of `event` does: the events it posts, the sequence numbers it draws, and what it raises. */
  datatype Emission = Emission(posted: seq<Posted>, drawn: nat, error: Option<EventError>)

  /** One call of `ApiDelayedCallback.event` whose counter stands at `first`. */
  function Explode(doc: EventDoc, first: nat): Emission
  {
    if doc.data == [] then Emission([], 0, Some(StopIteration))
    else if !doc.data[0].1.List? then Emission([], 0, None)
    else
      var n := |doc.data[0].1.items|;
      var k := FirstFailure(doc.data, 0, n);
      if k == n then Emission(Events(doc, first, n), n, None)
      else Emission(Events(doc, first, k), k + 1, Some(DataAt(doc.data, k).error))
  }

  /**
   * When the first data value is a list of length n whose index can be
   * taken in every value, exactly n events are posted: event i is numbered
   * `first + i`, copies every key but "data", "uid" and "seq_num", and holds
   * `{key: value[i]}`.
   */
  lemma ExplodeSplits(doc: EventDoc, first: nat)
    requires doc.data != [] && doc.data[0].1.List?
    requires forall i, j :: 0 <= i < |doc.data[0].1.items| && 0 <= j < |doc.data| ==> Index(doc.data[j].1, i).Ok?
    ensures var e := Explode(doc, first);
      && e.error == None
      && |e.posted| == e.drawn == |doc.data[0].1.items|
      && forall i :: 0 <= i < |e.posted| ==>
           && e.posted[i].seqNum == first + i
           && e.posted[i].meta == doc.meta - {"uid", "seq_num"}
           && |e.posted[i].data| == |doc.data|
           && forall j :: 0 <= j < |doc.data| ==>
                e.posted[i].data[j].0 == doc.data[j].0 && Ok(e.posted[i].data[j].1) == Index(doc.data[j].1, i)
  {
    var n := |doc.data[0].1.items|;
    assert forall i :: 0 <= i < n ==> DataAt(doc.data, i).Ok?;
    var k := FirstFailure(doc.data, 0, n);
    assert k == n;
    forall i | 0 <= i < n
      ensures Events(doc, first, n)[i] == EventAt(doc, first + i, i)
    {
      EventsAt(doc, first, n, i);
    }
  }

  /** A first data value that is not a list (a number, a string, a numpy array) posts nothing. */
  lemma ExplodeIgnoresNonList(doc: EventDoc, first: nat)
    requires doc.data != [] && !doc.data[0].1.List?
    ensures Explode(doc, first) == Emission([], 0, None)
  {
  }

  /**
   * Every posted event draws the next sequence number; a failing index draws
   * one more and posts nothing. Numbers are consecutive from `first`.
   */
  lemma ExplodeNumbering(doc: EventDoc, first: nat)
    ensures var e := Explode(doc, first);
      && (e.error.None? ==> e.drawn == |e.posted|)
      && (e.error.Some? ==> e.drawn <= |e.posted| + 1)
      && forall i :: 0 <= i < |e.posted| ==> e.posted[i].seqNum == first + i
  {
    if doc.data != [] && doc.data[0].1.List? {
      var n := |doc.data[0].1.items|;
      var k := FirstFailure(doc.data, 0, n);
      forall i | 0 <= i < k
        ensures Events(doc, first, k)[i].seqNum == first + i
      {
        EventsAt(doc, first, k, i);
      }
    }
  }

  /** Sequence numbers are increasing and below the counter `nextSeq`. */
  ghost predicate NumberedBelow(posted: seq<Posted>, nextSeq: nat)
  {
    && 1 <= nextSeq
    && (forall i, j :: 0 <= i < j < |posted| ==> posted[i].seqNum < posted[j].seqNum)
    && (forall i :: 0 <= i < |posted| ==> 1 <= posted[i].seqNum < nextSeq)
  }

  /** Every number drawn before `nextSeq` was posted: the numbers are 1, 2, ..., in order. */
  ghost predicate NumberedConsecutively(posted: seq<Posted>, nextSeq: nat)
  {
    && nextSeq == |posted| + 1
    && forall i :: 0 <= i < |posted| ==> posted[i].seqNum == i + 1
  }

  /**
   * Appending what one call posts keeps the numbers increasing and below the
   * advanced counter, and keeps them consecutive when the call raises nothing.
   */
  lemma ExplodeKeepsNumbering(doc: EventDoc, posted: seq<Posted>, nextSeq: nat)
    requires NumberedBelow(posted, nextSeq)
    ensures var e := Explode(doc, nextSeq);
      && NumberedBelow(posted + e.posted, nextSeq + e.drawn)
      && (NumberedConsecutively(posted, nextSeq) && e.error.None? ==>
            NumberedConsecutively(posted + e.posted, nextSeq + e.drawn))
  {
    var e := Explode(doc, nextSeq);
    ExplodeNumbering(doc, nextSeq);
    var all := posted + e.posted;
    forall i | |posted| <= i < |all|
      ensures all[i].seqNum == nextSeq + (i - |posted|)
    {
      assert all[i] == e.posted[i - |posted|];
    }
  }

  /** `ApiDelayedCallback`: a sequence-number counter that persists across calls, and the events it has posted. */
  class DelayedCallback {
    /** What `next(self.seq_gen)` returns next. */
    var nextSeq: nat
    /** The events posted to the "/event" endpoint, in order. */
    var posted: seq<Posted>

    /** Sequence numbers are increasing and below the counter. */
    ghost predicate Valid()
      reads this
    {
      NumberedBelow(posted, nextSeq)
    }

    /** Every number drawn so far was posted: the numbers are 1, 2, ..., in order. */
    ghost predicate Consecutive()
      reads this
    {
      NumberedConsecutively(posted, nextSeq)
    }

    constructor ()
      ensures Valid() && Consecutive()
      ensures nextSeq == 1 && posted == []
    {
      nextSeq := 1;
      posted := [];
    }

    /**
     * `event`: when the first data value is a list, post one event per
     * index, each with the next sequence number. The HTTP post and the sleep
     * before it are not modelled; the post is the append to `posted`.
     */
    method Event(doc: EventDoc) returns (err: Option<EventError>)
      requires Valid()
      modifies this
      ensures Valid()
      ensures var e := Explode(doc, old(nextSeq));
        && posted == old(posted) + e.posted
        && nextSeq == old(nextSeq) + e.drawn
        && err == e.error
      ensures old(Consecutive()) && err.None? ==> Consecutive()
    {
      ExplodeKeepsNumbering(doc, posted, nextSeq);
      if doc.data == [] {
        return Some(StopIteration);
      }
      if !doc.data[0].1.List? {
        return None;
      }
      err := PostEach(doc);
    }

    /** The loop of `event` over the indices of a first data value that is a list. */
    method PostEach(doc: EventDoc) returns (err: Option<EventError>)
      requires doc.data != [] && doc.data[0].1.List?
      modifies this
      ensures var e := Explode(doc, old(nextSeq));
        && posted == old(posted) + e.posted
        && nextSeq == old(nextSeq) + e.drawn
        && err == e.error
    {
      var n := |doc.data[0].1.items|;
      ghost var first := nextSeq;
      ghost var before := posted;
      var i := 0;
      while i < n
        invariant 0 <= i <= n
        invariant forall j :: 0 <= j < i ==> DataAt(doc.data, j).Ok?
        invariant nextSeq == first + i
        invariant posted == before + Events(doc, first, i)
      {
        var seqNum := nextSeq;
        nextSeq := nextSeq + 1;
        var data := DataAt(doc.data, i);
        if data.Err? {
          FirstFailureUnique(doc.data, n, i);
          return Some(data.error);
        }
        EventsSnoc(doc, first, i);
        posted := posted + [EventAt(doc, seqNum, i)];
        i := i + 1;
      }
      FirstFailureUnique(doc.data, n, n);
      err := None;
    }
  }

  lemma FirstFailureUnique(data: seq<(string, Value)>, n: nat, k: nat)
    requires k <= n
    requires forall j :: 0 <= j < k ==> DataAt(data, j).Ok?
    requires k < n ==> DataAt(data, k).Err?
    ensures FirstFailure(data, 0, n) == k
  {
  }
}

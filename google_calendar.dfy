/**
 * The event writer of `GoogleCalendarClient`: the policy dispatch of
 * `create_events`, the conflict probe it runs per event, the per-event insert
 * loop and the folding of the outcome into a `{status_code, msg, data}`
 * response.
 *
 * The Google API is not modelled; its answers are inputs:
 *  - `listing`: what `_get_calendars` returned (the calendar ids) or the
 *    HttpError it raised;
 *  - `search`: the server-side event search `events().list(calendarId, **query)`,
 *    giving the ids of the events it matched or an HttpError;
 *  - `insert`: the outcome of `events().insert(...)` for the event at a given
 *    original index (each event is inserted at most once, so this covers any
 *    sequence of server answers).
 * Every call made to the last two is recorded, in order, in a trace.
 */
module GoogleCalendar {
  import opened Wrappers
  import opened Values
  import opened Policies

  /** `googleapiclient.errors.HttpError`: its status code and its text. */
  datatype HttpError = HttpError(status: int, text: string)

  /** Exceptions that leave the client. */
  datatype Error =
    | NotImplemented(msg: Message)
    | MissingKey(key: string)   // KeyError
    | Generic(text: string)     // a bare `Exception(text)`
    | Http(error: HttpError)    // an HttpError the client does not catch

  /** An entry of `ignored_events_due_to_conflict`. */
  datatype IgnoredEvent = IgnoredEvent(eventToWrite: Dict, conflictingIds: seq<string>)

  /** An entry of `data.reasons`: the error, the event and its status code. */
  datatype FailedWrite = FailedWrite(reason: HttpError, event: Dict, statusCode: int)

  /** The `data` member of a response. */
  datatype Payload =
    | ConflictDetail(eventToWrite: Dict, conflictingIds: seq<string>)
    | WriteReport(reasons: Option<map<nat, FailedWrite>>, ignoredEvents: Option<map<nat, IgnoredEvent>>)

  /**
   * The returned dict. `statusCode` is absent on the partial or total write
   * failure path; `ignoredEvents` is the top-level key that only the "no
   * events to create" response carries.
   */
  datatype Response = Response(
    statusCode: Option<int>,
    msg: Message,
    data: Option<Payload>,
    ignoredEvents: Option<map<nat, IgnoredEvent>>)

  datatype Outcome = Returned(response: Response) | Raised(error: Error)

  /** A request made to the events endpoint. */
  datatype Call =
    | Search(calendarId: string, query: map<string, Value>)
    | Insert(calendarId: string, event: Dict)

  type Searcher = (string, map<string, Value>) -> Result<seq<string>, HttpError>
  type Inserter = (nat, Dict) -> Option<HttpError>

  // ---------------------------------------------------------------- identifiers

  /**
   * `_get_calendar_unique_identifier`: the body's values for the conflict
   * properties, in the order the properties are listed (a repeated property
   * counts once, at its first position); a bare Exception when the body lacks
   * any of them.
   */
  function UniqueIdentifier(body: Dict, props: seq<string>): (r: Result<seq<Value>, Error>)
    ensures r.Ok? <==> forall p :: p in props ==> HasKey(body, p)
    ensures r.Err? ==> r.error == Generic("")
    ensures r.Ok? ==> |r.value| == |Dedup(props)|
    ensures r.Ok? ==> forall i :: 0 <= i < |r.value| ==>
      HasKey(body, Dedup(props)[i]) && r.value[i] == Lookup(body, Dedup(props)[i])
  {
    ProjectOkIff(body, props);
    match Project(body, props)
    case Err(_) => Err(Generic(""))
    case Ok(unique) =>
      ProjectKeys(body, props);
      ProjectValues(body, props);
      Ok(ValuesOf(unique))
  }

  // ---------------------------------------------------------------- metadata

  /** `CONFLICT_PROPERTIES_MAP`: the search parameter a conflict property becomes. */
  function ConflictQueryKey(property: string): Option<string> {
    if property == "summary" then Some("q") else None
  }

  /** One iteration of the loop of `_generate_events_conflict_metadata`. */
  function MetadataStep(acc: Result<map<string, Value>, Error>, entry: (string, Value)): Result<map<string, Value>, Error> {
    match acc
    case Err(e) => Err(e)
    case Ok(metadata) =>
      match ConflictQueryKey(entry.0)
      case None => Err(NotImplemented(Plain("")))
      case Some(key) =>
        if key in metadata then Err(Generic("not expected")) else Ok(metadata[key := entry.1])
  }

  /** The search parameters for an event's conflict identifiers, or the error raised. */
  function MetadataOf(identifiers: Dict): Result<map<string, Value>, Error> {
    if identifiers == [] then Ok(map[])
    else MetadataStep(MetadataOf(identifiers[..|identifiers| - 1]), identifiers[|identifiers| - 1])
  }

  /** Once the loop has raised, the rest of the entries do not matter. */
  lemma {:induction false} MetadataErrStays(identifiers: Dict, n: nat)
    requires n <= |identifiers|
    requires MetadataOf(identifiers[..n]).Err?
    ensures MetadataOf(identifiers) == MetadataOf(identifiers[..n])
    decreases |identifiers| - n
  {
    if n < |identifiers| {
      assert identifiers[..n + 1][..n] == identifiers[..n];
      MetadataErrStays(identifiers, n + 1);
    } else {
      assert identifiers[..n] == identifiers;
    }
  }

  /** `_generate_events_conflict_metadata`, which fills a dict in a loop. */
  method GenerateConflictMetadata(identifiers: Dict) returns (r: Result<map<string, Value>, Error>)
    ensures r == MetadataOf(identifiers)
  {
    var metadata: map<string, Value> := map[];
    var i := 0;
    while i < |identifiers|
      invariant i <= |identifiers|
      invariant MetadataOf(identifiers[..i]) == Ok(metadata)
    {
      assert identifiers[..i + 1][..i] == identifiers[..i];
      var (property, value) := identifiers[i];
      var generator := ConflictQueryKey(property);
      if generator.None? {
        r := Err(NotImplemented(Plain("")));
        MetadataErrStays(identifiers, i + 1);
        return;
      }
      var key := generator.value;
      if key in metadata {
        r := Err(Generic("not expected"));
        MetadataErrStays(identifiers, i + 1);
        return;
      }
      metadata := metadata[key := value];
      i := i + 1;
    }
    assert identifiers[..i] == identifiers;
    r := Ok(metadata);
  }

  // ---------------------------------------------------------------- messages

  /**
   * The messages the client returns or raises. The proofs compare messages by
   * kind; `MessageText` gives the text of each (for conflict properties
   * whose names hold no quote character, see `PropsRepr`).
   */
  datatype Message =
    | Plain(text: string)
    | ListFailed(reason: string)
    | CreateUnsupported(calendarId: string)
    | NotFound(calendarId: string)
    | AssetExists(calendarId: string)
    | AssetIgnored(calendarId: string)
    | AssetReplaceUnsupported
    | DataReplaceUnsupported
    | DataConflict(props: Option<seq<string>>)
    | NothingToCreate
    | Created
    | AllFailed
    | SomeFailed

  function MessageText(m: Message): string {
    match m
    case Plain(text) => text
    case ListFailed(reason) => "Could not read calendar information. Reason: " + reason
    case CreateUnsupported(calendarId) =>
      QuoteIn(MissingLead, calendarId, CreateUnsupportedTail)
    case NotFound(calendarId) =>
      QuoteIn(MissingLead, calendarId, NotFoundTail)
    case AssetExists(calendarId) =>
      QuoteIn(ExistsLead, calendarId, AssetExistsTail)
    case AssetIgnored(calendarId) =>
      QuoteIn(IgnoredLead, calendarId, AssetIgnoredTail)
    case AssetReplaceUnsupported => "There is currently no support for replace strategy."
    case DataReplaceUnsupported => "No support for this yet"
    case DataConflict(props) =>
      QuoteIn("At least one event exists with the following conflict properties ", PropsRepr(props), "")
    case NothingToCreate => "No events to create"
    case Created => "Successfully wrote events to calendar"
    case AllFailed => "None of the events were successfully created due to write errors"
    case SomeFailed => "At least some events failed to create"
  }

  /** The text around the quoted calendar id in the calendar messages. */
  const MissingLead := "Could not find calendar with calendar_id="
  const ExistsLead := "calendar with calendar_id="
  const IgnoredLead := "calendar_id="
  const CreateUnsupportedTail :=
    ". At the moment "
    + "there is no support for creating new calendars from "
    + "the client. Please do this manually on the web and "
    + "try again."
  const NotFoundTail := ". If you wish to " + "create it, set table creation to `True`"
  const AssetExistsTail :=
    " exists and on_asset_conflict=`fail`. "
    + "If you wish to edit calendar please change conflict_resolution_strategy"
  const AssetIgnoredTail := " exists but request dropped since " + "on_asset_conflict=`ignore`"

  /** `lead`, then `quoted` between backticks, then `tail`: the shape of the f-strings above. */
  function QuoteIn(lead: string, quoted: string, tail: string): string {
    lead + "`" + quoted + "`" + tail
  }

  /**
   * Python's `repr` of a list of strings, or of None, for names without a
   * quote character or backslash: Python switches quotes or escapes for
   * those, which this rendering does not.
   */
  function PropsRepr(props: Option<seq<string>>): string {
    match props
    case None => "None"
    case Some(ps) => "[" + QuotedList(ps) + "]"
  }

  function QuotedList(ps: seq<string>): string {
    if |ps| == 0 then ""
    else if |ps| == 1 then "'" + ps[0] + "'"
    else "'" + ps[0] + "', " + QuotedList(ps[1..])
  }

  /** The 409 returned under data policy `fail`; it reports the caller's properties as given. */
  function DataConflictResponse(props: Option<seq<string>>, event: Dict, ids: seq<string>): Response {
    Response(Some(409), DataConflict(props), Some(ConflictDetail(event, ids)), None)
  }

  // ---------------------------------------------------------------- probe

  /** What the conflict probe of one event found. */
  datatype Probe = Clear | Conflict(ids: seq<string>) | Failed(error: Error)

  /** The conflict properties of one event: the caller's, or all of the event's keys. */
  function SearchProperties(event: Dict, props: Option<seq<string>>): seq<string> {
    match props
    case None => Keys(event)
    case Some(ps) => ps
  }

  /**
   * The probe of one event (google_calendar_client.py, lines 259-277) and
   * the search it makes, if it gets that far.
   */
  function ProbeEvent(calendarId: string, event: Dict, props: Option<seq<string>>, search: Searcher): (Probe, seq<Call>) {
    match Project(event, SearchProperties(event, props))
    case Err(key) => (Failed(MissingKey(key)), [])
    case Ok(identifiers) =>
      match MetadataOf(identifiers)
      case Err(e) => (Failed(e), [])
      case Ok(query) =>
        var calls := [Search(calendarId, query)];
        match search(calendarId, query)
        case Err(h) => (Failed(Http(h)), calls)
        case Ok(ids) => (if |ids| == 0 then Clear else Conflict(ids), calls)
  }

  /** The state of the conflict loop: ids still to create, ignored events, calls made. */
  datatype Screening = Screening(toCreate: seq<nat>, ignored: map<nat, IgnoredEvent>, calls: seq<Call>)

  datatype ScreenResult = Proceed(screening: Screening) | Exit(outcome: Outcome, calls: seq<Call>)

  /** How the conflict loop treats event `k` once its probe is known. */
  function ApplyProbe(onData: Policy, props: Option<seq<string>>, s: Screening, k: nat, event: Dict,
                      probe: Probe, made: seq<Call>): ScreenResult
  {
    var calls := s.calls + made;
    match probe
    case Failed(e) => Exit(Raised(e), calls)
    case Clear => Proceed(Screening(s.toCreate, s.ignored, calls))
    case Conflict(ids) =>
      if onData == Fail then Exit(Returned(DataConflictResponse(props, event, ids)), calls)
      else if onData == Ignore then Proceed(Screening(Pop(s.toCreate, k), s.ignored[k := IgnoredEvent(event, ids)], calls))
      else Proceed(Screening(s.toCreate, s.ignored, calls))
  }

  /**
   * The probe of every event. The probes are lazy: the loop below only
   * searches for the events it reaches, and only those searches are recorded.
   */
  function ProbeAll(calendarId: string, events: seq<Dict>, props: Option<seq<string>>, search: Searcher): (probes: seq<(Probe, seq<Call>)>)
    ensures |probes| == |events|
  {
    if events == [] then []
    else ProbeAll(calendarId, events[..|events| - 1], props, search)
         + [ProbeEvent(calendarId, events[|events| - 1], props, search)]
  }

  lemma {:induction false} ProbeAllAt(calendarId: string, events: seq<Dict>, props: Option<seq<string>>, search: Searcher, k: nat)
    requires k < |events|
    ensures ProbeAll(calendarId, events, props, search)[k] == ProbeEvent(calendarId, events[k], props, search)
  {
    if k < |events| - 1 {
      ProbeAllAt(calendarId, events[..|events| - 1], props, search, k);
    }
  }

  /** The first `n` probes are the probes of the first `n` events. */
  ghost predicate ProbesAgree(calendarId: string, events: seq<Dict>, props: Option<seq<string>>, search: Searcher,
                              probes: seq<(Probe, seq<Call>)>, n: nat)
    requires n <= |events| && n <= |probes|
    decreases n
  {
    n == 0 || (ProbesAgree(calendarId, events, props, search, probes, n - 1)
               && probes[n - 1] == ProbeEvent(calendarId, events[n - 1], props, search))
  }

  lemma {:induction false} ProbesAgreeAt(calendarId: string, events: seq<Dict>, props: Option<seq<string>>, search: Searcher,
                                         probes: seq<(Probe, seq<Call>)>, n: nat, k: nat)
    requires k < n <= |events| && n <= |probes|
    requires ProbesAgree(calendarId, events, props, search, probes, n)
    ensures probes[k] == ProbeEvent(calendarId, events[k], props, search)
  {
    if k < n - 1 {
      ProbesAgreeAt(calendarId, events, props, search, probes, n - 1, k);
    }
  }

  lemma {:induction false} ProbeAllAgrees(calendarId: string, events: seq<Dict>, props: Option<seq<string>>, search: Searcher, n: nat)
    requires n <= |events|
    ensures ProbesAgree(calendarId, events, props, search, ProbeAll(calendarId, events, props, search), n)
  {
    if n > 0 {
      ProbeAllAgrees(calendarId, events, props, search, n - 1);
      ProbeAllAt(calendarId, events, props, search, n - 1);
    }
  }

  /** The conflict loop over the first `n` events, given the probe of each. */
  function Screen(events: seq<Dict>, onData: Policy, props: Option<seq<string>>,
                  probes: seq<(Probe, seq<Call>)>, n: nat): ScreenResult
    requires n <= |events| == |probes|
  {
    if n == 0 then Proceed(Screening(Interval(0, |events|), map[], []))
    else
      match Screen(events, onData, props, probes, n - 1)
      case Exit(o, c) => Exit(o, c)
      case Proceed(s) => ApplyProbe(onData, props, s, n - 1, events[n - 1], probes[n - 1].0, probes[n - 1].1)
  }

  /** Every id still to create, if the loop goes on, is below `bound`. */
  predicate IdsBelow(r: ScreenResult, bound: nat) {
    r.Proceed? ==> forall i :: 0 <= i < |r.screening.toCreate| ==> r.screening.toCreate[i] < bound
  }

  /** The ids still to create are always ids of events. */
  lemma {:induction false} ScreenKeptBound(events: seq<Dict>, onData: Policy, props: Option<seq<string>>,
                                           probes: seq<(Probe, seq<Call>)>, n: nat)
    requires n <= |events| == |probes|
    ensures IdsBelow(Screen(events, onData, props, probes, n), |events|)
  {
    var r := Screen(events, onData, props, probes, n);
    if n > 0 {
      ScreenKeptBound(events, onData, props, probes, n - 1);
      var prev := Screen(events, onData, props, probes, n - 1);
      if prev.Proceed? && r.Proceed? {
        var before := prev.screening.toCreate;
        PopSubset(before, n - 1);
        forall i | 0 <= i < |r.screening.toCreate|
          ensures r.screening.toCreate[i] < |events|
        {
          var x := r.screening.toCreate[i];
          assert x in before;
          var j :| 0 <= j < |before| && before[j] == x;
        }
      }
    }
  }

  /** Once the conflict loop has exited, later events change nothing. */
  lemma {:induction false} ExitStays(events: seq<Dict>, onData: Policy, props: Option<seq<string>>,
                                     probes: seq<(Probe, seq<Call>)>, m: nat, n: nat)
    requires m <= n <= |events| == |probes|
    requires Screen(events, onData, props, probes, m).Exit?
    ensures Screen(events, onData, props, probes, n) == Screen(events, onData, props, probes, m)
    decreases n
  {
    if m < n {
      ExitStays(events, onData, props, probes, m, n - 1);
    }
  }

  // ---------------------------------------------------------------- writes

  /** The insert loop over `ids`: the failures it records and the inserts it makes. */
  function WriteAll(calendarId: string, events: seq<Dict>, ids: seq<nat>, insert: Inserter): (map<nat, FailedWrite>, seq<Call>)
    requires forall i :: 0 <= i < |ids| ==> ids[i] < |events|
  {
    if ids == [] then (map[], [])
    else
      var (failed, calls) := WriteAll(calendarId, events, ids[..|ids| - 1], insert);
      var id := ids[|ids| - 1];
      var made := calls + [Insert(calendarId, events[id])];
      match insert(id, events[id])
      case None => (failed, made)
      case Some(h) => (failed[id := FailedWrite(h, events[id], h.status)], made)
  }

  /** The response folded from the events to create, the failed writes and the ignored events. */
  function Aggregate(onData: Policy, toCreate: seq<nat>, failed: map<nat, FailedWrite>,
                     ignored: map<nat, IgnoredEvent>): Response
  {
    var attach := onData == Ignore && |ignored| > 0;
    if |toCreate| == 0 then
      Response(Some(200), NothingToCreate, None, if attach then Some(ignored) else None)
    else if |failed| == 0 then
      Response(Some(201), Created, if attach then Some(WriteReport(None, Some(ignored))) else None, None)
    else
      Response(None, if |failed| == |toCreate| then AllFailed else SomeFailed,
        Some(WriteReport(Some(failed), if attach then Some(ignored) else None)), None)
  }

  function Interval(lo: nat, hi: nat): (r: seq<nat>)
    requires lo <= hi
    decreases hi - lo
    ensures |r| == hi - lo
    ensures forall i :: 0 <= i < |r| ==> r[i] == lo + i
  {
    if lo == hi then [] else [lo] + Interval(lo + 1, hi)
  }

  /** `create_events` as a function of its inputs and the server's answers: the outcome and the calls made. */
  function CreateEventsSpec(listing: Result<seq<string>, HttpError>, calendarId: string, events: seq<Dict>,
                            onAsset: Policy, onData: Policy, props: Option<seq<string>>,
                            createIfMissing: bool, search: Searcher, insert: Inserter): (Outcome, seq<Call>)
  {
    match PolicyExit(listing, calendarId, onAsset, onData, createIfMissing)
    case Some(o) => (o, [])
    case None => ScreenAndInsertSpec(calendarId, events, onData, props, search, insert)
  }

  /** The checks of `create_events` before any event is looked at: the outcome, when one of them ends the call. */
  function PolicyExit(listing: Result<seq<string>, HttpError>, calendarId: string,
                      onAsset: Policy, onData: Policy, createIfMissing: bool): Option<Outcome>
  {
    match listing
    case Err(h) => Some(Returned(Response(Some(h.status), ListFailed(h.text), None, None)))
    case Ok(calendars) =>
      if calendarId !in calendars then
        if createIfMissing then Some(Raised(NotImplemented(CreateUnsupported(calendarId))))
        else Some(Returned(Response(Some(404), NotFound(calendarId), None, None)))
      else if onAsset == Fail then Some(Returned(Response(Some(409), AssetExists(calendarId), None, None)))
      else if onAsset == Ignore then Some(Returned(Response(Some(204), AssetIgnored(calendarId), None, None)))
      else if onAsset == Replace then Some(Raised(NotImplemented(AssetReplaceUnsupported)))
      else if onData == Replace then Some(Raised(NotImplemented(DataReplaceUnsupported)))
      else None
  }

  /** The conflict loop and then the insert loop, once the calendar and the policies have been checked. */
  function ScreenAndInsertSpec(calendarId: string, events: seq<Dict>, onData: Policy, props: Option<seq<string>>,
                               search: Searcher, insert: Inserter): (Outcome, seq<Call>)
  {
    var probes := ProbeAll(calendarId, events, props, search);
    var screened :=
      if onData == Append then Proceed(Screening(Interval(0, |events|), map[], []))
      else Screen(events, onData, props, probes, |events|);
    ScreenKeptBound(events, onData, props, probes, |events|);
    match screened
    case Exit(o, c) => (o, c)
    case Proceed(s) =>
      var (failed, writes) := WriteAll(calendarId, events, s.toCreate, insert);
      (Returned(Aggregate(onData, s.toCreate, failed, s.ignored)), s.calls + writes)
  }

  /** `dict.pop(x)` on the ids still to create: drops the entry for `x`. */
  function Pop(s: seq<nat>, x: nat): seq<nat> {
    if s == [] then []
    else if s[0] == x then s[1..]
    else [s[0]] + Pop(s[1..], x)
  }

  /** Popping never adds an id. */
  lemma {:induction false} PopSubset(s: seq<nat>, x: nat)
    ensures forall y :: y in Pop(s, x) ==> y in s
  {
    if s != [] && s[0] != x {
      PopSubset(s[1..], x);
    }
  }

  /** The probe of one event: its conflict identifiers, their search parameters and the search. */
  method ProbeOne(calendarId: string, event: Dict, props: Option<seq<string>>, search: Searcher)
    returns (probe: Probe, made: seq<Call>)
    ensures (probe, made) == ProbeEvent(calendarId, event, props, search)
  {
    made := [];
    var identifiers := Project(event, SearchProperties(event, props));
    if identifiers.Err? {
      probe := Failed(MissingKey(identifiers.error));
      return;
    }
    var metadata := GenerateConflictMetadata(identifiers.value);
    if metadata.Err? {
      probe := Failed(metadata.error);
      return;
    }
    var listed := search(calendarId, metadata.value);
    made := [Search(calendarId, metadata.value)];
    if listed.Err? {
      probe := Failed(Http(listed.error));
      return;
    }
    var conflicting := listed.value;
    probe := if |conflicting| == 0 then Clear else Conflict(conflicting);
  }

  /**
   * The conflict loop of `create_events` (google_calendar_client.py, lines
   * 248-296): the ids still to create, from which conflicting events are
   * popped under `ignore`, the ignored events by original index, and the
   * searches made; or the early exit.
   */
  method ScreenEvents(calendarId: string, events: seq<Dict>, onData: Policy, props: Option<seq<string>>,
                      search: Searcher, ghost probes: seq<(Probe, seq<Call>)>)
    returns (r: ScreenResult)
    requires |probes| == |events|
    requires ProbesAgree(calendarId, events, props, search, probes, |events|)
    ensures r == Screen(events, onData, props, probes, |events|)
  {
    var n := |events|;
    var state := Screening(Interval(0, n), map[], []);
    var k := 0;
    while k < n
      invariant k <= n
      invariant Screen(events, onData, props, probes, k) == Proceed(state)
    {
      r := ScreenStep(calendarId, events, onData, props, search, probes, k, state);
      if r.Exit? {
        return;
      }
      state := r.screening;
      k := k + 1;
    }
    r := Proceed(state);
  }

  /** One pass of the conflict loop: the search for event `k`, then what the data policy does with it. */
  method ScreenStep(calendarId: string, events: seq<Dict>, onData: Policy, props: Option<seq<string>>,
                    search: Searcher, ghost probes: seq<(Probe, seq<Call>)>, k: nat, state: Screening)
    returns (next: ScreenResult)
    requires k < |events| == |probes|
    requires ProbesAgree(calendarId, events, props, search, probes, |events|)
    requires Screen(events, onData, props, probes, k) == Proceed(state)
    ensures next == Screen(events, onData, props, probes, k + 1)
    ensures next.Exit? ==> next == Screen(events, onData, props, probes, |events|)
  {
    ProbesAgreeAt(calendarId, events, props, search, probes, |events|, k);
    var probe, made := ProbeOne(calendarId, events[k], props, search);
    next := HandleProbe(onData, props, state, k, events[k], probe, made);
    if next.Exit? {
      ExitStays(events, onData, props, probes, k + 1, |events|);
    }
  }

  /**
   * One pass of the conflict loop once the search for event `k` is done: a
   * failure propagates; a conflict under `fail` returns the 409; under
   * `ignore` the event moves from the ids to create to the ignored events.
   */
  method HandleProbe(onData: Policy, props: Option<seq<string>>, s: Screening, k: nat, event: Dict,
                     probe: Probe, made: seq<Call>)
    returns (r: ScreenResult)
    ensures r == ApplyProbe(onData, props, s, k, event, probe, made)
  {
    var toCreate, conflictEvents, calls := s.toCreate, s.ignored, s.calls + made;
    if probe.Failed? {
      return Exit(Raised(probe.error), calls);
    }
    if probe.Conflict? {
      var conflicting := probe.ids;
      if onData == Fail {
        return Exit(Returned(DataConflictResponse(props, event, conflicting)), calls);
      }
      if onData == Ignore {
        conflictEvents := conflictEvents[k := IgnoredEvent(event, conflicting)];
        toCreate := Pop(toCreate, k);
      }
    }
    r := Proceed(Screening(toCreate, conflictEvents, calls));
  }

  /**
   * The insert loop of `create_events` (google_calendar_client.py, lines
   * 314-335): failures are collected, not raised.
   */
  method InsertEvents(calendarId: string, events: seq<Dict>, toCreate: seq<nat>, insert: Inserter)
    returns (failed: map<nat, FailedWrite>, calls: seq<Call>)
    requires forall i :: 0 <= i < |toCreate| ==> toCreate[i] < |events|
    ensures (failed, calls) == WriteAll(calendarId, events, toCreate, insert)
  {
    failed := map[];
    calls := [];
    var i := 0;
    while i < |toCreate|
      invariant i <= |toCreate|
      invariant (failed, calls) == WriteAll(calendarId, events, toCreate[..i], insert)
    {
      assert toCreate[..i + 1][..i] == toCreate[..i];
      var id := toCreate[i];
      var event := events[id];
      var result := insert(id, event);
      calls := calls + [Insert(calendarId, event)];
      if result.Some? {
        failed := failed[id := FailedWrite(result.value, event, result.value.status)];
      }
      i := i + 1;
    }
    assert toCreate[..i] == toCreate;
  }

  /** `create_events`. */
  method CreateEvents(listing: Result<seq<string>, HttpError>, calendarId: string, events: seq<Dict>,
                      onAsset: Policy, onData: Policy, props: Option<seq<string>>,
                      createIfMissing: bool, search: Searcher, insert: Inserter)
    returns (outcome: Outcome, calls: seq<Call>)
    ensures (outcome, calls) == CreateEventsSpec(listing, calendarId, events, onAsset, onData, props, createIfMissing, search, insert)
  {
    var exit := CheckCalendarAndPolicies(listing, calendarId, onAsset, onData, createIfMissing);
    if exit.Some? {
      outcome, calls := exit.value, [];
      return;
    }
    outcome, calls := ScreenAndInsert(calendarId, events, onData, props, search, insert);
  }

  /** The calendar lookup and the policy dispatch at the start of `create_events`. */
  method CheckCalendarAndPolicies(listing: Result<seq<string>, HttpError>, calendarId: string,
                                  onAsset: Policy, onData: Policy, createIfMissing: bool)
    returns (exit: Option<Outcome>)
    ensures exit == PolicyExit(listing, calendarId, onAsset, onData, createIfMissing)
  {
    if listing.Err? {
      return Some(Returned(Response(Some(listing.error.status), ListFailed(listing.error.text), None, None)));
    }
    var available := set id | id in listing.value;
    if calendarId !in available {
      if createIfMissing {
        return Some(Raised(NotImplemented(CreateUnsupported(calendarId))));
      }
      return Some(Returned(Response(Some(404), NotFound(calendarId), None, None)));
    }
    if onAsset == Fail {
      return Some(Returned(Response(Some(409), AssetExists(calendarId), None, None)));
    }
    if onAsset == Ignore {
      return Some(Returned(Response(Some(204), AssetIgnored(calendarId), None, None)));
    }
    if onAsset == Replace {
      return Some(Raised(NotImplemented(AssetReplaceUnsupported)));
    }
    if onData == Replace {
      return Some(Raised(NotImplemented(DataReplaceUnsupported)));
    }
    return None;
  }

  /** Lines 248-362 of `create_events`: the conflict loop, the insert loop and the response. */
  method ScreenAndInsert(calendarId: string, events: seq<Dict>, onData: Policy, props: Option<seq<string>>,
                         search: Searcher, insert: Inserter)
    returns (outcome: Outcome, calls: seq<Call>)
    ensures (outcome, calls) == ScreenAndInsertSpec(calendarId, events, onData, props, search, insert)
  {
    var screened: ScreenResult;
    if onData == Append {
      screened := Proceed(Screening(Interval(0, |events|), map[], []));
    } else {
      ghost var probes := ProbeAll(calendarId, events, props, search);
      ProbeAllAgrees(calendarId, events, props, search, |events|);
      screened := ScreenEvents(calendarId, events, onData, props, search, probes);
      ScreenKeptBound(events, onData, props, probes, |events|);
    }
    if screened.Exit? {
      outcome, calls := screened.outcome, screened.calls;
      return;
    }
    var toCreate, conflictEvents := screened.screening.toCreate, screened.screening.ignored;
    calls := screened.screening.calls;
    if |toCreate| == 0 {
      assert WriteAll(calendarId, events, toCreate, insert) == (map[], []);
      assert calls + [] == calls;
      outcome := Returned(Aggregate(onData, toCreate, map[], conflictEvents));
      return;
    }
    var failed, writes := InsertEvents(calendarId, events, toCreate, insert);
    calls := calls + writes;
    outcome := Returned(Aggregate(onData, toCreate, failed, conflictEvents));
  }
}

/**
 * What `create_events` promises, stated over the model in google_calendar.dfy:
 * the shape of the conflict identifiers and search parameters, the early
 * exits of the policy dispatch, the partition made by the conflict loop, the
 * insert loop and the folding of its outcome into a response.
 */
module GoogleCalendarProperties {
  import opened Wrappers
  import opened Values
  import opened Policies
  import opened GoogleCalendar
  import opened Text

  // ---------------------------------------------------------------- helpers

  /** The calls contain no insert: nothing was written. */
  predicate NoInserts(calls: seq<Call>) {
    forall c :: c in calls ==> c.Search?
  }

  /** The inserts of the events at `ids`, in that order. */
  function InsertsOf(calendarId: string, events: seq<Dict>, ids: seq<nat>): seq<Call>
    requires forall i :: 0 <= i < |ids| ==> ids[i] < |events|
  {
    seq(|ids|, j requires 0 <= j < |ids| => Insert(calendarId, events[ids[j]]))
  }

  /** The calls made by the first `n` probes. */
  function CallsOf(probes: seq<(Probe, seq<Call>)>, n: nat): seq<Call>
    requires n <= |probes|
  {
    if n == 0 then [] else CallsOf(probes, n - 1) + probes[n - 1].1
  }

  /** Reference definition: the indices, in order, of the first `n` events whose search found nothing. */
  function ClearIndices(probes: seq<(Probe, seq<Call>)>, n: nat): seq<nat>
    requires n <= |probes|
  {
    if n == 0 then []
    else ClearIndices(probes, n - 1) + (if probes[n - 1].0 == Clear then [n - 1] else [])
  }

  /** Reference definition: the conflicting events among the first `n`, by index, with the ids found. */
  function ConflictsOf(events: seq<Dict>, probes: seq<(Probe, seq<Call>)>, n: nat): map<nat, IgnoredEvent>
    requires n <= |events| == |probes|
  {
    map i: nat | i < n && probes[i].0.Conflict? :: IgnoredEvent(events[i], probes[i].0.ids)
  }

  /** The calendar exists and neither policy stops the call before the conflict loop. */
  predicate PassesAssetChecks(listing: Result<seq<string>, HttpError>, calendarId: string, onAsset: Policy, onData: Policy) {
    && listing.Ok?
    && calendarId in listing.value
    && onAsset != Fail && onAsset != Ignore && onAsset != Replace
    && onData != Replace
  }

  function Elements(s: seq<nat>): set<nat> {
    set x | x in s
  }

  lemma {:induction false} DistinctCard(s: seq<nat>)
    requires Distinct(s)
    ensures |Elements(s)| == |s|
  {
    if s != [] {
      var init := s[..|s| - 1];
      var last := s[|s| - 1];
      assert Distinct(init);
      DistinctCard(init);
      assert last !in init;
      assert Elements(s) == Elements(init) + {last};
    } else {
      assert Elements(s) == {};
    }
  }

  lemma {:induction false} SubsetCard(a: set<nat>, b: set<nat>)
    requires a <= b
    ensures |a| <= |b|
    decreases |b|
  {
    if a != {} {
      var x :| x in a;
      SubsetCard(a - {x}, b - {x});
    }
  }

  // ---------------------------------------------------------------- identifiers

  /**
   * `_get_calendar_unique_identifier` on distinct properties that the body
   * has: one value per property, in the order of the properties.
   */
  lemma UniqueIdentifierInOrder(body: Dict, props: seq<string>)
    requires Distinct(props)
    requires forall p :: p in props ==> HasKey(body, p)
    ensures UniqueIdentifier(body, props).Ok?
    ensures |UniqueIdentifier(body, props).value| == |props|
    ensures forall i :: 0 <= i < |props| ==>
      HasKey(body, props[i]) && UniqueIdentifier(body, props).value[i] == Lookup(body, props[i])
  {
    DedupOfDistinct(props);
  }

  // ---------------------------------------------------------------- metadata

  /**
   * `_generate_events_conflict_metadata`: only `summary` is supported and
   * becomes the `q` parameter with the same value, so the result has one
   * entry per input property; any other property raises NotImplementedError,
   * and a second `summary` would raise "not expected".
   */
  lemma {:induction false} MetadataCharacterised(identifiers: Dict)
    ensures MetadataOf(identifiers).Ok? <==>
      |identifiers| <= 1 && forall i :: 0 <= i < |identifiers| ==> identifiers[i].0 == "summary"
    ensures MetadataOf(identifiers).Ok? ==>
      MetadataOf(identifiers).value == (if identifiers == [] then map[] else map["q" := identifiers[0].1])
    ensures MetadataOf(identifiers).Ok? ==> |MetadataOf(identifiers).value| == |identifiers|
    ensures MetadataOf(identifiers) == Err(NotImplemented(Plain(""))) <==>
      || (|identifiers| >= 1 && identifiers[0].0 != "summary")
      || (|identifiers| >= 2 && identifiers[0].0 == "summary" && identifiers[1].0 != "summary")
    ensures MetadataOf(identifiers) == Err(Generic("not expected")) <==>
      |identifiers| >= 2 && identifiers[0].0 == "summary" && identifiers[1].0 == "summary"
  {
    var ids := identifiers;
    if |ids| >= 1 {
      assert ids[..1][..0] == [];
    }
    if |ids| == 1 {
      assert ids[..1] == ids;
    }
    if |ids| >= 2 {
      assert ids[..2][..1] == ids[..1];
      assert MetadataOf(ids[..1]) == MetadataStep(Ok(map[]), ids[0]);
      assert MetadataOf(ids[..2]) == MetadataStep(MetadataOf(ids[..1]), ids[1]);
      MetadataErrStays(ids, 2);
    }
  }

  /** For a real dict, whose keys are distinct, the "not expected" error cannot arise. */
  lemma MetadataOfDictNeverUnexpected(identifiers: Dict)
    requires Distinct(Keys(identifiers))
    ensures MetadataOf(identifiers) != Err(Generic("not expected"))
  {
    MetadataCharacterised(identifiers);
  }

  // ---------------------------------------------------------------- messages

  /** The text between the first two backticks of a message, when it has two. */
  function FirstQuoted(text: string): Option<string> {
    match SplitFirst(text, '`')
    case None => None
    case Some((_, rest)) =>
      match SplitFirst(rest, '`')
      case None => None
      case Some((quoted, _)) => Some(quoted)
  }

  /** Text quoted after a lead free of backticks reads back, when it has no backtick itself. */
  lemma QuotedAfter(lead: string, quoted: string, tail: string)
    requires '`' !in lead && '`' !in quoted
    ensures FirstQuoted(QuoteIn(lead, quoted, tail)) == Some(quoted)
  {
    assert QuoteIn(lead, quoted, tail) == lead + ['`'] + (quoted + ['`'] + tail);
    SplitFirstAt(lead, '`', quoted + ['`'] + tail);
    SplitFirstAt(quoted, '`', tail);
  }

  /**
   * The messages about a calendar quote its id in backticks before any other
   * backtick, so an id without a backtick reads back from the message.
   */
  lemma MessageQuotesCalendarId(m: Message)
    requires m.CreateUnsupported? || m.NotFound? || m.AssetExists? || m.AssetIgnored?
    requires '`' !in m.calendarId
    ensures FirstQuoted(MessageText(m)) == Some(m.calendarId)
  {
    match m
    case CreateUnsupported(id) => QuotedAfter(MissingLead, id, CreateUnsupportedTail);
    case NotFound(id) => QuotedAfter(MissingLead, id, NotFoundTail);
    case AssetExists(id) => QuotedAfter(ExistsLead, id, AssetExistsTail);
    case AssetIgnored(id) => QuotedAfter(IgnoredLead, id, AssetIgnoredTail);
  }

  // ---------------------------------------------------------------- probe

  /** A probe makes at most one call, and it is a search. */
  lemma ProbeAllSearchesOnly(calendarId: string, events: seq<Dict>, props: Option<seq<string>>, search: Searcher)
    ensures forall k :: 0 <= k < |events| ==> NoInserts(ProbeAll(calendarId, events, props, search)[k].1)
  {
    forall k | 0 <= k < |events|
      ensures NoInserts(ProbeAll(calendarId, events, props, search)[k].1)
    {
      ProbeAllAt(calendarId, events, props, search, k);
    }
  }

  /**
   * One event's probe. A missing conflict property raises KeyError before
   * any call; identifiers that give no search parameters (a property other
   * than `summary`) raise the metadata step's exception before any call.
   * The search is made exactly when the identifiers exist and give search
   * parameters, and then once, with those parameters; its answer decides
   * the probe: an HttpError is raised, no items means clear, and some items
   * means a conflict on exactly those ids.
   */
  lemma ProbeEventCharacterised(calendarId: string, event: Dict, props: Option<seq<string>>, search: Searcher)
    ensures var ps := SearchProperties(event, props);
            var (probe, calls) := ProbeEvent(calendarId, event, props, search);
            && ((exists p :: p in ps && !HasKey(event, p)) ==>
                  probe.Failed? && probe.error.MissingKey? && probe.error.key in ps
                  && !HasKey(event, probe.error.key) && calls == [])
            && |calls| <= 1
            && (calls != [] <==> Project(event, ps).Ok? && MetadataOf(Project(event, ps).value).Ok?)
            && (calls == [] ==> probe.Failed?)
            && (Project(event, ps).Ok? && MetadataOf(Project(event, ps).value).Err? ==>
                  probe == Failed(MetadataOf(Project(event, ps).value).error))
            && (calls != [] ==>
                  && calls[0] == Search(calendarId, MetadataOf(Project(event, ps).value).value)
                  && match search(calendarId, calls[0].query)
                     case Err(h) => probe == Failed(Http(h))
                     case Ok(ids) => (probe == Clear <==> |ids| == 0) && (probe.Conflict? <==> |ids| > 0)
                                     && (probe.Conflict? ==> probe.ids == ids))
  {
    ProjectOkIff(event, SearchProperties(event, props));
  }

  /** The conflict loop only ever searches. */
  lemma {:induction false} ScreenSearchesOnly(events: seq<Dict>, onData: Policy, props: Option<seq<string>>,
                                              probes: seq<(Probe, seq<Call>)>, n: nat)
    requires n <= |events| == |probes|
    requires forall k :: 0 <= k < |probes| ==> NoInserts(probes[k].1)
    ensures var r := Screen(events, onData, props, probes, n);
      NoInserts(if r.Proceed? then r.screening.calls else r.calls)
  {
    if n > 0 {
      ScreenSearchesOnly(events, onData, props, probes, n - 1);
    }
  }

  /** As long as the loop goes on, its calls are exactly those of the probes it made. */
  lemma {:induction false} ScreenCalls(events: seq<Dict>, onData: Policy, props: Option<seq<string>>,
                                       probes: seq<(Probe, seq<Call>)>, n: nat)
    requires n <= |events| == |probes|
    requires Screen(events, onData, props, probes, n).Proceed?
    ensures Screen(events, onData, props, probes, n).screening.calls == CallsOf(probes, n)
  {
    if n > 0 {
      ScreenCalls(events, onData, props, probes, n - 1);
    }
  }

  // ---------------------------------------------------------------- partition

  /** Popping the next id from the ids still to create. */
  lemma PopNext(kept: seq<nat>, k: nat, n: nat)
    requires k < n
    requires forall i :: 0 <= i < |kept| ==> kept[i] < k
    ensures Pop(kept + Interval(k, n), k) == kept + Interval(k + 1, n)
  {
    assert Interval(k, n) == [k] + Interval(k + 1, n);
    assert kept + Interval(k, n) == kept + [k] + Interval(k + 1, n);
    PopAt(kept, k, Interval(k + 1, n));
  }

  /** Keeping the next id of the ids still to create. */
  lemma KeepNext(kept: seq<nat>, k: nat, n: nat)
    requires k < n
    ensures kept + Interval(k, n) == (kept + [k]) + Interval(k + 1, n)
  {
    assert Interval(k, n) == [k] + Interval(k + 1, n);
  }

  lemma {:induction false} PopAt(a: seq<nat>, x: nat, b: seq<nat>)
    requires x !in a
    ensures Pop(a + [x] + b, x) == a + b
  {
    if a == [] {
      assert a + [x] + b == [x] + b;
    } else {
      assert (a + [x] + b)[1..] == a[1..] + [x] + b;
      PopAt(a[1..], x, b);
      assert [a[0]] + (a[1..] + b) == a + b;
    }
  }

  lemma {:induction false} ClearIndicesCharacterised(probes: seq<(Probe, seq<Call>)>, n: nat)
    requires n <= |probes|
    ensures Increasing(ClearIndices(probes, n))
    ensures forall j :: 0 <= j < |ClearIndices(probes, n)| ==> ClearIndices(probes, n)[j] < n
    ensures forall i :: i in ClearIndices(probes, n) <==> 0 <= i < n && probes[i].0 == Clear
  {
    if n > 0 {
      ClearIndicesCharacterised(probes, n - 1);
    }
  }

  /**
   * Under `ignore`, after `n` events none of their probes raised, and the ids
   * still to create are those of the first `n` events whose search found
   * nothing, followed by all ids not reached yet.
   */
  lemma {:induction false} IgnoreScreenToCreate(events: seq<Dict>, props: Option<seq<string>>,
                                                probes: seq<(Probe, seq<Call>)>, n: nat)
    requires n <= |events| == |probes|
    requires Screen(events, Ignore, props, probes, n).Proceed?
    ensures Screen(events, Ignore, props, probes, n).screening.toCreate
      == ClearIndices(probes, n) + Interval(n, |events|)
    ensures forall i :: 0 <= i < n ==> !probes[i].0.Failed?
  {
    if n > 0 {
      IgnoreStep(events, props, probes, n);
      IgnoreScreenToCreate(events, props, probes, n - 1);
      ClearIndicesBelow(probes, n - 1);
      var before := ClearIndices(probes, n - 1);
      var prev := Screen(events, Ignore, props, probes, n - 1).screening.toCreate;
      var cur := Screen(events, Ignore, props, probes, n).screening.toCreate;
      assert prev == before + Interval(n - 1, |events|);
      if probes[n - 1].0 == Clear {
        KeepNext(before, n - 1, |events|);
        calc {
          cur;
          prev;
          (before + [n - 1]) + Interval(n, |events|);
          { assert ClearIndices(probes, n) == before + [n - 1]; }
          ClearIndices(probes, n) + Interval(n, |events|);
        }
      } else {
        PopNext(before, n - 1, |events|);
        calc {
          cur;
          Pop(prev, n - 1);
          before + Interval(n, |events|);
          { assert ClearIndices(probes, n) == before + []; }
          ClearIndices(probes, n) + Interval(n, |events|);
        }
      }
    }
  }

  /** One step of the loop under `ignore` that carries on: the probe did not fail, and a clash pops the id. */
  lemma IgnoreStep(events: seq<Dict>, props: Option<seq<string>>, probes: seq<(Probe, seq<Call>)>, n: nat)
    requires 0 < n <= |events| == |probes|
    requires Screen(events, Ignore, props, probes, n).Proceed?
    ensures Screen(events, Ignore, props, probes, n - 1).Proceed?
    ensures !probes[n - 1].0.Failed?
    ensures Screen(events, Ignore, props, probes, n).screening.toCreate
      == if probes[n - 1].0 == Clear then Screen(events, Ignore, props, probes, n - 1).screening.toCreate
         else Pop(Screen(events, Ignore, props, probes, n - 1).screening.toCreate, n - 1)
  {
  }

  lemma {:induction false} ClearIndicesBelow(probes: seq<(Probe, seq<Call>)>, n: nat)
    requires n <= |probes|
    ensures forall j :: 0 <= j < |ClearIndices(probes, n)| ==> ClearIndices(probes, n)[j] < n
  {
    if n > 0 {
      ClearIndicesBelow(probes, n - 1);
    }
  }

  lemma ConflictsOfNext(events: seq<Dict>, probes: seq<(Probe, seq<Call>)>, n: nat)
    requires 0 < n <= |events| == |probes|
    ensures ConflictsOf(events, probes, n) ==
      if probes[n - 1].0.Conflict? then
        ConflictsOf(events, probes, n - 1)[n - 1 := IgnoredEvent(events[n - 1], probes[n - 1].0.ids)]
      else ConflictsOf(events, probes, n - 1)
  {
  }

  /** Under `ignore`, after `n` events the ignored events are the first `n` that conflict. */
  lemma {:induction false} IgnoreScreenIgnored(events: seq<Dict>, props: Option<seq<string>>,
                                               probes: seq<(Probe, seq<Call>)>, n: nat)
    requires n <= |events| == |probes|
    requires Screen(events, Ignore, props, probes, n).Proceed?
    ensures Screen(events, Ignore, props, probes, n).screening.ignored == ConflictsOf(events, probes, n)
  {
    if n > 0 {
      IgnoreScreenIgnored(events, props, probes, n - 1);
      ConflictsOfNext(events, probes, n);
    }
  }

  /**
   * Under `ignore`, when the loop runs through, it splits the events: the ids
   * still to create are exactly those whose search found nothing, in their
   * original order; the ignored events are exactly the others, each recorded
   * under its original index with the ids it conflicts with.
   */
  lemma IgnorePartition(events: seq<Dict>, props: Option<seq<string>>, probes: seq<(Probe, seq<Call>)>)
    requires |events| == |probes|
    requires Screen(events, Ignore, props, probes, |events|).Proceed?
    ensures var s := Screen(events, Ignore, props, probes, |events|).screening;
      && s.toCreate == ClearIndices(probes, |events|)
      && s.ignored == ConflictsOf(events, probes, |events|)
      && Increasing(s.toCreate)
      && (forall i :: i in s.toCreate <==> 0 <= i < |events| && probes[i].0 == Clear)
      && (forall i :: 0 <= i < |events| ==> (i in s.toCreate <==> i !in s.ignored))
  {
    IgnoreScreenToCreate(events, props, probes, |events|);
    IgnoreScreenIgnored(events, props, probes, |events|);
    assert Interval(|events|, |events|) == [];
    ClearIndicesCharacterised(probes, |events|);
  }

  /** A run of clear probes keeps every event and makes exactly the probes' calls. */
  lemma {:induction false} ClearPrefix(events: seq<Dict>, onData: Policy, props: Option<seq<string>>,
                                       probes: seq<(Probe, seq<Call>)>, m: nat)
    requires m <= |events| == |probes|
    requires forall i :: 0 <= i < m ==> probes[i].0 == Clear
    ensures Screen(events, onData, props, probes, m)
      == Proceed(Screening(Interval(0, |events|), map[], CallsOf(probes, m)))
  {
    if m > 0 {
      ClearPrefix(events, onData, props, probes, m - 1);
    }
  }

  /**
   * Under `fail`, the first event whose search finds something ends the loop
   * with a 409 that carries that event and the ids it conflicts with.
   */
  lemma FailFirstConflict(events: seq<Dict>, props: Option<seq<string>>, probes: seq<(Probe, seq<Call>)>,
                          j: nat, ids: seq<string>)
    requires j < |events| == |probes|
    requires forall i :: 0 <= i < j ==> probes[i].0 == Clear
    requires probes[j].0 == Conflict(ids)
    ensures Screen(events, Fail, props, probes, |events|)
      == Exit(Returned(DataConflictResponse(props, events[j], ids)), CallsOf(probes, j + 1))
  {
    ClearPrefix(events, Fail, props, probes, j);
    ExitStays(events, Fail, props, probes, j + 1, |events|);
  }

  /**
   * The loop goes on over events whose probe neither raises nor, under
   * `fail`, finds a conflict.
   */
  lemma {:induction false} NoExitBefore(events: seq<Dict>, onData: Policy, props: Option<seq<string>>,
                                        probes: seq<(Probe, seq<Call>)>, n: nat)
    requires n <= |events| == |probes|
    requires forall i :: 0 <= i < n ==> !probes[i].0.Failed? && (onData == Fail ==> !probes[i].0.Conflict?)
    ensures Screen(events, onData, props, probes, n).Proceed?
  {
    if n > 0 {
      NoExitBefore(events, onData, props, probes, n - 1);
    }
  }

  /**
   * The first probe that raises, once every earlier event has let the loop go
   * on, ends the loop with that exception.
   */
  lemma FirstFailureExits(events: seq<Dict>, onData: Policy, props: Option<seq<string>>,
                          probes: seq<(Probe, seq<Call>)>, j: nat, e: Error)
    requires j < |events| == |probes|
    requires forall i :: 0 <= i < j ==> !probes[i].0.Failed? && (onData == Fail ==> !probes[i].0.Conflict?)
    requires probes[j].0 == Failed(e)
    ensures Screen(events, onData, props, probes, |events|).Exit?
    ensures Screen(events, onData, props, probes, |events|).outcome == Raised(e)
  {
    NoExitBefore(events, onData, props, probes, j);
    ExitStays(events, onData, props, probes, j + 1, |events|);
  }

  /**
   * Under a data policy that is neither `fail` nor `ignore` (an unrecognised
   * string), conflicts are searched for but change nothing: every event stays
   * to be created.
   */
  lemma {:induction false} UnknownPolicyKeepsAll(events: seq<Dict>, name: string, props: Option<seq<string>>,
                                                 probes: seq<(Probe, seq<Call>)>, n: nat)
    requires n <= |events| == |probes|
    requires name !in KnownNames
    requires Screen(events, Unknown(name), props, probes, n).Proceed?
    ensures Screen(events, Unknown(name), props, probes, n).screening.toCreate == Interval(0, |events|)
    ensures Screen(events, Unknown(name), props, probes, n).screening.ignored == map[]
  {
    if n > 0 {
      UnknownPolicyKeepsAll(events, name, props, probes, n - 1);
    }
  }

  // ---------------------------------------------------------------- writes

  /**
   * The insert loop inserts every event of `ids`, in order, and records a
   * failure, under the event's index, exactly for the inserts that failed.
   */
  lemma {:induction false} WriteAllCharacterised(calendarId: string, events: seq<Dict>, ids: seq<nat>, insert: Inserter)
    requires forall i :: 0 <= i < |ids| ==> ids[i] < |events|
    ensures WriteAll(calendarId, events, ids, insert).1 == InsertsOf(calendarId, events, ids)
    ensures forall id :: id in WriteAll(calendarId, events, ids, insert).0 <==>
      id in ids && id < |events| && insert(id, events[id]).Some?
    ensures forall id :: id in WriteAll(calendarId, events, ids, insert).0 ==>
      id < |events| && insert(id, events[id]).Some? &&
      WriteAll(calendarId, events, ids, insert).0[id]
        == FailedWrite(insert(id, events[id]).value, events[id], insert(id, events[id]).value.status)
  {
    if ids != [] {
      var init := ids[..|ids| - 1];
      WriteAllCharacterised(calendarId, events, init, insert);
      assert forall x :: x in ids <==> x in init || x == ids[|ids| - 1];
      assert InsertsOf(calendarId, events, ids)
        == InsertsOf(calendarId, events, init) + [Insert(calendarId, events[ids[|ids| - 1]])];
    }
  }

  /** Over distinct ids, every insert failed exactly when there are as many failures as ids. */
  lemma AllFailedIff(calendarId: string, events: seq<Dict>, ids: seq<nat>, insert: Inserter)
    requires forall i :: 0 <= i < |ids| ==> ids[i] < |events|
    requires Distinct(ids)
    ensures |WriteAll(calendarId, events, ids, insert).0| == |ids| <==>
      forall j :: 0 <= j < |ids| ==> insert(ids[j], events[ids[j]]).Some?
  {
    WriteAllCharacterised(calendarId, events, ids, insert);
    var failed := WriteAll(calendarId, events, ids, insert).0;
    var all := Elements(ids);
    DistinctCard(ids);
    assert failed.Keys <= all;
    if forall j :: 0 <= j < |ids| ==> insert(ids[j], events[ids[j]]).Some? {
      assert failed.Keys == all;
    } else {
      var j :| 0 <= j < |ids| && insert(ids[j], events[ids[j]]).None?;
      assert ids[j] !in failed.Keys;
      assert failed.Keys <= all - {ids[j]};
      SubsetCard(failed.Keys, all - {ids[j]});
    }
  }

  /**
   * The response for the events still to create: 200 "No events to create"
   * when there are none, 201 when no insert failed, and otherwise no status
   * code, one `data.reasons` entry per failed insert, and a message that says
   * whether all or only some inserts failed.
   */
  lemma WriteOutcome(onData: Policy, calendarId: string, events: seq<Dict>, ids: seq<nat>, insert: Inserter,
                     ignored: map<nat, IgnoredEvent>)
    requires forall i :: 0 <= i < |ids| ==> ids[i] < |events|
    requires Distinct(ids)
    ensures var failed := WriteAll(calendarId, events, ids, insert).0;
      var r := Aggregate(onData, ids, failed, ignored);
      && (|ids| == 0 ==> r.statusCode == Some(200) && r.msg == NothingToCreate)
      && (|ids| > 0 && (forall j :: 0 <= j < |ids| ==> insert(ids[j], events[ids[j]]).None?) ==>
            r.statusCode == Some(201) && r.msg == Created)
      && ((exists j :: 0 <= j < |ids| && insert(ids[j], events[ids[j]]).Some?) ==>
            && r.statusCode.None?
            && r.data.Some? && r.data.value.WriteReport? && r.data.value.reasons == Some(failed)
            && (forall id :: id in failed <==> id in ids && id < |events| && insert(id, events[id]).Some?)
            && (r.msg == AllFailed <==> forall j :: 0 <= j < |ids| ==> insert(ids[j], events[ids[j]]).Some?)
            && (r.msg != AllFailed ==> r.msg == SomeFailed))
      && (onData == Ignore && |ignored| > 0 ==>
            if |ids| == 0 then r.ignoredEvents == Some(ignored)
            else r.data.Some? && r.data.value.WriteReport? && r.data.value.ignoredEvents == Some(ignored))
      && (onData != Ignore || |ignored| == 0 ==>
            r.ignoredEvents.None? && (r.data.Some? ==> r.data.value.WriteReport? && r.data.value.ignoredEvents.None?))
  {
    WriteAllCharacterised(calendarId, events, ids, insert);
    AllFailedIff(calendarId, events, ids, insert);
    var failed := WriteAll(calendarId, events, ids, insert).0;
    if exists j :: 0 <= j < |ids| && insert(ids[j], events[ids[j]]).Some? {
      var j :| 0 <= j < |ids| && insert(ids[j], events[ids[j]]).Some?;
      assert ids[j] in failed;
    } else if |ids| > 0 {
      assert failed.Keys == {};
    }
  }

  // ---------------------------------------------------------------- create_events

  /** A calendar listing that fails returns that error's status code, and nothing else is called. */
  lemma ListingFailureReturnsStatus(listing: Result<seq<string>, HttpError>, calendarId: string, events: seq<Dict>,
                                    onAsset: Policy, onData: Policy, props: Option<seq<string>>,
                                    createIfMissing: bool, search: Searcher, insert: Inserter)
    requires listing.Err?
    ensures CreateEventsSpec(listing, calendarId, events, onAsset, onData, props, createIfMissing, search, insert)
      == (Returned(Response(Some(listing.error.status), ListFailed(listing.error.text), None, None)), [])
  {
  }

  /** A missing calendar gives 404, or NotImplementedError when asked to create it; nothing else is called. */
  lemma MissingCalendar(listing: Result<seq<string>, HttpError>, calendarId: string, events: seq<Dict>,
                        onAsset: Policy, onData: Policy, props: Option<seq<string>>,
                        createIfMissing: bool, search: Searcher, insert: Inserter)
    requires listing.Ok? && calendarId !in listing.value
    ensures var (out, calls) := CreateEventsSpec(listing, calendarId, events, onAsset, onData, props, createIfMissing, search, insert);
      && calls == []
      && (createIfMissing ==> out == Raised(NotImplemented(CreateUnsupported(calendarId))))
      && (!createIfMissing ==> out == Returned(Response(Some(404), NotFound(calendarId), None, None)))
  {
  }

  /**
   * For an existing calendar, asset policy `fail` gives 409, `ignore` 204,
   * `replace` NotImplementedError, and data policy `replace` (under any other
   * asset policy) NotImplementedError; none of them searches or inserts.
   */
  lemma PolicyExits(listing: Result<seq<string>, HttpError>, calendarId: string, events: seq<Dict>,
                    onAsset: Policy, onData: Policy, props: Option<seq<string>>,
                    createIfMissing: bool, search: Searcher, insert: Inserter)
    requires listing.Ok? && calendarId in listing.value
    requires onAsset == Fail || onAsset == Ignore || onAsset == Replace || onData == Replace
    ensures var (out, calls) := CreateEventsSpec(listing, calendarId, events, onAsset, onData, props, createIfMissing, search, insert);
      && calls == []
      && (onAsset == Fail ==> out == Returned(Response(Some(409), AssetExists(calendarId), None, None)))
      && (onAsset == Ignore ==> out == Returned(Response(Some(204), AssetIgnored(calendarId), None, None)))
      && (onAsset == Replace ==> out == Raised(NotImplemented(AssetReplaceUnsupported)))
      && (onAsset != Fail && onAsset != Ignore && onAsset != Replace ==> out == Raised(NotImplemented(DataReplaceUnsupported)))
  {
  }

  /** A 409, whichever check produced it, always comes with zero inserts. */
  lemma ConflictMeansNoInserts(listing: Result<seq<string>, HttpError>, calendarId: string, events: seq<Dict>,
                               onAsset: Policy, onData: Policy, props: Option<seq<string>>,
                               createIfMissing: bool, search: Searcher, insert: Inserter)
    ensures var (out, calls) := CreateEventsSpec(listing, calendarId, events, onAsset, onData, props, createIfMissing, search, insert);
      out.Returned? && out.response.statusCode == Some(409) ==> NoInserts(calls)
  {
    if PassesAssetChecks(listing, calendarId, onAsset, onData) && onData != Append {
      var probes := ProbeAll(calendarId, events, props, search);
      ProbeAllSearchesOnly(calendarId, events, props, search);
      ScreenSearchesOnly(events, onData, props, probes, |events|);
    }
  }

  /**
   * Under data policy `append` nothing is searched: every event is inserted,
   * in input order, and the call succeeds with 201 exactly when every insert
   * does (200 when there is no event at all).
   */
  lemma AppendAttemptsEveryEvent(listing: Result<seq<string>, HttpError>, calendarId: string, events: seq<Dict>,
                                 onAsset: Policy, props: Option<seq<string>>,
                                 createIfMissing: bool, search: Searcher, insert: Inserter)
    requires PassesAssetChecks(listing, calendarId, onAsset, Append)
    ensures var (out, calls) := CreateEventsSpec(listing, calendarId, events, onAsset, Append, props, createIfMissing, search, insert);
      && calls == seq(|events|, i requires 0 <= i < |events| => Insert(calendarId, events[i]))
      && out.Returned?
      && (|events| == 0 ==> out.response.statusCode == Some(200))
      && (|events| > 0 ==>
            (out.response.statusCode == Some(201) <==> forall i :: 0 <= i < |events| ==> insert(i, events[i]).None?))
  {
    var ids := Interval(0, |events|);
    if forall j :: 0 <= j < |ids| ==> insert(ids[j], events[ids[j]]).None? {
      forall i | 0 <= i < |events| ensures insert(i, events[i]).None? {
        assert ids[i] == i;
      }
    }
    assert InsertsOf(calendarId, events, ids) == seq(|events|, i requires 0 <= i < |events| => Insert(calendarId, events[i]));
    AppendWritesInterval(listing, calendarId, events, onAsset, props, createIfMissing, search, insert);
    WriteAllCharacterised(calendarId, events, ids, insert);
    WriteOutcome(Append, calendarId, events, ids, insert, map[]);
  }

  /** Under `append` the write-set is every id, in order, and nothing is ignored. */
  lemma AppendWritesInterval(listing: Result<seq<string>, HttpError>, calendarId: string, events: seq<Dict>,
                             onAsset: Policy, props: Option<seq<string>>,
                             createIfMissing: bool, search: Searcher, insert: Inserter)
    requires PassesAssetChecks(listing, calendarId, onAsset, Append)
    ensures var ids := Interval(0, |events|);
      CreateEventsSpec(listing, calendarId, events, onAsset, Append, props, createIfMissing, search, insert)
      == (Returned(Aggregate(Append, ids, WriteAll(calendarId, events, ids, insert).0, map[])),
          WriteAll(calendarId, events, ids, insert).1)
  {
    assert PolicyExit(listing, calendarId, onAsset, Append, createIfMissing).None?;
    var writes := WriteAll(calendarId, events, Interval(0, |events|), insert).1;
    assert [] + writes == writes;
  }

  /**
   * Under data policy `fail`, the first event (in input order) whose search
   * finds something yields a 409 carrying that event and the conflicting ids,
   * and nothing is inserted.
   */
  lemma FailReportsFirstConflict(listing: Result<seq<string>, HttpError>, calendarId: string, events: seq<Dict>,
                                 onAsset: Policy, props: Option<seq<string>>,
                                 createIfMissing: bool, search: Searcher, insert: Inserter, j: nat, ids: seq<string>)
    requires PassesAssetChecks(listing, calendarId, onAsset, Fail)
    requires j < |events|
    requires forall i :: 0 <= i < j ==> ProbeEvent(calendarId, events[i], props, search).0 == Clear
    requires ProbeEvent(calendarId, events[j], props, search).0 == Conflict(ids)
    ensures var (out, calls) := CreateEventsSpec(listing, calendarId, events, onAsset, Fail, props, createIfMissing, search, insert);
      out == Returned(DataConflictResponse(props, events[j], ids)) && NoInserts(calls)
  {
    var probes := ProbeAll(calendarId, events, props, search);
    forall i | 0 <= i <= j
      ensures probes[i] == ProbeEvent(calendarId, events[i], props, search)
    {
      ProbeAllAt(calendarId, events, props, search, i);
    }
    FailFirstConflict(events, props, probes, j, ids);
    ProbeAllSearchesOnly(calendarId, events, props, search);
    ScreenSearchesOnly(events, Fail, props, probes, |events|);
  }

  /**
   * Under any data policy but `append`, the first event whose probe raises
   * (a missing or unsupported conflict property, or a failing search) ends
   * `create_events` with that exception, provided no earlier event ended it;
   * nothing is inserted.
   */
  lemma ProbeFailureRaises(listing: Result<seq<string>, HttpError>, calendarId: string, events: seq<Dict>,
                           onAsset: Policy, onData: Policy, props: Option<seq<string>>,
                           createIfMissing: bool, search: Searcher, insert: Inserter, j: nat, e: Error)
    requires PassesAssetChecks(listing, calendarId, onAsset, onData)
    requires onData != Append
    requires j < |events|
    requires forall i :: 0 <= i < j ==>
      !ProbeEvent(calendarId, events[i], props, search).0.Failed?
      && (onData == Fail ==> !ProbeEvent(calendarId, events[i], props, search).0.Conflict?)
    requires ProbeEvent(calendarId, events[j], props, search).0 == Failed(e)
    ensures var (out, calls) := CreateEventsSpec(listing, calendarId, events, onAsset, onData, props, createIfMissing, search, insert);
      out == Raised(e) && NoInserts(calls)
  {
    var probes := ProbeAll(calendarId, events, props, search);
    forall i | 0 <= i <= j
      ensures probes[i] == ProbeEvent(calendarId, events[i], props, search)
    {
      ProbeAllAt(calendarId, events, props, search, i);
    }
    FirstFailureExits(events, onData, props, probes, j, e);
    ProbeAllSearchesOnly(calendarId, events, props, search);
    ScreenSearchesOnly(events, onData, props, probes, |events|);
  }

  /**
   * Under data policy `ignore`, when no event's probe raises: all events are
   * searched, then exactly the events whose search found nothing are inserted,
   * in input order; the response is the aggregate over those inserts, and it
   * reports every conflicting event under its original index.
   */
  lemma IgnoreOutcome(listing: Result<seq<string>, HttpError>, calendarId: string, events: seq<Dict>,
                      onAsset: Policy, props: Option<seq<string>>,
                      createIfMissing: bool, search: Searcher, insert: Inserter)
    requires PassesAssetChecks(listing, calendarId, onAsset, Ignore)
    requires forall i :: 0 <= i < |events| ==> !ProbeEvent(calendarId, events[i], props, search).0.Failed?
    ensures var probes := ProbeAll(calendarId, events, props, search);
      var kept := ClearIndices(probes, |events|);
      var (out, calls) := CreateEventsSpec(listing, calendarId, events, onAsset, Ignore, props, createIfMissing, search, insert);
      && Increasing(kept)
      && (forall i :: 0 <= i < |kept| ==> kept[i] < |events|)
      && calls == CallsOf(probes, |events|) + InsertsOf(calendarId, events, kept)
      && out == Returned(Aggregate(Ignore, kept, WriteAll(calendarId, events, kept, insert).0, ConflictsOf(events, probes, |events|)))
  {
    var probes := ProbeAll(calendarId, events, props, search);
    forall i | 0 <= i < |events|
      ensures !probes[i].0.Failed?
    {
      ProbeAllAt(calendarId, events, props, search, i);
    }
    IgnoreProceeds(events, props, probes, |events|);
    IgnorePartition(events, props, probes);
    ScreenCalls(events, Ignore, props, probes, |events|);
    var kept := ClearIndices(probes, |events|);
    ClearIndicesCharacterised(probes, |events|);
    WriteAllCharacterised(calendarId, events, kept, insert);
  }

  /** Under `ignore`, the loop runs to the end when no probe raises. */
  lemma {:induction false} IgnoreProceeds(events: seq<Dict>, props: Option<seq<string>>,
                                          probes: seq<(Probe, seq<Call>)>, n: nat)
    requires n <= |events| == |probes|
    requires forall i :: 0 <= i < |probes| ==> !probes[i].0.Failed?
    ensures Screen(events, Ignore, props, probes, n).Proceed?
  {
    if n > 0 {
      IgnoreProceeds(events, props, probes, n - 1);
    }
  }
}

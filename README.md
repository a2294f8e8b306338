# in-n-out clients: the calendar event writer and the Postgres table writer

This project models the write paths of two `in_n_out_clients` connectors in
Dafny and proves what they promise:

- **Google Calendar event writer** (`GoogleCalendarClient.create_events` with
  `_get_calendar_unique_identifier` and `_generate_events_conflict_metadata`).
  It looks the calendar up and applies the asset policy. Then, unless the data
  policy is `append`, it searches the calendar for each event's conflict
  properties. Under `fail` the first clash returns a 409; under `ignore` the
  clashing events are dropped and reported. The remaining events are inserted
  one by one, and the outcome becomes a `{status_code, msg, data}` response.
- **Postgres table writer** (`PostgresClient.write`, its local
  `_get_pg_datatypes`, and the `db_uri` built by the constructor). It maps
  each column's pandas dtype to a SQL type. Unless the data policy is
  `append`, it probes the table with `SELECT DISTINCT <props> FROM <table>`
  and splits the frame into rows that clash and rows that do not. Then it
  either returns a 409 (`fail`) or writes the rows that do not clash (200).

The remote services are inputs of the model, never called:

- the calendar listing, the event search and the event insert are oracle
  parameters;
- the Postgres probe's answer is an oracle `query`, and pandas' string
  rendering of a cell is an oracle `render`.

The calendar searches and inserts, the Postgres probe query and the
`to_sql` write are recorded in a trace, so "nothing is written" and "exactly
these rows are written" can be stated and proved. The calendar listing is an
input and is not recorded.

Files:

| file | contents |
|---|---|
| `wrappers.dfy` | `Option`, `Result` |
| `values.dfy` | JSON-like values; a Python dict as ordered entries; the dict comprehension used for conflict identifiers |
| `text.dfy` | join/split on a separator, decimal rendering and parsing |
| `policies.dfy` | the conflict policies (`append`, `ignore`, `fail`, `replace`, anything else) |
| `google_calendar.dfy` | the calendar model: metadata loop, probe, conflict loop, insert loop, response |
| `google_calendar_properties.dfy` | lemmas about the calendar model |
| `postgres.dfy` | the Postgres model: URI, dtype mapping loop, partition, `write` |
| `postgres_properties.dfy` | lemmas about the Postgres model |

Behaviour of the code that the model keeps as written:

- **No 207 or 400.** The comments at
  `in_n_out_clients/google_calendar_client.py:303-304` ask for 207 on a
  partial insert failure and 400 on a total one. The code returns neither: a
  partial or total insert failure returns no `status_code` at all, and only
  the message tells "all failed" from "some failed".
- **Postgres failure paths.** The Postgres writer returns no error response.
  An unknown dtype raises `KeyError`, and `replace` raises
  `NotImplementedError` with the message "There is currently no support for
  replace strategy".
- **Unrecognised data policies.** A data policy string that names none of the
  four policies is not rejected.
  - The calendar client runs the conflict searches for it but then inserts
    every event.
  - The Postgres writer probes the table for it and then behaves as under
    `ignore`.
- **Message text.** `GoogleCalendar.MessageText` gives the calendar client's
  messages. The Postgres 409 message is "Found {n} that conflict", and the
  Postgres replace message is the one quoted above.

`ConflictResolutionStrategy` (from `in_n_out_clients/in_n_out_types.py`) is
not part of this model. Its members are taken to compare equal to their
lower-case names, as the calendar client's literal comparisons do.

## Model

| member | source | states |
|---|---|---|
| Values.ProjectOkIff | in_n_out_clients/google_calendar_client.py:78-84 | the identifier comprehension fails exactly when the body lacks a property, and then on the first such property |
| Values.ProjectKeys | in_n_out_clients/google_calendar_client.py:79-82 | on success the comprehension's keys are the properties without repetitions, in first-occurrence order |
| Values.ProjectValues | in_n_out_clients/google_calendar_client.py:79-82 | on success each key maps to the body's value for it |
| GoogleCalendar.UniqueIdentifier | in_n_out_clients/google_calendar_client.py:75-87 | the identifier tuple exists iff the body has every property, holds one value per distinct property in order, and otherwise a bare Exception is raised |
| GoogleCalendarProperties.UniqueIdentifierInOrder | in_n_out_clients/google_calendar_client.py:75-87 | for distinct properties the body has, the tuple is exactly the body's values for the properties, in their order |
| GoogleCalendar.GenerateConflictMetadata | in_n_out_clients/google_calendar_client.py:152-172 | the dict-filling loop returns the same result as the metadata fold |
| GoogleCalendar.MetadataErrStays | in_n_out_clients/google_calendar_client.py:163-168 | once the loop raises, later identifiers do not change the outcome |
| GoogleCalendarProperties.MetadataCharacterised | in_n_out_clients/google_calendar_client.py:152-172 | success iff there is at most one identifier and it is `summary`, and then the result maps `q` to its value (one entry per identifier); NotImplementedError iff an unsupported property is met before a second `summary`; "not expected" iff the first two identifiers are both `summary` |
| GoogleCalendarProperties.MetadataOfDictNeverUnexpected | in_n_out_clients/google_calendar_client.py:159-168 | for a real dict (distinct keys) the "not expected" exception cannot arise |
| Policies.ParsePolicy | in_n_out_clients/google_calendar_client.py:215-238 | a policy string maps to the policy of that name, or to "unrecognised" exactly when it names none of the four |
| Policies.ParsePolicyName | in_n_out_clients/google_calendar_client.py:215-238 | every policy the model takes is the one its own name selects |
| GoogleCalendar.CheckCalendarAndPolicies | in_n_out_clients/google_calendar_client.py:183-238 | the calendar lookup and policy dispatch end the call exactly as the early-exit specification says |
| GoogleCalendarProperties.MessageQuotesCalendarId | in_n_out_clients/google_calendar_client.py:202-228 | the missing-calendar, creation, asset-`fail` and asset-`ignore` messages quote the calendar id in backticks before any other backtick, so an id without a backtick reads back from the message |
| GoogleCalendarProperties.ListingFailureReturnsStatus | in_n_out_clients/google_calendar_client.py:183-189 | a failing calendar listing returns its status code, and nothing is searched or inserted |
| GoogleCalendarProperties.MissingCalendar | in_n_out_clients/google_calendar_client.py:191-213 | a missing calendar gives 404, or NotImplementedError when creation is requested; no other call is made |
| GoogleCalendarProperties.PolicyExits | in_n_out_clients/google_calendar_client.py:215-238 | for an existing calendar, asset `fail` gives 409, asset `ignore` gives 204, asset `replace` and data `replace` raise NotImplementedError; none of them calls the API |
| GoogleCalendar.ProbeOne | in_n_out_clients/google_calendar_client.py:259-275 | one event's probe: its conflict properties (the caller's or the event's keys), identifiers, search parameters and at most one search |
| GoogleCalendarProperties.ProbeEventCharacterised | in_n_out_clients/google_calendar_client.py:259-281 | a missing property raises KeyError with no call; identifiers that give no search parameters raise the metadata step's exception (NotImplementedError for a property other than `summary`) with no call; the search is made exactly when identifiers and search parameters exist, once, with those parameters; an HttpError is raised, no items is clear, some items is a conflict on exactly those ids |
| GoogleCalendarProperties.ProbeAllSearchesOnly | in_n_out_clients/google_calendar_client.py:271-273 | a probe's only call is a search |
| GoogleCalendar.ScreenEvents | in_n_out_clients/google_calendar_client.py:248-296 | the conflict loop over all events computes the reference result of the loop: ids still to create, ignored events, calls, or the early exit |
| GoogleCalendar.ScreenStep | in_n_out_clients/google_calendar_client.py:255-296 | one iteration advances the loop's state by exactly one event, and an exit stays final |
| GoogleCalendar.HandleProbe | in_n_out_clients/google_calendar_client.py:277-296 | a failure propagates, a clash under `fail` returns 409, a clash under `ignore` pops the id and records the ignored event, anything else keeps the state |
| GoogleCalendar.ScreenKeptBound | in_n_out_clients/google_calendar_client.py:248-296 | every id still to create is the index of an input event |
| GoogleCalendar.ExitStays | in_n_out_clients/google_calendar_client.py:282-290 | once the loop has returned, later events change nothing |
| GoogleCalendar.PopSubset | in_n_out_clients/google_calendar_client.py:294 | popping an id never adds one |
| GoogleCalendarProperties.ScreenSearchesOnly | in_n_out_clients/google_calendar_client.py:252-296 | the conflict loop never inserts |
| GoogleCalendarProperties.ScreenCalls | in_n_out_clients/google_calendar_client.py:255-296 | while the loop goes on, its calls are exactly the searches of the probes made so far |
| GoogleCalendarProperties.ClearIndicesCharacterised | in_n_out_clients/google_calendar_client.py:292-296 | the reference write-set is increasing and holds exactly the indices whose search found nothing |
| GoogleCalendarProperties.IgnoreScreenToCreate | in_n_out_clients/google_calendar_client.py:292-296 | under `ignore`, after n events the ids to create are the clear ones among them followed by all later ids, and no probe raised |
| GoogleCalendarProperties.IgnoreScreenIgnored | in_n_out_clients/google_calendar_client.py:292-296 | under `ignore`, the ignored events are exactly the clashing events so far, under their original index with their conflicting ids |
| GoogleCalendarProperties.IgnorePartition | in_n_out_clients/google_calendar_client.py:248-296 | under `ignore`, the events to create and the ignored events partition the input, the first in original order |
| GoogleCalendarProperties.IgnoreProceeds | in_n_out_clients/google_calendar_client.py:255-296 | under `ignore` the loop runs to the end when no event's probe raises (a missing or unsupported conflict property, or a failing search) |
| GoogleCalendarProperties.NoExitBefore | in_n_out_clients/google_calendar_client.py:255-296 | the loop goes on over events whose probe neither raises nor, under `fail`, clashes |
| GoogleCalendarProperties.FirstFailureExits | in_n_out_clients/google_calendar_client.py:264-273 | the first probe that raises, with no earlier exit, ends the loop with that exception |
| GoogleCalendarProperties.ClearPrefix | in_n_out_clients/google_calendar_client.py:255-296 | a run of clear probes keeps every event and makes exactly the probes' calls |
| GoogleCalendarProperties.FailFirstConflict | in_n_out_clients/google_calendar_client.py:282-290 | under `fail`, the first clashing event ends the loop with the 409 carrying it and its conflicting ids |
| GoogleCalendarProperties.UnknownPolicyKeepsAll | in_n_out_clients/google_calendar_client.py:277-296 | under an unrecognised data policy clashes change nothing: every event stays to be created and none is ignored |
| GoogleCalendar.InsertEvents | in_n_out_clients/google_calendar_client.py:312-335 | the insert loop computes the reference failures and calls |
| GoogleCalendarProperties.WriteAllCharacterised | in_n_out_clients/google_calendar_client.py:314-335 | every id is inserted once, in order, and a failure is recorded under an id exactly when its insert failed, with that error, event and status |
| GoogleCalendarProperties.AllFailedIff | in_n_out_clients/google_calendar_client.py:336-355 | over distinct ids, there are as many failures as ids exactly when every insert failed |
| GoogleCalendarProperties.WriteOutcome | in_n_out_clients/google_calendar_client.py:305-362 | no ids gives 200 "No events to create"; no failure gives 201; otherwise no status code, `data.reasons` holds exactly the failures, and the message is "none created" exactly when all failed |
| GoogleCalendar.ScreenAndInsert | in_n_out_clients/google_calendar_client.py:246-362 | the conflict loop, insert loop and response together compute their specification |
| GoogleCalendar.CreateEvents | in_n_out_clients/google_calendar_client.py:174-362 | `create_events` returns the specified outcome and makes exactly the specified calls |
| GoogleCalendarProperties.ProbeFailureRaises | in_n_out_clients/google_calendar_client.py:252-273 | under any data policy but `append`, the first event whose probe raises (missing or unsupported conflict property, failing search) ends `create_events` with that exception, and nothing is inserted |
| GoogleCalendarProperties.ConflictMeansNoInserts | in_n_out_clients/google_calendar_client.py:215-219 | every 409, from the asset check or the data check, comes with no insert |
| GoogleCalendarProperties.AppendWritesInterval | in_n_out_clients/google_calendar_client.py:248-252 | under `append` the write-set is every event in input order and nothing is ignored |
| GoogleCalendarProperties.AppendAttemptsEveryEvent | in_n_out_clients/google_calendar_client.py:248-341 | under `append` nothing is searched, every event is inserted in order, and the result is 201 exactly when every insert succeeds (200 for no events) |
| GoogleCalendarProperties.FailReportsFirstConflict | in_n_out_clients/google_calendar_client.py:252-290 | under `fail`, the first event whose search finds something yields the 409 with that event and its conflicting ids, and nothing is inserted |
| GoogleCalendarProperties.IgnoreOutcome | in_n_out_clients/google_calendar_client.py:252-362 | under `ignore`, every event is searched, exactly the clear events are inserted in order, and the response aggregates those inserts and reports every clashing event |
| PostgresProperties.DbUriRoundTrip | in_n_out_clients/postgres_client.py:28-32 | the URI reads back into user, password, host, port and database name |
| Postgres.PgTypeOf | in_n_out_clients/postgres_client.py:95-99 | a timezone-aware column is TIMESTAMP(timezone=True); a named dtype maps iff `DTYPE_MAP` lists it, and the KeyError carries the dtype name |
| PostgresProperties.DtypeMapEntries | in_n_out_clients/postgres_client.py:84-91 | `DTYPE_MAP` lists exactly six dtype names, each with its SQL type |
| Postgres.GetPgDatatypes | in_n_out_clients/postgres_client.py:93-100 | the dict-filling loop returns the same result as the dtype fold |
| Postgres.PgDatatypesErrStays | in_n_out_clients/postgres_client.py:99 | once a lookup raises, later columns do not change the outcome |
| PostgresProperties.PgDatatypesOkIff | in_n_out_clients/postgres_client.py:93-100 | the mapping succeeds iff every column's dtype is mapped, and otherwise fails with the first unmapped dtype name |
| PostgresProperties.PgDatatypesKeys | in_n_out_clients/postgres_client.py:93-100 | the dtype dict has exactly the column names as keys |
| PostgresProperties.PgDatatypesLastWins | in_n_out_clients/postgres_client.py:95-99 | each column name maps to the type of the last column with that name |
| PostgresProperties.ProbeQuerySelects | in_n_out_clients/postgres_client.py:112-115 | the probe query is `SELECT DISTINCT `, the comma-joined properties, ` FROM ` and the table, and the column list splits back into the properties |
| PostgresProperties.KeyCells | in_n_out_clients/postgres_client.py:117 | a row's merge key holds, for each conflict property in order, the row's cell in that column |
| PostgresProperties.KeptCharacterised | in_n_out_clients/postgres_client.py:117-120 | the kept rows are exactly the rows whose key the probe did not return, in original order |
| PostgresProperties.ConflictsCharacterised | in_n_out_clients/postgres_client.py:117-119 | the conflicting rows are exactly the rows whose key the probe returned, in original order |
| PostgresProperties.PartitionCount | in_n_out_clients/postgres_client.py:117-120 | each row is on exactly one side of the split |
| PostgresProperties.NoConflictKeepsAll | in_n_out_clients/postgres_client.py:117-120 | with no conflicting row, the kept rows are the whole frame |
| Postgres.Write | in_n_out_clients/postgres_client.py:75-163 | a raise never writes, and only the merge error follows a probe; a response is 200 or 409; a 200 ends with exactly one write after at most the probe; a 409 writes nothing |
| PostgresProperties.WriteTypesFirst | in_n_out_clients/postgres_client.py:102 | an unmapped dtype raises KeyError before any query or write, whatever the policies and conflict properties |
| PostgresProperties.AppendSkipsProbe | in_n_out_clients/postgres_client.py:104 | `append` writes the whole frame with the mapped types and sends no probe, whatever the conflict properties |
| PostgresProperties.ReplaceRaises | in_n_out_clients/postgres_client.py:105-108 | `replace` raises NotImplementedError with its message before any query or write, whatever the conflict properties |
| PostgresProperties.ProbeFirst | in_n_out_clients/postgres_client.py:109-115 | any other policy first sends the probe over the given properties, or over all columns in column order when none are given |
| PostgresProperties.NoSharedColumnRaises | in_n_out_clients/postgres_client.py:109-117 | when no conflict property is a frame column (none given, or a frame without columns included), the probe is sent and the merge raises; nothing is written |
| PostgresProperties.ConflictCountReadsBack | in_n_out_clients/postgres_client.py:132 | the 409 message is "Found ", the decimal count of conflicting rows, " that conflict", and the count reads back from it |
| PostgresProperties.FailReportsConflicts | in_n_out_clients/postgres_client.py:122-145 | `fail` with a clash gives 409 with the clash count, the properties and the first five clashing rows as string records; only the probe is sent |
| PostgresProperties.WritesKeptRows | in_n_out_clients/postgres_client.py:146-163 | `ignore`, an unrecognised policy, or `fail` without clashes writes exactly the rows that do not clash, in order, and returns 200 |
| PostgresProperties.NoConflictWritesAll | in_n_out_clients/postgres_client.py:148-163 | when nothing clashes every policy but `replace` writes the whole frame |
| PostgresProperties.UnknownPolicyActsAsIgnore | in_n_out_clients/postgres_client.py:122-151 | an unrecognised data policy gives the same outcome and actions as `ignore` |

## Left out

- OAuth token handling, credential files and client construction in the calendar client (I/O and the Google auth SDK).
- `create_calendar`: a draft whose conflict check compares the wrong variable and which always inserts; it has no stable behaviour to specify.
- The Google API transport (`_get_calendars`, `events().list`, `events().insert`, `.execute()`): oracle parameters. The server's free-text `q` matching is unknown; a search is characterised only by the ids it returns.
- The text of an `HttpError`: it is carried as given, and the messages embed it as is.
- Logging in both clients.
- `PostgresClient.initialise_client`, `query`, `_write` and the SQLAlchemy engine: the probe's answer is the oracle `query`, and `to_sql` is recorded as the rows, schema, `if_exists` value and types it is given. What `if_exists` does in the database is not modelled.
- A connection failure in the Postgres constructor (`ConnectionError`) and any database error raised by the probe or the write.
- pandas dtype coercion, NaN comparison and index handling in `merge`: a row clashes when its cells on the conflict properties equal a probe row value for value.
- Cell and event values are abstract: `Value` has no float or datetime case, because the model only compares cells for equality and hands them to `render`; the `float64` and datetime column types appear only in the dtype mapping.
- `to_sql` with `if_exists` set to the asset policy: pandas raises `ValueError` for an asset policy it does not accept as `if_exists` (such as `ignore`), and for `fail` when the table exists. The modelled 200 assumes `to_sql` accepts the asset policy it is given; that exception is not modelled.
- `DataFrame.astype(str)`: the cell rendering is the parameter `render`.
- The Cassandra client and the email client test module: outside the writers modelled here.
- Postgres.Write: where the probe runs, requires the conflict properties to be either all frame columns or none of them. When only some are, pandas merges on the shared columns and adds the others from the table's answer; that merge is not modelled. `append`, `replace` and an unmapped dtype never read the properties and are modelled for any.
- PostgresProperties.NoSharedColumnRaises: the exception is modelled as the merge's `MergeError`, without its text. When the database rejects the probe itself (an empty select list, or a property that is not a table column), the exception comes from the database instead; either way nothing is written.
- GoogleCalendar.MessageText: renders the conflict properties in single quotes, as Python's `repr` does for names without a quote character or backslash; Python renders other names differently.
- PostgresProperties.KeyCells: stated for frames whose column names are distinct; a frame with a repeated column name projects the first column of that name.
- PostgresProperties.ProbeQuerySelects: stated for a non-empty property list none of whose names contains a comma; the client does not quote or escape names. PostgreSQL also folds the unquoted names to lower case, so a mixed-case property makes the probe fail in the database; the model does not capture that failure.
- PostgresProperties.DbUriRoundTrip: stated for a user and host without ':' and a password without '@'; the client does not escape them, so other URIs are ambiguous.
- GoogleCalendarProperties.IgnoreOutcome: stated for runs where no event's probe raises (a missing or unsupported conflict property, or a failing search); the first raising probe ends the call with its exception, which `ProbeFailureRaises` states.

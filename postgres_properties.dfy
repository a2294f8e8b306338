/**
 * What `PostgresClient.write` and its helpers promise: the URI reads back
 * into the constructor arguments, the type map covers exactly the listed
 * dtypes, the merge splits the rows into the clashing and the kept ones in
 * their original order, and each data policy leads to the response and the
 * database actions described in the client.
 */
module PostgresProperties {
  import opened Wrappers
  import opened Values
  import opened Text
  import opened Policies
  import opened Postgres

  // ---------------------------------------------------------------------
  // Connection URI
  // ---------------------------------------------------------------------

  /**
   * The URI determines the connection it was built from, as long as the
   * separators that delimit the user, password and host do not occur in them.
   */
  lemma DbUriRoundTrip(c: Connection)
    requires ':' !in c.user && '@' !in c.password && ':' !in c.host
    ensures ParseDbUri(DbUri(c)) == Some(c)
  {
    var port := IntToDecimal(c.port);
    var r3 := port + ['/'] + c.name;
    var r2 := c.host + [':'] + r3;
    var r1 := c.password + ['@'] + r2;
    var rest := c.user + [':'] + r1;
    assert DbUri(c) == Scheme + rest;
    assert DbUri(c)[|Scheme|..] == rest;
    SplitFirstAt(c.user, ':', r1);
    SplitFirstAt(c.password, '@', r2);
    SplitFirstAt(c.host, ':', r3);
    DecimalHasNoSlash(c.port);
    SplitFirstAt(port, '/', c.name);
    ParseIntToDecimal(c.port);
  }

  lemma DecimalHasNoSlash(i: int)
    ensures '/' !in IntToDecimal(i)
  {
    var s := IntToDecimal(i);
    assert forall k :: 0 <= k < |s| ==> s[k] != '/';
  }

  // ---------------------------------------------------------------------
  // Column types
  // ---------------------------------------------------------------------

  /** The names `DTYPE_MAP` lists, each with its SQL type. */
  lemma DtypeMapEntries()
    ensures DtypeMap.Keys == {"int64", "float64", "datetime64[ns]", "datetime64[ns, UTC]", "bool", "object"}
    ensures PgTypeOf(Named("int64")) == Ok(Integer)
    ensures PgTypeOf(Named("float64")) == Ok(Float)
    ensures PgTypeOf(Named("datetime64[ns]")) == Ok(Timestamp(false))
    ensures PgTypeOf(Named("datetime64[ns, UTC]")) == Ok(Timestamp(true))
    ensures PgTypeOf(Named("bool")) == Ok(Boolean)
    ensures PgTypeOf(Named("object")) == Ok(Varchar)
  {
  }

  /**
   * `_get_pg_datatypes` succeeds exactly when every column's dtype is
   * mapped, and otherwise fails with the dtype name of the first column
   * that is not.
   */
  lemma {:induction false} PgDatatypesOkIff(columns: seq<(string, Dtype)>)
    ensures PgDatatypes(columns).Ok? <==> forall i :: 0 <= i < |columns| ==> PgTypeOf(columns[i].1).Ok?
    ensures PgDatatypes(columns).Err? ==>
      exists i :: 0 <= i < |columns| && PgTypeOf(columns[i].1) == Err(PgDatatypes(columns).error)
        && forall j :: 0 <= j < i ==> PgTypeOf(columns[j].1).Ok?
  {
    if |columns| > 0 {
      var init := columns[..|columns| - 1];
      PgDatatypesOkIff(init);
      assert forall i :: 0 <= i < |init| ==> init[i] == columns[i];
    }
  }

  /** On success the dict has one key per column name. */
  lemma {:induction false} PgDatatypesKeys(columns: seq<(string, Dtype)>)
    requires PgDatatypes(columns).Ok?
    ensures forall name :: name in PgDatatypes(columns).value <==> exists i :: 0 <= i < |columns| && columns[i].0 == name
  {
    if |columns| > 0 {
      var n := |columns|;
      var init := columns[..n - 1];
      PgDatatypesKeys(init);
      var m := PgDatatypes(init).value;
      assert PgDatatypes(columns).value == m[columns[n - 1].0 := PgTypeOf(columns[n - 1].1).value];
      forall name | name in PgDatatypes(columns).value
        ensures exists i :: 0 <= i < n && columns[i].0 == name
      {
        if name != columns[n - 1].0 {
          var i :| 0 <= i < |init| && init[i].0 == name;
          assert columns[i].0 == name;
        }
      }
      forall name | exists i :: 0 <= i < n && columns[i].0 == name
        ensures name in PgDatatypes(columns).value
      {
        var i :| 0 <= i < n && columns[i].0 == name;
        if i < n - 1 {
          assert init[i].0 == name;
        }
      }
    }
  }

  /** No later column shares column `i`'s name. */
  predicate LastWithName(columns: seq<(string, Dtype)>, i: nat)
    requires i < |columns|
  {
    forall j :: i < j < |columns| ==> columns[j].0 != columns[i].0
  }

  /** On success each column name maps to the type of the last column with that name. */
  lemma {:induction false} PgDatatypesLastWins(columns: seq<(string, Dtype)>)
    requires PgDatatypes(columns).Ok?
    ensures forall i :: 0 <= i < |columns| && LastWithName(columns, i) ==>
      columns[i].0 in PgDatatypes(columns).value
      && Ok(PgDatatypes(columns).value[columns[i].0]) == PgTypeOf(columns[i].1)
  {
    if |columns| > 0 {
      var n := |columns|;
      var init := columns[..n - 1];
      PgDatatypesLastWins(init);
      var last := columns[n - 1];
      var m := PgDatatypes(init).value;
      assert PgDatatypes(columns).value == m[last.0 := PgTypeOf(last.1).value];
      forall i | 0 <= i < n - 1 && LastWithName(columns, i)
        ensures columns[i].0 in PgDatatypes(columns).value
        ensures Ok(PgDatatypes(columns).value[columns[i].0]) == PgTypeOf(columns[i].1)
      {
        assert init[i] == columns[i];
        assert columns[i].0 != last.0;
        assert LastWithName(init, i) by {
          forall j | i < j < n - 1 ensures init[j].0 != init[i].0 {
            assert init[j] == columns[j];
          }
        }
      }
    }
  }

  // ---------------------------------------------------------------------
  // Probe query and partition
  // ---------------------------------------------------------------------

  /**
   * The probe query selects exactly the conflict properties, in order, from
   * the target table (when no property contains the separator).
   */
  lemma ProbeQuerySelects(props: seq<string>, table: string)
    requires |props| > 0
    requires forall k :: 0 <= k < |props| ==> ',' !in props[k]
    ensures exists cols :: ProbeQuery(props, table) == "SELECT DISTINCT " + cols + " FROM " + table
                           && Split(cols, ',') == props
  {
    SplitJoin(',', props);
  }

  /**
   * With distinct column names, cell `k` of a row's key is the row's cell in
   * the column named by property `k`.
   */
  lemma KeyCells(f: Frame, props: seq<string>, i: nat)
    requires WellFormed(f) && ValidProps(f, props) && i < |f.rows|
    requires Distinct(ColumnNames(f))
    ensures forall k, c :: 0 <= k < |props| && 0 <= c < |f.columns| && f.columns[c].0 == props[k] ==>
      Key(f, props, i)[k] == f.rows[i][c]
  {
    forall k, c | 0 <= k < |props| && 0 <= c < |f.columns| && f.columns[c].0 == props[k]
      ensures Key(f, props, i)[k] == f.rows[i][c]
    {
      var c' := ColumnIndex(ColumnNames(f), props[k]);
      assert ColumnNames(f)[c'] == ColumnNames(f)[c];
    }
  }

  /** The kept positions are, in increasing order, the first `n` rows that do not clash. */
  lemma {:induction false} KeptCharacterised(f: Frame, props: seq<string>, existing: seq<seq<Value>>, n: nat)
    requires WellFormed(f) && ValidProps(f, props) && n <= |f.rows|
    ensures Increasing(KeptIndices(f, props, existing, n))
    ensures forall i :: i in KeptIndices(f, props, existing, n) <==> 0 <= i < n && !Conflicting(f, props, existing, i)
  {
    if n > 0 {
      KeptCharacterised(f, props, existing, n - 1);
    }
  }

  /** The conflicting positions are, in increasing order, the first `n` rows that clash. */
  lemma {:induction false} ConflictsCharacterised(f: Frame, props: seq<string>, existing: seq<seq<Value>>, n: nat)
    requires WellFormed(f) && ValidProps(f, props) && n <= |f.rows|
    ensures Increasing(ConflictIndices(f, props, existing, n))
    ensures forall i :: i in ConflictIndices(f, props, existing, n) <==> 0 <= i < n && Conflicting(f, props, existing, i)
  {
    if n > 0 {
      ConflictsCharacterised(f, props, existing, n - 1);
    }
  }

  /** Every one of the first `n` rows lands on exactly one side of the split. */
  lemma {:induction false} PartitionCount(f: Frame, props: seq<string>, existing: seq<seq<Value>>, n: nat)
    requires WellFormed(f) && ValidProps(f, props) && n <= |f.rows|
    ensures |KeptIndices(f, props, existing, n)| + |ConflictIndices(f, props, existing, n)| == n
  {
    if n > 0 {
      PartitionCount(f, props, existing, n - 1);
    }
  }

  /** With nothing conflicting, every row is kept, in order. */
  lemma {:induction false} NoConflictKeepsAll(f: Frame, props: seq<string>, existing: seq<seq<Value>>, n: nat)
    requires WellFormed(f) && ValidProps(f, props) && n <= |f.rows|
    requires ConflictIndices(f, props, existing, n) == []
    ensures Rows(f, KeptIndices(f, props, existing, n)) == f.rows[..n]
  {
    if n > 0 {
      var prev := ConflictIndices(f, props, existing, n - 1);
      assert |prev| == 0;
      NoConflictKeepsAll(f, props, existing, n - 1);
    }
  }

  // ---------------------------------------------------------------------
  // write
  // ---------------------------------------------------------------------

  /** The 409 message names the number of conflicting rows, which reads back from it. */
  lemma ConflictCountReadsBack(n: nat)
    ensures var t := WriteMessageText(FoundConflicts(n));
      && |t| > 20 && t[..6] == "Found " && t[|t| - 14..] == " that conflict"
      && ParseNat(t[6..|t| - 14]) == Some(n)
  {
    var t := WriteMessageText(FoundConflicts(n));
    assert t[6..|t| - 14] == NatToDecimal(n);
    ParseNatToDecimal(n);
  }

  /** The rows the probe query returns. */
  function Existing(f: Frame, table: string, props: Option<seq<string>>, query: string -> seq<seq<Value>>): seq<seq<Value>> {
    query(ProbeQuery(ConflictProps(f, props), table))
  }

  /** Every write first maps the column types; a missing type raises before anything reaches the database. */
  lemma WriteTypesFirst(f: Frame, table: string, schema: Option<string>, onAsset: string, onData: string,
                        props: Option<seq<string>>, query: string -> seq<seq<Value>>, render: Value -> string)
    requires WellFormed(f)
    requires PgDatatypes(f.columns).Err?
    ensures Write(f, table, schema, onAsset, onData, props, query, render)
         == (Raised(KeyError(PgDatatypes(f.columns).error)), [])
  {
  }

  /** `append` writes the whole frame without probing the table. */
  lemma AppendSkipsProbe(f: Frame, table: string, schema: Option<string>, onAsset: string,
                         props: Option<seq<string>>, query: string -> seq<seq<Value>>, render: Value -> string)
    requires WellFormed(f)
    requires PgDatatypes(f.columns).Ok?
    ensures Write(f, table, schema, onAsset, "append", props, query, render)
         == (Returned(200, WroteData, None),
             [ToSql(table, schema, onAsset, ColumnNames(f), f.rows, PgDatatypes(f.columns).value)])
  {
  }

  /** `replace` raises before any query or write. */
  lemma ReplaceRaises(f: Frame, table: string, schema: Option<string>, onAsset: string,
                      props: Option<seq<string>>, query: string -> seq<seq<Value>>, render: Value -> string)
    requires WellFormed(f)
    requires PgDatatypes(f.columns).Ok?
    ensures Write(f, table, schema, onAsset, "replace", props, query, render)
         == (Raised(NotImplemented(ReplaceMessage)), [])
  {
  }

  /**
   * Any other policy first sends the probe query, over every column of the
   * frame in column order when the caller names no conflict properties.
   */
  lemma ProbeFirst(f: Frame, table: string, schema: Option<string>, onAsset: string, onData: string,
                   props: Option<seq<string>>, query: string -> seq<seq<Value>>, render: Value -> string)
    requires WellFormed(f) && MergeModelled(f, onData, props)
    requires PgDatatypes(f.columns).Ok?
    requires onData != "append" && onData != "replace"
    ensures |Write(f, table, schema, onAsset, onData, props, query, render).1| > 0
    ensures Write(f, table, schema, onAsset, onData, props, query, render).1[0]
         == Query(ProbeQuery(ConflictProps(f, props), table))
    ensures props.None? ==> ConflictProps(f, props) == ColumnNames(f)
  {
  }

  /**
   * When no conflict property is a frame column, and in particular when
   * there are none (an empty list, or a frame without columns), the probe
   * is sent and the merge then raises; nothing is written.
   */
  lemma NoSharedColumnRaises(f: Frame, table: string, schema: Option<string>, onAsset: string, onData: string,
                             props: Option<seq<string>>, query: string -> seq<seq<Value>>, render: Value -> string)
    requires WellFormed(f)
    requires PgDatatypes(f.columns).Ok?
    requires onData != "append" && onData != "replace"
    requires SharesNone(f, ConflictProps(f, props))
    ensures Write(f, table, schema, onAsset, onData, props, query, render)
         == (Raised(NoCommonColumns), [Query(ProbeQuery(ConflictProps(f, props), table))])
    ensures props.None? ==> |f.columns| == 0
  {
  }

  /**
   * `fail` with at least one clash: 409 with the number of clashing rows,
   * the conflict properties and the first five clashing rows in order;
   * only the probe query reaches the database.
   */
  lemma FailReportsConflicts(f: Frame, table: string, schema: Option<string>, onAsset: string,
                             props: Option<seq<string>>, query: string -> seq<seq<Value>>, render: Value -> string)
    requires WellFormed(f) && ValidProps(f, ConflictProps(f, props)) && |ConflictProps(f, props)| > 0
    requires PgDatatypes(f.columns).Ok?
    requires |ConflictIndices(f, ConflictProps(f, props), Existing(f, table, props, query), |f.rows|)| > 0
    ensures var conflicts := ConflictIndices(f, ConflictProps(f, props), Existing(f, table, props, query), |f.rows|);
            var (out, actions) := Write(f, table, schema, onAsset, "fail", props, query, render);
            && out.Returned? && out.statusCode == 409
            && out.msg == FoundConflicts(|conflicts|)
            && out.data.Some? && out.data.value.properties == ConflictProps(f, props)
            && |out.data.value.firstRows| == (if |conflicts| < 5 then |conflicts| else 5)
            && (forall j :: 0 <= j < |out.data.value.firstRows| ==>
                  out.data.value.firstRows[j] == Record(f, f.rows[conflicts[j]], render))
            && actions == [Query(ProbeQuery(ConflictProps(f, props), table))]
  {
  }

  /**
   * `ignore`, an unrecognised policy, or `fail` with nothing clashing: after
   * the probe, exactly the rows that do not clash are written, in their
   * original order, and the response is 200.
   */
  lemma WritesKeptRows(f: Frame, table: string, schema: Option<string>, onAsset: string, onData: string,
                       props: Option<seq<string>>, query: string -> seq<seq<Value>>, render: Value -> string)
    requires WellFormed(f) && ValidProps(f, ConflictProps(f, props)) && |ConflictProps(f, props)| > 0
    requires PgDatatypes(f.columns).Ok?
    requires onData != "append" && onData != "replace"
    requires onData == "fail" ==>
      ConflictIndices(f, ConflictProps(f, props), Existing(f, table, props, query), |f.rows|) == []
    ensures var ps := ConflictProps(f, props);
            var existing := Existing(f, table, props, query);
            var kept := KeptIndices(f, ps, existing, |f.rows|);
            && Write(f, table, schema, onAsset, onData, props, query, render)
               == (Returned(200, WroteData, None),
                   [Query(ProbeQuery(ps, table)),
                    ToSql(table, schema, onAsset, ColumnNames(f), Rows(f, kept), PgDatatypes(f.columns).value)])
            && Increasing(kept)
            && forall i :: i in kept <==> 0 <= i < |f.rows| && !Conflicting(f, ps, existing, i)
  {
    KeptCharacterised(f, ConflictProps(f, props), Existing(f, table, props, query), |f.rows|);
  }

  /** When nothing clashes, every policy but `replace` writes the whole frame. */
  lemma NoConflictWritesAll(f: Frame, table: string, schema: Option<string>, onAsset: string, onData: string,
                            props: Option<seq<string>>, query: string -> seq<seq<Value>>, render: Value -> string)
    requires WellFormed(f)
    requires PgDatatypes(f.columns).Ok?
    requires onData != "replace"
    requires onData != "append" ==>
      (ValidProps(f, ConflictProps(f, props)) && |ConflictProps(f, props)| > 0
       && ConflictIndices(f, ConflictProps(f, props), Existing(f, table, props, query), |f.rows|) == [])
    ensures var actions := Write(f, table, schema, onAsset, onData, props, query, render).1;
            |actions| > 0 && actions[|actions| - 1].ToSql? && actions[|actions| - 1].rows == f.rows
  {
    if onData == "append" {
      AppendSkipsProbe(f, table, schema, onAsset, props, query, render);
    } else {
      WritesKeptRows(f, table, schema, onAsset, onData, props, query, render);
      NoConflictKeepsAll(f, ConflictProps(f, props), Existing(f, table, props, query), |f.rows|);
      assert f.rows[..|f.rows|] == f.rows;
    }
  }

  /** A policy string the client does not recognise behaves as `ignore`. */
  lemma UnknownPolicyActsAsIgnore(f: Frame, table: string, schema: Option<string>, onAsset: string, onData: string,
                                  props: Option<seq<string>>, query: string -> seq<seq<Value>>, render: Value -> string)
    requires WellFormed(f) && MergeModelled(f, onData, props)
    requires ParsePolicy(onData).Unknown?
    ensures Write(f, table, schema, onAsset, onData, props, query, render)
         == Write(f, table, schema, onAsset, "ignore", props, query, render)
  {
  }
}

/**
 * The SQL helpers of the storage layer's base classes: the statement texts a
 * `Table` builds, the field merging of `JoinHelper`, and the row-count rules of
 * the "simple" single-table queries.  A database transaction appears only as
 * the replies it gives (the rows a SELECT returns and the `rowcount` of a
 * statement).  For `_simple_selectupdate_one` the model also records which
 * statements were executed.
 */
module Storage {
  import opened Wrappers
  import opened Builtins

  /** The exceptions these helpers raise. */
  datatype PyError =
    | TypeError                       // a namedtuple built from a row of the wrong width
    | ValueError                      // a namedtuple given the same field name twice
    | KeyError(key: string)           // `prefixes[name]` with no entry for `name`
    | IndexError                      // `[0]` of an empty result list
    | StoreError(code: int, msg: string)

  /** A `Table` subclass: its class name, `table_name` and `fields`. */
  datatype Table = Table(className: string, tableName: string, fields: seq<string>)

  /** A statement handed to `txn.execute`, with its arguments. */
  datatype Statement<V> = Statement(sql: string, args: seq<V>)

  const SelectWhereClause: string := "SELECT %s FROM %s WHERE %s"
  const SelectClause: string := "SELECT %s FROM %s"
  const InsertClause: string := "INSERT OR REPLACE INTO %s (%s) VALUES (%s)"
  const InsertTxnClause: string := "%s INTO %s (%s) VALUES(%s)"
  const UpdateClause: string := "UPDATE %s SET %s WHERE %s"
  const MaxIdClause: string := "SELECT MAX(id) AS id FROM %s"
  const DottedClause: string := "%s.%s"
  const AssignClause: string := "%s = ?"

  /** Python truthiness of an optional string argument: None and "" are false. */
  predicate Truthy(s: Option<string>)
  {
    s.Some? && s.value != ""
  }

  predicate NoDup(s: seq<string>)
  {
    forall i, j :: 0 <= i < j < |s| ==> s[i] != s[j]
  }

  // ---------------------------------------------------------------------------
  // The statement templates, rendered

  lemma SelectWhereText(f: string, n: string, w: string)
    ensures Format(SelectWhereClause, [f, n, w]) == "SELECT " + f + " FROM " + n + " WHERE " + w
  {
    calc {
      Format(SelectWhereClause, [f, n, w]);
      { assert SelectWhereClause == "SELECT " + ("%s" + (" FROM " + ("%s" + (" WHERE " + ("%s" + "")))));
        Fill3("SELECT ", " FROM ", " WHERE ", "", f, n, w); }
      "SELECT " + (f + (" FROM " + (n + (" WHERE " + (w + "")))));
      "SELECT " + f + " FROM " + n + " WHERE " + w;
    }
  }

  lemma SelectText(f: string, n: string)
    ensures Format(SelectClause, [f, n]) == "SELECT " + f + " FROM " + n
  {
    calc {
      Format(SelectClause, [f, n]);
      { assert SelectClause == "SELECT " + ("%s" + (" FROM " + ("%s" + "")));
        Fill2("SELECT ", " FROM ", "", f, n); }
      "SELECT " + (f + (" FROM " + (n + "")));
      "SELECT " + f + " FROM " + n;
    }
  }

  lemma InsertText(n: string, f: string, p: string)
    ensures Format(InsertClause, [n, f, p]) == "INSERT OR REPLACE INTO " + n + " (" + f + ") VALUES (" + p + ")"
  {
    calc {
      Format(InsertClause, [n, f, p]);
      { assert InsertClause == "INSERT OR REPLACE INTO " + ("%s" + (" (" + ("%s" + (") VALUES (" + ("%s" + ")")))));
        Fill3("INSERT OR REPLACE INTO ", " (", ") VALUES (", ")", n, f, p); }
      "INSERT OR REPLACE INTO " + (n + (" (" + (f + (") VALUES (" + (p + ")")))));
      "INSERT OR REPLACE INTO " + n + " (" + f + ") VALUES (" + p + ")";
    }
  }

  lemma InsertTxnText(verb: string, n: string, f: string, p: string)
    ensures Format(InsertTxnClause, [verb, n, f, p]) == verb + " INTO " + n + " (" + f + ") VALUES(" + p + ")"
  {
    calc {
      Format(InsertTxnClause, [verb, n, f, p]);
      { assert InsertTxnClause == "" + ("%s" + (" INTO " + ("%s" + (" (" + ("%s" + (") VALUES(" + ("%s" + ")")))))));
        Fill4("", " INTO ", " (", ") VALUES(", ")", verb, n, f, p); }
      "" + (verb + (" INTO " + (n + (" (" + (f + (") VALUES(" + (p + ")")))))));
      verb + " INTO " + n + " (" + f + ") VALUES(" + p + ")";
    }
  }

  lemma UpdateText(n: string, s: string, w: string)
    ensures Format(UpdateClause, [n, s, w]) == "UPDATE " + n + " SET " + s + " WHERE " + w
  {
    calc {
      Format(UpdateClause, [n, s, w]);
      { assert UpdateClause == "UPDATE " + ("%s" + (" SET " + ("%s" + (" WHERE " + ("%s" + "")))));
        Fill3("UPDATE ", " SET ", " WHERE ", "", n, s, w); }
      "UPDATE " + (n + (" SET " + (s + (" WHERE " + (w + "")))));
      "UPDATE " + n + " SET " + s + " WHERE " + w;
    }
  }

  lemma MaxIdText(n: string)
    ensures Format(MaxIdClause, [n]) == "SELECT MAX(id) AS id FROM " + n
  {
    assert MaxIdClause == "SELECT MAX(id) AS id FROM " + ("%s" + "");
    assert [n] + [] == [n];
    FormatLast("");
    FormatStep("SELECT MAX(id) AS id FROM ", "", n, []);
  }

  lemma DottedText(prefix: string, field: string)
    ensures Format(DottedClause, [prefix, field]) == prefix + "." + field
  {
    assert DottedClause == "" + ("%s" + ("." + ("%s" + "")));
    Fill2("", ".", "", prefix, field);
  }

  lemma AssignText(key: string)
    ensures Format(AssignClause, [key]) == key + " = ?"
  {
    assert AssignClause == "" + ("%s" + " = ?");
    assert [key] + [] == [key];
    FormatLast(" = ?");
    FormatStep("", " = ?", key, []);
  }

  /** `["%s = ?" % k for k in keys]`: the terms of a WHERE or SET list. */
  function Assigned(keys: seq<string>): (r: seq<string>)
    ensures |r| == |keys|
    ensures forall i :: 0 <= i < |keys| ==> r[i] == keys[i] + " = ?"
  {
    if |keys| == 0 then []
    else
      [keys[0] + " = ?"] + Assigned(keys[1..])
  }

  // ---------------------------------------------------------------------------
  // Table

  /** `[x] * n`. */
  function Repeat(x: string, n: nat): (r: seq<string>)
    ensures |r| == n && forall i :: 0 <= i < n ==> r[i] == x
  {
    seq(n, i => x)
  }

  lemma {:induction false} PlaceholderCount(n: nat)
    ensures CountChar(Join(", ", Repeat("?", n)), '?') == n
  {
    if n == 0 {
    } else if n == 1 {
      assert Join(", ", Repeat("?", 1)) == "?";
    } else {
      var r := Repeat("?", n);
      assert r[1..] == Repeat("?", n - 1);
      PlaceholderCount(n - 1);
      calc {
        CountChar(Join(", ", r), '?');
        CountChar("?" + ", " + Join(", ", r[1..]), '?');
        { CountCharAppend("?" + ", ", Join(", ", r[1..]), '?'); }
        CountChar("?" + ", ", '?') + CountChar(Join(", ", r[1..]), '?');
        { assert "?" + ", " == "?, "; }
        1 + (n - 1);
      }
    }
  }

  /** `", ".join(["?"] * n)`: the placeholder list of an INSERT, one `?` per column. */
  function Placeholders(n: nat): (p: string)
    ensures CountChar(p, '?') == n
    ensures n == 0 <==> p == ""
  {
    PlaceholderCount(n);
    assert n > 0 ==> Join(", ", Repeat("?", n)) != "" by {
      if n > 0 {
        assert CountChar(Join(", ", Repeat("?", n)), '?') > 0;
      }
    }
    Join(", ", Repeat("?", n))
  }

  /** `Table.select_statement(where_clause)`. */
  function SelectStatement(t: Table, whereClause: Option<string>): (sql: string)
    ensures Truthy(whereClause) ==>
      sql == Format(SelectWhereClause, [Join(", ", t.fields), t.tableName, whereClause.value])
    ensures !Truthy(whereClause) ==>
      sql == Format(SelectClause, [Join(", ", t.fields), t.tableName])
  {
    var columns := Join(", ", t.fields);
    if Truthy(whereClause) then
      SelectWhereText(columns, t.tableName, whereClause.value);
      "SELECT " + columns + " FROM " + t.tableName + " WHERE " + whereClause.value
    else
      SelectText(columns, t.tableName);
      "SELECT " + columns + " FROM " + t.tableName
  }

  /**
   * `Table.insert_statement()`: every field, in order, and one `?` per field
   * (which is the whole count of `?`s when no name contains one).
   */
  function InsertStatement(t: Table): (sql: string)
    ensures sql == Format(InsertClause, [t.tableName, Join(", ", t.fields), Placeholders(|t.fields|)])
    ensures '?' !in t.tableName && (forall i :: 0 <= i < |t.fields| ==> '?' !in t.fields[i]) ==>
      CountChar(sql, '?') == |t.fields|
  {
    InsertText(t.tableName, Join(", ", t.fields), Placeholders(|t.fields|));
    InsertPlaceholderCount(t.tableName, t.fields);
    "INSERT OR REPLACE INTO " + t.tableName + " (" + Join(", ", t.fields) + ") VALUES ("
      + Placeholders(|t.fields|) + ")"
  }

  /** The placeholder count of the insert text, kept apart from its template. */
  lemma InsertPlaceholderCount(name: string, fields: seq<string>)
    ensures '?' !in name && (forall i :: 0 <= i < |fields| ==> '?' !in fields[i]) ==>
      CountChar("INSERT OR REPLACE INTO " + name + " (" + Join(", ", fields) + ") VALUES ("
                + Placeholders(|fields|) + ")", '?') == |fields|
  {
    if '?' !in name && forall i :: 0 <= i < |fields| ==> '?' !in fields[i] {
      JoinAvoids(", ", fields, '?');
      var head := "INSERT OR REPLACE INTO " + name + " (" + Join(", ", fields) + ") VALUES (";
      var p := Placeholders(|fields|);
      CountCharAbsent(head, '?');
      CountCharAbsent(")", '?');
      CountCharAppend(head, p, '?');
      CountCharAppend(head + p, ")", '?');
    }
  }

  /** `["%s.%s" % (prefix, f) for f in fields]`. */
  function PrefixAll(prefix: string, fields: seq<string>): (r: seq<string>)
    ensures |r| == |fields|
    ensures forall i :: 0 <= i < |fields| ==> r[i] == prefix + "." + fields[i]
  {
    if |fields| == 0 then [] else [prefix + "." + fields[0]] + PrefixAll(prefix, fields[1..])
  }

  /**
   * `Table.get_fields_string(prefix)`: the fields joined by ", ", in order,
   * each written `prefix.field` when a prefix is given.
   */
  function GetFieldsString(t: Table, prefix: Option<string>): (s: string)
    ensures s == Join(", ", seq(|t.fields|, i requires 0 <= i < |t.fields| =>
                   if Truthy(prefix) then prefix.value + "." + t.fields[i] else t.fields[i]))
  {
    var entries := if Truthy(prefix) then PrefixAll(prefix.value, t.fields) else t.fields;
    assert entries == seq(|t.fields|, i requires 0 <= i < |t.fields| =>
                   if Truthy(prefix) then prefix.value + "." + t.fields[i] else t.fields[i]);
    Join(", ", entries)
  }

  /** An instance of a table's `EntryType` namedtuple. */
  datatype Entry<V> = Entry(fields: seq<string>, values: seq<V>)

  /** `EntryType(*row)`: a namedtuple accepts exactly as many values as it has fields. */
  function MakeEntry<V>(fields: seq<string>, row: seq<V>): Result<Entry<V>, PyError>
  {
    if |row| == |fields| then Success(Entry(fields, row)) else Failure(TypeError)
  }

  /** `Table.decode_results(results)`: one entry per row, in order. */
  function DecodeResults<V>(fields: seq<string>, rows: seq<seq<V>>): (r: Result<seq<Entry<V>>, PyError>)
    ensures r.Success? <==> forall i :: 0 <= i < |rows| ==> |rows[i]| == |fields|
    ensures r.Failure? ==> r.error == TypeError
    ensures r.Success? ==> |r.value| == |rows|
    ensures r.Success? ==> forall i :: 0 <= i < |rows| ==> r.value[i] == Entry(fields, rows[i])
  {
    if |rows| == 0 then Success([])
    else
      match MakeEntry(fields, rows[0])
      case Failure(e) => Failure(e)
      case Success(first) =>
        match DecodeResults(fields, rows[1..])
        case Failure(e) => Failure(e)
        case Success(rest) => Success([first] + rest)
  }

  /** `Table.decode_single_result(results)`: None for no rows, else the first row decoded. */
  function DecodeSingleResult<V>(t: Table, results: seq<seq<V>>): (r: Result<Option<Entry<V>>, PyError>)
    ensures |results| == 0 ==> r == Success(None)
    ensures |results| > 0 ==> (r.Success? <==> |results[0]| == |t.fields|)
    ensures |results| > 0 && r.Success? ==> r.value == Some(Entry(t.fields, results[0]))
    ensures r.Failure? ==> r.error == TypeError
  {
    if |results| == 0 then Success(None)
    else
      match MakeEntry(t.fields, results[0])
      case Failure(e) => Failure(e)
      case Success(entry) => Success(Some(entry))
  }

  /**
   * Decoding one result is decoding the first row alone: the same entry when
   * it fits the table, the same error when it does not; later rows are never
   * looked at.
   */
  lemma SingleResultIsFirstResult<V>(t: Table, results: seq<seq<V>>)
    requires |results| > 0
    ensures DecodeSingleResult(t, results) ==
      match DecodeResults(t.fields, results[..1])
      case Success(entries) => Success(Some(entries[0]))
      case Failure(e) => Failure(e)
  {
  }

  // ---------------------------------------------------------------------------
  // JoinHelper

  /** Every field of every table, table by table in argument order. */
  function AllFields(tables: seq<Table>): seq<string>
  {
    if |tables| == 0 then [] else AllFields(tables[..|tables| - 1]) + tables[|tables| - 1].fields
  }

  /** `[f for f in fields if f not in seen]`. */
  function Unseen(fields: seq<string>, seen: seq<string>): (r: seq<string>)
    ensures forall x :: x in r <==> x in fields && x !in seen
    ensures |r| <= |fields|
  {
    if |fields| == 0 then []
    else
      var last := fields[|fields| - 1];
      Unseen(fields[..|fields| - 1], seen) + (if last in seen then [] else [last])
  }

  /**
   * The list `res` that `JoinHelper.__init__` builds: each table adds those of
   * its fields that no EARLIER table has.
   */
  function MergedFields(tables: seq<Table>): (r: seq<string>)
    ensures forall x :: x in r <==> x in AllFields(tables)
  {
    if |tables| == 0 then []
    else
      var before := MergedFields(tables[..|tables| - 1]);
      before + Unseen(tables[|tables| - 1].fields, before)
  }

  /** The reference: each element kept at its first occurrence, later repeats dropped. */
  function Dedup(s: seq<string>): (r: seq<string>)
    ensures forall x :: x in r <==> x in s
  {
    if |s| == 0 then []
    else
      var last := s[|s| - 1];
      Dedup(s[..|s| - 1]) + (if last in s[..|s| - 1] then [] else [last])
  }

  lemma {:induction false} DedupNoDup(s: seq<string>)
    ensures NoDup(Dedup(s))
  {
    if |s| > 0 {
      DedupNoDup(s[..|s| - 1]);
    }
  }

  /** Dropping the last field keeps the unseen fields free of repeats, and a last field not seen occurs once. */
  lemma UnseenDropLast(fields: seq<string>, seen: seq<string>)
    requires |fields| > 0 && NoDup(Unseen(fields, seen))
    ensures NoDup(Unseen(fields[..|fields| - 1], seen))
    ensures fields[|fields| - 1] !in seen ==> fields[|fields| - 1] !in fields[..|fields| - 1]
  {
    var init := fields[..|fields| - 1];
    var last := fields[|fields| - 1];
    var all := Unseen(fields, seen);
    var newer := Unseen(init, seen);
    assert all == newer + (if last in seen then [] else [last]);
    forall i, j | 0 <= i < j < |newer|
      ensures newer[i] != newer[j]
    {
      assert newer[i] == all[i] && newer[j] == all[j];
    }
    if last !in seen {
      assert all[|newer|] == last;
      assert forall k :: 0 <= k < |newer| ==> newer[k] == all[k] != last;
    }
  }

  /**
   * Extending a list appends, to its deduplication, exactly the new fields not
   * seen before, provided those unseen fields are themselves free of repeats.
   */
  lemma {:induction false} DedupAppend(a: seq<string>, fields: seq<string>)
    requires NoDup(Unseen(fields, Dedup(a)))
    ensures Dedup(a + fields) == Dedup(a) + Unseen(fields, Dedup(a))
  {
    if |fields| == 0 {
      assert a + fields == a;
    } else {
      var init := fields[..|fields| - 1];
      var last := fields[|fields| - 1];
      var kept := if last in Dedup(a) then [] else [last];
      calc {
        Dedup(a + fields);
        { UnseenDropLast(fields, Dedup(a)); DedupLastStep(a, fields); }
        Dedup(a + init) + kept;
        { UnseenDropLast(fields, Dedup(a)); DedupAppend(a, init); }
        Dedup(a) + Unseen(init, Dedup(a)) + kept;
        Dedup(a) + (Unseen(init, Dedup(a)) + kept);
        { UnseenDropLast(fields, Dedup(a)); DedupLastStep(a, fields); }
        Dedup(a) + Unseen(fields, Dedup(a));
      }
    }
  }

  /**
   * Appending the last field: when it is new to the rest or already kept from
   * `a`, the deduplication and the unseen fields both gain it exactly when `a`
   * does not already have it.
   */
  lemma DedupLastStep(a: seq<string>, fields: seq<string>)
    requires |fields| > 0
    requires fields[|fields| - 1] in Dedup(a) || fields[|fields| - 1] !in fields[..|fields| - 1]
    ensures var last := fields[|fields| - 1];
            var kept := if last in Dedup(a) then [] else [last];
            Dedup(a + fields) == Dedup(a + fields[..|fields| - 1]) + kept &&
            Unseen(fields, Dedup(a)) == Unseen(fields[..|fields| - 1], Dedup(a)) + kept
  {
    var init := fields[..|fields| - 1];
    var last := fields[|fields| - 1];
    var s := a + fields;
    assert s[..|s| - 1] == a + init && s[|s| - 1] == last;
    DedupUnfold(s);
    assert (last in a + init) == (last in Dedup(a));
  }

  lemma DedupUnfold(s: seq<string>)
    requires |s| > 0
    ensures Dedup(s) == Dedup(s[..|s| - 1]) + (if s[|s| - 1] in s[..|s| - 1] then [] else [s[|s| - 1]])
  {
  }

  /**
   * Whenever JoinHelper's field list has no repeats (exactly when the
   * namedtuple accepts it), it is every field of every table once, in
   * first-seen order.
   */
  lemma {:induction false} MergedIsDedup(tables: seq<Table>)
    requires NoDup(MergedFields(tables))
    ensures MergedFields(tables) == Dedup(AllFields(tables))
  {
    if |tables| > 0 {
      var init := tables[..|tables| - 1];
      var before := MergedFields(init);
      var added := Unseen(tables[|tables| - 1].fields, before);
      assert MergedFields(tables) == before + added;
      assert NoDup(before) by {
        forall i, j | 0 <= i < j < |before|
          ensures before[i] != before[j]
        {
          assert before[i] == MergedFields(tables)[i] && before[j] == MergedFields(tables)[j];
        }
      }
      assert NoDup(added) by {
        forall i, j | 0 <= i < j < |added|
          ensures added[i] != added[j]
        {
          assert added[i] == MergedFields(tables)[|before| + i];
          assert added[j] == MergedFields(tables)[|before| + j];
        }
      }
      MergedIsDedup(init);
      DedupAppend(AllFields(init), tables[|tables| - 1].fields);
    }
  }

  /** No table repeating a field of its own is enough for the merged list to have no repeats. */
  lemma {:induction false} MergedNoDupWhenTablesNoDup(tables: seq<Table>)
    requires forall i :: 0 <= i < |tables| ==> NoDup(tables[i].fields)
    ensures NoDup(MergedFields(tables))
  {
    if |tables| > 0 {
      var init := tables[..|tables| - 1];
      var fields := tables[|tables| - 1].fields;
      var before := MergedFields(init);
      var added := Unseen(fields, before);
      MergedNoDupWhenTablesNoDup(init);
      UnseenNoDup(fields, before);
      forall i, j | 0 <= i < j < |before + added|
        ensures (before + added)[i] != (before + added)[j]
      {
        if j >= |before| && i < |before| {
          assert (before + added)[j] in added;
        }
      }
    }
  }

  /** Filtering a list without repeats keeps it without repeats. */
  lemma {:induction false} UnseenNoDup(fields: seq<string>, seen: seq<string>)
    requires NoDup(fields)
    ensures NoDup(Unseen(fields, seen))
  {
    if |fields| > 0 {
      var init := fields[..|fields| - 1];
      var last := fields[|fields| - 1];
      assert NoDup(init);
      assert last !in init;
      UnseenNoDup(init, seen);
    }
  }

  /**
   * A field that a later table repeats but an earlier table already has is
   * dropped both times, so the merged list is accepted and is the reference.
   */
  lemma EarlierTableAbsorbsRepeat(a: Table, b: Table, f: string)
    requires a.fields == [f] && b.fields == [f, f]
    ensures MergedFields([a, b]) == [f]
    ensures MergedFields([a, b]) == Dedup(AllFields([a, b]))
  {
    assert [a, b][..1] == [a] && [a][..0] == [];
    assert MergedFields([a]) == Unseen([f], []);
    assert [f][..0] == [] && [f, f][..1] == [f];
    assert Unseen([f], []) == [f];
    assert Unseen([f], [f]) == [];
    assert Unseen([f, f], [f]) == [];
    assert MergedFields([a, b]) == [f];
    MergedIsDedup([a, b]);
  }

  /**
   * A field repeated inside one table is filtered only against the earlier
   * tables, so both copies reach the namedtuple (which then refuses them).
   */
  lemma RepeatedFieldSurvives(t: Table, f: string)
    requires t.fields == [f, f]
    ensures MergedFields([t]) == [f, f]
  {
    assert [t][..0] == [];
    assert MergedFields([t][..0]) == [];
    assert [f, f][..1] == [f] && [f][..0] == [];
    assert Unseen([f], []) == [f];
    assert Unseen([f, f], []) == [f, f];
  }

  /** The loop of `JoinHelper.__init__` that builds `res`. */
  method MergeFields(tables: seq<Table>) returns (res: seq<string>)
    ensures res == MergedFields(tables)
  {
    res := [];
    var i := 0;
    while i < |tables|
      invariant 0 <= i <= |tables|
      invariant res == MergedFields(tables[..i])
    {
      assert tables[..i + 1][..i] == tables[..i];
      res := res + Unseen(tables[i].fields, res);
      i := i + 1;
    }
    assert tables[..|tables|] == tables;
  }

  /** Index of the first table (in argument order) that has `field`. */
  function OwnerIndex(tables: seq<Table>, field: string): (k: Option<nat>)
    ensures k.Some? ==> k.value < |tables| && field in tables[k.value].fields
    ensures k.Some? ==> forall j :: 0 <= j < k.value ==> field !in tables[j].fields
    ensures k.None? ==> forall j :: 0 <= j < |tables| ==> field !in tables[j].fields
  {
    if |tables| == 0 then None
    else if field in tables[0].fields then Some(0)
    else
      match OwnerIndex(tables[1..], field)
      case None => None
      case Some(k) => Some(k + 1)
  }

  lemma {:induction false} OwnerOfEveryField(tables: seq<Table>, field: string)
    requires field in AllFields(tables)
    ensures OwnerIndex(tables, field).Some?
  {
    if |tables| > 0 {
      if field in AllFields(tables[..|tables| - 1]) {
        OwnerOfEveryField(tables[..|tables| - 1], field);
        var k := OwnerIndex(tables[..|tables| - 1], field).value;
        assert field in tables[k].fields;
      } else {
        assert field in tables[|tables| - 1].fields;
      }
    }
  }

  /**
   * The entries `get_fields` collects, field by field: `prefix.field` with the
   * prefix of the first table that has the field; a missing prefix raises.
   */
  function PrefixedFields(fields: seq<string>, tables: seq<Table>, prefixes: map<string, string>)
    : Result<seq<string>, PyError>
  {
    if |fields| == 0 then Success([])
    else
      match PrefixedFields(fields[..|fields| - 1], tables, prefixes)
      case Failure(e) => Failure(e)
      case Success(done) =>
        var field := fields[|fields| - 1];
        match OwnerIndex(tables, field)
        case None => Success(done)
        case Some(k) =>
          var name := tables[k].className;
          if name in prefixes then Success(done + [prefixes[name] + "." + field])
          else Failure(KeyError(name))
  }

  /** Once collecting the entries has raised, later fields do not change the outcome. */
  lemma {:induction false} PrefixedFieldsFailureSticks(fields: seq<string>, i: nat, tables: seq<Table>,
                                                        prefixes: map<string, string>)
    requires i <= |fields|
    requires PrefixedFields(fields[..i], tables, prefixes).Failure?
    ensures PrefixedFields(fields, tables, prefixes) == PrefixedFields(fields[..i], tables, prefixes)
    decreases |fields|
  {
    if i == |fields| {
      assert fields[..i] == fields;
    } else {
      var init := fields[..|fields| - 1];
      assert init[..i] == fields[..i];
      PrefixedFieldsFailureSticks(init, i, tables, prefixes);
    }
  }

  /** The prefixed name of a field: the prefix of the first table that has it. */
  function OwnerPrefixed(tables: seq<Table>, prefixes: map<string, string>, field: string): string
    requires OwnerIndex(tables, field).Some?
    requires tables[OwnerIndex(tables, field).value].className in prefixes
  {
    prefixes[tables[OwnerIndex(tables, field).value].className] + "." + field
  }

  /**
   * One entry per field, in order, each prefixed by the first table that has
   * it, when every field comes from some table and every table has a prefix.
   */
  lemma {:induction false} PrefixedFieldsOnePerField(fields: seq<string>, tables: seq<Table>,
                                                      prefixes: map<string, string>)
    requires forall i :: 0 <= i < |fields| ==> fields[i] in AllFields(tables)
    requires forall j :: 0 <= j < |tables| ==> tables[j].className in prefixes
    ensures forall i :: 0 <= i < |fields| ==> OwnerIndex(tables, fields[i]).Some?
    ensures PrefixedFields(fields, tables, prefixes).Success?
    ensures |PrefixedFields(fields, tables, prefixes).value| == |fields|
    ensures forall i :: 0 <= i < |fields| ==>
      PrefixedFields(fields, tables, prefixes).value[i] == OwnerPrefixed(tables, prefixes, fields[i])
  {
    forall i | 0 <= i < |fields| ensures OwnerIndex(tables, fields[i]).Some? {
      OwnerOfEveryField(tables, fields[i]);
    }
    if |fields| > 0 {
      var init := fields[..|fields| - 1];
      var last := fields[|fields| - 1];
      assert forall i :: 0 <= i < |init| ==> init[i] == fields[i];
      PrefixedFieldsOnePerField(init, tables, prefixes);
      var done := PrefixedFields(init, tables, prefixes).value;
      assert PrefixedFields(fields, tables, prefixes) == Success(done + [OwnerPrefixed(tables, prefixes, last)]);
    }
  }

  /**
   * For the helper's own merged field list and a prefix for every table,
   * `get_fields` lists every merged field exactly once, in order, under the
   * prefix of the first table that has it.
   */
  lemma GetFieldsCoversMergedFields(tables: seq<Table>, prefixes: map<string, string>)
    requires forall j :: 0 <= j < |tables| ==> tables[j].className in prefixes
    ensures var merged := MergedFields(tables);
            var r := PrefixedFields(merged, tables, prefixes);
            r.Success? && |r.value| == |merged| &&
            forall i :: 0 <= i < |merged| ==> OwnerIndex(tables, merged[i]).Some? &&
                                              r.value[i] == OwnerPrefixed(tables, prefixes, merged[i])
  {
    var merged := MergedFields(tables);
    assert forall i :: 0 <= i < |merged| ==> merged[i] in AllFields(tables);
    PrefixedFieldsOnePerField(merged, tables, prefixes);
  }

  /** A JoinHelper: its tables and the fields of its `EntryType`. */
  datatype JoinHelper = JoinHelper(tables: seq<Table>, entryFields: seq<string>)
  {
    /** `JoinHelper.get_fields(**prefixes)`. */
    method GetFields(prefixes: map<string, string>) returns (r: Result<string, PyError>)
      ensures r == match PrefixedFields(entryFields, tables, prefixes)
                   case Success(entries) => Success(Join(", ", entries))
                   case Failure(e) => Failure(e)
    {
      var res: seq<string> := [];
      var i := 0;
      while i < |entryFields|
        invariant 0 <= i <= |entryFields|
        invariant PrefixedFields(entryFields[..i], tables, prefixes) == Success(res)
      {
        var field := entryFields[i];
        assert entryFields[..i + 1][..i] == entryFields[..i];
        var k := 0;
        while k < |tables| && field !in tables[k].fields
          invariant 0 <= k <= |tables|
          invariant forall j :: 0 <= j < k ==> field !in tables[j].fields
        {
          k := k + 1;
        }
        if k < |tables| {
          assert OwnerIndex(tables, field) == Some(k);
          var name := tables[k].className;
          if name !in prefixes {
            assert PrefixedFields(entryFields[..i + 1], tables, prefixes) == Failure(KeyError(name));
            PrefixedFieldsFailureSticks(entryFields, i + 1, tables, prefixes);
            return Failure(KeyError(name));
          }
          res := res + [prefixes[name] + "." + field];
        } else {
          assert OwnerIndex(tables, field).None?;
        }
        i := i + 1;
      }
      assert entryFields[..|entryFields|] == entryFields;
      return Success(Join(", ", res));
    }

    /** `JoinHelper.decode_results(rows)`. */
    function DecodeRows<V>(rows: seq<seq<V>>): (r: Result<seq<Entry<V>>, PyError>)
      ensures r.Success? ==> |r.value| == |rows|
    {
      DecodeResults(entryFields, rows)
    }
  }

  /**
   * `JoinHelper(*tables)`: merges the tables' fields and builds the `EntryType`
   * namedtuple, which raises ValueError on a repeated field name.
   */
  method NewJoinHelper(tables: seq<Table>) returns (r: Result<JoinHelper, PyError>)
    ensures r.Success? <==> NoDup(MergedFields(tables))
    ensures r.Success? ==> r.value == JoinHelper(tables, MergedFields(tables))
    ensures r.Success? ==> r.value.entryFields == Dedup(AllFields(tables))
    ensures r.Failure? ==> r.error == ValueError
  {
    var res := MergeFields(tables);
    if NoDup(res) {
      MergedIsDedup(tables);
      return Success(JoinHelper(tables, res));
    }
    return Failure(ValueError);
  }

  // ---------------------------------------------------------------------------
  // SQLBaseStore

  function Keys<V>(kvs: seq<(string, V)>): (ks: seq<string>)
    ensures |ks| == |kvs| && forall i :: 0 <= i < |kvs| ==> ks[i] == kvs[i].0
  {
    seq(|kvs|, i requires 0 <= i < |kvs| => kvs[i].0)
  }

  function Values<V>(kvs: seq<(string, V)>): (vs: seq<V>)
    ensures |vs| == |kvs| && forall i :: 0 <= i < |kvs| ==> vs[i] == kvs[i].1
  {
    seq(|kvs|, i requires 0 <= i < |kvs| => kvs[i].1)
  }

  /**
   * The statement `_simple_insert_txn` executes for a dict of values (given in
   * the dict's iteration order): its columns and `?`s line up with the
   * arguments, and it replaces exactly when asked to.
   */
  function SimpleInsertTxn<V>(table: string, values: seq<(string, V)>, orReplace: bool): (st: Statement<V>)
    ensures |st.args| == |values| && forall i :: 0 <= i < |values| ==> st.args[i] == values[i].1
  {
    var verb := if orReplace then "INSERT OR REPLACE" else "INSERT";
    Statement(verb + " INTO " + table + " (" + Join(", ", Keys(values)) + ") VALUES(" + Placeholders(|values|) + ")",
              Values(values))
  }

  /** The INSERT text is the source's `%` template filled in. */
  lemma InsertTxnTemplate<V>(table: string, values: seq<(string, V)>, orReplace: bool)
    ensures SimpleInsertTxn(table, values, orReplace).sql ==
            Format(InsertTxnClause, [if orReplace then "INSERT OR REPLACE" else "INSERT", table,
                                     Join(", ", Keys(values)), Placeholders(|values|)])
  {
    InsertTxnText(if orReplace then "INSERT OR REPLACE" else "INSERT", table,
                  Join(", ", Keys(values)), Placeholders(|values|));
  }

  lemma InsertOrReplaceExactlyWhenAsked<V>(table: string, values: seq<(string, V)>, orReplace: bool)
    ensures "INSERT OR REPLACE INTO " <= SimpleInsertTxn(table, values, orReplace).sql <==> orReplace
    ensures "INSERT INTO " <= SimpleInsertTxn(table, values, orReplace).sql <==> !orReplace
  {
    var verb := if orReplace then "INSERT OR REPLACE" else "INSERT";
    var columns := Join(", ", Keys(values));
    var p := Placeholders(|values|);
    var tail := table + " (" + columns + ") VALUES(" + p + ")";
    var sql := SimpleInsertTxn(table, values, orReplace).sql;
    assert sql == verb + " INTO " + table + " (" + columns + ") VALUES(" + p + ")";
    assert sql == verb + " INTO " + tail;
    assert verb + " INTO " == if orReplace then "INSERT OR REPLACE INTO " else "INSERT INTO ";
    VerbDecides(tail);
  }

  lemma VerbDecides(tail: string)
    ensures "INSERT OR REPLACE INTO " <= "INSERT OR REPLACE INTO " + tail
    ensures !("INSERT INTO " <= "INSERT OR REPLACE INTO " + tail)
    ensures "INSERT INTO " <= "INSERT INTO " + tail
    ensures !("INSERT OR REPLACE INTO " <= "INSERT INTO " + tail)
  {
    assert ("INSERT OR REPLACE INTO " + tail)[7] == 'O';
    assert ("INSERT INTO " + tail)[7] == 'I';
  }

  /**
   * When neither the table name nor any column name contains a `?`, the
   * statement holds exactly one placeholder per argument.
   */
  lemma InsertPlaceholdersMatchArguments<V>(table: string, values: seq<(string, V)>, orReplace: bool)
    requires '?' !in table
    requires forall i :: 0 <= i < |values| ==> '?' !in values[i].0
    ensures CountChar(SimpleInsertTxn(table, values, orReplace).sql, '?') == |SimpleInsertTxn(table, values, orReplace).args|
  {
    var st := SimpleInsertTxn(table, values, orReplace);
    var verb := if orReplace then "INSERT OR REPLACE" else "INSERT";
    var columns := Join(", ", Keys(values));
    JoinAvoids(", ", Keys(values), '?');
    var head := verb + " INTO " + table + " (" + columns + ") VALUES(";
    var p := Placeholders(|values|);
    assert st.sql == head + p + ")";
    CountCharAbsent(head, '?');
    CountCharAbsent(")", '?');
    CountCharAppend(head, p, '?');
    CountCharAppend(head + p, ")", '?');
  }

  /** `dict(zip(keys, vals))`: pairs up to the shorter list, a later key overriding an earlier one. */
  function ZipDict<V>(keys: seq<string>, vals: seq<V>): (m: map<string, V>)
    ensures forall k :: k in m ==> k in keys
    decreases |keys|
  {
    var n := if |keys| < |vals| then |keys| else |vals|;
    if n == 0 then map[]
    else ZipDict(keys[..n - 1], vals[..n - 1])[keys[n - 1] := vals[n - 1]]
  }

  /** The value a column ends up with is the one paired with its last occurrence. */
  lemma {:induction false} ZipDictLastWins<V>(keys: seq<string>, vals: seq<V>, i: nat)
    requires i < |keys| && i < |vals|
    requires keys[i] !in keys[i + 1..if |keys| < |vals| then |keys| else |vals|]
    ensures keys[i] in ZipDict(keys, vals) && ZipDict(keys, vals)[keys[i]] == vals[i]
    decreases |keys|
  {
    var n := if |keys| < |vals| then |keys| else |vals|;
    if i < n - 1 {
      var ks, vs := keys[..n - 1], vals[..n - 1];
      assert ks[i] == keys[i] && vs[i] == vals[i];
      assert ks[i + 1..] == keys[i + 1..n - 1];
      assert keys[n - 1] in keys[i + 1..n];
      assert keys[i + 1..n - 1] <= keys[i + 1..n];
      ZipDictLastWins(ks, vs, i);
    }
  }

  /** The replies of the database to the statements `_simple_selectupdate_one` runs. */
  datatype Replies<V> = Replies(selectRows: seq<seq<V>>, selectRowcount: int, updateRowcount: int)

  /** What `_simple_selectupdate_one` did: the statements it executed and what it returned or raised. */
  datatype SelectUpdate<V> = SelectUpdate(executed: seq<Statement<V>>,
                                          result: Result<Option<map<string, V>>, PyError>)

  /** `not row` after `fetchone()`: no row, or an empty one. */
  predicate NoRow<V>(db: Replies<V>)
  {
    |db.selectRows| == 0 || |db.selectRows[0]| == 0
  }

  function SelectSql(table: string, retcols: seq<string>, keys: seq<string>): string
  {
    "SELECT " + Join(", ", retcols) + " FROM " + table + " WHERE " + Join(" AND ", Assigned(keys))
  }

  function UpdateSql(table: string, setKeys: seq<string>, keys: seq<string>): string
  {
    "UPDATE " + table + " SET " + Join(", ", Assigned(setKeys)) + " WHERE " + Join(" AND ", Assigned(keys))
  }

  /** The SELECT and UPDATE texts are the source's `%` templates filled in. */
  lemma SelectUpdateTemplates(table: string, retcols: seq<string>, setKeys: seq<string>, keys: seq<string>)
    ensures SelectSql(table, retcols, keys) ==
            Format(SelectWhereClause, [Join(", ", retcols), table, Join(" AND ", Assigned(keys))])
    ensures UpdateSql(table, setKeys, keys) ==
            Format(UpdateClause, [table, Join(", ", Assigned(setKeys)), Join(" AND ", Assigned(keys))])
  {
    SelectWhereText(Join(", ", retcols), table, Join(" AND ", Assigned(keys)));
    UpdateText(table, Join(", ", Assigned(setKeys)), Join(" AND ", Assigned(keys)));
  }

  /**
   * `_simple_selectupdate_one`: an optional SELECT of `retcols` then an
   * optional UPDATE, both on the row matching `keyvalues`, with the row-count
   * rules: no row is a 404 (or None when allowed), more than one a 500, an
   * update that touched nothing a 404.
   */
  function SimpleSelectUpdateOne<V>(table: string, keyvalues: seq<(string, V)>, updatevalues: seq<(string, V)>,
                                    retcols: seq<string>, allowNone: bool, db: Replies<V>): (o: SelectUpdate<V>)
    // a returned row is the selected columns, and it came from a single matched row
    ensures o.result.Success? && o.result.value.Some? ==>
      |retcols| > 0 && !NoRow(db) && db.selectRowcount <= 1 &&
      o.result.value.value == ZipDict(retcols, db.selectRows[0])
    ensures o.result.Success? && |retcols| == 0 ==> o.result.value.None?
    // and a single matched row, with an UPDATE (if any) that touched one row, is returned
    ensures |retcols| > 0 && !NoRow(db) && db.selectRowcount <= 1 &&
            (|updatevalues| == 0 || (db.updateRowcount != 0 && db.updateRowcount <= 1)) ==>
      o.result == Success(Some(ZipDict(retcols, db.selectRows[0])))
    ensures |retcols| == 0 && (|updatevalues| == 0 || (db.updateRowcount != 0 && db.updateRowcount <= 1)) ==>
      o.result == Success(None)
  {
    var selectStmt := Statement(SelectSql(table, retcols, Keys(keyvalues)), Values(keyvalues));
    var updateStmt := Statement(UpdateSql(table, Keys(updatevalues), Keys(keyvalues)),
                                Values(updatevalues) + Values(keyvalues));
    if |retcols| > 0 && NoRow(db) then
      SelectUpdate([selectStmt], if allowNone then Success(None) else Failure(StoreError(404, "No row found")))
    else if |retcols| > 0 && db.selectRowcount > 1 then
      SelectUpdate([selectStmt], Failure(StoreError(500, "More than one row matched")))
    else
      var selected := if |retcols| > 0 then [selectStmt] else [];
      var ret := if |retcols| > 0 then Some(ZipDict(retcols, db.selectRows[0])) else None;
      if |updatevalues| == 0 then SelectUpdate(selected, Success(ret))
      else if db.updateRowcount == 0 then
        SelectUpdate(selected + [updateStmt], Failure(StoreError(404, "No row found")))
      else if db.updateRowcount > 1 then
        SelectUpdate(selected + [updateStmt], Failure(StoreError(500, "More than one row matched")))
      else SelectUpdate(selected + [updateStmt], Success(ret))
  }

  /** Whether `_simple_selectupdate_one` reaches its UPDATE: there are values to set and the SELECT did not stop it. */
  predicate UpdateRuns<V>(updatevalues: seq<(string, V)>, retcols: seq<string>, db: Replies<V>)
  {
    |updatevalues| > 0 && !(|retcols| > 0 && (NoRow(db) || db.selectRowcount > 1))
  }

  /** The SELECT, when there are columns to return, runs first; no row is a 404, or None when allowed. */
  lemma SelectRunsFirst<V>(table: string, keyvalues: seq<(string, V)>, updatevalues: seq<(string, V)>,
                           retcols: seq<string>, allowNone: bool, db: Replies<V>)
    requires |retcols| > 0
    ensures var o := SimpleSelectUpdateOne(table, keyvalues, updatevalues, retcols, allowNone, db);
      |o.executed| > 0 &&
      o.executed[0] == Statement(SelectSql(table, retcols, Keys(keyvalues)), Values(keyvalues)) &&
      (NoRow(db) ==> o.result == (if allowNone then Success(None) else Failure(StoreError(404, "No row found")))) &&
      (!NoRow(db) && db.selectRowcount > 1 ==> o.result == Failure(StoreError(500, "More than one row matched")))
  {
    var o := SimpleSelectUpdateOne(table, keyvalues, updatevalues, retcols, allowNone, db);
    var selectStmt := Statement(SelectSql(table, retcols, Keys(keyvalues)), Values(keyvalues));
    if NoRow(db) || db.selectRowcount > 1 {
      assert o.executed == [selectStmt];
    } else {
      assert o.executed[..1] == [selectStmt];
    }
  }

  /**
   * The UPDATE runs exactly when there are values to set and the SELECT did
   * not stop early; it is then the last statement, its arguments are the new
   * values followed by the key values, and it must touch exactly one row.
   */
  lemma UpdateRunsLast<V>(table: string, keyvalues: seq<(string, V)>, updatevalues: seq<(string, V)>,
                          retcols: seq<string>, allowNone: bool, db: Replies<V>)
    ensures var o := SimpleSelectUpdateOne(table, keyvalues, updatevalues, retcols, allowNone, db);
      var updated := UpdateRuns(updatevalues, retcols, db);
      |o.executed| == (if |retcols| > 0 then 1 else 0) + (if updated then 1 else 0) &&
      (updated ==>
         o.executed[|o.executed| - 1] == Statement(UpdateSql(table, Keys(updatevalues), Keys(keyvalues)), Values(updatevalues) + Values(keyvalues))) &&
      (updated && db.updateRowcount == 0 ==> o.result == Failure(StoreError(404, "No row found"))) &&
      (updated && db.updateRowcount > 1 ==> o.result == Failure(StoreError(500, "More than one row matched"))) &&
      (updated && db.updateRowcount == 1 ==> o.result.Success?)
  {
  }

  /** `SELECT MAX(id) AS id FROM table`, the statement `_simple_max_id` runs. */
  function MaxIdSql(table: string): (sql: string)
    ensures sql == Format(MaxIdClause, [table])
  {
    MaxIdText(table);
    "SELECT MAX(id) AS id FROM " + table
  }

  /** What SQL's MAX(id) yields over the ids of a table: NULL for an empty table. */
  function SqlMax(ids: seq<int>): Option<int>
  {
    if |ids| == 0 then None else Some(Max(ids))
  }

  /**
   * `_simple_max_id`, given the `id` column of the rows the query returned:
   * the first row's value, with NULL read as 0.
   */
  function SimpleMaxId(idColumn: seq<Option<int>>): (r: Result<int, PyError>)
    ensures |idColumn| == 0 ==> r == Failure(IndexError)
    ensures |idColumn| > 0 && idColumn[0].None? ==> r == Success(0)
    ensures |idColumn| > 0 && idColumn[0].Some? ==> r == Success(idColumn[0].value)
  {
    if |idColumn| == 0 then Failure(IndexError)
    else if idColumn[0].None? then Success(0)
    else Success(idColumn[0].value)
  }

  /** Over a table's ids, the result is 0 for an empty table and otherwise the largest id. */
  lemma MaxIdIsLargestId(ids: seq<int>)
    ensures SimpleMaxId([SqlMax(ids)]).Success?
    ensures |ids| == 0 ==> SimpleMaxId([SqlMax(ids)]).value == 0
    ensures |ids| > 0 ==> SimpleMaxId([SqlMax(ids)]).value in ids
    ensures forall i :: 0 <= i < |ids| ==> ids[i] <= SimpleMaxId([SqlMax(ids)]).value
  {
  }
}

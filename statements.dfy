/**
 * The statements the entity mapper issues and the field updates it makes,
 * as functions of the schema and the entity's fields: the parameter map
 * and placeholder list of `sync`, the INSERT / UPDATE / DELETE / point
 * SELECT texts, the cache key of `_getById`, and the hydration done by
 * `copyFromDbRow`.
 */
module Statements {
  import opened Text
  import opened Php
  import opened Schema
  import opened Executor

  /** `$this->$property`: the field's value, or `Null` for a property the entity does not have. */
  function FieldOf(fields: map<string, Value>, p: string): Value {
    if p in fields then fields[p] else Null
  }

  /** The value `sync` binds for a field: objects go in as their JSON text, anything else unchanged. */
  function Bound(v: Value, json: Value -> string): Value {
    if v.Obj? then Str(json(v)) else v
  }

  /** `sync` issues an UPDATE when the key field, cast to int, is non-zero and no insert is forced. */
  predicate UsesUpdate(s: Schema, fields: map<string, Value>, force: bool) {
    IntCast(FieldOf(fields, s.primaryKey)) != 0 && !force
  }

  // ---------------------------------------------------------------------
  // What the loop of `sync` accumulates
  // ---------------------------------------------------------------------

  /** `$params` after the loop has visited the entries of `m`: `:prop` for every property, the key only for an UPDATE. */
  function SyncParams(m: ColumnMap, pk: string, fields: map<string, Value>, json: Value -> string, update: bool): map<string, Value>
    decreases |m|
  {
    if |m| == 0 then map[]
    else
      var rest := SyncParams(m[..|m| - 1], pk, fields, json, update);
      var p := m[|m| - 1].0;
      if update || p != pk then rest[":" + p := Bound(FieldOf(fields, p), json)] else rest
  }

  /** One entry of `$parameters`: the placeholder for an INSERT, "`col` = :prop" for an UPDATE. */
  function Piece(entry: (string, string), update: bool): string {
    if update then "`" + entry.1 + "` = :" + entry.0 else ":" + entry.0
  }

  /** `$parameters` after the loop has visited the entries of `m`: one piece per non-key entry. */
  function SyncPieces(m: ColumnMap, pk: string, update: bool): seq<string>
    decreases |m|
  {
    if |m| == 0 then []
    else
      var rest := SyncPieces(m[..|m| - 1], pk, update);
      if m[|m| - 1].0 == pk then rest else rest + [Piece(m[|m| - 1], update)]
  }

  // ---------------------------------------------------------------------
  // The non-key entries, and what the loop computes in their terms
  // ---------------------------------------------------------------------

  /** The entries of `m` other than the primary key's, in map order. */
  function NonKeyEntries(m: ColumnMap, pk: string): (e: ColumnMap)
    ensures |e| <= |m|
    decreases |m|
  {
    if |m| == 0 then []
    else NonKeyEntries(m[..|m| - 1], pk) + (if m[|m| - 1].0 == pk then [] else [m[|m| - 1]])
  }

  /** Each non-key entry's piece, in order. */
  function Pieces(e: ColumnMap, update: bool): (ps: seq<string>)
    ensures |ps| == |e|
  {
    seq(|e|, j requires 0 <= j < |e| => Piece(e[j], update))
  }

  /** A column list written as "`c1`,`c2`,...". */
  function Quoted(cs: seq<string>): (qs: seq<string>)
    ensures |qs| == |cs|
  {
    seq(|cs|, j requires 0 <= j < |cs| => "`" + cs[j] + "`")
  }

  /**
   * In a valid schema the non-key entries are every entry except the
   * key's, so the key column is never among them.
   */
  lemma {:induction false} NonKeyEntriesSpec(s: Schema)
    requires Valid(s)
    ensures var e := NonKeyEntries(s.columns, s.primaryKey);
      && |e| == |s.columns| - 1
      && (forall j :: 0 <= j < |e| ==> e[j] in s.columns && e[j].0 != s.primaryKey && e[j].1 != KeyColumn(s))
      && (forall i :: 0 <= i < |s.columns| && s.columns[i].0 != s.primaryKey ==> s.columns[i] in e)
  {
    var m := s.columns;
    var e := NonKeyEntries(m, s.primaryKey);
    NonKeyEntriesMembers(m, s.primaryKey);
    NonKeyEntriesCount(m, s.primaryKey);
    LookupAt(m, s.primaryKey);
    forall j | 0 <= j < |e|
      ensures e[j].1 != KeyColumn(s)
    {
      var i :| 0 <= i < |m| && m[i] == e[j];
      KeyColumnIff(s, i);
    }
  }

  /** The non-key entries are exactly the entries whose property is not the key. */
  lemma {:induction false} NonKeyEntriesMembers(m: ColumnMap, pk: string)
    ensures forall x :: x in NonKeyEntries(m, pk) <==> x in m && x.0 != pk
    decreases |m|
  {
    if |m| > 0 {
      var init := m[..|m| - 1];
      NonKeyEntriesMembers(init, pk);
      assert m == init + [m[|m| - 1]];
    }
  }

  /** With unique keys, exactly one entry is dropped when the key is declared, none otherwise. */
  lemma {:induction false} NonKeyEntriesCount(m: ColumnMap, pk: string)
    requires KeysUnique(m)
    ensures |NonKeyEntries(m, pk)| == if Lookup(m, pk).Some? then |m| - 1 else |m|
    decreases |m|
  {
    if |m| > 0 {
      var init := m[..|m| - 1];
      assert KeysUnique(init);
      NonKeyEntriesCount(init, pk);
      if m[|m| - 1].0 == pk {
        LastKeyAbsent(m);
      }
    }
  }

  /** With unique keys the last entry's property is not declared earlier. */
  lemma LastKeyAbsent(m: ColumnMap)
    requires KeysUnique(m) && |m| > 0
    ensures Lookup(m[..|m| - 1], m[|m| - 1].0).None?
  {
    var init := m[..|m| - 1];
    assert KeysUnique(init);
    LookupAt(init, m[|m| - 1].0);
    assert forall i :: 0 <= i < |init| ==> init[i] == m[i];
  }

  /** The loop's pieces are the pieces of the non-key entries, in map order. */
  lemma {:induction false} SyncPiecesAreNonKeyPieces(m: ColumnMap, pk: string, update: bool)
    ensures SyncPieces(m, pk, update) == Pieces(NonKeyEntries(m, pk), update)
    decreases |m|
  {
    if |m| > 0 {
      var init := m[..|m| - 1];
      SyncPiecesAreNonKeyPieces(init, pk, update);
      var e := NonKeyEntries(init, pk);
      if m[|m| - 1].0 != pk {
        assert Pieces(e + [m[|m| - 1]], update) == Pieces(e, update) + [Piece(m[|m| - 1], update)];
      } else {
        assert e + [] == e;
      }
    }
  }

  // ---------------------------------------------------------------------
  // The parameter map
  // ---------------------------------------------------------------------

  /** Every entry the loop binds (all of them for an UPDATE, the non-key ones for an INSERT) is bound under `:prop` to its field's bound value. */
  lemma {:induction false} SyncParamsAt(m: ColumnMap, pk: string, fields: map<string, Value>, json: Value -> string, update: bool, i: int)
    requires KeysUnique(m) && 0 <= i < |m| && (update || m[i].0 != pk)
    ensures ":" + m[i].0 in SyncParams(m, pk, fields, json, update)
    ensures SyncParams(m, pk, fields, json, update)[":" + m[i].0] == Bound(FieldOf(fields, m[i].0), json)
    decreases |m|
  {
    var n := |m| - 1;
    if i < n {
      var init := m[..n];
      assert KeysUnique(init) && init[i] == m[i];
      SyncParamsAt(init, pk, fields, json, update, i);
      assert ":" + m[i].0 != ":" + m[n].0 by {
        assert (":" + m[i].0)[1..] == m[i].0;
        assert (":" + m[n].0)[1..] == m[n].0;
      }
    }
  }

  /** Nothing else is bound: every name in the map is `:prop` for an entry the loop binds. */
  lemma {:induction false} SyncParamsOnly(m: ColumnMap, pk: string, fields: map<string, Value>, json: Value -> string, update: bool, name: string)
    requires name in SyncParams(m, pk, fields, json, update)
    ensures exists i :: 0 <= i < |m| && (update || m[i].0 != pk) && name == ":" + m[i].0
    decreases |m|
  {
    var n := |m| - 1;
    var init := m[..n];
    if name != ":" + m[n].0 || !(update || m[n].0 != pk) {
      SyncParamsOnly(init, pk, fields, json, update, name);
      var i :| 0 <= i < |init| && (update || init[i].0 != pk) && name == ":" + init[i].0;
      assert m[i] == init[i];
    }
  }

  /** A name that is `:prop` for no entry the loop binds is not bound. */
  lemma {:induction false} SyncParamsFresh(m: ColumnMap, pk: string, fields: map<string, Value>, json: Value -> string, update: bool, name: string)
    requires forall i :: 0 <= i < |m| && (update || m[i].0 != pk) ==> name != ":" + m[i].0
    ensures name !in SyncParams(m, pk, fields, json, update)
    decreases |m|
  {
    if |m| > 0 {
      var init := m[..|m| - 1];
      assert forall i :: 0 <= i < |init| ==> init[i] == m[i];
      SyncParamsFresh(init, pk, fields, json, update, name);
    }
  }

  /** With unique keys the map holds one name per bound entry. */
  lemma {:induction false} SyncParamsCount(m: ColumnMap, pk: string, fields: map<string, Value>, json: Value -> string, update: bool)
    requires KeysUnique(m)
    ensures |SyncParams(m, pk, fields, json, update)| == |SyncPieces(m, pk, update)| + (if update && Lookup(m, pk).Some? then 1 else 0)
    decreases |m|
  {
    if |m| > 0 {
      var n := |m| - 1;
      var init := m[..n];
      assert KeysUnique(init);
      SyncParamsCount(init, pk, fields, json, update);
      var rest := SyncParams(init, pk, fields, json, update);
      var name := ":" + m[n].0;
      forall i | 0 <= i < |init|
        ensures name != ":" + init[i].0
      {
        assert name[1..] == m[n].0 && (":" + init[i].0)[1..] == init[i].0;
        assert init[i] == m[i];
      }
      SyncParamsFresh(init, pk, fields, json, update, name);
      if m[n].0 == pk {
        LastKeyAbsent(m);
      }
    }
  }

  // ---------------------------------------------------------------------
  // The statements
  // ---------------------------------------------------------------------

  /** The INSERT text, with the key column left out of the column list. */
  function InsertSql(s: Schema, pieces: seq<string>): string {
    "INSERT INTO `" + s.table + "` (" + Join(",", Quoted(Columns(NonKeyEntries(s.columns, s.primaryKey)))) + ") VALUES (" + Join(",", pieces) + ")"
  }

  /** The UPDATE text: the SET pieces, and the key column matched against `:pk`. */
  function UpdateSql(s: Schema, pieces: seq<string>): string
    requires Valid(s)
  {
    "UPDATE `" + s.table + "` SET " + Join(",", pieces) + " WHERE `" + KeyColumn(s) + "` = :" + s.primaryKey
  }

  /** The statement `sync(force)` issues for an entity with these fields. */
  function SyncStatement(s: Schema, fields: map<string, Value>, force: bool, json: Value -> string): Statement
    requires Valid(s)
  {
    var update := UsesUpdate(s, fields, force);
    var pieces := SyncPieces(s.columns, s.primaryKey, update);
    Statement(
      if update then UpdateSql(s, pieces) else InsertSql(s, pieces),
      SyncParams(s.columns, s.primaryKey, fields, json, update))
  }

  /** Whether the statement is an INSERT: the result of `sync` carries an insert id only then. */
  predicate WritesInsertId(update: bool, r: DbResult) {
    !update && r.Cursor? && r.insertId != Null
  }

  /** The fields after `sync`: the key takes the insert id when an INSERT reports one. */
  function SyncedFields(s: Schema, fields: map<string, Value>, update: bool, r: DbResult): map<string, Value> {
    if WritesInsertId(update, r) then fields[s.primaryKey := r.insertId] else fields
  }

  /** `$retVal > 0`: the insert count after an INSERT with an id; otherwise the raw result (an object compares greater than 0). */
  predicate SyncSucceeded(update: bool, r: DbResult) {
    if WritesInsertId(update, r) then r.count > 0
    else match r
      case Cursor(_, _, _) => true
      case Affected(n) => n > 0
      case FalseResult => false
  }

  /** The statement of `delete` for an entity whose key field holds `id`. */
  function DeleteStatement(s: Schema, id: Value): (st: Statement)
    requires Valid(s)
    ensures st.params.Keys == {":id"} && st.params[":id"] == id
    ensures var p := "`" + KeyColumn(s) + "` = :id"; |p| < |st.sql| && st.sql[|st.sql| - |p|..] == p
  {
    Statement("DELETE FROM `" + s.table + "` WHERE `" + KeyColumn(s) + "` = :id", map[":id" := id])
  }

  /** The point SELECT of `_getById`: every mapped column, matched on the key column. */
  function SelectByIdStatement(s: Schema, id: Value): (st: Statement)
    requires Valid(s)
    ensures st.params.Keys == {":id"} && st.params[":id"] == id
    ensures var p := "`" + KeyColumn(s) + "` = :id LIMIT 1"; |p| < |st.sql| && st.sql[|st.sql| - |p|..] == p
  {
    Statement(
      "SELECT `" + Join("`, `", Columns(s.columns)) + "` FROM `" + s.table + "` WHERE `" + KeyColumn(s) + "` = :id LIMIT 1",
      map[":id" := id])
  }

  /** The cache key of `_getById`. */
  function CacheKey(table: string, id: Value): (key: string)
    requires IsNumeric(id)
    ensures LastSegment(key) == NumericText(id)
  {
    var a := "Lib:Dal:" + table + "_getById_";
    assert a[|a| - 1] == '_';
    LastSegmentOf(a, NumericText(id));
    a + NumericText(id)
  }

  // ---------------------------------------------------------------------
  // Hydration
  // ---------------------------------------------------------------------

  /** `(object) $row`: the members of an object or the items of an array; nothing for any other value. */
  function RowMembers(row: Value): map<string, Value> {
    match row
    case Obj(members) => members
    case Arr(items) => items
    case _ => map[]
  }

  /** The value copied for a column: the row's value, cast to int for the key column. */
  function Copied(column: string, keyColumn: string, members: map<string, Value>): Value
    requires column in members
  {
    if column == keyColumn then Int(IntCast(members[column])) else members[column]
  }

  /** The fields after the loop of `copyFromDbRow` has visited the entries of `m`. */
  function Hydrated(m: ColumnMap, keyColumn: string, fields: map<string, Value>, members: map<string, Value>): (h: map<string, Value>)
    ensures h.Keys == fields.Keys
    decreases |m|
  {
    if |m| == 0 then fields
    else
      var before := Hydrated(m[..|m| - 1], keyColumn, fields, members);
      var (p, c) := m[|m| - 1];
      if c in members && p in before then before[p := Copied(c, keyColumn, members)] else before
  }

  // ---------------------------------------------------------------------
  // What `sync` issues
  // ---------------------------------------------------------------------

  /** Distinct properties have distinct placeholders. */
  lemma PlaceholderInjective(p: string, q: string)
    requires ":" + p == ":" + q
    ensures p == q
  {
    assert (":" + p)[1..] == p;
    assert (":" + q)[1..] == q;
  }

  /** `sync` issues an UPDATE exactly when the key casts to a non-zero int and no insert is forced, an INSERT otherwise. */
  lemma SyncStatementKind(s: Schema, fields: map<string, Value>, force: bool, json: Value -> string)
    requires Valid(s)
    ensures var sql := SyncStatement(s, fields, force, json).sql;
      |sql| >= 6 && sql[..6] == if IntCast(FieldOf(fields, s.primaryKey)) != 0 && !force then "UPDATE" else "INSERT"
  {
  }

  /**
   * The INSERT of `sync`: the non-key columns and their placeholders, in
   * map order and position by position; the parameter map binds exactly
   * those placeholders, each to its field's bound value, and not the key.
   */
  lemma InsertStatementSpec(s: Schema, fields: map<string, Value>, force: bool, json: Value -> string)
    requires Valid(s) && !UsesUpdate(s, fields, force)
    ensures var st := SyncStatement(s, fields, force, json);
      var e := NonKeyEntries(s.columns, s.primaryKey);
      && st.sql == "INSERT INTO `" + s.table + "` (" + Join(",", Quoted(Columns(e))) + ") VALUES (" + Join(",", Pieces(e, false)) + ")"
      && |e| == |s.columns| - 1
      && (forall j :: 0 <= j < |e| ==> e[j].0 != s.primaryKey && e[j].1 != KeyColumn(s) && Pieces(e, false)[j] == ":" + e[j].0)
      && |st.params| == |e|
      && ":" + s.primaryKey !in st.params
      && (forall j :: 0 <= j < |e| ==> ":" + e[j].0 in st.params && st.params[":" + e[j].0] == Bound(FieldOf(fields, e[j].0), json))
  {
    var m := s.columns;
    var pk := s.primaryKey;
    var e := NonKeyEntries(m, pk);
    NonKeyEntriesSpec(s);
    SyncPiecesAreNonKeyPieces(m, pk, false);
    SyncParamsCount(m, pk, fields, json, false);
    forall i | 0 <= i < |m| && m[i].0 != pk
      ensures ":" + pk != ":" + m[i].0
    {
      if ":" + pk == ":" + m[i].0 {
        PlaceholderInjective(pk, m[i].0);
      }
    }
    SyncParamsFresh(m, pk, fields, json, false, ":" + pk);
    forall j | 0 <= j < |e|
      ensures ":" + e[j].0 in SyncParams(m, pk, fields, json, false)
      ensures SyncParams(m, pk, fields, json, false)[":" + e[j].0] == Bound(FieldOf(fields, e[j].0), json)
    {
      var i :| 0 <= i < |m| && m[i] == e[j];
      SyncParamsAt(m, pk, fields, json, false, i);
    }
  }

  /**
   * The UPDATE of `sync`: one "`col` = :prop" piece per non-key entry, the
   * key column matched against `:pk`; the parameter map binds every mapped
   * property, the key included, to its field's bound value.
   */
  lemma UpdateStatementSpec(s: Schema, fields: map<string, Value>, force: bool, json: Value -> string)
    requires Valid(s) && UsesUpdate(s, fields, force)
    ensures var st := SyncStatement(s, fields, force, json);
      var e := NonKeyEntries(s.columns, s.primaryKey);
      && st.sql == "UPDATE `" + s.table + "` SET " + Join(",", Pieces(e, true)) + " WHERE `" + KeyColumn(s) + "` = :" + s.primaryKey
      && (forall j :: 0 <= j < |e| ==> e[j].1 != KeyColumn(s) && Pieces(e, true)[j] == "`" + e[j].1 + "` = :" + e[j].0)
      && |st.params| == |s.columns|
      && (forall i :: 0 <= i < |s.columns| ==>
            ":" + s.columns[i].0 in st.params && st.params[":" + s.columns[i].0] == Bound(FieldOf(fields, s.columns[i].0), json))
  {
    var m := s.columns;
    var pk := s.primaryKey;
    NonKeyEntriesSpec(s);
    NonKeyEntriesCount(m, pk);
    SyncPiecesAreNonKeyPieces(m, pk, true);
    SyncParamsCount(m, pk, fields, json, true);
    forall i | 0 <= i < |m|
      ensures ":" + m[i].0 in SyncParams(m, pk, fields, json, true)
      ensures SyncParams(m, pk, fields, json, true)[":" + m[i].0] == Bound(FieldOf(fields, m[i].0), json)
    {
      SyncParamsAt(m, pk, fields, json, true, i);
    }
  }

  /** Whatever `sync` binds is the placeholder of a mapped property (a non-key one for an INSERT). */
  lemma SyncParamsNamed(s: Schema, fields: map<string, Value>, force: bool, json: Value -> string, name: string)
    requires Valid(s) && name in SyncStatement(s, fields, force, json).params
    ensures exists i ::
      && 0 <= i < |s.columns|
      && name == ":" + s.columns[i].0
      && (UsesUpdate(s, fields, force) || s.columns[i].0 != s.primaryKey)
  {
    SyncParamsOnly(s.columns, s.primaryKey, fields, json, UsesUpdate(s, fields, force), name);
  }

  // ---------------------------------------------------------------------
  // The cache key
  // ---------------------------------------------------------------------

  /** The text after the last underscore. */
  function LastSegment(k: string): (r: string)
    ensures '_' !in r
    decreases |k|
  {
    if |k| == 0 || k[|k| - 1] == '_' then "" else LastSegment(k[..|k| - 1]) + [k[|k| - 1]]
  }

  /** An underscore-free tail after an underscore is the last segment. */
  lemma {:induction false} LastSegmentOf(a: string, n: string)
    requires |a| > 0 && a[|a| - 1] == '_' && '_' !in n
    ensures LastSegment(a + n) == n
    decreases |n|
  {
    if |n| == 0 {
      assert a + n == a;
    } else {
      var init := n[..|n| - 1];
      LastSegmentOf(a, init);
      assert (a + n)[..|a + n| - 1] == a + init;
      assert n == init + [n[|n| - 1]];
    }
  }

  /** Cache keys of `_getById` determine the table and the id's text: no two (table, id) pairs share an entry. */
  lemma CacheKeyInjective(t1: string, id1: Value, t2: string, id2: Value)
    requires IsNumeric(id1) && IsNumeric(id2) && CacheKey(t1, id1) == CacheKey(t2, id2)
    ensures t1 == t2 && NumericText(id1) == NumericText(id2)
  {
    var a1 := "Lib:Dal:" + t1 + "_getById_";
    var a2 := "Lib:Dal:" + t2 + "_getById_";
    var n1 := NumericText(id1);
    var n2 := NumericText(id2);
    assert CacheKey(t1, id1) == a1 + n1;
    assert CacheKey(t2, id2) == a2 + n2;
    LastSegmentOf(a1, n1);
    LastSegmentOf(a2, n2);
    assert a1 == (a1 + n1)[..|a1|];
    assert a2 == (a2 + n2)[..|a2|];
    assert t1 == a1[8..|a1| - 9];
    assert t2 == a2[8..|a2| - 9];
  }

  // ---------------------------------------------------------------------
  // Hydration
  // ---------------------------------------------------------------------

  /** A mapped property the entity has takes the row's value when the row carries its column, and keeps its own otherwise. */
  lemma {:induction false} HydratedAt(m: ColumnMap, keyColumn: string, fields: map<string, Value>, members: map<string, Value>, i: int)
    requires KeysUnique(m) && 0 <= i < |m| && m[i].0 in fields
    ensures Hydrated(m, keyColumn, fields, members)[m[i].0] ==
      if m[i].1 in members then Copied(m[i].1, keyColumn, members) else fields[m[i].0]
    decreases |m|
  {
    var n := |m| - 1;
    var init := m[..n];
    assert KeysUnique(init);
    if i < n {
      assert init[i] == m[i];
      HydratedAt(init, keyColumn, fields, members, i);
    } else {
      assert forall j :: 0 <= j < |init| ==> init[j].0 != m[n].0;
      HydratedUnmapped(init, keyColumn, fields, members, m[n].0);
    }
  }

  /** A property the map does not mention keeps its value. */
  lemma {:induction false} HydratedUnmapped(m: ColumnMap, keyColumn: string, fields: map<string, Value>, members: map<string, Value>, p: string)
    requires forall i :: 0 <= i < |m| ==> m[i].0 != p
    ensures p in fields ==> Hydrated(m, keyColumn, fields, members)[p] == fields[p]
    decreases |m|
  {
    if |m| > 0 {
      var init := m[..|m| - 1];
      assert forall i :: 0 <= i < |init| ==> init[i] == m[i];
      HydratedUnmapped(init, keyColumn, fields, members, p);
    }
  }

  /** Copying the same row twice is copying it once. */
  lemma HydratedIdempotent(m: ColumnMap, keyColumn: string, fields: map<string, Value>, members: map<string, Value>)
    requires KeysUnique(m)
    ensures var h := Hydrated(m, keyColumn, fields, members);
      Hydrated(m, keyColumn, h, members) == h
  {
    var h := Hydrated(m, keyColumn, fields, members);
    var hh := Hydrated(m, keyColumn, h, members);
    forall p | p in h
      ensures hh[p] == h[p]
    {
      if i :| 0 <= i < |m| && m[i].0 == p {
        HydratedAt(m, keyColumn, fields, members, i);
        HydratedAt(m, keyColumn, h, members, i);
      } else {
        HydratedUnmapped(m, keyColumn, fields, members, p);
        HydratedUnmapped(m, keyColumn, h, members, p);
      }
    }
  }
}

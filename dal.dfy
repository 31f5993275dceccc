/**
 * `Lib\Dal`: the base class of every persistent entity. An entity is a
 * schema (table, ordered property => column map, primary-key property)
 * and a set of named fields; `sync`, `delete` and `_getById` turn its
 * state into statements for the database, and `copyFromDbRow` fills its
 * fields from a fetched row.
 */
module Dal {
  import opened Text
  import opened Php
  import opened Schema
  import opened Executor
  import opened Statements
  import opened Query

  /** The fields of a freshly instantiated entity: every declared property, all null. */
  function BlankFields(declared: set<string>): (f: map<string, Value>)
    ensures f.Keys == declared
    ensures forall p :: p in f ==> f[p] == Null
  {
    map p | p in declared :: Null
  }

  /** What `copyFromDbRow` leaves in the fields: the hydration, when the map is non-empty and the row is an object or an array. */
  function CopyEffect(s: Schema, fields: map<string, Value>, row: Value): map<string, Value>
    requires Valid(s)
  {
    if |s.columns| > 0 && (row.Obj? || row.Arr?) then Hydrated(s.columns, KeyColumn(s), fields, RowMembers(row))
    else fields
  }

  /** `$result && $result->count`: a result object with a non-zero count. */
  predicate FoundRows(r: DbResult) {
    ResultTruthy(r) && r.Cursor? && r.count != 0
  }

  /** In a valid schema the key property is a truthy name. */
  lemma KeyNameTruthy(s: Schema)
    requires Valid(s)
    ensures Truthy(Str(s.primaryKey))
  {
    LookupAt(s.columns, s.primaryKey);
    var i :| 0 <= i < |s.columns| && s.columns[i].0 == s.primaryKey;
    assert Identifier(s.columns[i].0);
  }

  /** The SET piece `sync` writes is `Piece` of its entry. */
  lemma UpdatePiece(p: string, c: string)
    ensures "`" + c + "` = " + (":" + p) == Piece((p, c), true)
  {
  }

  class Entity {
    const schema: Schema
    /** The entity's properties by name; a property it does not have reads as null. */
    var fields: map<string, Value>

    /** `new $className()`: an entity whose declared properties are all null. */
    constructor Blank(schema: Schema, declared: set<string>)
      ensures this.schema == schema && fields == BlankFields(declared)
    {
      this.schema := schema;
      fields := BlankFields(declared);
    }

    /**
     * `__construct($obj)`: a numeric argument loads that id, an object or
     * array is copied in as a row, anything else leaves a blank entity.
     */
    constructor (schema: Schema, declared: set<string>, arg: Value, cache: Cache, db: Database)
      requires Valid(schema)
      modifies cache, db
      ensures this.schema == schema
      ensures IsNumeric(arg) ==> LoadedById(schema, BlankFields(declared), arg, old(cache.store), old(db.log), db.respond, fields, cache.store, db.log)
      ensures !IsNumeric(arg) ==>
        fields == CopyEffect(schema, BlankFields(declared), arg) && cache.store == old(cache.store) && db.log == old(db.log)
    {
      this.schema := schema;
      fields := BlankFields(declared);
      new;
      if IsNumeric(arg) {
        var _ := LoadById(arg, cache, db);
      } else if arg.Obj? || arg.Arr? {
        CopyFromDbRow(arg);
      }
    }

    /**
     * `sync($forceInsert)`: issues the INSERT or UPDATE built from the
     * fields, stores an insert id into the key field, and reports success.
     */
    method Sync(force: bool, json: Value -> string, db: Database) returns (ok: bool)
      requires Valid(schema)
      modifies this`fields, db`log
      ensures var update := UsesUpdate(schema, old(fields), force);
        var st := SyncStatement(schema, old(fields), force, json);
        var r := db.respond(old(db.log), st);
        && db.log == old(db.log) + [st]
        && fields == SyncedFields(schema, old(fields), update, r)
        && ok == SyncSucceeded(update, r)
    {
      var m := schema.columns;
      var pk := schema.primaryKey;
      var pkValue := 0;
      KeyNameTruthy(schema);
      if pk != "" && pk != "0" {
        pkValue := IntCast(FieldOf(fields, pk));
      }
      var update := pkValue != 0 && !force;
      var params, parameters := SyncLists(update, json);
      var sql: string;
      if !update {
        sql := "INSERT INTO `" + schema.table + "` (" + Join(",", Quoted(Columns(NonKeyEntries(m, pk)))) + ") VALUES (" + Join(",", parameters) + ")";
      } else {
        sql := "UPDATE `" + schema.table + "` SET " + Join(",", parameters) + " WHERE `" + KeyColumn(schema) + "` = :" + pk;
      }
      var r := db.Query(Statement(sql, params));
      if !update && r.Cursor? && r.insertId != Null {
        fields := fields[pk := r.insertId];
        ok := r.count > 0;
      } else {
        match r
        case Cursor(_, _, _) => ok := true;
        case Affected(n) => ok := n > 0;
        case FalseResult => ok := false;
      }
    }

    /**
     * The loop of `sync`: over the map in order, every property but the
     * key (and the key too for an UPDATE) is bound as `:prop`, and its
     * placeholder (INSERT) or "`col` = :prop" (UPDATE, key excepted) is
     * appended to the list of pieces.
     */
    method SyncLists(update: bool, json: Value -> string) returns (params: map<string, Value>, parameters: seq<string>)
      ensures params == SyncParams(schema.columns, schema.primaryKey, fields, json, update)
      ensures parameters == SyncPieces(schema.columns, schema.primaryKey, update)
    {
      var m := schema.columns;
      var pk := schema.primaryKey;
      params := map[];
      parameters := [];
      var i := 0;
      while i < |m|
        invariant 0 <= i <= |m|
        invariant params == SyncParams(m[..i], pk, fields, json, update)
        invariant parameters == SyncPieces(m[..i], pk, update)
      {
        var (p, c) := m[i];
        assert m[..i + 1][..i] == m[..i];
        if (pk == p && update) || pk != p {
          var name := ":" + p;
          var value := FieldOf(fields, p);
          if value.Obj? {
            value := Str(json(value));
          }
          params := params[name := value];
          if !update {
            parameters := parameters + [name];
          } else if pk != p {
            UpdatePiece(p, c);
            parameters := parameters + ["`" + c + "` = " + name];
          }
        }
        i := i + 1;
      }
      assert m[..i] == m;
    }

    /**
     * `copyFromDbRow($row)`: for each mapped property the entity has, whose
     * column the row carries, takes the row's value, cast to int for the
     * key column.
     */
    method CopyFromDbRow(row: Value)
      requires Valid(schema)
      modifies this`fields
      ensures fields == CopyEffect(schema, old(fields), row)
    {
      var m := schema.columns;
      if |m| > 0 && (row.Obj? || row.Arr?) {
        var members := RowMembers(row);
        var keyColumn := KeyColumn(schema);
        var i := 0;
        while i < |m|
          invariant 0 <= i <= |m|
          invariant fields == Hydrated(m[..i], keyColumn, old(fields), members)
        {
          var (p, c) := m[i];
          assert m[..i + 1][..i] == m[..i];
          if c in members && p in fields {
            fields := fields[p := members[c]];
            if c == keyColumn {
              fields := fields[p := Int(IntCast(fields[p]))];
            }
          }
          i := i + 1;
        }
        assert m[..i] == m;
      }
    }

    /** `createFromDbRow($row)`: a blank entity with the row copied in. */
    static method CreateFromDbRow(schema: Schema, declared: set<string>, row: Value) returns (e: Entity)
      requires Valid(schema)
      ensures fresh(e) && e.schema == schema
      ensures e.fields == CopyEffect(schema, BlankFields(declared), row)
    {
      e := new Entity.Blank(schema, declared);
      e.CopyFromDbRow(row);
    }

    /**
     * `delete()`: with a truthy key field, issues the DELETE and returns the
     * database's answer; otherwise issues nothing and returns false.
     */
    method Delete(db: Database) returns (r: DbResult)
      requires Valid(schema)
      modifies db`log
      ensures Truthy(FieldOf(fields, schema.primaryKey)) ==>
        var st := DeleteStatement(schema, FieldOf(fields, schema.primaryKey));
        db.log == old(db.log) + [st] && r == db.respond(old(db.log), st)
      ensures !Truthy(FieldOf(fields, schema.primaryKey)) ==> db.log == old(db.log) && r == FalseResult
    {
      var id := FieldOf(fields, schema.primaryKey);
      if Truthy(id) {
        r := db.Query(DeleteStatement(schema, id));
      } else {
        r := FalseResult;
      }
    }

    /** `deleteById($id)`: a blank entity whose property named `id` (whatever the key is) is set, then deleted. */
    static method DeleteById(schema: Schema, declared: set<string>, id: Value, db: Database) returns (r: DbResult)
      requires Valid(schema)
      modifies db`log
      ensures var key := FieldOf(BlankFields(declared)["id" := id], schema.primaryKey);
        && (Truthy(key) ==>
          var st := DeleteStatement(schema, key);
          db.log == old(db.log) + [st] && r == db.respond(old(db.log), st))
        && (!Truthy(key) ==> db.log == old(db.log) && r == FalseResult)
    {
      var e := new Entity.Blank(schema, declared);
      e.fields := e.fields["id" := id];
      r := e.Delete(db);
    }

    /** `getById($id)`: a blank entity, then `_getById`. */
    static method GetById(schema: Schema, declared: set<string>, id: Value, cache: Cache, db: Database) returns (e: Entity, r: Outcome)
      requires Valid(schema)
      modifies cache`store, db`log
      ensures fresh(e) && e.schema == schema
      ensures !IsNumeric(id) ==> r == Fail(InvalidArgument("ID must be a number"))
      ensures IsNumeric(id) ==> r == Pass
      ensures LoadedById(schema, BlankFields(declared), id, old(cache.store), old(db.log), db.respond, e.fields, cache.store, db.log)
    {
      e := new Entity.Blank(schema, declared);
      r := e.LoadById(id, cache, db);
    }

    /**
     * `_getById($id)` with its cache corrected: a non-numeric id throws
     * before anything happens. A numeric id whose cache entry is truthy is
     * copied in from that entry. Otherwise the point SELECT is issued; a
     * result with rows is copied in and its row becomes the cache entry,
     * and a result without rows leaves the falsy entry read before the
     * query. `LoadedByIdAsWritten` is the behaviour of the code as written.
     */
    method LoadById(id: Value, cache: Cache, db: Database) returns (r: Outcome)
      requires Valid(schema)
      modifies this`fields, cache`store, db`log
      ensures !IsNumeric(id) ==> r == Fail(InvalidArgument("ID must be a number"))
      ensures IsNumeric(id) ==> r == Pass
      ensures LoadedById(schema, old(fields), id, old(cache.store), old(db.log), db.respond, fields, cache.store, db.log)
    {
      if !IsNumeric(id) {
        return Fail(InvalidArgument("ID must be a number"));
      }
      var key := CacheKey(schema.table, id);
      var cached := cache.Get(key);
      if Truthy(cached) {
        CopyFromDbRow(cached);
      } else {
        var st := SelectByIdStatement(schema, id);
        var result := db.Query(st);
        if FoundRows(result) {
          var row := Fetch(result);
          CopyFromDbRow(row);
          cache.Set(key, row);
        } else {
          cache.Set(key, cached);
        }
      }
      r := Pass;
    }
  }

  /**
   * The state the corrected `_getById` leaves: fields, cache and statement
   * log after, given them before and the database's answers. A cache hit
   * is copied in; a miss that finds a row copies it in and caches it.
   */
  ghost predicate LoadedById(
    s: Schema, fields: map<string, Value>, id: Value,
    store: map<string, Value>, log: seq<Statement>, respond: (seq<Statement>, Statement) -> DbResult,
    fields': map<string, Value>, store': map<string, Value>, log': seq<Statement>)
    requires Valid(s)
  {
    if !IsNumeric(id) then fields' == fields && store' == store && log' == log
    else
      var key := CacheKey(s.table, id);
      var cached := if key in store then store[key] else Null;
      if Truthy(cached) then fields' == CopyEffect(s, fields, cached) && store' == store && log' == log
      else
        var st := SelectByIdStatement(s, id);
        var r := respond(log, st);
        && log' == log + [st]
        && (FoundRows(r) ==> fields' == CopyEffect(s, fields, Fetch(r)) && store' == store[key := Fetch(r)])
        && (!FoundRows(r) ==> fields' == fields && store' == store[key := cached])
  }

  /**
   * The state `_getById` leaves as written: a cache hit copies nothing,
   * and a miss stores the falsy value it read before the query.
   */
  ghost predicate LoadedByIdAsWritten(
    s: Schema, fields: map<string, Value>, id: Value,
    store: map<string, Value>, log: seq<Statement>, respond: (seq<Statement>, Statement) -> DbResult,
    fields': map<string, Value>, store': map<string, Value>, log': seq<Statement>)
    requires Valid(s)
    ensures LoadedByIdAsWritten(s, fields, id, store, log, respond, fields', store', log') ==>
      && (log' == log || log' == log + [SelectByIdStatement(s, id)])
      && fields'.Keys == fields.Keys
  {
    if !IsNumeric(id) then fields' == fields && store' == store && log' == log
    else
      var key := CacheKey(s.table, id);
      var cached := if key in store then store[key] else Null;
      if Truthy(cached) then fields' == fields && store' == store && log' == log
      else
        var st := SelectByIdStatement(s, id);
        var r := respond(log, st);
        && log' == log + [st]
        && store' == store[key := cached]
        && fields' == (if FoundRows(r) then CopyEffect(s, fields, Fetch(r)) else fields)
  }

  /** `query()`: a fresh builder over the entity's table and map, with its key. */
  method NewQuery(s: Schema) returns (q: DbQuery)
    requires Valid(s)
    ensures fresh(q) && q.Valid()
    ensures q.table == s.table && q.columnMap == s.columns && q.primaryKey == Some(s.primaryKey)
    ensures q.selected == [] && q.where == [] && q.sorts == [] && q.params == map[]
  {
    q := new DbQuery(s.table, s.columns, Some(s.primaryKey));
  }

  // ---------------------------------------------------------------------
  // Properties of the entity operations
  // ---------------------------------------------------------------------

  /**
   * After `copyFromDbRow`, a key property the entity has holds the int cast
   * of the row's key column, and every other mapped property the entity
   * has holds the row's value for its column.
   */
  lemma CopyEffectAt(s: Schema, fields: map<string, Value>, row: Value, i: int)
    requires Valid(s) && (row.Obj? || row.Arr?) && 0 <= i < |s.columns|
    requires s.columns[i].0 in fields && s.columns[i].1 in RowMembers(row)
    ensures var (p, c) := s.columns[i];
      var h := CopyEffect(s, fields, row);
      && (p == s.primaryKey ==> h[p] == Int(IntCast(RowMembers(row)[c])))
      && (p != s.primaryKey ==> h[p] == RowMembers(row)[c])
  {
    HydratedAt(s.columns, KeyColumn(s), fields, RowMembers(row), i);
    KeyColumnIff(s, i);
  }

  /** `copyFromDbRow` leaves alone the properties the map does not mention, and adds none. */
  lemma CopyEffectFrame(s: Schema, fields: map<string, Value>, row: Value, p: string)
    requires Valid(s) && p in fields
    requires forall i :: 0 <= i < |s.columns| ==> s.columns[i].0 != p
    ensures CopyEffect(s, fields, row).Keys == fields.Keys
    ensures CopyEffect(s, fields, row)[p] == fields[p]
  {
    HydratedUnmapped(s.columns, KeyColumn(s), fields, RowMembers(row), p);
  }

  /** Copying the same row in twice leaves what copying it once left. */
  lemma CopyEffectIdempotent(s: Schema, fields: map<string, Value>, row: Value)
    requires Valid(s)
    ensures CopyEffect(s, CopyEffect(s, fields, row), row) == CopyEffect(s, fields, row)
  {
    if |s.columns| > 0 && (row.Obj? || row.Arr?) {
      HydratedIdempotent(s.columns, KeyColumn(s), fields, RowMembers(row));
    }
  }

  /**
   * An entity hydrated from a row whose key column casts to a non-zero int
   * is synced as an UPDATE (unless an insert is forced).
   */
  lemma HydratedEntitySyncsAsUpdate(s: Schema, fields: map<string, Value>, row: Value)
    requires Valid(s) && (row.Obj? || row.Arr?) && s.primaryKey in fields
    requires KeyColumn(s) in RowMembers(row) && IntCast(RowMembers(row)[KeyColumn(s)]) != 0
    ensures UsesUpdate(s, CopyEffect(s, fields, row), false)
  {
    LookupAt(s.columns, s.primaryKey);
    var i :| 0 <= i < |s.columns| && s.columns[i].0 == s.primaryKey;
    CopyEffectAt(s, fields, row, i);
  }

  /**
   * `deleteById` sets the property named `id`, so for an entity whose key
   * is named otherwise the key stays null and nothing is deleted; when the
   * key is `id`, a truthy id deletes that row.
   */
  lemma DeleteByIdKey(s: Schema, declared: set<string>, id: Value)
    requires Valid(s)
    ensures var key := FieldOf(BlankFields(declared)["id" := id], s.primaryKey);
      && (s.primaryKey != "id" ==> !Truthy(key))
      && (s.primaryKey == "id" ==> key == id)
  {
  }

  /**
   * As written, `_getById` never leaves a truthy value under a key that did
   * not hold one, so every lookup of such an id goes to the database again.
   */
  lemma LoadByIdCacheStaysFalsy(
    s: Schema, fields: map<string, Value>, id: Value,
    store: map<string, Value>, log: seq<Statement>, respond: (seq<Statement>, Statement) -> DbResult,
    fields': map<string, Value>, store': map<string, Value>, log': seq<Statement>)
    requires Valid(s) && IsNumeric(id)
    requires LoadedByIdAsWritten(s, fields, id, store, log, respond, fields', store', log')
    requires var key := CacheKey(s.table, id); !(key in store && Truthy(store[key]))
    ensures var key := CacheKey(s.table, id); !(key in store' && Truthy(store'[key]))
    ensures log' == log + [SelectByIdStatement(s, id)]
  {
  }

  /**
   * With the corrected cache, a lookup that finds a row leaves that row
   * under the id's key.
   */
  lemma LoadByIdCachesRow(
    s: Schema, fields: map<string, Value>, id: Value,
    store: map<string, Value>, log: seq<Statement>, respond: (seq<Statement>, Statement) -> DbResult,
    fields': map<string, Value>, store': map<string, Value>, log': seq<Statement>)
    requires Valid(s) && IsNumeric(id)
    requires LoadedById(s, fields, id, store, log, respond, fields', store', log')
    requires var key := CacheKey(s.table, id); !(key in store && Truthy(store[key]))
    requires FoundRows(respond(log, SelectByIdStatement(s, id)))
    ensures var key := CacheKey(s.table, id);
      && log' == log + [SelectByIdStatement(s, id)]
      && key in store' && store'[key] == Fetch(respond(log, SelectByIdStatement(s, id)))
  {
  }

  /**
   * With the corrected cache, once a lookup leaves a truthy entry, looking
   * the same id up again from the same starting fields issues no statement,
   * keeps the cache and ends in the same fields.
   */
  lemma RepeatLookupServedByCache(
    s: Schema, fields: map<string, Value>, id: Value,
    store: map<string, Value>, log: seq<Statement>, respond: (seq<Statement>, Statement) -> DbResult,
    fields1: map<string, Value>, store1: map<string, Value>, log1: seq<Statement>,
    fields2: map<string, Value>, store2: map<string, Value>, log2: seq<Statement>)
    requires Valid(s) && IsNumeric(id)
    requires LoadedById(s, fields, id, store, log, respond, fields1, store1, log1)
    requires var key := CacheKey(s.table, id); key in store1 && Truthy(store1[key])
    requires LoadedById(s, fields, id, store1, log1, respond, fields2, store2, log2)
    ensures log2 == log1 && store2 == store1 && fields2 == fields1
  {
  }

  /**
   * The point SELECT of `_getById` is what a fresh builder over the same
   * schema renders, followed by the key condition and the limit.
   */
  lemma PointSelectExtendsBuild(s: Schema, q: DbQuery, id: Value)
    requires Valid(s)
    requires q.table == s.table && q.columnMap == s.columns
    requires q.selected == [] && q.where == [] && q.sorts == []
    ensures SelectByIdStatement(s, id).sql == q.Build() + " WHERE `" + KeyColumn(s) + "` = :id LIMIT 1"
  {
  }
}

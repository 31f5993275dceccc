/**
 * The behaviour the repository's own unit tests expect of the entity
 * mapper, stated for their `test` entity (`id` => `table_id`, `prop1` =>
 * `table_prop1`, key `id`). Each method calls the operations on a
 * database whose answers are fixed by its preconditions: an INSERT with
 * insert id 1 and count 1, an UPDATE or DELETE with 1, and for the point
 * SELECT the row the test registers.
 */
module Scenarios {
  import opened Text
  import opened Php
  import opened Schema
  import opened Executor
  import opened Statements
  import opened InsertFinding
  import opened Query
  import opened Dal

  function TestSchema(): Schema {
    Schema("test", [("id", "table_id"), ("prop1", "table_prop1")], "id")
  }

  /** The properties the test entity declares. */
  function TestProperties(): set<string> {
    {"id", "prop1"}
  }

  lemma TestSchemaValid()
    ensures Valid(TestSchema())
    ensures KeyColumn(TestSchema()) == "table_id"
  {
    var s := TestSchema();
    assert Identifier("test") && Identifier("id") && Identifier("prop1");
    assert Identifier("table_id") && Identifier("table_prop1");
  }

  /** A blank test entity: both declared properties null. */
  lemma BlankTestFields()
    ensures BlankFields(TestProperties()) == map["id" := Null, "prop1" := Null]
  {
  }

  // The texts the tests expect, assembled piece by piece (each step is one concatenation of literals).

  lemma SelectText()
    ensures "SELECT `" + ("table_id" + "`, `" + "table_prop1") + "` FROM `" + "test"
      == "SELECT `table_id`, `table_prop1` FROM `test"
  {
    assert "table_id" + "`, `" + "table_prop1" == "table_id`, `table_prop1";
    assert "SELECT `" + "table_id`, `table_prop1" == "SELECT `table_id`, `table_prop1";
    assert "SELECT `table_id`, `table_prop1" + "` FROM `" + "test" == "SELECT `table_id`, `table_prop1` FROM `test";
  }

  lemma SelectWhereText()
    ensures "SELECT `table_id`, `table_prop1` FROM `test" + "` WHERE `" + "table_id"
      == "SELECT `table_id`, `table_prop1` FROM `test` WHERE `table_id"
  {
  }

  lemma SelectLimitText()
    ensures "SELECT `table_id`, `table_prop1` FROM `test` WHERE `table_id" + "` = :id LIMIT 1"
      == "SELECT `table_id`, `table_prop1` FROM `test` WHERE `table_id` = :id LIMIT 1"
  {
  }

  /** `new DalObject(86)` loads id 86 with this point SELECT. */
  lemma SelectById86()
    ensures Valid(TestSchema())
    ensures SelectByIdStatement(TestSchema(), Int(86)) ==
      Statement("SELECT `table_id`, `table_prop1` FROM `test` WHERE `table_id` = :id LIMIT 1", map[":id" := Int(86)])
  {
    TestSchemaValid();
    var cols := Columns(TestSchema().columns);
    assert cols == ["table_id", "table_prop1"];
    assert Join("`, `", cols) == "table_id" + "`, `" + "table_prop1" by {
      assert cols[1..] == ["table_prop1"];
    }
    SelectText();
    SelectWhereText();
    SelectLimitText();
  }

  lemma DeleteText()
    ensures "DELETE FROM `" + "test" + "` WHERE `" + "table_id" + "` = :id" == "DELETE FROM `test` WHERE `table_id` = :id"
  {
    assert "DELETE FROM `" + "test" + "` WHERE `" == "DELETE FROM `test` WHERE `";
  }

  /** `deleteById(97)` deletes with this statement. */
  lemma DeleteById97()
    ensures Valid(TestSchema())
    ensures DeleteStatement(TestSchema(), Int(97)) ==
      Statement("DELETE FROM `test` WHERE `table_id` = :id", map[":id" := Int(97)])
  {
    TestSchemaValid();
    DeleteText();
  }

  /** The cache entry `_getById(86)` consults. */
  lemma CacheKey86()
    ensures CacheKey("test", Int(86)) == "Lib:Dal:test_getById_86"
  {
    assert NatToString(86) == "86" by {
      assert NatToString(8) == "8";
    }
  }

  // ---------------------------------------------------------------------
  // sync
  // ---------------------------------------------------------------------

  lemma PieceText()
    ensures "`" + "table_prop1" + "` = :" + "prop1" == "`table_prop1` = :prop1"
  {
  }

  lemma UpdateText()
    ensures "UPDATE `" + "test" + "` SET " + "`table_prop1` = :prop1" == "UPDATE `test` SET `table_prop1` = :prop1"
  {
    assert "UPDATE `" + "test" + "` SET " == "UPDATE `test` SET ";
  }

  lemma UpdateWhereText()
    ensures "UPDATE `test` SET `table_prop1` = :prop1" + " WHERE `" + "table_id" + "` = :" + "id"
      == "UPDATE `test` SET `table_prop1` = :prop1 WHERE `table_id` = :id"
  {
    assert "UPDATE `test` SET `table_prop1` = :prop1" + " WHERE `" + "table_id" == "UPDATE `test` SET `table_prop1` = :prop1 WHERE `table_id";
  }

  /** An entity with id 5 and `prop1` "dude" is synced by an UPDATE of `prop1` matched on the key, binding both. */
  lemma UpdateScenario(json: Value -> string)
    ensures Valid(TestSchema())
    ensures SyncStatement(TestSchema(), map["id" := Int(5), "prop1" := Str("dude")], false, json) ==
      Statement("UPDATE `test` SET `table_prop1` = :prop1 WHERE `table_id` = :id", map[":id" := Int(5), ":prop1" := Str("dude")])
  {
    TestSchemaValid();
    var m := TestSchema().columns;
    assert m[..1] == [("id", "table_id")] && m[..1][..0] == [];
    var fields := map["id" := Int(5), "prop1" := Str("dude")];
    assert UsesUpdate(TestSchema(), fields, false);
    assert ":" + "id" == ":id" && ":" + "prop1" == ":prop1";
    assert SyncParams(m[..1], "id", fields, json, true) == map[":id" := Int(5)];
    assert SyncParams(m, "id", fields, json, true) == map[":id" := Int(5), ":prop1" := Str("dude")];
    PieceText();
    assert SyncPieces(m, "id", true) == ["`table_prop1` = :prop1"];
    assert UpdateSql(TestSchema(), ["`table_prop1` = :prop1"]) ==
      "UPDATE `" + "test" + "` SET " + "`table_prop1` = :prop1" + " WHERE `" + "table_id" + "` = :" + "id";
    UpdateText();
    UpdateWhereText();
  }

  lemma InsertText()
    ensures "INSERT INTO `" + "test" + "` (" + "`table_prop1`" == "INSERT INTO `test` (`table_prop1`"
  {
    assert "INSERT INTO `" + "test" + "` (" == "INSERT INTO `test` (";
  }

  lemma InsertValuesText()
    ensures "INSERT INTO `test` (`table_prop1`" + ") VALUES (" + ":prop1" + ")" == "INSERT INTO `test` (`table_prop1`) VALUES (:prop1)"
  {
    assert "INSERT INTO `test` (`table_prop1`" + ") VALUES (" == "INSERT INTO `test` (`table_prop1`) VALUES (";
  }

  /**
   * An entity whose key casts to 0, or whose insert is forced, is synced by
   * an INSERT of `prop1` alone, binding `prop1` alone, an object as its JSON text.
   */
  lemma InsertScenario(id: Value, prop1: Value, force: bool, json: Value -> string)
    requires IntCast(id) == 0 || force
    ensures Valid(TestSchema())
    ensures SyncStatement(TestSchema(), map["id" := id, "prop1" := prop1], force, json) ==
      Statement("INSERT INTO `test` (`table_prop1`) VALUES (:prop1)", map[":prop1" := Bound(prop1, json)])
  {
    TestSchemaValid();
    var s := TestSchema();
    var m := s.columns;
    var fields := map["id" := id, "prop1" := prop1];
    assert !UsesUpdate(s, fields, force);
    assert m[..1] == [("id", "table_id")] && m[..1][..0] == [];
    assert ":" + "prop1" == ":prop1" && "`" + "table_prop1" + "`" == "`table_prop1`";
    assert SyncParams(m[..1], "id", fields, json, false) == map[];
    assert SyncParams(m, "id", fields, json, false) == map[":prop1" := Bound(prop1, json)];
    assert SyncPieces(m, "id", false) == [":prop1"];
    assert NonKeyEntries(m, "id") == [("prop1", "table_prop1")];
    assert Quoted(Columns(NonKeyEntries(m, "id"))) == ["`table_prop1`"];
    assert InsertSql(s, [":prop1"]) == "INSERT INTO `" + "test" + "` (" + "`table_prop1`" + ") VALUES (" + ":prop1" + ")";
    InsertText();
    InsertValuesText();
  }

  // ---------------------------------------------------------------------
  // copyFromDbRow
  // ---------------------------------------------------------------------

  /** A row with `table_id` "3" and `table_prop1` "dude" gives a blank entity the int key 3 and `prop1` "dude". */
  lemma HydrationScenario()
    ensures Valid(TestSchema())
    ensures CopyEffect(TestSchema(), BlankFields(TestProperties()), Obj(map["table_id" := Str("3"), "table_prop1" := Str("dude")]))
      == map["id" := Int(3), "prop1" := Str("dude")]
  {
    TestSchemaValid();
    assert IntCast(Str("3")) == 3 by {
      assert LeadingDigits("3") == "3";
      assert DigitsValue("3") == DigitsValue("") * 10 + DigitValue('3');
    }
    var m := TestSchema().columns;
    assert m[..1] == [("id", "table_id")] && m[..1][..0] == [];
  }

  // ---------------------------------------------------------------------
  // The INSERT of an entity whose key is mapped last
  // ---------------------------------------------------------------------

  /** The test entity with its map written the other way round: the key entry last. */
  function KeyLastSchema(): Schema {
    Schema("test", [("prop1", "table_prop1"), ("id", "table_id")], "id")
  }

  lemma KeyLastSchemaValid()
    ensures Valid(KeyLastSchema())
    ensures KeyColumn(KeyLastSchema()) == "table_id"
  {
    assert Identifier("test") && Identifier("id") && Identifier("prop1");
    assert Identifier("table_id") && Identifier("table_prop1");
  }

  lemma KeyLastColumnText()
    ensures Join("`,`", Columns(KeyLastSchema().columns)) == "table_prop1`,`table_id"
  {
    var cols := Columns(KeyLastSchema().columns);
    assert cols == ["table_prop1", "table_id"];
    assert cols[1..] == ["table_id"];
    assert "table_prop1" + "`,`" + "table_id" == "table_prop1`,`table_id";
  }

  lemma DraftText()
    ensures "INSERT INTO `" + "test" + "` (`" + "table_prop1`,`table_id" == "INSERT INTO `test` (`table_prop1`,`table_id"
  {
    assert "INSERT INTO `" + "test" + "` (`" == "INSERT INTO `test` (`";
  }

  lemma DraftValuesText()
    ensures "INSERT INTO `test` (`table_prop1`,`table_id" + "`) VALUES (" + ":prop1" + ")"
      == "INSERT INTO `test` (`table_prop1`,`table_id`) VALUES (:prop1)"
  {
    assert "INSERT INTO `test` (`table_prop1`,`table_id" + "`) VALUES (" == "INSERT INTO `test` (`table_prop1`,`table_id`) VALUES (";
  }

  /**
   * With the key mapped last, the INSERT as written still lists the key
   * column: two columns against one value, which the database rejects.
   */
  lemma KeyLastInsertKeepsKeyColumn()
    ensures Valid(KeyLastSchema())
    ensures SyncPieces(KeyLastSchema().columns, "id", false) == [":prop1"]
    ensures InsertSqlAsWritten(KeyLastSchema(), [":prop1"]) == "INSERT INTO `test` (`table_prop1`,`table_id`) VALUES (:prop1)"
  {
    KeyLastSchemaValid();
    var s := KeyLastSchema();
    var m := s.columns;
    assert m[..1] == [("prop1", "table_prop1")] && m[..1][..0] == [];
    assert ":" + "prop1" == ":prop1";
    assert SyncPieces(m, "id", false) == [":prop1"];
    assert '`' !in Join(",", [":prop1"]);
    AsWrittenKeepsLastKey(s, [":prop1"]);
    KeyLastColumnText();
    DraftText();
    DraftValuesText();
  }

  /** The intended INSERT for the same entity lists `prop1` alone, as for the key-first map. */
  lemma KeyLastInsertIntended()
    ensures Valid(KeyLastSchema())
    ensures InsertSql(KeyLastSchema(), [":prop1"]) == "INSERT INTO `test` (`table_prop1`) VALUES (:prop1)"
  {
    KeyLastSchemaValid();
    var s := KeyLastSchema();
    var m := s.columns;
    assert m[..1] == [("prop1", "table_prop1")] && m[..1][..0] == [];
    assert "`" + "table_prop1" + "`" == "`table_prop1`";
    assert NonKeyEntries(m, "id") == [("prop1", "table_prop1")];
    assert Quoted(Columns(NonKeyEntries(m, "id"))) == ["`table_prop1`"];
    assert InsertSql(s, [":prop1"]) == "INSERT INTO `" + "test" + "` (" + "`table_prop1`" + ") VALUES (" + ":prop1" + ")";
    InsertText();
    InsertValuesText();
  }

  // ---------------------------------------------------------------------
  // The entity operations, on a database giving the answers the tests expect
  // ---------------------------------------------------------------------

  /** A blank test entity given `prop1` "dude" inserts, succeeds and takes insert id 1 as its key. */
  method InsertWithSync(respond: (seq<Statement>, Statement) -> DbResult, json: Value -> string) returns (ok: bool, id: Value, log: seq<Statement>)
    requires respond([], Statement("INSERT INTO `test` (`table_prop1`) VALUES (:prop1)", map[":prop1" := Str("dude")])) == Cursor(Int(1), 1, [])
    ensures ok && id == Int(1)
    ensures log == [Statement("INSERT INTO `test` (`table_prop1`) VALUES (:prop1)", map[":prop1" := Str("dude")])]
  {
    TestSchemaValid();
    var db := new Database(respond);
    var e := new Entity.Blank(TestSchema(), TestProperties());
    BlankTestFields();
    e.fields := e.fields["prop1" := Str("dude")];
    assert e.fields == map["id" := Null, "prop1" := Str("dude")];
    InsertScenario(Null, Str("dude"), false, json);
    ok := e.Sync(false, json, db);
    id := e.fields["id"];
    log := db.log;
  }

  /** A test entity with id 5 updates and succeeds; its fields stay as they were. */
  method UpdateWithSync(respond: (seq<Statement>, Statement) -> DbResult, json: Value -> string) returns (ok: bool, fields: map<string, Value>, log: seq<Statement>)
    requires respond([], Statement("UPDATE `test` SET `table_prop1` = :prop1 WHERE `table_id` = :id", map[":id" := Int(5), ":prop1" := Str("dude")])) == Affected(1)
    ensures ok && fields == map["id" := Int(5), "prop1" := Str("dude")]
    ensures log == [Statement("UPDATE `test` SET `table_prop1` = :prop1 WHERE `table_id` = :id", map[":id" := Int(5), ":prop1" := Str("dude")])]
  {
    TestSchemaValid();
    var db := new Database(respond);
    var e := new Entity.Blank(TestSchema(), TestProperties());
    BlankTestFields();
    e.fields := e.fields["id" := Int(5)]["prop1" := Str("dude")];
    assert e.fields == map["id" := Int(5), "prop1" := Str("dude")];
    UpdateScenario(json);
    ok := e.Sync(false, json, db);
    fields := e.fields;
    log := db.log;
  }

  /** `deleteById(97)` issues the DELETE, and the database reports one row. */
  method DeleteWithId(respond: (seq<Statement>, Statement) -> DbResult) returns (r: DbResult, log: seq<Statement>)
    requires respond([], Statement("DELETE FROM `test` WHERE `table_id` = :id", map[":id" := Int(97)])) == Affected(1)
    ensures r == Affected(1)
    ensures log == [Statement("DELETE FROM `test` WHERE `table_id` = :id", map[":id" := Int(97)])]
  {
    TestSchemaValid();
    DeleteById97();
    var db := new Database(respond);
    r := Entity.DeleteById(TestSchema(), TestProperties(), Int(97), db);
    log := db.log;
  }

  /** The row the test registers for the point SELECT of id 86 is copied in as the int key 86 and `prop1` "first". */
  lemma Row86Copied()
    ensures Valid(TestSchema())
    ensures CopyEffect(TestSchema(), BlankFields(TestProperties()), Obj(map["table_id" := Int(86), "table_prop1" := Str("first")]))
      == map["id" := Int(86), "prop1" := Str("first")]
  {
    TestSchemaValid();
    var m := TestSchema().columns;
    assert m[..1] == [("id", "table_id")] && m[..1][..0] == [];
  }

  /**
   * `getById(86)` with an empty cache issues the point SELECT, copies in
   * the row the database returns and caches it; a second `getById(86)`
   * is served from the cache and issues nothing.
   */
  method GetById86(respond: (seq<Statement>, Statement) -> DbResult)
    returns (r: Outcome, fields: map<string, Value>, again: map<string, Value>, log: seq<Statement>, store: map<string, Value>)
    requires respond([], Statement("SELECT `table_id`, `table_prop1` FROM `test` WHERE `table_id` = :id LIMIT 1", map[":id" := Int(86)]))
      == Cursor(Null, 1, [Obj(map["table_id" := Int(86), "table_prop1" := Str("first")])])
    ensures r == Pass
    ensures fields == map["id" := Int(86), "prop1" := Str("first")] && again == fields
    ensures log == [Statement("SELECT `table_id`, `table_prop1` FROM `test` WHERE `table_id` = :id LIMIT 1", map[":id" := Int(86)])]
    ensures store == map["Lib:Dal:test_getById_86" := Obj(map["table_id" := Int(86), "table_prop1" := Str("first")])]
  {
    TestSchemaValid();
    SelectById86();
    CacheKey86();
    Row86Copied();
    var db := new Database(respond);
    var cache := new Cache(map[]);
    var e;
    e, r := Entity.GetById(TestSchema(), TestProperties(), Int(86), cache, db);
    fields := e.fields;
    var e2, _ := Entity.GetById(TestSchema(), TestProperties(), Int(86), cache, db);
    again := e2.fields;
    log := db.log;
    store := cache.store;
  }

  /** `getById` of a text that is not a number throws, and touches neither the database nor the cache. */
  method GetByIdOfText(respond: (seq<Statement>, Statement) -> DbResult, store: map<string, Value>) returns (r: Outcome, log: seq<Statement>, after: map<string, Value>)
    ensures r == Fail(InvalidArgument("ID must be a number"))
    ensures log == [] && after == store
  {
    TestSchemaValid();
    assert !IsDigit('O');
    var db := new Database(respond);
    var cache := new Cache(store);
    var e;
    e, r := Entity.GetById(TestSchema(), TestProperties(), Str("One one three eight"), cache, db);
    log := db.log;
    after := cache.store;
  }

  // ---------------------------------------------------------------------
  // The query builder over the test entity
  // ---------------------------------------------------------------------

  lemma FirstParamName()
    ensures ParamName(0) == ":param0"
  {
    assert NatToString(0) == "0";
  }

  lemma ClauseTexts()
    ensures "`" + "table_prop1" + "` " + "IS" + " NULL" == "`table_prop1` IS NULL"
    ensures "`" + "table_id" + "` " + ">" + " " + ":param0" == "`table_id` > :param0"
    ensures "`" + "table_id" + "` " + "DESC" == "`table_id` DESC"
  {
    assert "`" + "table_prop1" + "` " == "`table_prop1` ";
    assert "`" + "table_id" + "` " == "`table_id` ";
  }

  lemma WhereText()
    ensures " WHERE " + "`table_prop1` IS NULL" == " WHERE `table_prop1` IS NULL"
  {
  }

  lemma AndText()
    ensures " AND " + "`table_id` > :param0" == " AND `table_id` > :param0"
  {
  }

  lemma OrderText()
    ensures " ORDER BY " + "`table_id` DESC" == " ORDER BY `table_id` DESC"
  {
  }

  /** How the builder resolves properties of the test entity. */
  lemma TestColumns()
    ensures ColumnFor(TestSchema().columns, "prop1") == Some("table_prop1")
    ensures ColumnFor(TestSchema().columns, "id") == Some("table_id")
    ensures ColumnFor(TestSchema().columns, "name") == None
  {
    var m := TestSchema().columns;
    assert m[..1] == [("id", "table_id")] && m[..1][..0] == [];
    assert "name"[0] != "prop1"[0] && "name"[0] != "id"[0];
    assert "id"[0] != "prop1"[0];
    assert Lookup(m[..1], "name") == Lookup(m[..1][..0], "name") == None;
  }

  lemma SelectAllText()
    ensures "SELECT `table_id`, `table_prop1` FROM `test" + "`" == "SELECT `table_id`, `table_prop1` FROM `test`"
  {
  }

  /** Regrouping the rendered text clause by clause. */
  lemma Regroup(select: string, where: string, a: string, sep: string, b: string, order: string, sort: string)
    ensures select + (where + (a + sep + b)) + (order + sort) == select + (where + a) + (sep + b) + (order + sort)
  {
  }

  /**
   * A builder for the test entity after `eq('prop1', null)`, `gt('id', 3)`
   * and `sort('id', 'DESC')`: two conditions and one ordering, with only the
   * non-null value bound. A direction other than ASC or DESC and an
   * unmapped property are refused and change nothing.
   */
  method TestQuery() returns (q: DbQuery, badDirection: Outcome, unknown: Outcome)
    ensures fresh(q)
    ensures q.table == "test" && q.columnMap == TestSchema().columns && q.selected == []
    ensures q.where == ["`table_prop1` IS NULL", "`table_id` > :param0"]
    ensures q.sorts == ["`table_id` DESC"]
    ensures q.params == map[":param0" := Int(3)]
    ensures badDirection == Fail(InvalidArgument("Invalid sort direction: \"down\""))
    ensures unknown == Fail(UnknownProperty("name"))
  {
    TestSchemaValid();
    TestColumns();
    FirstParamName();
    ClauseTexts();
    q := NewQuery(TestSchema());
    var r := q.Compare("prop1", Eq, Null);
    r := q.Compare("id", Gt, Int(3));
    r := q.Sort("id", Descending);
    badDirection, unknown := Refusals(q);
  }

  /** On any builder over the test map, a `down` direction and the unmapped property `name` are refused and change nothing. */
  method Refusals(q: DbQuery) returns (badDirection: Outcome, unknown: Outcome)
    requires q.Valid() && q.columnMap == TestSchema().columns
    modifies q`where, q`params, q`sorts
    ensures q.where == old(q.where) && q.params == old(q.params) && q.sorts == old(q.sorts)
    ensures badDirection == Fail(InvalidArgument("Invalid sort direction: \"down\""))
    ensures unknown == Fail(UnknownProperty("name"))
  {
    TestColumns();
    assert "down"[0] != Descending[0] && "down"[0] != Ascending[0];
    DirectionMessage();
    badDirection := q.Sort("id", "down");
    unknown := q.Compare("name", Eq, Int(1));
  }

  lemma DirectionMessage()
    ensures "Invalid sort direction: \"" + "down" + "\"" == "Invalid sort direction: \"down\""
  {
  }

  /** The text that builder renders. */
  lemma TestQueryText(q: DbQuery)
    requires q.table == "test" && q.columnMap == TestSchema().columns && q.selected == []
    requires q.where == ["`table_prop1` IS NULL", "`table_id` > :param0"]
    requires q.sorts == ["`table_id` DESC"]
    ensures q.Build() ==
      "SELECT `table_id`, `table_prop1` FROM `test`" + " WHERE `table_prop1` IS NULL" + " AND `table_id` > :param0" + " ORDER BY `table_id` DESC"
  {
    assert q.Projection() == ["table_id", "table_prop1"];
    assert Join("`, `", q.Projection()) == "table_id" + "`, `" + "table_prop1" by {
      assert q.Projection()[1..] == ["table_prop1"];
    }
    assert q.WherePart() == "`table_prop1` IS NULL" + " AND " + "`table_id` > :param0" by {
      var w := q.where;
      assert w[1..] == ["`table_id` > :param0"];
      assert Join(" AND ", w[1..]) == "`table_id` > :param0";
      assert Join(" AND ", w) == w[0] + " AND " + Join(" AND ", w[1..]);
    }
    SelectText();
    SelectAllText();
    WhereText();
    AndText();
    OrderText();
    Regroup(q.SelectPart(), " WHERE ", "`table_prop1` IS NULL", " AND ", "`table_id` > :param0", " ORDER BY ", "`table_id` DESC");
  }
}

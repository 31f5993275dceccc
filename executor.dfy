/**
 * The two process-wide services the entity mapper calls: the database
 * executor (`Db::Query`, `Db::Fetch`) and the key/value cache
 * (`Cache::Get`, `Cache::Set`). Neither is part of this model's logic: the
 * database is an oracle that records every statement it receives and
 * answers with whatever its `respond` function says, and the cache is a
 * plain map.
 */
module Executor {
  import opened Php

  /** A SQL text and its named parameters, as handed to `Db::Query`. */
  datatype Statement = Statement(sql: string, params: map<string, Value>)

  /**
   * What `Db::Query` can return: a result object (with `insertId` after an
   * INSERT, `Null` standing for "not set", a row `count` and the rows), a
   * bare affected-row count, or `false`.
   */
  datatype DbResult =
    | Cursor(insertId: Value, count: int, rows: seq<Value>)
    | Affected(n: int)
    | FalseResult

  /** `Db::Fetch`: the first row of a result, or `false` when there is none. */
  function Fetch(r: DbResult): (row: Value)
    ensures row != Bool(false) ==> r.Cursor? && |r.rows| > 0 && row == r.rows[0]
  {
    if r.Cursor? && |r.rows| > 0 then r.rows[0] else Bool(false)
  }

  /** PHP truthiness of a query result: an object is truthy, a count when non-zero, `false` never. */
  predicate ResultTruthy(r: DbResult) {
    match r
    case Cursor(_, _, _) => true
    case Affected(n) => n != 0
    case FalseResult => false
  }

  /** The database connection: the statements it has received, and how it answers. */
  class Database {
    /** Every statement issued so far, oldest first. */
    var log: seq<Statement>
    /** The answer to a statement, given everything issued before it. */
    const respond: (seq<Statement>, Statement) -> DbResult

    constructor (respond: (seq<Statement>, Statement) -> DbResult)
      ensures log == [] && this.respond == respond
    {
      log := [];
      this.respond := respond;
    }

    /** `Db::Query`: records the statement and returns the oracle's answer. */
    method Query(st: Statement) returns (r: DbResult)
      modifies this`log
      ensures log == old(log) + [st]
      ensures r == respond(old(log), st)
    {
      r := respond(log, st);
      log := log + [st];
    }
  }

  /** The process-wide cache, as a map from key to stored value. */
  class Cache {
    var store: map<string, Value>

    constructor (store: map<string, Value>)
      ensures this.store == store
    {
      this.store := store;
    }

    /** The stored value, or `Null` for a key never set. */
    function Lookup(key: string): Value
      reads this
    {
      if key in store then store[key] else Null
    }

    /** `Cache::Get`. */
    method Get(key: string) returns (v: Value)
      ensures v == Lookup(key)
    {
      v := Lookup(key);
    }

    /** `Cache::Set`. */
    method Set(key: string, v: Value)
      modifies this`store
      ensures store == old(store)[key := v]
    {
      store := store[key := v];
    }
  }
}

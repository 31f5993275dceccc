/**
 * The declaration every persistent entity type supplies: a table name, an
 * ordered property => column map (a PHP array, so its keys are unique and
 * its order is the declaration order) and the primary-key property.
 */
module Schema {
  import opened Text

  datatype Option<T> = None | Some(value: T)

  /** An ordered property => column map, entry by entry. */
  type ColumnMap = seq<(string, string)>

  /** A PHP array never holds one key twice. */
  predicate KeysUnique(m: ColumnMap) {
    forall i, j :: 0 <= i < j < |m| ==> m[i].0 != m[j].0
  }

  predicate ColumnsUnique(m: ColumnMap) {
    forall i, j :: 0 <= i < j < |m| ==> m[i].1 != m[j].1
  }

  /** `$map[$property]`, or None when the key is absent. */
  function Lookup(m: ColumnMap, property: string): Option<string>
    decreases |m|
  {
    if |m| == 0 then None
    else if m[|m| - 1].0 == property then Some(m[|m| - 1].1)
    else Lookup(m[..|m| - 1], property)
  }

  /** Lookup finds exactly the entry that carries the key. */
  lemma {:induction false} LookupAt(m: ColumnMap, property: string)
    requires KeysUnique(m)
    ensures Lookup(m, property).Some? <==> exists i :: 0 <= i < |m| && m[i].0 == property
    ensures forall i :: 0 <= i < |m| && m[i].0 == property ==> Lookup(m, property) == Some(m[i].1)
    decreases |m|
  {
    if |m| > 0 {
      var init := m[..|m| - 1];
      assert KeysUnique(init);
      LookupAt(init, property);
      if m[|m| - 1].0 != property {
        assert forall i :: 0 <= i < |init| ==> init[i] == m[i];
      }
    }
  }

  /** `array_values($map)`: the columns in declaration order. */
  function Columns(m: ColumnMap): (cs: seq<string>)
    ensures |cs| == |m| && forall i :: 0 <= i < |m| ==> cs[i] == m[i].1
  {
    seq(|m|, i requires 0 <= i < |m| => m[i].1)
  }

  predicate IsIdentChar(c: char) {
    ('a' <= c <= 'z') || ('A' <= c <= 'Z') || IsDigit(c) || c == '_'
  }

  /** A table, property or column name: letters, digits and underscores, not starting with a digit. */
  predicate Identifier(s: string) {
    |s| > 0 && !IsDigit(s[0]) && forall i :: 0 <= i < |s| ==> IsIdentChar(s[i])
  }

  /** The static declaration of an entity type. */
  datatype Schema = Schema(table: string, columns: ColumnMap, primaryKey: string)

  /**
   * A usable declaration: identifier names, one entry per property and per
   * column, and a primary key that the map declares.
   */
  predicate Valid(s: Schema) {
    && Identifier(s.table)
    && (forall i :: 0 <= i < |s.columns| ==> Identifier(s.columns[i].0) && Identifier(s.columns[i].1))
    && KeysUnique(s.columns)
    && ColumnsUnique(s.columns)
    && Lookup(s.columns, s.primaryKey).Some?
  }

  /** `$map[$primaryKey]`: the primary key's column. */
  function KeyColumn(s: Schema): string
    requires Valid(s)
  {
    Lookup(s.columns, s.primaryKey).value
  }

  /** In a valid declaration an entry holds the key column exactly when it holds the key property. */
  lemma KeyColumnIff(s: Schema, i: int)
    requires Valid(s) && 0 <= i < |s.columns|
    ensures s.columns[i].1 == KeyColumn(s) <==> s.columns[i].0 == s.primaryKey
  {
    LookupAt(s.columns, s.primaryKey);
    var j :| 0 <= j < |s.columns| && s.columns[j].0 == s.primaryKey;
    assert KeyColumn(s) == s.columns[j].1;
  }
}

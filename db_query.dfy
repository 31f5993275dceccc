/**
 * `Lib\DbQuery`: a mutable, chainable SELECT builder bound to one table and
 * one property => column map. It accumulates a projection, WHERE clauses,
 * ORDER BY items and a bound-parameter map, and renders them with `Build`.
 */
module Query {
  import opened Text
  import opened Php
  import opened Schema

  const Ascending: string := "ASC"
  const Descending: string := "DESC"

  /** The comparison behind `eq`, `ne`, `gt`, `lt`, `lte`, `gte` and `like`. */
  datatype Op = Eq | Ne | Gt | Lt | Lte | Gte | Like

  function OpText(op: Op): string {
    match op
    case Eq => "="
    case Ne => "!="
    case Gt => ">"
    case Lt => "<"
    case Lte => "<="
    case Gte => ">="
    case Like => "LIKE"
  }

  predicate Distinct(xs: seq<string>) {
    forall i, j :: 0 <= i < j < |xs| ==> xs[i] != xs[j]
  }

  // ---------------------------------------------------------------------
  // Bound parameters
  // ---------------------------------------------------------------------

  /** The name of the k-th parameter a builder allocates. */
  function ParamName(k: nat): string {
    ":param" + NatToString(k)
  }

  /** Reads the allocation number back from a parameter name; -1 for any other text. */
  function ParamIndex(name: string): int {
    if |name| > 6 && name[..6] == ":param" && AllDigits(name[6..]) then DigitsValue(name[6..]) else -1
  }

  /** A parameter name reads back as the number it was made from. */
  lemma ParamIndexOfName(k: nat)
    ensures ParamIndex(ParamName(k)) == k
  {
    NatToStringReadsBack(k);
    assert ParamName(k)[..6] == ":param";
    assert ParamName(k)[6..] == NatToString(k);
  }

  /** Two allocations never share a name. */
  lemma ParamNameInjective(a: nat, b: nat)
    requires ParamName(a) == ParamName(b)
    ensures a == b
  {
    ParamIndexOfName(a);
    ParamIndexOfName(b);
  }

  /** Every name in `params` is that of an allocation numbered from `lo` up to, not including, `hi`. */
  predicate NamesWithin(params: map<string, Value>, lo: int, hi: int) {
    forall x :: x in params ==> lo <= ParamIndex(x) < hi
  }

  /** `count` consecutive names, starting with allocation number `from`. */
  function ParamNames(from: nat, count: nat): (names: seq<string>)
    ensures |names| == count
    ensures forall k :: 0 <= k < count ==> names[k] == ParamName(from + k)
  {
    seq(count, k requires 0 <= k < count => ParamName(from + k))
  }

  /** One more allocation appends one more name. */
  lemma ParamNamesSnoc(from: nat, count: nat)
    ensures ParamNames(from, count + 1) == ParamNames(from, count) + [ParamName(from + count)]
  {
    var a := ParamNames(from, count + 1);
    var b := ParamNames(from, count) + [ParamName(from + count)];
    assert |a| == |b|;
    forall k | 0 <= k < |a|
      ensures a[k] == b[k]
    {
      if k < count {
        assert b[k] == ParamNames(from, count)[k];
      }
    }
  }

  /** Consecutive allocations have pairwise distinct names. */
  lemma ParamNamesDistinct(from: nat, count: nat)
    ensures Distinct(ParamNames(from, count))
  {
    var names := ParamNames(from, count);
    forall i, j | 0 <= i < j < count
      ensures names[i] != names[j]
    {
      if names[i] == names[j] {
        ParamNameInjective(from + i, from + j);
      }
    }
  }

  /** The parameters `in` records: allocation `from + k` is bound to `values[k]`. */
  function Bindings(from: nat, values: seq<Value>): map<string, Value>
    decreases |values|
  {
    if |values| == 0 then map[]
    else Bindings(from, values[..|values| - 1])[ParamName(from + |values| - 1) := values[|values| - 1]]
  }

  /** The next allocation is not yet bound, and binding it keeps every name within the extended range. */
  lemma AllocateNext(params: map<string, Value>, lo: int, hi: nat, v: Value)
    requires lo <= hi && NamesWithin(params, lo, hi)
    ensures ParamName(hi) !in params
    ensures NamesWithin(params[ParamName(hi) := v], lo, hi + 1)
  {
    ParamIndexOfName(hi);
  }

  /** `Bindings` holds one name per value, all within the allocations it was given. */
  lemma {:induction false} BindingsRange(from: nat, values: seq<Value>)
    ensures |Bindings(from, values)| == |values|
    ensures NamesWithin(Bindings(from, values), from, from + |values|)
    decreases |values|
  {
    if |values| > 0 {
      var n := |values| - 1;
      BindingsRange(from, values[..n]);
      AllocateNext(Bindings(from, values[..n]), from, from + n, values[n]);
    }
  }

  /** `Bindings` binds allocation `from + k` to `values[k]`. */
  lemma {:induction false} BindingAt(from: nat, values: seq<Value>, k: nat)
    requires k < |values|
    ensures ParamName(from + k) in Bindings(from, values)
    ensures Bindings(from, values)[ParamName(from + k)] == values[k]
    decreases |values|
  {
    var n := |values| - 1;
    if k < n {
      BindingAt(from, values[..n], k);
      if ParamName(from + k) == ParamName(from + n) {
        ParamNameInjective(from + k, from + n);
      }
    }
  }

  /** Binding the next value extends `Bindings` by one entry, and a union with it accordingly. */
  lemma BindingsExtend(before: map<string, Value>, from: nat, values: seq<Value>, i: nat)
    requires i < |values|
    ensures (before + Bindings(from, values[..i]))[ParamName(from + i) := values[i]] == before + Bindings(from, values[..i + 1])
  {
    var b := Bindings(from, values[..i]);
    assert Bindings(from, values[..i + 1]) == b[ParamName(from + i) := values[i]] by {
      assert values[..i + 1][..i] == values[..i];
    }
    UnionUpdate(before, b, ParamName(from + i), values[i]);
  }

  /** `in` keeps every earlier parameter with its value. */
  lemma InKeepsParam(before: map<string, Value>, values: seq<Value>, x: string)
    requires NamesWithin(before, 0, |before|) && x in before
    ensures x in before + Bindings(|before|, values)
    ensures (before + Bindings(|before|, values))[x] == before[x]
  {
    BindingsRange(|before|, values);
    assert ParamIndex(x) < |before|;
  }

  /** `in` binds its k-th value to allocation |before| + k. */
  lemma InBindsValue(before: map<string, Value>, values: seq<Value>, k: nat)
    requires k < |values|
    ensures ParamName(|before| + k) in before + Bindings(|before|, values)
    ensures (before + Bindings(|before|, values))[ParamName(|before| + k)] == values[k]
  {
    var b := Bindings(|before|, values);
    var name := ParamName(|before| + k);
    BindingAt(|before|, values, k);
    UnionRight(before, b, name);
  }

  /** A key of the right operand of a union takes its value from there. */
  lemma UnionRight(a: map<string, Value>, b: map<string, Value>, k: string)
    requires k in b
    ensures k in a + b && (a + b)[k] == b[k]
  {
  }

  /** Updating a union updates its right operand. */
  lemma UnionUpdate(a: map<string, Value>, b: map<string, Value>, k: string, v: Value)
    ensures (a + b)[k := v] == a + b[k := v]
  {
  }

  // ---------------------------------------------------------------------
  // Column resolution and clause text
  // ---------------------------------------------------------------------

  /**
   * `_getColumnNameFromProperty`: the mapped column, or None when the
   * property is not mapped or maps to a falsy name ("" or "0"), which the
   * source rejects in the same way.
   */
  function ColumnFor(m: ColumnMap, property: string): (c: Option<string>)
    ensures c.Some? ==> Lookup(m, property) == c && Truthy(Str(c.value))
    ensures c.None? ==> Lookup(m, property).None? || !Truthy(Str(Lookup(m, property).value))
  {
    match Lookup(m, property)
    case Some(column) => if column != "" && column != "0" then Some(column) else None
    case None => None
  }

  /** The error `_getColumnNameFromProperty` throws. */
  function UnknownProperty(property: string): Error {
    UnknownColumn("Mapping for property \"" + property + "\" doesn't exist in schema map")
  }

  /** The WHERE clause of a comparison; a null value compares with IS (for `=`) or IS NOT (for any other operator). */
  function ComparisonClause(column: string, op: Op, value: Value, param: string): string {
    if value == Null then "`" + column + "` " + (if op == Eq then "IS" else "IS NOT") + " NULL"
    else "`" + column + "` " + OpText(op) + " " + param
  }

  /** The WHERE clause of `in`. */
  function InClause(column: string, names: seq<string>): string {
    "`" + column + "` IN (" + Join(", ", names) + ")"
  }

  /** `in` with no values still appends a clause, with an empty list. */
  lemma InClauseEmpty(column: string)
    ensures InClause(column, []) == "`" + column + "` IN ()"
  {
    assert "` IN (" + "" + ")" == "` IN ()";
  }

  // ---------------------------------------------------------------------
  // Projection
  // ---------------------------------------------------------------------

  /** `$this->_select[$column] = true`: a column already present keeps its place. */
  function AddColumn(selected: seq<string>, column: string): seq<string> {
    if column in selected then selected else selected + [column]
  }

  /** The columns of the leading properties that resolve, up to the first that does not. */
  function ResolvedPrefix(m: ColumnMap, properties: seq<string>): (cs: seq<string>)
    ensures |cs| <= |properties|
    decreases |properties|
  {
    if |properties| == 0 then []
    else match ColumnFor(m, properties[0])
      case None => []
      case Some(c) => [c] + ResolvedPrefix(m, properties[1..])
  }

  /** What `select` leaves behind: the loop adds column after column and stops at the first unknown property. */
  function Selection(m: ColumnMap, selected: seq<string>, properties: seq<string>): (seq<string>, Outcome)
    decreases |properties|
  {
    if |properties| == 0 then (selected, Pass)
    else match ColumnFor(m, properties[0])
      case None => (selected, Fail(UnknownProperty(properties[0])))
      case Some(c) => Selection(m, AddColumn(selected, c), properties[1..])
  }

  /**
   * The columns of `cs` that are not in `seen`, each once, in the order of
   * their first occurrence in `cs`.
   */
  function NewColumns(seen: seq<string>, cs: seq<string>): seq<string>
    decreases |cs|
  {
    if |cs| == 0 then []
    else (if cs[0] in seen then [] else [cs[0]]) + NewColumns(seen + [cs[0]], cs[1..])
  }

  /** `NewColumns` depends only on which columns have been seen. */
  lemma {:induction false} NewColumnsSeen(a: seq<string>, b: seq<string>, cs: seq<string>)
    requires forall x :: x in a <==> x in b
    ensures NewColumns(a, cs) == NewColumns(b, cs)
    decreases |cs|
  {
    if |cs| > 0 {
      NewColumnsSeen(a + [cs[0]], b + [cs[0]], cs[1..]);
    }
  }

  /** A property that resolves names a column of the map. */
  lemma ResolvedIsMapped(m: ColumnMap, property: string)
    requires KeysUnique(m) && ColumnFor(m, property).Some?
    ensures ColumnFor(m, property).value in Columns(m)
  {
    LookupAt(m, property);
    var i :| 0 <= i < |m| && m[i].0 == property;
    assert Columns(m)[i] == m[i].1;
  }

  /**
   * `select` keeps the projection duplicate-free and in first-selection
   * order: the old projection followed by the new columns in the order
   * their properties were first given; it adds the columns of the properties before the first unknown
   * one (those are kept even though the call then fails) and nothing else.
   */
  lemma {:induction false} SelectionSpec(m: ColumnMap, selected: seq<string>, properties: seq<string>)
    requires Distinct(selected)
    ensures var (after, r) := Selection(m, selected, properties);
      var cs := ResolvedPrefix(m, properties);
      && after == selected + NewColumns(selected, cs)
      && Distinct(after)
      && |selected| <= |after| && after[..|selected|] == selected
      && (forall c :: c in after <==> c in selected || c in cs)
      && (r == Pass <==> |cs| == |properties|)
      && (|cs| < |properties| ==> r == Fail(UnknownProperty(properties[|cs|])))
    decreases |properties|
  {
    if |properties| > 0 {
      match ColumnFor(m, properties[0])
      case None =>
      case Some(c) =>
        var next := AddColumn(selected, c);
        assert Distinct(next);
        SelectionSpec(m, next, properties[1..]);
        var after := Selection(m, next, properties[1..]).0;
        assert after[..|selected|] == after[..|next|][..|selected|];
    }
    SelectionOrder(m, selected, properties);
  }

  /** The projection after `select`: the old one, then the new columns in the order their properties were first given. */
  lemma {:induction false} SelectionOrder(m: ColumnMap, selected: seq<string>, properties: seq<string>)
    ensures Selection(m, selected, properties).0 == selected + NewColumns(selected, ResolvedPrefix(m, properties))
    decreases |properties|
  {
    if |properties| > 0 {
      match ColumnFor(m, properties[0])
      case None =>
      case Some(c) =>
        var next := AddColumn(selected, c);
        var rest := ResolvedPrefix(m, properties[1..]);
        SelectionOrder(m, next, properties[1..]);
        assert ([c] + rest)[1..] == rest;
        NewColumnsSeen(next, selected + [c], rest);
    }
  }

  // ---------------------------------------------------------------------
  // The builder
  // ---------------------------------------------------------------------

  class DbQuery {
    const table: string
    const columnMap: ColumnMap
    /** Stored by the constructor and never read. */
    const primaryKey: Option<string>

    /** `_select`: the selected columns, in first-selection order. */
    var selected: seq<string>
    /** `_where`: the WHERE clauses, AND-combined. */
    var where: seq<string>
    /** `_sort`: the ORDER BY items. */
    var sorts: seq<string>
    /** `_params`: the bound parameters by name. */
    var params: map<string, Value>

    /** The projection has no duplicates and the parameters are exactly the first |params| allocations. */
    ghost predicate Valid()
      reads this
    {
      && KeysUnique(columnMap)
      && Distinct(selected)
      && (forall c :: c in selected ==> c in Columns(columnMap))
      && NamesWithin(params, 0, |params|)
    }

    constructor (table: string, columnMap: ColumnMap, primaryKey: Option<string>)
      requires KeysUnique(columnMap)
      ensures this.table == table && this.columnMap == columnMap && this.primaryKey == primaryKey
      ensures selected == [] && where == [] && sorts == [] && params == map[]
      ensures Valid()
    {
      this.table := table;
      this.columnMap := columnMap;
      this.primaryKey := primaryKey;
      selected, where, sorts, params := [], [], [], map[];
    }

    /** `_getParamName`: the name for the next allocation, fresh in this builder. */
    function NextParamName(): (name: string)
      reads this
      requires NamesWithin(params, 0, |params|)
      ensures name == ParamName(|params|)
      ensures name !in params
      ensures forall k: nat :: ParamName(k) == name ==> k == |params|
    {
      AllocateNext(params, 0, |params|, Null);
      forall k: nat | ParamName(k) == ParamName(|params|)
        ensures k == |params|
      {
        ParamNameInjective(k, |params|);
      }
      ParamName(|params|)
    }

    /**
     * `select`: resolves the properties one by one, adding each column
     * (once) to the projection; an unknown property stops the loop with the
     * earlier columns already added.
     */
    method Select(properties: seq<string>) returns (r: Outcome)
      requires Valid()
      modifies this`selected
      ensures Valid()
      ensures (selected, r) == Selection(columnMap, old(selected), properties)
    {
      var i := 0;
      while i < |properties|
        invariant 0 <= i <= |properties|
        invariant Valid()
        invariant Selection(columnMap, old(selected), properties) == Selection(columnMap, selected, properties[i..])
      {
        assert properties[i..][1..] == properties[i + 1..];
        var column := ColumnFor(columnMap, properties[i]);
        if column.None? {
          return Fail(UnknownProperty(properties[i]));
        }
        ResolvedIsMapped(columnMap, properties[i]);
        selected := AddColumn(selected, column.value);
        i := i + 1;
      }
      r := Pass;
    }

    /**
     * `_genericComparison`, behind `eq`, `ne`, `gt`, `lt`, `lte`, `gte` and
     * `like`: resolves the property first; a null value appends an IS / IS NOT
     * NULL clause and allocates nothing, any other value is bound to the next
     * parameter name.
     */
    method Compare(property: string, op: Op, value: Value) returns (r: Outcome)
      requires Valid()
      modifies this`where, this`params
      ensures Valid()
      ensures ColumnFor(columnMap, property).None? ==>
        r == Fail(UnknownProperty(property)) && where == old(where) && params == old(params)
      ensures ColumnFor(columnMap, property).Some? ==>
        var clause := ComparisonClause(ColumnFor(columnMap, property).value, op, value, ParamName(old(|params|)));
        && r == Pass
        && where == old(where) + [clause]
        && params == (if value == Null then old(params) else old(params)[ParamName(old(|params|)) := value])
        && WherePart() == (if |old(where)| == 0 then clause else old(WherePart()) + " AND " + clause)
    {
      var column := ColumnFor(columnMap, property);
      if column.None? {
        return Fail(UnknownProperty(property));
      }
      var n := |params|;
      var param: string;
      if value == Null {
        param := "NULL";
      } else {
        param := NextParamName();
        AllocateNext(params, 0, |params|, value);
        params := params[param := value];
      }
      var clause := ComparisonClause(column.value, op, value, ParamName(n));
      JoinSnoc(" AND ", where, clause);
      where := where + [clause];
      r := Pass;
    }

    /**
     * `in`: resolves the property, binds every value to a fresh name in
     * order, and appends one IN clause listing those names.
     */
    method In(property: string, values: seq<Value>) returns (r: Outcome)
      requires Valid()
      modifies this`where, this`params
      ensures Valid()
      ensures ColumnFor(columnMap, property).None? ==>
        r == Fail(UnknownProperty(property)) && where == old(where) && params == old(params)
      ensures ColumnFor(columnMap, property).Some? ==>
        var clause := InClause(ColumnFor(columnMap, property).value, ParamNames(old(|params|), |values|));
        && r == Pass
        && where == old(where) + [clause]
        && params == old(params) + Bindings(old(|params|), values)
        && |params| == old(|params|) + |values|
        && WherePart() == (if |old(where)| == 0 then clause else old(WherePart()) + " AND " + clause)
    {
      var column := ColumnFor(columnMap, property);
      if column.None? {
        return Fail(UnknownProperty(property));
      }
      var names := BindValues(values);
      var clause := InClause(column.value, names);
      JoinSnoc(" AND ", where, clause);
      where := where + [clause];
      r := Pass;
    }

    /** The loop of `in`: binds each value, in order, to the next parameter name. */
    method BindValues(values: seq<Value>) returns (names: seq<string>)
      requires Valid()
      modifies this`params
      ensures Valid()
      ensures names == ParamNames(old(|params|), |values|)
      ensures params == old(params) + Bindings(old(|params|), values)
      ensures |params| == old(|params|) + |values|
    {
      ghost var n0 := |params|;
      ghost var p0 := params;
      names := [];
      var i := 0;
      assert params == p0 + Bindings(n0, values[..0]);
      while i < |values|
        invariant 0 <= i <= |values|
        invariant NamesWithin(params, 0, |params|) && |params| == n0 + i
        invariant params == p0 + Bindings(n0, values[..i])
        invariant names == ParamNames(n0, i)
      {
        names := BindStep(p0, n0, values, i, names);
        i := i + 1;
      }
      assert values[..i] == values;
    }

    /**
     * One iteration of the loop of `in`: the next parameter name is bound
     * to the i-th value and appended to the names.
     */
    method BindStep(ghost p0: map<string, Value>, ghost n0: nat, values: seq<Value>, i: nat, names: seq<string>)
      returns (names': seq<string>)
      requires i < |values|
      requires NamesWithin(params, 0, |params|) && |params| == n0 + i
      requires params == p0 + Bindings(n0, values[..i])
      requires names == ParamNames(n0, i)
      modifies this`params
      ensures NamesWithin(params, 0, |params|) && |params| == n0 + i + 1
      ensures params == p0 + Bindings(n0, values[..i + 1])
      ensures names' == ParamNames(n0, i + 1)
    {
      var name := NextParamName();
      AllocateNext(params, 0, |params|, values[i]);
      BindingsExtend(p0, n0, values, i);
      params := params[name := values[i]];
      ParamNamesSnoc(n0, i);
      names' := names + [name];
    }

    /** `andQuery`: an empty body in the source; it changes nothing. */
    method AndQuery(query: DbQuery)
      ensures unchanged(this)
    {
    }

    /** `orQuery`: an empty body in the source; it changes nothing. */
    method OrQuery(query: DbQuery)
      ensures unchanged(this)
    {
    }

    /**
     * `sort`: the direction must be exactly ASC or DESC, checked before the
     * property is resolved; a valid call appends one ORDER BY item.
     */
    method Sort(property: string, direction: string) returns (r: Outcome)
      requires Valid()
      modifies this`sorts
      ensures Valid()
      ensures direction != Descending && direction != Ascending ==>
        r == Fail(InvalidArgument("Invalid sort direction: \"" + direction + "\"")) && sorts == old(sorts)
      ensures (direction == Descending || direction == Ascending) && ColumnFor(columnMap, property).None? ==>
        r == Fail(UnknownProperty(property)) && sorts == old(sorts)
      ensures (direction == Descending || direction == Ascending) && ColumnFor(columnMap, property).Some? ==>
        var item := "`" + ColumnFor(columnMap, property).value + "` " + direction;
        && r == Pass
        && sorts == old(sorts) + [item]
        && SortPart() == (if |old(sorts)| == 0 then item else old(SortPart()) + ", " + item)
    {
      if direction != Descending && direction != Ascending {
        return Fail(InvalidArgument("Invalid sort direction: \"" + direction + "\""));
      }
      var column := ColumnFor(columnMap, property);
      if column.None? {
        return Fail(UnknownProperty(property));
      }
      var item := "`" + column.value + "` " + direction;
      JoinSnoc(", ", sorts, item);
      sorts := sorts + [item];
      r := Pass;
    }

    /** The projection: the selected columns, or every mapped column in map order when none was selected. */
    function Projection(): (cols: seq<string>)
      reads this
      ensures |selected| == 0 ==> cols == Columns(columnMap)
      ensures Valid() ==> forall c :: c in cols ==> c in Columns(columnMap)
    {
      if |selected| > 0 then selected else Columns(columnMap)
    }

    /** `_buildSelect`: opens with the quoted first column and ends naming the table. */
    function SelectPart(): (sp: string)
      reads this
      ensures |sp| > 8 && sp[..8] == "SELECT `"
      ensures var tail := "` FROM `" + table + "`"; |tail| < |sp| && sp[|sp| - |tail|..] == tail
    {
      "SELECT `" + Join("`, `", Projection()) + "` FROM `" + table + "`"
    }

    /** `_buildWhere`: the clauses in order, AND between neighbours. */
    function WherePart(): (w: string)
      reads this
      ensures |where| == 0 ==> w == ""
      ensures |where| == 1 ==> w == where[0]
      ensures |where| > 1 ==> var last := " AND " + where[|where| - 1]; |last| <= |w| && w[|w| - |last|..] == last
    {
      JoinSnocLast(" AND ", where);
      Join(" AND ", where)
    }

    /** `_buildSort`: the items in order, comma-separated. */
    function SortPart(): (o: string)
      reads this
      ensures |sorts| == 0 ==> o == ""
      ensures |sorts| == 1 ==> o == sorts[0]
      ensures |sorts| > 1 ==> var last := ", " + sorts[|sorts| - 1]; |last| <= |o| && o[|o| - |last|..] == last
    {
      JoinSnocLast(", ", sorts);
      Join(", ", sorts)
    }

    /**
     * `build`: a function of the state, so rendering never changes the
     * builder. The text starts with the SELECT part, and is exactly that
     * while no clause and no sort has been added.
     */
    function Build(): (sql: string)
      reads this
      ensures |SelectPart()| <= |sql| && sql[..|SelectPart()|] == SelectPart()
      ensures |where| == 0 && |sorts| == 0 ==> sql == SelectPart()
    {
      SelectPart()
      + (if |where| > 0 then " WHERE " + WherePart() else "")
      + (if |sorts| > 0 then " ORDER BY " + SortPart() else "")
    }
  }
}

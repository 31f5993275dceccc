/**
 * The INSERT text of `sync` as the code writes it: every mapped column is
 * listed, then `str_replace` deletes the text "`keycol`," to drop the key
 * column. That deletes the key column only when a comma follows it, i.e.
 * when the key is not the last entry of the map; when it is last, the
 * column stays in the list while its placeholder is missing from VALUES.
 * `InsertSql` (in `Statements`) is the intended text; this module proves
 * that the two agree exactly when the key is not last.
 */
module InsertFinding {
  import opened Text
  import opened Php
  import opened Schema
  import opened Statements

  /** The INSERT text before `str_replace`: all mapped columns. */
  function InsertDraft(s: Schema, pieces: seq<string>): string {
    "INSERT INTO `" + s.table + "` (`" + Join("`,`", Columns(s.columns)) + "`) VALUES (" + Join(",", pieces) + ")"
  }

  /** The text `str_replace` removes: the key column and the comma after it. */
  function KeyToken(s: Schema): string
    requires Valid(s)
  {
    "`" + KeyColumn(s) + "`,"
  }

  /** The INSERT text as the code writes it. */
  function InsertSqlAsWritten(s: Schema, pieces: seq<string>): (sql: string)
    requires Valid(s)
    ensures sql == InsertDraft(s, pieces) || |sql| < |InsertDraft(s, pieces)|
  {
    ReplaceAllShrinks(InsertDraft(s, pieces), KeyToken(s), "");
    ReplaceAll(InsertDraft(s, pieces), KeyToken(s), "")
  }

  /** The columns other than `x`, in order. */
  function Without(cs: seq<string>, x: string): seq<string>
    decreases |cs|
  {
    if |cs| == 0 then [] else Without(cs[..|cs| - 1], x) + (if cs[|cs| - 1] == x then [] else [cs[|cs| - 1]])
  }

  lemma {:induction false} WithoutAppend(a: seq<string>, b: seq<string>, x: string)
    ensures Without(a + b, x) == Without(a, x) + Without(b, x)
    decreases |b|
  {
    if |b| > 0 {
      var init := b[..|b| - 1];
      assert (a + b)[..|a + b| - 1] == a + init;
      WithoutAppend(a, init, x);
    } else {
      assert a + b == a;
    }
  }

  /** A column not equal to `x` survives. */
  lemma {:induction false} WithoutAbsent(cs: seq<string>, x: string)
    requires x !in cs
    ensures Without(cs, x) == cs
    decreases |cs|
  {
    if |cs| > 0 {
      var init := cs[..|cs| - 1];
      assert x !in init;
      WithoutAbsent(init, x);
      assert cs == init + [cs[|cs| - 1]];
    }
  }

  /** In a valid schema the non-key columns are the columns other than the key column. */
  lemma {:induction false} NonKeyColumnsWithout(m: ColumnMap, pk: string, kc: string)
    requires forall i :: 0 <= i < |m| ==> (m[i].0 == pk <==> m[i].1 == kc)
    ensures Columns(NonKeyEntries(m, pk)) == Without(Columns(m), kc)
    decreases |m|
  {
    if |m| > 0 {
      var n := |m| - 1;
      var init := m[..n];
      assert forall i :: 0 <= i < |init| ==> init[i] == m[i];
      NonKeyColumnsWithout(init, pk, kc);
      assert Columns(m)[..n] == Columns(init);
      var e := NonKeyEntries(init, pk);
      if m[n].0 != pk {
        assert Columns(e + [m[n]]) == Columns(e) + [m[n].1];
      } else {
        assert e + [] == e;
      }
    }
  }

  /** A column list "`c1`,`c2`,...,`cn`)" written token by token. */
  function ColumnText(cols: seq<string>): string
    requires |cols| > 0
    decreases |cols|
  {
    if |cols| == 1 then "`" + cols[0] + "`)" else "`" + cols[0] + "`," + ColumnText(cols[1..])
  }

  lemma {:induction false} ColumnTextJoin(cols: seq<string>)
    requires |cols| > 0
    ensures "`" + Join("`,`", cols) + "`)" == ColumnText(cols)
    decreases |cols|
  {
    if |cols| > 1 {
      ColumnTextJoin(cols[1..]);
    }
  }

  lemma {:induction false} ColumnTextQuoted(cols: seq<string>)
    requires |cols| > 0
    ensures ColumnText(cols) == Join(",", Quoted(cols)) + ")"
    decreases |cols|
  {
    if |cols| > 1 {
      ColumnTextQuoted(cols[1..]);
      assert Quoted(cols)[1..] == Quoted(cols[1..]);
    }
  }

  /** Where the pattern does not start, `str_replace` keeps the first character and moves on. */
  lemma ReplaceAllNoMatchHere(s: string, pat: string, rep: string)
    requires |pat| > 0 && |s| > 0
    requires |s| < |pat| || s[..|pat|] != pat
    ensures ReplaceAll(s, pat, rep) == [s[0]] + ReplaceAll(s[1..], pat, rep)
  {
    if |s| < |pat| {
      ReplaceAllShort(s[1..], pat, rep);
      assert [s[0]] + s[1..] == s;
    }
  }

  /** Two identifiers followed by a backtick agree up to the shorter one only if they are equal. */
  lemma IdentifierTokenDiffers(c: string, kc: string, sep: char, rest: string)
    requires Identifier(c) && Identifier(kc) && !(c == kc && sep == ',')
    requires |"`" + c + "`" + [sep] + rest| >= |"`" + kc + "`,"|
    ensures ("`" + c + "`" + [sep] + rest)[..|"`" + kc + "`,"|] != "`" + kc + "`,"
  {
    var s := "`" + c + "`" + [sep] + rest;
    var pat := "`" + kc + "`,";
    var j: int;
    if |c| < |kc| {
      j := 1 + |c|;
      assert s[j] == '`' && pat[j] == kc[|c|] && IsIdentChar(kc[|c|]);
    } else if |kc| < |c| {
      j := 1 + |kc|;
      assert pat[j] == '`' && s[j] == c[|kc|] && IsIdentChar(c[|kc|]);
    } else if c != kc {
      var d :| 0 <= d < |c| && c[d] != kc[d];
      j := 1 + d;
      assert s[j] == c[d] && pat[j] == kc[d];
    } else {
      j := 2 + |c|;
      assert s[j] == sep && pat[j] == ',';
    }
    assert s[..|pat|][j] != pat[j];
  }

  /** An identifier holds no backtick. */
  lemma IdentifierPlain(c: string)
    requires Identifier(c)
    ensures '`' !in c
  {
    forall d | 0 <= d < |c| ensures c[d] != '`' {
      assert IsIdentChar(c[d]);
    }
  }

  /** `str_replace` on one backquoted identifier and its separator. */
  lemma TokenHead(c: string, kc: string, sep: char, rest: string)
    requires Identifier(c) && Identifier(kc) && sep != '`' && !IsIdentChar(sep)
    ensures ReplaceAll("`" + c + "`" + [sep] + rest, "`" + kc + "`,", "") ==
      (if c == kc && sep == ',' then "" else "`" + c + "`" + [sep]) + ReplaceAll(rest, "`" + kc + "`,", "")
  {
    var pat := "`" + kc + "`,";
    var s := "`" + c + "`" + [sep] + rest;
    if c == kc && sep == ',' {
      assert s == pat + rest;
      assert s[..|pat|] == pat && s[|pat|..] == rest;
    } else {
      TokenKept(c, kc, sep, rest);
    }
  }

  /** A token other than "`kc`," passes through `str_replace`. */
  lemma TokenKept(c: string, kc: string, sep: char, rest: string)
    requires Identifier(c) && Identifier(kc) && sep != '`' && !IsIdentChar(sep) && !(c == kc && sep == ',')
    ensures ReplaceAll("`" + c + "`" + [sep] + rest, "`" + kc + "`,", "") ==
      "`" + c + "`" + [sep] + ReplaceAll(rest, "`" + kc + "`,", "")
  {
    var pat := "`" + kc + "`,";
    var s := "`" + c + "`" + [sep] + rest;
    var u := "`" + [sep] + rest;
    var r := ReplaceAll(rest, pat, "");
    OpeningBacktickKept(c, kc, sep, rest);
    IdentifierPlain(c);
    ReplaceAllSkipsPrefix(c, u, pat, "");
    SeparatorKept(kc, sep, rest);
    TokenRegroup(c, sep, r);
  }

  /** Regrouping a backquoted token followed by its separator and the rest. */
  lemma TokenRegroup(c: string, sep: char, r: string)
    ensures "`" + (c + ("`" + [sep] + r)) == "`" + c + "`" + [sep] + r
  {
    assert "`" + (c + ("`" + [sep] + r)) == "`" + c + "`" + [sep] + r;
  }

  /** The opening backtick of a token other than "`kc`," passes through `str_replace`. */
  lemma OpeningBacktickKept(c: string, kc: string, sep: char, rest: string)
    requires Identifier(c) && Identifier(kc) && !(c == kc && sep == ',')
    ensures ReplaceAll("`" + c + "`" + [sep] + rest, "`" + kc + "`,", "") ==
      "`" + ReplaceAll(c + ("`" + [sep] + rest), "`" + kc + "`,", "")
  {
    var pat := "`" + kc + "`,";
    var s := "`" + c + "`" + [sep] + rest;
    if |s| >= |pat| {
      IdentifierTokenDiffers(c, kc, sep, rest);
    }
    ReplaceAllNoMatchHere(s, pat, "");
    assert s[1..] == c + ("`" + [sep] + rest);
  }

  /** A backtick followed by a separator passes through `str_replace`. */
  lemma SeparatorKept(kc: string, sep: char, rest: string)
    requires Identifier(kc) && sep != '`' && !IsIdentChar(sep)
    ensures ReplaceAll("`" + [sep] + rest, "`" + kc + "`,", "") == "`" + [sep] + ReplaceAll(rest, "`" + kc + "`,", "")
  {
    var pat := "`" + kc + "`,";
    var u := "`" + [sep] + rest;
    if |u| >= |pat| {
      assert u[..|pat|][1] == sep && pat[1] == kc[0] && IsIdentChar(kc[0]);
    }
    ReplaceAllNoMatchHere(u, pat, "");
    assert u[1..] == [sep] + rest;
    ReplaceAllSkipsPrefix([sep], rest, pat, "");
  }

  /**
   * `str_replace` over the column list: every column followed by a comma
   * that is the key column disappears; the last column, followed by ")",
   * always stays.
   */
  lemma {:induction false} ReplaceColumns(cols: seq<string>, kc: string, tail: string)
    requires |cols| > 0 && (forall i :: 0 <= i < |cols| ==> Identifier(cols[i])) && Identifier(kc)
    requires '`' !in tail
    ensures ReplaceAll(ColumnText(cols) + tail, "`" + kc + "`,", "") ==
      ColumnText(Without(cols[..|cols| - 1], kc) + [cols[|cols| - 1]]) + tail
    decreases |cols|
  {
    var pat := "`" + kc + "`,";
    var c := cols[0];
    if |cols| == 1 {
      assert ColumnText(cols) + tail == "`" + c + "`" + [')'] + tail;
      TokenHead(c, kc, ')', tail);
      ReplaceAllSkipsPrefix(tail, "", pat, "");
      assert tail + "" == tail;
      assert cols[..0] == [];
    } else {
      var rest := cols[1..];
      assert ColumnText(cols) + tail == "`" + c + "`" + [','] + (ColumnText(rest) + tail);
      TokenHead(c, kc, ',', ColumnText(rest) + tail);
      ReplaceColumns(rest, kc, tail);
      var r := Without(rest[..|rest| - 1], kc) + [rest[|rest| - 1]];
      assert cols[..|cols| - 1] == [c] + rest[..|rest| - 1];
      WithoutAppend([c], rest[..|rest| - 1], kc);
      assert Without([c], kc) == if c == kc then [] else [c] by {
        assert [c][..0] == [];
      }
      var w := Without(cols[..|cols| - 1], kc) + [cols[|cols| - 1]];
      assert cols[|cols| - 1] == rest[|rest| - 1];
      var done := ReplaceAll(ColumnText(rest) + tail, pat, "");
      assert done == ColumnText(r) + tail;
      if c != kc {
        assert w == [c] + r;
        assert ([c] + r)[1..] == r;
        assert ColumnText(w) == "`" + c + "`," + ColumnText(r);
        assert "`" + c + "`" + [','] == "`" + c + "`,";
      } else {
        assert w == r;
      }
    }
  }

  /** `str_replace` over a whole INSERT text: only what follows the opening parenthesis can change. */
  lemma ReplaceInsertText(t: string, kc: string, z: string, rz: string)
    requires Identifier(t) && Identifier(kc)
    requires ReplaceAll(z, "`" + kc + "`,", "") == rz
    ensures ReplaceAll("INSERT INTO " + ("`" + t + "`" + [' '] + ("(" + z)), "`" + kc + "`,", "") ==
      "INSERT INTO " + ("`" + t + "`" + [' '] + ("(" + rz))
  {
    KeywordsPlain();
    ReplaceAllSkipsPrefix("INSERT INTO ", "`" + t + "`" + [' '] + ("(" + z), "`" + kc + "`,", "");
    TokenKept(t, kc, ' ', "(" + z);
    ReplaceAllSkipsPrefix("(", z, "`" + kc + "`,", "");
  }

  /** The literal parts of an INSERT text before the column list hold no backtick. */
  lemma KeywordsPlain()
    ensures '`' !in "INSERT INTO " && '`' !in "(" && !IsIdentChar(' ')
  {
  }

  /** The token form of an INSERT text is its literal form. */
  lemma InsertTokens(t: string, w: string, tail: string)
    ensures "INSERT INTO " + ("`" + t + "`" + [' '] + ("(" + (w + tail))) == "INSERT INTO `" + t + "` (" + w + tail
  {
    assert "INSERT INTO `" == "INSERT INTO " + "`";
    assert "` (" == "`" + [' '] + "(";
  }

  /** The draft INSERT, split into the tokens `str_replace` sees. */
  lemma DraftTokens(s: Schema, pieces: seq<string>)
    requires |s.columns| > 0
    ensures InsertDraft(s, pieces) ==
      "INSERT INTO " + ("`" + s.table + "`" + [' '] + ("(" + (ColumnText(Columns(s.columns)) + (" VALUES (" + Join(",", pieces) + ")"))))
  {
    var cols := Columns(s.columns);
    ColumnTextJoin(cols);
    var j := Join("`,`", cols);
    var p := Join(",", pieces);
    calc {
      InsertDraft(s, pieces);
      "INSERT INTO `" + s.table + "` (`" + j + "`) VALUES (" + p + ")";
      "INSERT INTO " + ("`" + s.table + "`" + [' '] + ("(" + (("`" + j + "`)") + (" VALUES (" + p + ")"))));
    }
  }

  /** The as-written INSERT, token by token: only the column list can contain the pattern. */
  lemma AsWrittenText(s: Schema, pieces: seq<string>)
    requires Valid(s) && '`' !in Join(",", pieces)
    ensures |s.columns| > 0
    ensures var cols := Columns(s.columns);
      InsertSqlAsWritten(s, pieces) ==
        "INSERT INTO `" + s.table + "` (" + ColumnText(Without(cols[..|cols| - 1], KeyColumn(s)) + [cols[|cols| - 1]])
        + (" VALUES (" + Join(",", pieces) + ")")
  {
    ReplacedDraft(s, pieces);
  }

  /** `str_replace` on the draft INSERT, token by token. */
  lemma ReplacedDraft(s: Schema, pieces: seq<string>)
    requires Valid(s) && '`' !in Join(",", pieces)
    ensures |s.columns| > 0
    ensures var cols := Columns(s.columns);
      ReplaceAll(InsertDraft(s, pieces), KeyToken(s), "") ==
        "INSERT INTO `" + s.table + "` (" + ColumnText(Without(cols[..|cols| - 1], KeyColumn(s)) + [cols[|cols| - 1]])
        + (" VALUES (" + Join(",", pieces) + ")")
  {
    DraftFacts(s);
    DraftTokens(s, pieces);
    var cols := Columns(s.columns);
    ReplacedColumnList(s.table, cols, KeyColumn(s), " VALUES (" + Join(",", pieces) + ")");
  }

  /** A valid schema has a column list of identifiers, one of them the key column. */
  lemma DraftFacts(s: Schema)
    requires Valid(s)
    ensures |s.columns| > 0 && Identifier(s.table) && Identifier(KeyColumn(s))
    ensures forall i :: 0 <= i < |Columns(s.columns)| ==> Identifier(Columns(s.columns)[i])
  {
    LookupAt(s.columns, s.primaryKey);
    var k :| 0 <= k < |s.columns| && s.columns[k].0 == s.primaryKey;
    KeyColumnIff(s, k);
  }

  /** `str_replace` on an INSERT text over identifier columns and a tail free of backticks. */
  lemma ReplacedColumnList(t: string, cols: seq<string>, kc: string, tail: string)
    requires Identifier(t) && Identifier(kc) && '`' !in tail
    requires |cols| > 0 && forall i :: 0 <= i < |cols| ==> Identifier(cols[i])
    ensures ReplaceAll("INSERT INTO " + ("`" + t + "`" + [' '] + ("(" + (ColumnText(cols) + tail))), "`" + kc + "`,", "") ==
      "INSERT INTO `" + t + "` (" + ColumnText(Without(cols[..|cols| - 1], kc) + [cols[|cols| - 1]]) + tail
  {
    var w := ColumnText(Without(cols[..|cols| - 1], kc) + [cols[|cols| - 1]]);
    ReplaceColumns(cols, kc, tail);
    ReplaceInsertText(t, kc, ColumnText(cols) + tail, w + tail);
    InsertTokens(t, w, tail);
  }

  /** INSERT placeholders contain no backtick. */
  lemma InsertPiecesPlain(s: Schema)
    requires Valid(s)
    ensures '`' !in Join(",", SyncPieces(s.columns, s.primaryKey, false))
  {
    var e := NonKeyEntries(s.columns, s.primaryKey);
    NonKeyEntriesSpec(s);
    SyncPiecesAreNonKeyPieces(s.columns, s.primaryKey, false);
    var ps := Pieces(e, false);
    forall j | 0 <= j < |ps|
      ensures '`' !in ps[j]
    {
      var i :| 0 <= i < |s.columns| && s.columns[i] == e[j];
      assert Identifier(e[j].0);
      forall d | 0 <= d < |ps[j]| ensures ps[j][d] != '`' {
        if d > 0 {
          assert ps[j][d] == e[j].0[d - 1];
          assert IsIdentChar(e[j].0[d - 1]);
        }
      }
    }
    JoinAvoids(",", ps, '`');
  }

  /** With the key last, dropping the key column from all but the last column changes nothing. */
  lemma KeyLastColumns(s: Schema)
    requires Valid(s) && |s.columns| > 0 && s.columns[|s.columns| - 1].0 == s.primaryKey
    ensures var cols := Columns(s.columns);
      Without(cols[..|cols| - 1], KeyColumn(s)) + [cols[|cols| - 1]] == cols
  {
    var cols := Columns(s.columns);
    var n := |cols| - 1;
    forall i | 0 <= i < n ensures cols[..n][i] != KeyColumn(s) {
      KeyColumnIff(s, i);
    }
    WithoutAbsent(cols[..n], KeyColumn(s));
    assert cols[..n] + [cols[n]] == cols;
  }

  /** With the key not last, the columns left after `str_replace` are the non-key columns. */
  lemma KeyNotLastColumns(s: Schema)
    requires Valid(s) && |s.columns| > 0 && s.columns[|s.columns| - 1].0 != s.primaryKey
    ensures var cols := Columns(s.columns);
      Without(cols[..|cols| - 1], KeyColumn(s)) + [cols[|cols| - 1]] == Columns(NonKeyEntries(s.columns, s.primaryKey))
  {
    var m := s.columns;
    var n := |m| - 1;
    var cols := Columns(m);
    var kc := KeyColumn(s);
    forall i | 0 <= i < |m| ensures (m[i].0 == s.primaryKey <==> m[i].1 == kc) {
      KeyColumnIff(s, i);
    }
    NonKeyColumnsWithout(m, s.primaryKey, kc);
    KeyColumnIff(s, n);
    WithoutAppend(cols[..n], [cols[n]], kc);
    assert cols == cols[..n] + [cols[n]];
    assert Without([cols[n]], kc) == [cols[n]] by {
      assert [cols[n]][..0] == [];
    }
  }

  /** Regrouping an INSERT text whose column list ends in ")". */
  lemma ClosedColumnList(t: string, q: string, p: string)
    ensures "INSERT INTO `" + t + "` (" + (q + ")") + (" VALUES (" + p + ")") ==
      "INSERT INTO `" + t + "` (" + q + ") VALUES (" + p + ")"
  {
    assert ") VALUES (" == ")" + " VALUES (";
  }

  /** Regrouping an INSERT text whose column list is backquoted as a whole. */
  lemma QuotedColumnList(t: string, j: string, p: string)
    ensures "INSERT INTO `" + t + "` (" + ("`" + j + "`)") + (" VALUES (" + p + ")") ==
      "INSERT INTO `" + t + "` (`" + j + "`) VALUES (" + p + ")"
  {
    assert "` (`" == "` (" + "`";
    assert "`) VALUES (" == "`)" + " VALUES (";
  }

  /** When the key is not the last entry of the map, the as-written INSERT text is the intended one. */
  lemma AsWrittenIsInsertSql(s: Schema, pieces: seq<string>)
    requires Valid(s) && '`' !in Join(",", pieces)
    requires |s.columns| > 0 && s.columns[|s.columns| - 1].0 != s.primaryKey
    ensures InsertSqlAsWritten(s, pieces) == InsertSql(s, pieces)
  {
    AsWrittenText(s, pieces);
    KeyNotLastColumns(s);
    var w := Columns(NonKeyEntries(s.columns, s.primaryKey));
    NonKeyEntriesSpec(s);
    ColumnTextQuoted(w);
    ClosedColumnList(s.table, Join(",", Quoted(w)), Join(",", pieces));
  }

  /** When the key is not the last entry of the map, the as-written INSERT is the statement `sync` means to issue. */
  lemma AsWrittenAgreesWhenKeyNotLast(s: Schema, fields: map<string, Value>, force: bool, json: Value -> string)
    requires Valid(s) && !UsesUpdate(s, fields, force)
    requires |s.columns| > 0 && s.columns[|s.columns| - 1].0 != s.primaryKey
    ensures InsertSqlAsWritten(s, SyncPieces(s.columns, s.primaryKey, false)) == SyncStatement(s, fields, force, json).sql
  {
    InsertPiecesPlain(s);
    AsWrittenIsInsertSql(s, SyncPieces(s.columns, s.primaryKey, false));
  }

  /** When the key is the last entry, `str_replace` removes nothing: the key column stays in the INSERT column list. */
  lemma AsWrittenKeepsLastKey(s: Schema, pieces: seq<string>)
    requires Valid(s) && '`' !in Join(",", pieces)
    requires |s.columns| > 0 && s.columns[|s.columns| - 1].0 == s.primaryKey
    ensures InsertSqlAsWritten(s, pieces) == InsertDraft(s, pieces)
  {
    AsWrittenText(s, pieces);
    KeyLastColumns(s);
    ColumnTextJoin(Columns(s.columns));
    QuotedColumnList(s.table, Join("`,`", Columns(s.columns)), Join(",", pieces));
  }
}

/**
  The single-row table handed to the classifier: an ordered sequence of
  (column name, value) pairs, with lookup by name as a dictionary keyed by
  column name gives it, and the schema a row is checked against.
*/
module Rows {
  import opened Sequences
  import opened Encoding

  datatype Option<T> = None | Some(value: T)

  /** A cell of the row: an integer (codes, age, blood pressures) or a float. */
  datatype Value = IntV(i: int) | RealV(x: real)

  type Row = seq<(string, Value)>

  /** What a column may hold. */
  datatype Domain =
    | IntRange(lo: int, hi: int)        // integer passthrough, inclusive bounds
    | RealRange(rlo: real, rhi: real)   // float passthrough, inclusive bounds
    | Code(options: seq<Label>)         // index of one of these options

  datatype Column = Column(name: string, domain: Domain)

  function Names(row: Row): seq<string> {
    seq(|row|, i requires 0 <= i < |row| => row[i].0)
  }

  function ColumnNames(cols: seq<Column>): seq<string> {
    seq(|cols|, i requires 0 <= i < |cols| => cols[i].name)
  }

  /** The value stored under `name`; the first entry with that name wins. */
  function Lookup(row: Row, name: string): Option<Value> {
    if row == [] then None
    else if row[0].0 == name then Some(row[0].1)
    else Lookup(row[1..], name)
  }

  /** A value fits a domain. */
  predicate Fits(v: Value, d: Domain) {
    match d
    case IntRange(lo, hi) => v.IntV? && lo <= v.i <= hi
    case RealRange(lo, hi) => v.RealV? && lo <= v.x <= hi
    case Code(options) => v.IntV? && 0 <= v.i < |options|
  }

  /** The row has the schema's columns, in the schema's order, each value within its domain. */
  predicate Conforms(row: Row, schema: seq<Column>) {
    |row| == |schema|
    && forall i :: 0 <= i < |row| ==> row[i].0 == schema[i].name && Fits(row[i].1, schema[i].domain)
  }

  /** Every column the schema declares as a code holds an index of its option list. */
  predicate CodesFit(row: Row, schema: seq<Column>) {
    |row| == |schema|
    && forall i :: 0 <= i < |row| && schema[i].domain.Code? ==> Fits(row[i].1, schema[i].domain)
  }

  /** Lookup agrees with position: a name that occurs nowhere else is found with its own value. */
  lemma {:induction false} LookupAt(row: Row, i: int)
    requires Distinct(Names(row)) && 0 <= i < |row|
    ensures Lookup(row, row[i].0) == Some(row[i].1)
  {
    if i > 0 {
      assert Names(row)[0] != Names(row)[i];
      assert Names(row[1..]) == Names(row)[1..];
      DistinctTail(Names(row));
      LookupAt(row[1..], i - 1);
    }
  }

  /** A name that is not in the row is not found. */
  lemma {:induction false} LookupAbsent(row: Row, name: string)
    requires name !in Names(row)
    ensures Lookup(row, name) == None
  {
    if row != [] {
      assert Names(row)[0] == row[0].0;
      assert Names(row[1..]) == Names(row)[1..];
      LookupAbsent(row[1..], name);
    }
  }

  lemma NamesAppend(a: Row, b: Row)
    ensures Names(a + b) == Names(a) + Names(b)
  {
  }

  lemma ColumnNamesAppend(a: seq<Column>, b: seq<Column>)
    ensures ColumnNames(a + b) == ColumnNames(a) + ColumnNames(b)
  {
  }

  /** Conformance is checked column by column, so it composes along concatenation. */
  lemma ConformsAppend(a: Row, sa: seq<Column>, b: Row, sb: seq<Column>)
    requires Conforms(a, sa) && Conforms(b, sb)
    ensures Conforms(a + b, sa + sb)
  {
    forall i | 0 <= i < |a + b|
      ensures (a + b)[i].0 == (sa + sb)[i].name && Fits((a + b)[i].1, (sa + sb)[i].domain)
    {
      if i < |a| {
        assert (a + b)[i] == a[i] && (sa + sb)[i] == sa[i];
      } else {
        assert (a + b)[i] == b[i - |a|] && (sa + sb)[i] == sb[i - |a|];
      }
    }
  }

  lemma CodesFitAppend(a: Row, sa: seq<Column>, b: Row, sb: seq<Column>)
    requires CodesFit(a, sa) && CodesFit(b, sb)
    ensures CodesFit(a + b, sa + sb)
  {
    forall i | 0 <= i < |a + b| && (sa + sb)[i].domain.Code?
      ensures Fits((a + b)[i].1, (sa + sb)[i].domain)
    {
      if i < |a| {
        assert (a + b)[i] == a[i] && (sa + sb)[i] == sa[i];
      } else {
        assert (a + b)[i] == b[i - |a|] && (sa + sb)[i] == sb[i - |a|];
      }
    }
  }

  /** Equal concatenations with equally long first parts have equal parts. */
  lemma AppendCancel(a: Row, b: Row, c: Row, d: Row)
    requires |a| == |c| && a + b == c + d
    ensures a == c && b == d
  {
    assert a == (a + b)[..|a|] && c == (c + d)[..|c|];
    assert b == (a + b)[|a|..] && d == (c + d)[|c|..];
  }
}

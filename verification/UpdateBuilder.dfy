/** An UPDATE statement built from optional fields, with placeholder numbers and bound values counted separately. */
module UpdateBuilder {
  import opened Basics

  /** `column = $param`. */
  datatype Assignment<C> = Assignment(column: C, param: nat)

  datatype Statement<C> = Statement(sets: seq<Assignment<C>>, idParam: nat)

  type Fields<C, V> = seq<(C, Option<V>)>

  /** The assignments of the provided fields, numbered from `idx`. */
  function Sets<C, V>(fields: Fields<C, V>, idx: nat): seq<Assignment<C>> {
    if fields == [] then []
    else if fields[0].1.None? then Sets(fields[1..], idx)
    else [Assignment(fields[0].0, idx)] + Sets(fields[1..], idx + 1)
  }

  /** The values bound, in the same order. */
  function Binds<C, V>(fields: Fields<C, V>): seq<V> {
    if fields == [] then [] else (if fields[0].1.Some? then [fields[0].1.value] else []) + Binds(fields[1..])
  }

  /** Every placeholder has a value bound to it. */
  predicate Bound<C, V>(sets: seq<Assignment<C>>, binds: seq<V>) {
    forall i :: 0 <= i < |sets| ==> 1 <= sets[i].param <= |binds|
  }

  /** Placeholder k takes the k-th bound value. */
  function Assign<C(==), V>(row: map<C, V>, sets: seq<Assignment<C>>, binds: seq<V>): map<C, V>
    requires Bound(sets, binds)
    decreases |sets|
  {
    if sets == [] then row
    else Assign(row[sets[0].column := binds[sets[0].param - 1]], sets[1..], binds)
  }

  /** What the fields ask for: the provided ones take their values. */
  function Overwrite<C(==), V>(row: map<C, V>, fields: Fields<C, V>): map<C, V>
    decreases |fields|
  {
    if fields == [] then row
    else Overwrite(if fields[0].1.Some? then row[fields[0].0 := fields[0].1.value] else row, fields[1..])
  }

  predicate DistinctColumns<C(==), V>(fields: Fields<C, V>) {
    forall i, j :: 0 <= i < j < |fields| ==> fields[i].0 != fields[j].0
  }

  lemma {:induction false} SetsInStep<C, V>(fields: Fields<C, V>, idx: nat)
    ensures |Sets(fields, idx)| == |Binds(fields)|
    ensures forall k :: 0 <= k < |Binds(fields)| ==> Sets(fields, idx)[k].param == idx + k
  {
    if fields != [] {
      SetsInStep(fields[1..], if fields[0].1.Some? then idx + 1 else idx);
    }
  }

  lemma SetsHead<C, V>(f: (C, Option<V>), rest: Fields<C, V>, idx: nat)
    ensures Sets([f] + rest, idx) == if f.1.Some? then [Assignment(f.0, idx)] + Sets(rest, idx + 1) else Sets(rest, idx)
    ensures Binds([f] + rest) == (if f.1.Some? then [f.1.value] else []) + Binds(rest)
  {
    assert ([f] + rest)[1..] == rest;
  }

  lemma SetsNone<C, V>(idx: nat)
    ensures var none: Fields<C, V> := []; Sets(none, idx) == [] && Binds(none) == []
  {
  }

  /** One more field at the end: its number is one past the values bound so far. */
  lemma {:induction false} SetsSnoc<C, V>(fields: Fields<C, V>, f: (C, Option<V>), idx: nat)
    ensures Sets(fields + [f], idx) == Sets(fields, idx) + if f.1.Some? then [Assignment(f.0, idx + |Binds(fields)|)] else []
    ensures Binds(fields + [f]) == Binds(fields) + if f.1.Some? then [f.1.value] else []
  {
    hide Sets, Binds;
    SetsNone<C, V>(idx);
    SetsNone<C, V>(idx + 1);
    if fields == [] {
      assert fields + [f] == [f] + [];
      SetsHead(f, [], idx);
    } else {
      var rest := fields[1..];
      assert fields == [fields[0]] + rest && fields + [f] == [fields[0]] + (rest + [f]);
      SetsHead(fields[0], rest, idx);
      SetsHead(fields[0], rest + [f], idx);
      SetsSnoc(rest, f, if fields[0].1.Some? then idx + 1 else idx);
    }
  }

  /** With values already bound before them, the assignments pick exactly the fields' own values. */
  lemma {:induction false} AssignIsOverwrite<C, V>(row: map<C, V>, fields: Fields<C, V>, before: seq<V>, after: seq<V>)
    ensures var binds := before + Binds(fields) + after; var sets := Sets(fields, |before| + 1);
            Bound(sets, binds) && Assign(row, sets, binds) == Overwrite(row, fields)
    decreases |fields|
  {
    var binds := before + Binds(fields) + after;
    var sets := Sets(fields, |before| + 1);
    SetsInStep(fields, |before| + 1);
    if fields != [] {
      var rest := fields[1..];
      if fields[0].1.None? {
        assert Binds(fields) == Binds(rest);
        AssignIsOverwrite(row, rest, before, after);
      } else {
        var v := fields[0].1.value;
        AssignIsOverwrite(row[fields[0].0 := v], rest, before + [v], after);
        assert before + [v] + Binds(rest) + after == binds;
        assert binds[|before|] == v;
        assert sets[1..] == Sets(rest, |before| + 2);
      }
    }
  }

  /** No provided field is for this column. */
  predicate Untouched<C(==), V>(fields: Fields<C, V>, column: C) {
    forall i :: 0 <= i < |fields| && fields[i].1.Some? ==> fields[i].0 != column
  }

  /** Column `c` is the same in both rows. */
  predicate SameAt<C(==), V(==)>(row: map<C, V>, after: map<C, V>, c: C) {
    if c in row then c in after && after[c] == row[c] else c !in after
  }

  lemma {:induction false} UntouchedStays<C, V>(row: map<C, V>, fields: Fields<C, V>, c: C)
    requires Untouched(fields, c)
    ensures SameAt(row, Overwrite(row, fields), c)
    decreases |fields|
  {
    if fields != [] {
      var f := fields[0];
      assert Untouched(fields[1..], c) by {
        assert forall i :: 0 <= i < |fields[1..]| ==> fields[1..][i] == fields[i + 1];
      }
      UntouchedStays(if f.1.Some? then row[f.0 := f.1.value] else row, fields[1..], c);
    }
  }

  lemma {:induction false} ProvidedIsSet<C, V>(row: map<C, V>, fields: Fields<C, V>, i: nat)
    requires DistinctColumns(fields) && i < |fields| && fields[i].1.Some?
    ensures var after := Overwrite(row, fields); fields[i].0 in after && after[fields[i].0] == fields[i].1.value
    decreases |fields|
  {
    var f := fields[0];
    var first := if f.1.Some? then row[f.0 := f.1.value] else row;
    var rest := fields[1..];
    assert forall j :: 0 <= j < |rest| ==> rest[j] == fields[j + 1];
    if i == 0 {
      UntouchedStays(first, rest, f.0);
    } else {
      ProvidedIsSet(first, rest, i - 1);
    }
  }

  /** Overwriting means: a provided field takes its value, every other column stays. */
  lemma OverwriteMeaning<C(!new), V>(row: map<C, V>, fields: Fields<C, V>)
    requires DistinctColumns(fields)
    ensures var after := Overwrite(row, fields);
            && (forall i :: 0 <= i < |fields| && fields[i].1.Some? ==>
                  fields[i].0 in after && after[fields[i].0] == fields[i].1.value)
            && (forall c :: Untouched(fields, c) ==> SameAt(row, after, c))
  {
    hide Overwrite, Untouched, SameAt, DistinctColumns;
    var after := Overwrite(row, fields);
    forall i | 0 <= i < |fields| && fields[i].1.Some?
      ensures fields[i].0 in after && after[fields[i].0] == fields[i].1.value
    {
      ProvidedIsSet(row, fields, i);
    }
    forall c | Untouched(fields, c)
      ensures SameAt(row, after, c)
    {
      UntouchedStays(row, fields, c);
    }
  }

  /** The statement over a table: the row whose key is bound to the last placeholder, if there is one, takes the assignments. */
  function Execute<C(==), V(==)>(table: map<V, map<C, V>>, stmt: Statement<C>, binds: seq<V>): map<V, map<C, V>>
    requires Bound(stmt.sets, binds) && 1 <= stmt.idParam <= |binds|
  {
    var id := binds[stmt.idParam - 1];
    if id in table then table[id := Assign(table[id], stmt.sets, binds)] else table
  }

  function Build<C, V>(fields: Fields<C, V>): Statement<C> {
    Statement(Sets(fields, 1), |Binds(fields)| + 1)
  }

  /** For any list of optional fields, running the built statement with its bind list overwrites the named row and no other. */
  lemma BuiltUpdate<C, V>(table: map<V, map<C, V>>, fields: Fields<C, V>, id: V)
    ensures var binds := Binds(fields) + [id]; var stmt := Build(fields);
            Bound(stmt.sets, binds) && stmt.idParam == |binds|
            && Execute(table, stmt, binds) == if id in table then table[id := Overwrite(table[id], fields)] else table
  {
    hide Sets, Binds, Assign, Overwrite;
    var binds := Binds(fields) + [id];
    SetsInStep(fields, 1);
    if id in table {
      assert [] + Binds(fields) + [id] == binds;
      AssignIsOverwrite(table[id], fields, [], [id]);
    }
  }
}

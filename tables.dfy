/** A keyed table read row by row: the enumeration a `SELECT ... FROM t` produces, in an order
    nobody promises, and the facts that make counts and sums over it independent of that order. */
module Tables {
  import SeqUtil

  datatype Row<R> = Row(id: string, record: R)

  /** `rows` lists every entry of `m` exactly once, in some order. */
  predicate Enumerates<R(==,!new)>(rows: seq<Row<R>>, m: map<string, R>) {
    && (forall i :: 0 <= i < |rows| ==> rows[i].id in m && m[rows[i].id] == rows[i].record)
    && (forall id :: id in m ==> exists i :: 0 <= i < |rows| && rows[i].id == id)
    && (forall i, j :: 0 <= i < j < |rows| ==> rows[i].id != rows[j].id)
  }

  /** Reads the whole table, one row per entry. */
  method ListRows<R(==,!new)>(m: map<string, R>) returns (rows: seq<Row<R>>)
    ensures Enumerates(rows, m)
  {
    rows := [];
    var rest := m.Keys;
    while rest != {}
      invariant rest <= m.Keys
      invariant forall i :: 0 <= i < |rows| ==> rows[i].id in m && m[rows[i].id] == rows[i].record && rows[i].id !in rest
      invariant forall id :: id in m && id !in rest ==> exists i :: 0 <= i < |rows| && rows[i].id == id
      invariant forall i, j :: 0 <= i < j < |rows| ==> rows[i].id != rows[j].id
      decreases rest
    {
      var id :| id in rest;
      ghost var before := rows;
      rows := rows + [Row(id, m[id])];
      rest := rest - {id};
      forall k | k in m && k !in rest ensures exists i :: 0 <= i < |rows| && rows[i].id == k {
        if k == id {
          assert rows[|rows| - 1].id == k;
        } else {
          var i :| 0 <= i < |before| && before[i].id == k;
          assert rows[i].id == k;
        }
      }
    }
  }

  /** An enumeration holds each entry of the table exactly once and nothing else. */
  lemma EnumerationMultiset<R(!new)>(rows: seq<Row<R>>, m: map<string, R>)
    requires Enumerates(rows, m)
    ensures forall x :: multiset(rows)[x] == if x.id in m && m[x.id] == x.record then 1 else 0
  {
    assert SeqUtil.Distinct(rows);
    SeqUtil.DistinctMultiset(rows);
    forall x: Row<R> | x.id in m && m[x.id] == x.record ensures x in rows {
      var i :| 0 <= i < |rows| && rows[i].id == x.id;
      assert rows[i] == x;
    }
  }

  /** Two enumerations of one table are permutations of each other. */
  lemma EnumerationsPermute<R(!new)>(a: seq<Row<R>>, b: seq<Row<R>>, m: map<string, R>)
    requires Enumerates(a, m) && Enumerates(b, m)
    ensures multiset(a) == multiset(b)
  {
    EnumerationMultiset(a, m);
    EnumerationMultiset(b, m);
  }

  lemma CountPermutation<T(!new)>(a: seq<T>, b: seq<T>, p: T -> bool)
    requires multiset(a) == multiset(b)
    ensures SeqUtil.Count(a, p) == SeqUtil.Count(b, p)
  {
    assert multiset(SeqUtil.Filter(a, p)) == multiset(SeqUtil.Filter(b, p));
    assert |multiset(SeqUtil.Filter(a, p))| == |SeqUtil.Filter(a, p)|;
    assert |multiset(SeqUtil.Filter(b, p))| == |SeqUtil.Filter(b, p)|;
  }

  lemma {:induction false} SumNonNegative<T>(s: seq<T>, f: T -> real)
    requires forall i :: 0 <= i < |s| ==> f(s[i]) >= 0.0
    ensures SeqUtil.SumOf(s, f) >= 0.0
  {
    if s != [] {
      SumNonNegative(s[1..], f);
    }
  }
}

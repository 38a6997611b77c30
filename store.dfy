/** The hosted data service, reduced to what the components use: one table
    per entity, each a sequence of rows with distinct server-assigned ids,
    queried by filter and order and changed by insert, update-by-id and
    delete-by-id. A failure of the service is an input (`outage`); a failed
    call changes nothing. */
module Store {
  import opened Wrappers
  import Text

  /** A stored row: its server-assigned `id` and its other columns. */
  datatype Row<R> = Row(id: string, fields: R)

  predicate UniqueIds<R(!new)>(rows: seq<Row<R>>) {
    forall i, j :: 0 <= i < j < |rows| ==> rows[i].id != rows[j].id
  }

  // ---------------------------------------------------------------------------
  // Reading
  // ---------------------------------------------------------------------------

  /** Position of the first row with the given id. */
  function IndexOf<R(!new)>(rows: seq<Row<R>>, id: string): (r: Option<nat>)
    ensures r.Some? ==> r.value < |rows| && rows[r.value].id == id
    ensures r.Some? ==> forall j :: 0 <= j < r.value ==> rows[j].id != id
    ensures r.None? ==> forall j :: 0 <= j < |rows| ==> rows[j].id != id
  {
    if rows == [] then None
    else if rows[0].id == id then Some(0)
    else match IndexOf(rows[1..], id)
      case Some(k) => Some(k + 1)
      case None => None
  }

  /** `.eq('id', id)` on a table: the columns of the row with that id. */
  function Find<R(!new)>(rows: seq<Row<R>>, id: string): Option<R> {
    match IndexOf(rows, id)
    case Some(k) => Some(rows[k].fields)
    case None => None
  }

  /** Looking up an id checks the first row, then the rest. */
  lemma FindCons<R(!new)>(rows: seq<Row<R>>, other: string)
    requires rows != []
    ensures Find(rows, other) == if rows[0].id == other then Some(rows[0].fields) else Find(rows[1..], other)
  {
    if rows[0].id != other {
      match IndexOf(rows[1..], other)
      case Some(k) => assert rows[1..][k] == rows[k + 1];
      case None =>
    }
  }

  /** In a table with distinct ids, looking up a row's id finds that row. */
  lemma FindUnique<R(!new)>(rows: seq<Row<R>>, k: nat)
    requires UniqueIds(rows) && k < |rows|
    ensures Find(rows, rows[k].id) == Some(rows[k].fields)
  {
    var r := IndexOf(rows, rows[k].id);
    assert r.Some?;
    assert r.value == k;
  }

  /** A row found by id is a row of the table. */
  lemma FindMember<R(!new)>(rows: seq<Row<R>>, id: string)
    ensures Find(rows, id).Some? ==> Row(id, Find(rows, id).value) in rows
  {
    if Find(rows, id).Some? {
      var k := IndexOf(rows, id).value;
      assert rows[k] == Row(id, Find(rows, id).value);
    }
  }

  /** In a table with distinct ids, every row is found by its id. */
  lemma MemberFind<R(!new)>(rows: seq<Row<R>>, x: Row<R>)
    requires UniqueIds(rows) && x in rows
    ensures Find(rows, x.id) == Some(x.fields)
  {
    var k :| 0 <= k < |rows| && rows[k] == x;
    FindUnique(rows, k);
  }

  /** A filter `.eq(column, value)`: the rows satisfying `p`, in table order. */
  function Where<R(!new)>(rows: seq<Row<R>>, p: Row<R> -> bool): (r: seq<Row<R>>)
    ensures |r| <= |rows|
    ensures forall x :: x in r <==> x in rows && p(x)
  {
    if rows == [] then []
    else (if p(rows[0]) then [rows[0]] else []) + Where(rows[1..], p)
  }

  /** A filter that no row satisfies keeps nothing. */
  lemma {:induction false} WhereNone<R(!new)>(rows: seq<Row<R>>, p: Row<R> -> bool)
    requires forall x :: x in rows ==> !p(x)
    ensures Where(rows, p) == []
  {
    if rows != [] {
      assert rows[0] in rows;
      forall x | x in rows[1..] ensures !p(x) {
        assert x in rows;
      }
      WhereNone(rows[1..], p);
    }
  }

  /** Filtering a table with a row appended filters the table, then the row. */
  lemma {:induction false} WhereAppend<R(!new)>(rows: seq<Row<R>>, x: Row<R>, p: Row<R> -> bool)
    ensures Where(rows + [x], p) == Where(rows, p) + (if p(x) then [x] else [])
  {
    if rows == [] {
      assert rows + [x] == [x];
    } else {
      assert (rows + [x])[1..] == rows[1..] + [x];
      WhereAppend(rows[1..], x, p);
    }
  }

  /** A filter keeps the ids distinct. */
  lemma {:induction false} WhereUnique<R(!new)>(rows: seq<Row<R>>, p: Row<R> -> bool)
    requires UniqueIds(rows)
    ensures UniqueIds(Where(rows, p))
  {
    if rows != [] {
      WhereUnique(rows[1..], p);
      var rest := Where(rows[1..], p);
      forall j | 0 <= j < |rest| ensures rest[j].id != rows[0].id {
        assert rest[j] in rows[1..];
      }
    }
  }

  /** `.single()`: exactly one row, or the service's error. */
  const NotSingleMessage := "JSON object requested, multiple (or no) rows returned"

  function Single<T>(rows: seq<T>): Result<T> {
    if |rows| == 1 then Ok(rows[0]) else Err(NotSingleMessage)
  }

  // ---------------------------------------------------------------------------
  // Writing
  // ---------------------------------------------------------------------------

  const DuplicateKeyMessage := "duplicate key value violates unique constraint"

  /** `.update(patch).eq('id', id)`: `f` applied to the row with that id. */
  function Patched<R(!new)>(rows: seq<Row<R>>, id: string, f: R -> R): (r: seq<Row<R>>)
    ensures |r| == |rows|
    ensures forall i :: 0 <= i < |rows| ==> r[i].id == rows[i].id
  {
    if rows == [] then []
    else [if rows[0].id == id then Row(id, f(rows[0].fields)) else rows[0]] + Patched(rows[1..], id, f)
  }

  /** After an update by id, that row holds the patched columns and every
      other row is what it was. */
  lemma {:induction false} PatchedFind<R(!new)>(rows: seq<Row<R>>, id: string, f: R -> R, other: string)
    ensures other == id ==> Find(Patched(rows, id, f), other) == (match Find(rows, id) case Some(x) => Some(f(x)) case None => None)
    ensures other != id ==> Find(Patched(rows, id, f), other) == Find(rows, other)
  {
    if rows != [] {
      PatchedFind(rows[1..], id, f, other);
      var t := Patched(rows, id, f);
      assert t[1..] == Patched(rows[1..], id, f);
      assert t[0] == if rows[0].id == id then Row(id, f(rows[0].fields)) else rows[0];
      FindCons(rows, other);
      FindCons(t, other);
    }
  }

  /** An update of an id no row has changes nothing. */
  lemma {:induction false} PatchedAbsent<R(!new)>(rows: seq<Row<R>>, id: string, f: R -> R)
    requires Find(rows, id).None?
    ensures Patched(rows, id, f) == rows
  {
    if rows != [] {
      FindCons(rows, id);
      PatchedAbsent(rows[1..], id, f);
    }
  }

  /** An update by id keeps the ids distinct. */
  lemma PatchedUnique<R(!new)>(rows: seq<Row<R>>, id: string, f: R -> R)
    requires UniqueIds(rows)
    ensures UniqueIds(Patched(rows, id, f))
  {
  }

  /** `.delete().eq('id', id)`: every row but the one with that id. */
  function Without<R(!new)>(rows: seq<Row<R>>, id: string): (r: seq<Row<R>>)
    ensures forall x :: x in r <==> x in rows && x.id != id
  {
    if rows == [] then []
    else (if rows[0].id != id then [rows[0]] else []) + Without(rows[1..], id)
  }

  /** After a delete by id, that id is gone and every other row is found as
      before. */
  lemma {:induction false} WithoutFind<R(!new)>(rows: seq<Row<R>>, id: string, other: string)
    ensures Find(Without(rows, id), other) == if other == id then None else Find(rows, other)
  {
    if rows != [] {
      WithoutFind(rows[1..], id, other);
      var w := Without(rows, id);
      var rest := Without(rows[1..], id);
      FindCons(rows, other);
      if rows[0].id == id {
        assert w == rest;
      } else {
        assert w == [rows[0]] + rest;
        assert w[1..] == rest;
        FindCons(w, other);
      }
    }
  }

  lemma {:induction false} WithoutUnique<R(!new)>(rows: seq<Row<R>>, id: string)
    requires UniqueIds(rows)
    ensures UniqueIds(Without(rows, id))
  {
    if rows != [] {
      WithoutUnique(rows[1..], id);
      var rest := Without(rows[1..], id);
      forall j | 0 <= j < |rest| ensures rest[j].id != rows[0].id {
        assert rest[j] in rows[1..];
      }
    }
  }

  /** An insert with an unused id adds exactly that row. */
  lemma {:induction false} AppendFind<R(!new)>(rows: seq<Row<R>>, id: string, x: R, other: string)
    requires Find(rows, id).None?
    ensures Find(rows + [Row(id, x)], other) == if other == id then Some(x) else Find(rows, other)
  {
    if rows == [] {
      assert [] + [Row(id, x)] == [Row(id, x)];
    } else {
      assert (rows + [Row(id, x)])[1..] == rows[1..] + [Row(id, x)];
      AppendFind(rows[1..], id, x, other);
    }
  }

  lemma AppendUnique<R(!new)>(rows: seq<Row<R>>, id: string, x: R)
    requires UniqueIds(rows) && Find(rows, id).None?
    ensures UniqueIds(rows + [Row(id, x)])
  {
  }

  /** One table of the data service. */
  class Table<R(!new)> {
    var rows: seq<Row<R>>

    ghost predicate Valid()
      reads this
    {
      UniqueIds(rows)
    }

    constructor (initial: seq<Row<R>>)
      requires UniqueIds(initial)
      ensures Valid() && rows == initial
    {
      rows := initial;
    }

    /** `.insert([fields]).select()`, with the id the service assigns. */
    method Insert(id: string, fields: R, outage: Option<string>) returns (r: Result<seq<Row<R>>>)
      requires Valid()
      modifies this
      ensures Valid()
      ensures outage.Some? ==> r == Err(outage.value) && rows == old(rows)
      ensures outage.None? && Find(old(rows), id).Some? ==> r == Err(DuplicateKeyMessage) && rows == old(rows)
      ensures outage.None? && Find(old(rows), id).None? ==>
                r == Ok([Row(id, fields)]) && rows == old(rows) + [Row(id, fields)]
    {
      if outage.Some? {
        r := Err(outage.value);
      } else if Find(rows, id).Some? {
        r := Err(DuplicateKeyMessage);
      } else {
        AppendUnique(rows, id, fields);
        rows := rows + [Row(id, fields)];
        r := Ok([Row(id, fields)]);
      }
    }

    /** `.update(patch).eq('id', id).select()`: the updated rows (none or one). */
    method Update(id: string, patch: R -> R, outage: Option<string>) returns (r: Result<seq<Row<R>>>)
      requires Valid()
      modifies this
      ensures Valid()
      ensures outage.Some? ==> r == Err(outage.value) && rows == old(rows)
      ensures outage.None? ==> rows == Patched(old(rows), id, patch)
      ensures outage.None? ==> r == Ok(match Find(old(rows), id) case Some(x) => [Row(id, patch(x))] case None => [])
    {
      if outage.Some? {
        r := Err(outage.value);
      } else {
        var before := Find(rows, id);
        PatchedUnique(rows, id, patch);
        rows := Patched(rows, id, patch);
        r := Ok(match before case Some(x) => [Row(id, patch(x))] case None => []);
      }
    }

    /** `.delete().eq('id', id).select()`: the deleted rows (none or one). */
    method Delete(id: string, outage: Option<string>) returns (r: Result<seq<Row<R>>>)
      requires Valid()
      modifies this
      ensures Valid()
      ensures outage.Some? ==> r == Err(outage.value) && rows == old(rows)
      ensures outage.None? ==> rows == Without(old(rows), id)
      ensures outage.None? ==> r == Ok(match Find(old(rows), id) case Some(x) => [Row(id, x)] case None => [])
    {
      if outage.Some? {
        r := Err(outage.value);
      } else {
        var before := Find(rows, id);
        WithoutUnique(rows, id);
        rows := Without(rows, id);
        r := Ok(match before case Some(x) => [Row(id, x)] case None => []);
      }
    }
  }

  // ---------------------------------------------------------------------------
  // Ordering: `.order(column, { ascending })`
  // ---------------------------------------------------------------------------

  /** The service's order on a column value: text order, with NULL after
      every value (so first when descending). */
  predicate KeyLe(a: Option<string>, b: Option<string>) {
    match (a, b)
    case (_, None) => true
    case (None, Some(_)) => false
    case (Some(x), Some(y)) => Text.LexLe(x, y)
  }

  predicate Precedes(a: Option<string>, b: Option<string>, descending: bool) {
    if descending then KeyLe(b, a) else KeyLe(a, b)
  }

  lemma PrecedesTotal(a: Option<string>, b: Option<string>, descending: bool)
    ensures Precedes(a, b, descending) || Precedes(b, a, descending)
  {
    if a.Some? && b.Some? {
      Text.LexLeTotal(a.value, b.value);
    }
  }

  lemma PrecedesTransitive(a: Option<string>, b: Option<string>, c: Option<string>, descending: bool)
    requires Precedes(a, b, descending) && Precedes(b, c, descending)
    ensures Precedes(a, c, descending)
  {
    if a.Some? && b.Some? && c.Some? {
      if descending {
        Text.LexLeTransitive(c.value, b.value, a.value);
      } else {
        Text.LexLeTransitive(a.value, b.value, c.value);
      }
    }
  }

  /** Every row comes no later than the rows after it, by `key`. */
  predicate SortedBy<R(!new)>(s: seq<Row<R>>, key: R -> Option<string>, descending: bool) {
    forall i, j :: 0 <= i < j < |s| ==> Precedes(key(s[i].fields), key(s[j].fields), descending)
  }

  function InsertSorted<R(!new)>(x: Row<R>, s: seq<Row<R>>, key: R -> Option<string>, descending: bool): seq<Row<R>> {
    if s == [] then [x]
    else if Precedes(key(x.fields), key(s[0].fields), descending) then [x] + s
    else [s[0]] + InsertSorted(x, s[1..], key, descending)
  }

  /** The rows as the service returns them for `.order(key, ...)`; rows with
      equal keys keep their table order. */
  function OrderBy<R(!new)>(rows: seq<Row<R>>, key: R -> Option<string>, descending: bool): seq<Row<R>> {
    if rows == [] then [] else InsertSorted(rows[0], OrderBy(rows[1..], key, descending), key, descending)
  }

  lemma {:induction false} InsertSortedCorrect<R(!new)>(x: Row<R>, s: seq<Row<R>>, key: R -> Option<string>, descending: bool)
    requires SortedBy(s, key, descending)
    ensures multiset(InsertSorted(x, s, key, descending)) == multiset(s) + multiset{x}
    ensures SortedBy(InsertSorted(x, s, key, descending), key, descending)
  {
    if s == [] {
    } else if Precedes(key(x.fields), key(s[0].fields), descending) {
      InsertAtFront(x, s, key, descending);
    } else {
      InsertSortedCorrect(x, s[1..], key, descending);
      InsertBehindHead(x, s, key, descending);
    }
  }

  /** A row that precedes the head of a sorted list goes in front of it. */
  lemma InsertAtFront<R(!new)>(x: Row<R>, s: seq<Row<R>>, key: R -> Option<string>, descending: bool)
    requires s != [] && SortedBy(s, key, descending)
    requires Precedes(key(x.fields), key(s[0].fields), descending)
    ensures SortedBy([x] + s, key, descending)
  {
    var r := [x] + s;
    forall j | 0 < j < |r| ensures Precedes(key(x.fields), key(r[j].fields), descending) {
      if j > 1 {
        PrecedesTransitive(key(x.fields), key(s[0].fields), key(s[j - 1].fields), descending);
      }
    }
  }

  /** A row that does not precede the head of a sorted list goes, sorted,
      into the rest of it. */
  lemma InsertBehindHead<R(!new)>(x: Row<R>, s: seq<Row<R>>, key: R -> Option<string>, descending: bool)
    requires s != [] && SortedBy(s, key, descending)
    requires !Precedes(key(x.fields), key(s[0].fields), descending)
    requires multiset(InsertSorted(x, s[1..], key, descending)) == multiset(s[1..]) + multiset{x}
    requires SortedBy(InsertSorted(x, s[1..], key, descending), key, descending)
    ensures multiset(InsertSorted(x, s, key, descending)) == multiset(s) + multiset{x}
    ensures SortedBy(InsertSorted(x, s, key, descending), key, descending)
  {
    var t := InsertSorted(x, s[1..], key, descending);
    PrecedesTotal(key(x.fields), key(s[0].fields), descending);
    assert s == [s[0]] + s[1..];
    forall j | 0 <= j < |t| ensures Precedes(key(s[0].fields), key(t[j].fields), descending) {
      assert t[j] in multiset(t);
      if t[j] != x {
        assert t[j] in multiset(s[1..]);
        var k :| 0 <= k < |s[1..]| && s[1..][k] == t[j];
        assert s[k + 1] == t[j];
      }
    }
    assert InsertSorted(x, s, key, descending) == [s[0]] + t;
  }

  /** What `.order()` promises: the same rows, each key in order. */
  lemma {:induction false} OrderByCorrect<R(!new)>(rows: seq<Row<R>>, key: R -> Option<string>, descending: bool)
    ensures multiset(OrderBy(rows, key, descending)) == multiset(rows)
    ensures SortedBy(OrderBy(rows, key, descending), key, descending)
  {
    if rows != [] {
      OrderByCorrect(rows[1..], key, descending);
      InsertSortedCorrect(rows[0], OrderBy(rows[1..], key, descending), key, descending);
      assert rows == [rows[0]] + rows[1..];
    }
  }
}

/**
 * The document-store semantics that the query catalog is built from:
 * a collection in natural order, the `find` stages (filter, sort, skip,
 * limit) and the aggregation stages `$lookup` + `$unwind`, `$unwind` of an
 * array field and `$addToSet`.
 */
module Pipeline {
  import opened Entities

  /**
   * A collection: its documents by `_id`, and the id the next insert gets.
   * Ids are handed out in increasing order, as ObjectIds are, so ascending
   * id order is insertion order, which is the natural order of a scan.
   */
  datatype Collection<T> = Collection(docs: map<Id, T>, next: Id) {
    ghost predicate Valid() {
      forall id :: id in docs ==> id < next
    }
  }

  /** The documents with an id below `n`, in ascending id order. */
  function RowsBelow<T>(docs: map<Id, T>, n: nat): (rows: seq<Stored<T>>)
    ensures forall i :: 0 <= i < |rows| ==> rows[i].id < n && rows[i].id in docs && rows[i].doc == docs[rows[i].id]
    ensures forall i, j :: 0 <= i < j < |rows| ==> rows[i].id < rows[j].id
    ensures forall id :: id in docs && id < n ==> Stored(id, docs[id]) in rows
  {
    if n == 0 then []
    else
      var before := RowsBelow(docs, n - 1);
      if n - 1 in docs then
        var rows := before + [Stored(n - 1, docs[n - 1])];
        assert forall i :: 0 <= i < |before| ==> rows[i] == before[i];
        assert rows[|before|] == Stored(n - 1, docs[n - 1]);
        rows
      else
        before
  }

  /** A collection scan: every document once, in natural order. */
  function Rows<T>(c: Collection<T>): seq<Stored<T>>
  {
    RowsBelow(c.docs, c.next)
  }

  ghost predicate IdsIncreasing<T>(rows: seq<Stored<T>>) {
    forall i, j :: 0 <= i < j < |rows| ==> rows[i].id < rows[j].id
  }

  /** A scan yields exactly the stored documents, each with its own id, in increasing id order. */
  lemma RowsExact<T>(c: Collection<T>)
    requires c.Valid()
    ensures forall r :: r in Rows(c) <==> r.id in c.docs && r.doc == c.docs[r.id]
    ensures IdsIncreasing(Rows(c))
  {
  }

  function IdsBelow<T>(docs: map<Id, T>, n: nat): set<Id>
  {
    set id | id in docs && id < n
  }

  lemma IdsBelowStep<T>(docs: map<Id, T>, n: nat)
    requires n > 0
    ensures IdsBelow(docs, n) == IdsBelow(docs, n - 1) + (if n - 1 in docs then {n - 1} else {})
    ensures n - 1 !in IdsBelow(docs, n - 1)
  {
  }

  lemma {:induction false} RowsBelowCount<T>(docs: map<Id, T>, n: nat)
    ensures |RowsBelow(docs, n)| == |IdsBelow(docs, n)|
  {
    if n > 0 {
      RowsBelowCount(docs, n - 1);
      IdsBelowStep(docs, n);
    }
  }

  /** A scan has one row per stored document. */
  lemma RowsCount<T>(c: Collection<T>)
    requires c.Valid()
    ensures |Rows(c)| == |c.docs|
  {
    RowsBelowCount(c.docs, c.next);
    assert IdsBelow(c.docs, c.next) == c.docs.Keys;
  }

  /** `$match` / the filter of `find`: the rows satisfying `p`, in their order. */
  function Filter<T(!new)>(s: seq<T>, p: T -> bool): (r: seq<T>)
    ensures |r| <= |s|
    ensures forall x :: x in r <==> x in s && p(x)
  {
    if s == [] then []
    else (if p(s[0]) then [s[0]] else []) + Filter(s[1..], p)
  }

  lemma {:induction false} FilterIdsIncreasing<T(!new)>(rows: seq<Stored<T>>, p: Stored<T> -> bool)
    requires IdsIncreasing(rows)
    ensures IdsIncreasing(Filter(rows, p))
  {
    if rows != [] {
      FilterIdsIncreasing(rows[1..], p);
      var rest := Filter(rows[1..], p);
      forall j | 0 <= j < |rest|
        ensures rows[0].id < rest[j].id
      {
        assert rest[j] in rows[1..];
      }
    }
  }

  /** Projection of every row (the `$project` stage and the projection of `find`). */
  function Project<T, U>(s: seq<T>, f: T -> U): (r: seq<U>)
    ensures |r| == |s|
    ensures forall i :: 0 <= i < |s| ==> r[i] == f(s[i])
  {
    if s == [] then [] else [f(s[0])] + Project(s[1..], f)
  }

  /**
   * `$lookup` on `_id` followed by `$unwind` of the looked-up array: `_id`
   * is unique, so the lookup finds at most one document, and `$unwind`
   * drops a row whose reference finds none (an inner join).
   */
  function LookupUnwind<R(!new), F(!new)>(rows: seq<R>, key: R -> Id, from: map<Id, F>): (r: seq<(R, F)>)
    ensures |r| <= |rows|
    ensures forall p :: p in r <==> p.0 in rows && key(p.0) in from && p.1 == from[key(p.0)]
  {
    if rows == [] then []
    else
      var rest := LookupUnwind(rows[1..], key, from);
      if key(rows[0]) in from then [(rows[0], from[key(rows[0])])] + rest else rest
  }

  /** The join of a single row: the row with its match, or nothing. */
  lemma LookupOne<R(!new), F(!new)>(x: R, key: R -> Id, from: map<Id, F>)
    ensures LookupUnwind([x], key, from) == if key(x) in from then [(x, from[key(x)])] else []
  {
    assert [x][1..] == [];
  }

  /**
   * Projecting a scan by a function that keeps the id yields one row per
   * stored document: exactly the projections of the stored documents.
   */
  lemma ProjectRowsExact<T, U(!new)>(c: Collection<T>, f: Stored<T> -> U, key: U -> Id)
    requires c.Valid()
    requires forall r :: key(f(r)) == r.id
    ensures |Project(Rows(c), f)| == |c.docs|
    ensures forall x :: x in Project(Rows(c), f) <==> key(x) in c.docs && x == f(Stored(key(x), c.docs[key(x)]))
  {
    RowsExact(c);
    RowsCount(c);
    var rows := Rows(c);
    var projected := Project(rows, f);
    forall x | x in projected ensures key(x) in c.docs && x == f(Stored(key(x), c.docs[key(x)])) {
      var i :| 0 <= i < |projected| && projected[i] == x;
      assert rows[i] in rows;
    }
    forall x | key(x) in c.docs && x == f(Stored(key(x), c.docs[key(x)])) ensures x in projected {
      var row := Stored(key(x), c.docs[key(x)]);
      assert row in rows;
      var i :| 0 <= i < |rows| && rows[i] == row;
      assert projected[i] == x;
    }
  }

  /** One output row per element of the array, paired with the row it came from. */
  function Spread<R, E>(x: R, items: seq<E>): (r: seq<(R, E)>)
    ensures |r| == |items|
    ensures forall i :: 0 <= i < |items| ==> r[i] == (x, items[i])
  {
    if items == [] then [] else [(x, items[0])] + Spread(x, items[1..])
  }

  /** `$unwind` of an array field: one row per element; an empty array yields no row. */
  function Unwind<R(!new), E(!new)>(rows: seq<R>, field: R -> seq<E>): (r: seq<(R, E)>)
    ensures forall p :: p in r <==> p.0 in rows && p.1 in field(p.0)
  {
    if rows == [] then []
    else
      var head := Spread(rows[0], field(rows[0]));
      assert forall p: (R, E) :: p in head <==> p.0 == rows[0] && p.1 in field(rows[0]) by {
        forall p: (R, E) | p in head ensures p.0 == rows[0] && p.1 in field(rows[0]) {
          var i :| 0 <= i < |head| && head[i] == p;
        }
        forall p: (R, E) | p.0 == rows[0] && p.1 in field(rows[0]) ensures p in head {
          var i :| 0 <= i < |field(rows[0])| && field(rows[0])[i] == p.1;
          assert head[i] == p;
        }
      }
      head + Unwind(rows[1..], field)
  }

  /** Inserts `x` before the first element it may precede, so that equal keys keep their order. */
  function InsertBy<T>(x: T, s: seq<T>, le: (T, T) -> bool): (r: seq<T>)
    ensures multiset(r) == multiset(s) + multiset{x}
  {
    if s == [] then [x]
    else if le(x, s[0]) then [x] + s
    else
      assert s == [s[0]] + s[1..];
      [s[0]] + InsertBy(x, s[1..], le)
  }

  /** `$sort` / `.sort()`: a stable insertion sort by the ordering `le`. */
  function SortBy<T>(s: seq<T>, le: (T, T) -> bool): (r: seq<T>)
    ensures multiset(r) == multiset(s)
  {
    if s == [] then []
    else
      assert s == [s[0]] + s[1..];
      InsertBy(s[0], SortBy(s[1..], le), le)
  }

  ghost predicate SortedBy<T>(s: seq<T>, le: (T, T) -> bool) {
    forall i, j :: 0 <= i < j < |s| ==> le(s[i], s[j])
  }

  ghost predicate TotalPreorder<T(!new)>(le: (T, T) -> bool) {
    && (forall a, b :: le(a, b) || le(b, a))
    && (forall a, b, c :: le(a, b) && le(b, c) ==> le(a, c))
  }

  lemma {:induction false} InsertBySorted<T(!new)>(x: T, s: seq<T>, le: (T, T) -> bool)
    requires TotalPreorder(le) && SortedBy(s, le)
    ensures SortedBy(InsertBy(x, s, le), le)
  {
    if s != [] && !le(x, s[0]) {
      InsertBySorted(x, s[1..], le);
      var tail := InsertBy(x, s[1..], le);
      forall k | 0 <= k < |tail|
        ensures le(s[0], tail[k])
      {
        assert tail[k] in multiset(tail);
        if tail[k] != x {
          assert tail[k] in s[1..];
        }
      }
    }
  }

  /** The sorted result is ordered by `le` and is a permutation of the input. */
  lemma {:induction false} SortBySorted<T(!new)>(s: seq<T>, le: (T, T) -> bool)
    requires TotalPreorder(le)
    ensures SortedBy(SortBy(s, le), le)
    ensures multiset(SortBy(s, le)) == multiset(s)
  {
    if s != [] {
      SortBySorted(s[1..], le);
      InsertBySorted(s[0], SortBy(s[1..], le), le);
    }
  }

  /** Sorting keeps the length and exactly the elements of the input. */
  lemma SortByKeeps<T>(s: seq<T>, le: (T, T) -> bool)
    ensures |SortBy(s, le)| == |s|
    ensures forall x :: x in SortBy(s, le) <==> x in s
  {
    var r := SortBy(s, le);
    assert |multiset(r)| == |multiset(s)|;
    forall x ensures x in r <==> x in s {
      assert x in r <==> x in multiset(r);
      assert x in s <==> x in multiset(s);
    }
  }

  /** A page size: `$limit` only takes a positive count. */
  type PageSize = n: nat | 0 < n witness 1

  /** `.skip(skip).limit(limit)` / `$skip` then `$limit`. */
  function Page<T>(s: seq<T>, skip: nat, limit: PageSize): (r: seq<T>)
    ensures |r| <= limit
    ensures forall i :: 0 <= i < |r| ==> skip + i < |s| && r[i] == s[skip + i]
    ensures |r| == limit || skip + |r| >= |s|
  {
    var start := if skip < |s| then skip else |s|;
    var end := if start + limit < |s| then start + limit else |s|;
    s[start..end]
  }

  /** `$addToSet` over a stream: each distinct value once, in order of first appearance. */
  function AddToSet<T(==,!new)>(s: seq<T>): (r: seq<T>)
    ensures forall x :: x in r <==> x in s
    ensures forall i, j :: 0 <= i < j < |r| ==> r[i] != r[j]
  {
    if s == [] then []
    else
      var init := AddToSet(s[..|s| - 1]);
      assert s == s[..|s| - 1] + [s[|s| - 1]];
      if s[|s| - 1] in init then init else init + [s[|s| - 1]]
  }

  /**
   * The order of string keys under the default (binary) collation: code
   * points compared one by one, a proper prefix first.
   */
  predicate StrLe(a: string, b: string) {
    if a == [] then true
    else if b == [] then false
    else if a[0] != b[0] then a[0] < b[0]
    else StrLe(a[1..], b[1..])
  }

  lemma {:induction false} StrLeTotal(a: string, b: string)
    ensures StrLe(a, b) || StrLe(b, a)
  {
    if a != [] && b != [] && a[0] == b[0] {
      StrLeTotal(a[1..], b[1..]);
    }
  }

  lemma {:induction false} StrLeTransitive(a: string, b: string, c: string)
    requires StrLe(a, b) && StrLe(b, c)
    ensures StrLe(a, c)
  {
    if a != [] && b != [] && c != [] && a[0] == b[0] && b[0] == c[0] {
      StrLeTransitive(a[1..], b[1..], c[1..]);
    }
  }
}

/**
 * The ordering of one course's tool rows:
 * `rows.sort((a, b) => (a.sort_order ?? 0) - (b.sort_order ?? 0)).map((r) => r.tool)`.
 *
 * `Array.prototype.sort` must be stable (section 23.1.3.30 of ECMA-262, 2019 and later), so
 * the comparator fixes the result completely: rows in non-decreasing key order, rows with
 * equal keys in the order they arrived. SortByKey is an insertion sort with exactly that
 * result; StableSortIsUnique shows that any stable sort returns the same sequence.
 */
module ToolSort {

  import opened Outcomes

  datatype CourseToolRow = CourseToolRow(id: string, course_id: string, tool: string, sort_order: Option<int>)

  /** The comparator's key, `sort_order ?? 0`. */
  function SortKey(r: CourseToolRow): int
  {
    OrZero(r.sort_order)
  }

  predicate SortedByKey(s: seq<CourseToolRow>)
  {
    forall i, j :: 0 <= i < j < |s| ==> SortKey(s[i]) <= SortKey(s[j])
  }

  /** The rows of `s` whose key is `k`, in their order in `s`. */
  function KeyFilter(s: seq<CourseToolRow>, k: int): seq<CourseToolRow>
  {
    if s == [] then []
    else (if SortKey(s[0]) == k then [s[0]] else []) + KeyFilter(s[1..], k)
  }

  /** Places `x` before the first row whose key is not below its own. */
  function Insert(x: CourseToolRow, t: seq<CourseToolRow>): (r: seq<CourseToolRow>)
    ensures |r| == |t| + 1
    ensures multiset(r) == multiset(t) + multiset{x}
  {
    if t == [] || SortKey(x) <= SortKey(t[0]) then [x] + t
    else
      assert t == [t[0]] + t[1..];
      [t[0]] + Insert(x, t[1..])
  }

  /** Inserting into a key-ordered sequence keeps it key-ordered. */
  lemma {:induction false} InsertSorted(x: CourseToolRow, t: seq<CourseToolRow>)
    requires SortedByKey(t)
    ensures SortedByKey(Insert(x, t))
  {
    if t != [] && SortKey(x) > SortKey(t[0]) {
      var rest := Insert(x, t[1..]);
      InsertSorted(x, t[1..]);
      forall j | 0 <= j < |rest|
        ensures SortKey(t[0]) <= SortKey(rest[j])
      {
        assert rest[j] in multiset(rest);
        assert rest[j] == x || rest[j] in t[1..];
      }
    }
  }

  /** The stable sort by `sort_order ?? 0`: ordered by key and a permutation of its input. */
  function SortByKey(s: seq<CourseToolRow>): (r: seq<CourseToolRow>)
    ensures |r| == |s|
    ensures multiset(r) == multiset(s)
    ensures SortedByKey(r)
  {
    if s == [] then []
    else
      assert s == [s[0]] + s[1..];
      InsertSorted(s[0], SortByKey(s[1..]));
      Insert(s[0], SortByKey(s[1..]))
  }

  /** Inserting `x` keeps it ahead of every row with its key: each key's rows keep their order. */
  lemma {:induction false} InsertKeepsKeyOrder(x: CourseToolRow, t: seq<CourseToolRow>, k: int)
    ensures KeyFilter(Insert(x, t), k) == KeyFilter([x] + t, k)
  {
    if t == [] || SortKey(x) <= SortKey(t[0]) {
    } else {
      InsertKeepsKeyOrder(x, t[1..], k);
      var rest := Insert(x, t[1..]);
      assert ([t[0]] + rest)[1..] == rest;
      assert ([x] + t)[1..] == t;
      assert ([x] + t[1..])[1..] == t[1..];
    }
  }

  /** Stability: for every key, the rows with that key appear in the sorted result in their input order. */
  lemma {:induction false} SortByKeyIsStable(s: seq<CourseToolRow>, k: int)
    ensures KeyFilter(SortByKey(s), k) == KeyFilter(s, k)
  {
    if s != [] {
      SortByKeyIsStable(s[1..], k);
      InsertKeepsKeyOrder(s[0], SortByKey(s[1..]), k);
      assert ([s[0]] + SortByKey(s[1..]))[1..] == SortByKey(s[1..]);
    }
  }

  lemma {:induction false} KeyFilterWitness(s: seq<CourseToolRow>, k: int)
    requires KeyFilter(s, k) != []
    ensures exists j :: 0 <= j < |s| && SortKey(s[j]) == k
  {
    if SortKey(s[0]) != k {
      KeyFilterWitness(s[1..], k);
      var j :| 0 <= j < |s[1..]| && SortKey(s[1..][j]) == k;
      assert SortKey(s[j + 1]) == k;
    }
  }

  lemma KeyFilterOfHead(s: seq<CourseToolRow>)
    requires s != []
    ensures KeyFilter(s, SortKey(s[0])) != []
  {
  }

  /** Two key-ordered sequences that agree on the rows of every key are the same sequence. */
  lemma {:induction false} SortedFiltersDetermine(t: seq<CourseToolRow>, u: seq<CourseToolRow>)
    requires SortedByKey(t) && SortedByKey(u)
    requires forall k :: KeyFilter(t, k) == KeyFilter(u, k)
    ensures t == u
    decreases |t|
  {
    if t == [] && u != [] {
      KeyFilterOfHead(u);
    } else if t != [] && u == [] {
      KeyFilterOfHead(t);
    } else if t != [] {
      var a, b := SortKey(t[0]), SortKey(u[0]);
      assert KeyFilter(t, a) == [t[0]] + KeyFilter(t[1..], a);
      assert KeyFilter(u, b) == [u[0]] + KeyFilter(u[1..], b);
      KeyFilterWitness(u, a);
      KeyFilterWitness(t, b);
      assert a == b;
      assert t[0] == KeyFilter(t, a)[0] == KeyFilter(u, a)[0] == u[0];
      forall k
        ensures KeyFilter(t[1..], k) == KeyFilter(u[1..], k)
      {
        var head := if a == k then [t[0]] else [];
        assert KeyFilter(t, k) == head + KeyFilter(t[1..], k);
        assert KeyFilter(u, k) == head + KeyFilter(u[1..], k);
        assert KeyFilter(t[1..], k) == KeyFilter(t, k)[|head|..];
        assert KeyFilter(u[1..], k) == KeyFilter(u, k)[|head|..];
      }
      SortedFiltersDetermine(t[1..], u[1..]);
    }
  }

  /**
   * Any ordering of rows that is sorted by key and stable is the one SortByKey computes, so
   * SortByKey is a faithful stand-in for the engine's `Array.prototype.sort`.
   */
  lemma StableSortIsUnique(s: seq<CourseToolRow>, t: seq<CourseToolRow>)
    requires SortedByKey(t)
    requires forall k :: KeyFilter(t, k) == KeyFilter(s, k)
    ensures t == SortByKey(s)
  {
    forall k
      ensures KeyFilter(t, k) == KeyFilter(SortByKey(s), k)
    {
      SortByKeyIsStable(s, k);
    }
    SortedFiltersDetermine(t, SortByKey(s));
  }

  /** `.map((r) => r.tool)` after the sort: one label per row, in sorted order. */
  function ToolLabels(rows: seq<CourseToolRow>): (r: seq<string>)
    ensures |r| == |rows|
    ensures forall i :: 0 <= i < |r| ==> r[i] == SortByKey(rows)[i].tool
  {
    var sorted := SortByKey(rows);
    seq(|sorted|, i requires 0 <= i < |sorted| => sorted[i].tool)
  }
}

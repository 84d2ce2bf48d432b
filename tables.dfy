/**
 * The relational operations the lineage queries are built from, over a table
 * held as a sequence of rows in insertion order: WHERE (Select), lookup by
 * primary key (FindDataset) and ORDER BY created_at DESC (SortNewestFirst).
 */
module Tables {
  import opened Wrappers
  import opened LineageModels

  // ---------------------------------------------------------------------------
  // WHERE
  // ---------------------------------------------------------------------------

  /** The rows of `s` that satisfy `p`, each as often as it occurs in `s`, in stored order. */
  function Select<T(!new)>(s: seq<T>, p: T -> bool): (r: seq<T>)
    ensures |r| <= |s|
    ensures forall x :: multiset(r)[x] == if p(x) then multiset(s)[x] else 0
    ensures forall x :: x in r <==> x in s && p(x)
  {
    if s == [] then []
    else
      assert s == [s[0]] + s[1..];
      var rest := Select(s[1..], p);
      if p(s[0]) then [s[0]] + rest else rest
  }

  /** Filtering by two predicates in turn is filtering by their conjunction. */
  lemma {:induction false} SelectSelect<T(!new)>(s: seq<T>, p: T -> bool, q: T -> bool, pq: T -> bool)
    requires forall x :: pq(x) == (p(x) && q(x))
    ensures Select(Select(s, p), q) == Select(s, pq)
  {
    if s != [] {
      SelectSelect(s[1..], p, q, pq);
      if p(s[0]) {
        var t := Select(s[1..], p);
        assert ([s[0]] + t)[1..] == t;
      }
    }
  }

  /** Select depends only on which rows its predicate admits. */
  lemma {:induction false} SelectSameFilter<T(!new)>(s: seq<T>, p: T -> bool, q: T -> bool)
    requires forall x :: p(x) == q(x)
    ensures Select(s, p) == Select(s, q)
  {
    if s != [] {
      SelectSameFilter(s[1..], p, q);
    }
  }

  // ---------------------------------------------------------------------------
  // Lookup by primary key
  // ---------------------------------------------------------------------------

  /** The first dataset whose id is `id`, or None when no dataset has that id. */
  function FindDataset(datasets: seq<Dataset>, id: int): (r: Option<Dataset>)
    ensures r.Some? ==> r.value in datasets && r.value.id == Some(id)
    ensures r.None? <==> forall d :: d in datasets ==> d.id != Some(id)
  {
    if datasets == [] then None
    else if datasets[0].id == Some(id) then Some(datasets[0])
    else FindDataset(datasets[1..], id)
  }

  // ---------------------------------------------------------------------------
  // ORDER BY created_at DESC
  // ---------------------------------------------------------------------------

  /** Newest first: creation times never increase along the sequence. */
  ghost predicate NewestFirst(s: seq<Dataset>)
  {
    forall i, j :: 0 <= i < j < |s| ==> s[i].createdAt >= s[j].createdAt
  }

  /** `d` placed into a newest-first sequence ahead of every row not newer than it. */
  function InsertNewestFirst(d: Dataset, s: seq<Dataset>): (r: seq<Dataset>)
    requires NewestFirst(s)
    ensures NewestFirst(r)
    ensures multiset(r) == multiset(s) + multiset{d}
    ensures forall x :: x in r <==> x == d || x in s
  {
    if s == [] then [d]
    else if d.createdAt >= s[0].createdAt then [d] + s
    else
      assert s == [s[0]] + s[1..];
      var rest := InsertNewestFirst(d, s[1..]);
      assert forall x :: x in rest ==> x.createdAt <= s[0].createdAt;
      [s[0]] + rest
  }

  /** The rows of `s` rearranged newest first (an insertion sort). */
  function SortNewestFirst(s: seq<Dataset>): (r: seq<Dataset>)
    ensures NewestFirst(r)
    ensures multiset(r) == multiset(s)
  {
    if s == [] then []
    else
      assert s == [s[0]] + s[1..];
      InsertNewestFirst(s[0], SortNewestFirst(s[1..]))
  }
}

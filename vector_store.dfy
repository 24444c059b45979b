/** A vector-store collection as the persona pipeline uses it: rows keyed by
    id, kept in insertion order, with `add` (an id already present is skipped,
    as the store does), `delete` (a missing id is ignored), `get` by id and
    `get(where=...)`, which lists the ids whose row satisfies a metadata filter
    in insertion order. Embeddings and similarity ranking are not modelled:
    a similarity query takes the ranking as an argument and applies the
    filter to it. */
module VectorStore {
  import opened Wrappers

  predicate NoDup<T(==)>(s: seq<T>) {
    forall i, j :: 0 <= i < j < |s| ==> s[i] != s[j]
  }

  /** `s` without any occurrence of `x`, in the original order. */
  function Without(s: seq<string>, x: string): (r: seq<string>)
    ensures forall y :: y in r <==> y in s && y != x
    ensures NoDup(s) ==> NoDup(r)
  {
    if s == [] then []
    else
      assert NoDup(s) ==> NoDup(s[1..]) && s[0] !in s[1..];
      if s[0] == x then Without(s[1..], x)
      else [s[0]] + Without(s[1..], x)
  }

  /** `s` without any element of `xs`, in the original order. */
  function WithoutAll(s: seq<string>, xs: seq<string>): (r: seq<string>)
    ensures forall y :: y in r <==> y in s && y !in xs
    ensures NoDup(s) ==> NoDup(r)
  {
    if s == [] then []
    else
      assert NoDup(s) ==> NoDup(s[1..]) && s[0] !in s[1..];
      if s[0] in xs then WithoutAll(s[1..], xs)
      else [s[0]] + WithoutAll(s[1..], xs)
  }

  lemma {:induction false} WithoutConcat(a: seq<string>, b: seq<string>, x: string)
    ensures Without(a + b, x) == Without(a, x) + Without(b, x)
  {
    if a != [] {
      WithoutConcat(a[1..], b, x);
      assert (a + b)[1..] == a[1..] + b && (a + b)[0] == a[0];
      if a[0] == x {
        assert Without(a + b, x) == Without(a[1..] + b, x);
      } else {
        assert Without(a + b, x) == [a[0]] + Without(a[1..] + b, x);
      }
    } else {
      assert a + b == b;
    }
  }

  lemma {:induction false} WithoutAbsent(s: seq<string>, x: string)
    requires x !in s
    ensures Without(s, x) == s
  {
    if s != [] {
      WithoutAbsent(s[1..], x);
    }
  }

  /** Removing the elements of `xs` and then `x` is removing those of `xs + [x]`. */
  lemma {:induction false} WithoutAllStep(s: seq<string>, xs: seq<string>, x: string)
    ensures Without(WithoutAll(s, xs), x) == WithoutAll(s, xs + [x])
  {
    if s != [] {
      WithoutAllStep(s[1..], xs, x);
    }
  }

  /** Removing `x` from the kept ids followed by `xs`, then appending `x`:
      the ids without `xs + [x]`, followed by `xs + [x]`. */
  lemma WithoutMovesLast(s: seq<string>, xs: seq<string>, x: string)
    requires x !in xs
    ensures Without(WithoutAll(s, xs) + xs, x) + [x] == WithoutAll(s, xs + [x]) + (xs + [x])
  {
    WithoutConcat(WithoutAll(s, xs), xs, x);
    WithoutAbsent(xs, x);
    WithoutAllStep(s, xs, x);
  }

  lemma WithoutAllNone(s: seq<string>)
    ensures WithoutAll(s, []) == s
  {
  }

  /** The ids of `ids` whose row in `rows` satisfies `p`, in order. */
  function SelectFrom<E>(ids: seq<string>, rows: map<string, E>, p: E -> bool): (r: seq<string>)
    ensures forall id :: id in r <==> id in ids && id in rows && p(rows[id])
    ensures NoDup(ids) ==> NoDup(r)
    ensures |r| <= |ids|
  {
    if ids == [] then []
    else if ids[0] in rows && p(rows[ids[0]]) then [ids[0]] + SelectFrom(ids[1..], rows, p)
    else SelectFrom(ids[1..], rows, p)
  }

  lemma {:induction false} SelectFromAppend<E>(ids: seq<string>, x: string, rows: map<string, E>, p: E -> bool)
    ensures SelectFrom(ids + [x], rows, p)
         == SelectFrom(ids, rows, p) + (if x in rows && p(rows[x]) then [x] else [])
  {
    if ids != [] {
      SelectFromAppend(ids[1..], x, rows, p);
      assert (ids + [x])[1..] == ids[1..] + [x];
    }
  }

  /** Nothing is selected when no listed row satisfies the filter. */
  lemma {:induction false} SelectFromNone<E>(ids: seq<string>, rows: map<string, E>, p: E -> bool)
    requires forall id :: id in ids && id in rows ==> !p(rows[id])
    ensures SelectFrom(ids, rows, p) == []
  {
    if ids != [] {
      SelectFromNone(ids[1..], rows, p);
    }
  }

  /** Rows that agree on the selected ids and their filter give the same selection. */
  lemma {:induction false} SelectFromSameRows<E>(ids: seq<string>, rows: map<string, E>, rows': map<string, E>, p: E -> bool)
    requires forall id :: id in ids ==> (id in rows && p(rows[id])) == (id in rows' && p(rows'[id]))
    ensures SelectFrom(ids, rows, p) == SelectFrom(ids, rows', p)
  {
    if ids != [] {
      SelectFromSameRows(ids[1..], rows, rows', p);
    }
  }

  function Take<T>(s: seq<T>, n: nat): (r: seq<T>)
    ensures |r| == (if |s| <= n then |s| else n) && r == s[..|r|]
    ensures |s| <= n ==> r == s
  {
    if |s| <= n then s else s[..n]
  }

  /** One collection: ids in insertion order and the row of each id. */
  datatype Table<E> = Table(ids: seq<string>, rows: map<string, E>) {

    ghost predicate Valid() {
      NoDup(ids) && forall id :: id in rows <==> id in ids
    }

    /** `add(ids=[id], ...)`: a new id goes last; an id already present is skipped. */
    function Add(id: string, e: E): (t: Table<E>)
      ensures Valid() ==> t.Valid()
      ensures id in t.rows && (id !in rows ==> t.rows[id] == e)
      ensures forall k :: k in rows ==> k in t.rows && t.rows[k] == rows[k]
      ensures forall k :: k in t.rows ==> k in rows || k == id
    {
      if id in rows then this else Table(ids + [id], rows[id := e])
    }

    /** `delete(ids=[id])`; a missing id changes nothing. */
    function Delete(id: string): (t: Table<E>)
      ensures Valid() ==> t.Valid()
      ensures id !in t.rows
      ensures forall k :: k in t.rows <==> k in rows && k != id
      ensures forall k :: k in t.rows ==> t.rows[k] == rows[k]
      ensures id !in rows && Valid() ==> t == this
    {
      if id !in rows then
        assert id !in ids ==> Without(ids, id) == ids by {
          if id !in ids { WithoutAbsent(ids, id); }
        }
        this
      else Table(Without(ids, id), rows - {id})
    }

    /** `get(ids=[id])` */
    function Get(id: string): Option<E> {
      if id in rows then Some(rows[id]) else None
    }

    /** `get(where=p)`: the ids of the rows satisfying `p`, in insertion order. */
    function Select(p: E -> bool): (r: seq<string>)
      ensures forall id :: id in r <==> id in rows && id in ids && p(rows[id])
      ensures Valid() ==> NoDup(r)
    {
      SelectFrom(ids, rows, p)
    }

    /** The rows of some present ids, in the order given. */
    function RowsOf(sel: seq<string>): (r: seq<E>)
      requires forall id :: id in sel ==> id in rows
      ensures |r| == |sel| && forall i :: 0 <= i < |sel| ==> r[i] == rows[sel[i]]
    {
      seq(|sel|, i requires 0 <= i < |sel| => rows[sel[i]])
    }

    /** `query(query_texts=..., where=p, n_results=n)`: the first `n` ids of
        the store's similarity ranking whose rows satisfy `p`. */
    function Query(ranking: seq<string>, p: E -> bool, n: nat): (r: seq<string>)
      ensures |r| <= n
      ensures forall id :: id in r ==> id in rows && p(rows[id])
      ensures NoDup(ranking) ==> NoDup(r)
    {
      var all := SelectFrom(ranking, rows, p);
      var r := Take(all, n);
      assert forall id :: id in r ==> id in all;
      assert NoDup(all) ==> NoDup(r);
      r
    }
  }
}

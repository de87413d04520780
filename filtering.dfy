/**
 * Lines 100-103: boolean-mask selection `articles[articles[col] == value]`,
 * applied to the model column and then to the tone column, each skipped
 * when its selector holds the sentinel "Tous".
 */
module Filtering {
  import opened Frame
  import opened Ordering

  /** The selector value that switches a filter off. */
  const TOUS: string := "Tous"

  /** The rows of `s` that `keep` accepts, in their original order. */
  function Filter<T(!new)>(s: seq<T>, keep: T -> bool): (r: seq<T>)
    ensures |r| <= |s|
    ensures forall x :: x in r <==> x in s && keep(x)
  {
    if s == [] then []
    else
      assert s == [s[0]] + s[1..];
      (if keep(s[0]) then [s[0]] else []) + Filter(s[1..], keep)
  }

  /** One step of the definition, with the empty prefix simplified away. */
  lemma FilterStep<T(!new)>(s: seq<T>, keep: T -> bool)
    requires s != []
    ensures keep(s[0]) ==> Filter(s, keep) == [s[0]] + Filter(s[1..], keep)
    ensures !keep(s[0]) ==> Filter(s, keep) == Filter(s[1..], keep)
  {
    if !keep(s[0]) {
      assert [] + Filter(s[1..], keep) == Filter(s[1..], keep);
    }
  }

  /** Each element is kept as many times as it occurs, or dropped entirely. */
  lemma {:induction false} FilterMultiset<T(!new)>(s: seq<T>, keep: T -> bool, x: T)
    ensures multiset(Filter(s, keep))[x] == if keep(x) then multiset(s)[x] else 0
  {
    if s != [] {
      FilterMultiset(s[1..], keep, x);
      FilterStep(s, keep);
      assert s == [s[0]] + s[1..];
    }
  }

  /** `r` is `s` with some elements removed and the rest in order. */
  predicate IsSubsequence<T(==)>(r: seq<T>, s: seq<T>)
    decreases |s|
  {
    r == [] || (s != [] && ((r[0] == s[0] && IsSubsequence(r[1..], s[1..])) || IsSubsequence(r, s[1..])))
  }

  /** Filtering never reorders. */
  lemma {:induction false} FilterIsSubsequence<T(!new)>(s: seq<T>, keep: T -> bool)
    ensures IsSubsequence(Filter(s, keep), s)
  {
    if s != [] {
      FilterIsSubsequence(s[1..], keep);
      FilterStep(s, keep);
      if keep(s[0]) {
        assert Filter(s, keep)[1..] == Filter(s[1..], keep);
      }
    }
  }

  /** Filtering twice with the same mask is filtering once. */
  lemma {:induction false} FilterIdempotent<T(!new)>(s: seq<T>, keep: T -> bool)
    ensures Filter(Filter(s, keep), keep) == Filter(s, keep)
  {
    if s != [] {
      FilterIdempotent(s[1..], keep);
      FilterStep(s, keep);
      if keep(s[0]) {
        var f := Filter(s, keep);
        assert f[0] == s[0] && f[1..] == Filter(s[1..], keep);
        FilterStep(f, keep);
      }
    }
  }

  /** Two masks applied one after the other commute. */
  lemma {:induction false} FilterCommute<T(!new)>(s: seq<T>, p: T -> bool, q: T -> bool)
    ensures Filter(Filter(s, p), q) == Filter(Filter(s, q), p)
  {
    if s != [] {
      FilterCommute(s[1..], p, q);
      FilterStep(s, p);
      FilterStep(s, q);
      var fp := Filter(s, p);
      var fq := Filter(s, q);
      if p(s[0]) {
        assert fp[0] == s[0] && fp[1..] == Filter(s[1..], p);
        FilterStep(fp, q);
      }
      if q(s[0]) {
        assert fq[0] == s[0] && fq[1..] == Filter(s[1..], q);
        FilterStep(fq, p);
      }
    }
  }

  /** Filtering a sorted table leaves it sorted. */
  lemma {:induction false} FilterKeepsSorted(rows: seq<Row>, keep: Row -> bool)
    requires SortedDesc(rows)
    ensures SortedDesc(Filter(rows, keep))
  {
    if rows != [] {
      assert SortedDesc(rows[1..]);
      FilterKeepsSorted(rows[1..], keep);
      FilterStep(rows, keep);
      var rest := Filter(rows[1..], keep);
      if keep(rows[0]) {
        forall j | 0 <= j < |rest|
          ensures Precedes(Key(rows[0]), Key(rest[j]))
        {
          assert rest[j] in rows[1..];
          var k :| 0 <= k < |rows[1..]| && rows[1..][k] == rest[j];
          assert Precedes(Key(rows[0]), Key(rows[k + 1]));
        }
        var f := [rows[0]] + rest;
        assert Filter(rows, keep) == f;
        forall i, j | 0 <= i < j < |f|
          ensures Precedes(Key(f[i]), Key(f[j]))
        {
          if i > 0 {
            assert f[i] == rest[i - 1] && f[j] == rest[j - 1];
          }
        }
      }
    }
  }

  predicate ModelIs(r: Row, modele: string)
  {
    r.enrichment.Some? && r.enrichment.value.modele == modele
  }

  predicate TonIs(r: Row, ton: string)
  {
    r.enrichment.Some? && r.enrichment.value.ton == ton
  }

  /** `articles[articles['modèle'] == modele]`. */
  function KeepModel(rows: seq<Row>, modele: string): seq<Row>
  {
    Filter(rows, r => ModelIs(r, modele))
  }

  /** `articles[articles['ton'] == ton]`. */
  function KeepTon(rows: seq<Row>, ton: string): seq<Row>
  {
    Filter(rows, r => TonIs(r, ton))
  }

  /** Lines 100-101: the model filter, off for "Tous". */
  function ByModel(rows: seq<Row>, filtreModele: string): (r: seq<Row>)
    ensures forall x :: x in r <==> x in rows && (filtreModele == TOUS || ModelIs(x, filtreModele))
  {
    if filtreModele != TOUS then KeepModel(rows, filtreModele) else rows
  }

  /** Lines 102-103: the tone filter, off for "Tous". */
  function ByTon(rows: seq<Row>, filtreTon: string): (r: seq<Row>)
    ensures forall x :: x in r <==> x in rows && (filtreTon == TOUS || TonIs(x, filtreTon))
  {
    if filtreTon != TOUS then KeepTon(rows, filtreTon) else rows
  }

  /** The two filters can be applied in either order. */
  lemma FiltersCommute(rows: seq<Row>, filtreModele: string, filtreTon: string)
    ensures ByTon(ByModel(rows, filtreModele), filtreTon) == ByModel(ByTon(rows, filtreTon), filtreModele)
  {
    if filtreModele != TOUS && filtreTon != TOUS {
      FilterCommute(rows, r => ModelIs(r, filtreModele), r => TonIs(r, filtreTon));
    }
  }

  /** Applying either filter a second time changes nothing. */
  lemma FiltersIdempotent(rows: seq<Row>, filtreModele: string, filtreTon: string)
    ensures ByModel(ByModel(rows, filtreModele), filtreModele) == ByModel(rows, filtreModele)
    ensures ByTon(ByTon(rows, filtreTon), filtreTon) == ByTon(rows, filtreTon)
  {
    if filtreModele != TOUS {
      FilterIdempotent(rows, r => ModelIs(r, filtreModele));
    }
    if filtreTon != TOUS {
      FilterIdempotent(rows, r => TonIs(r, filtreTon));
    }
  }

  /** Both filters together keep every passing row as often as it occurs
      and drop the others entirely: no row is deduplicated. */
  lemma FiltersMultiset(rows: seq<Row>, filtreModele: string, filtreTon: string, x: Row)
    ensures multiset(ByTon(ByModel(rows, filtreModele), filtreTon))[x] ==
            if (filtreModele == TOUS || ModelIs(x, filtreModele)) && (filtreTon == TOUS || TonIs(x, filtreTon))
            then multiset(rows)[x] else 0
  {
    var m := ByModel(rows, filtreModele);
    if filtreModele != TOUS {
      FilterMultiset(rows, r => ModelIs(r, filtreModele), x);
    }
    if filtreTon != TOUS {
      FilterMultiset(m, r => TonIs(r, filtreTon), x);
    }
  }

  /** Both filters only drop rows: the result keeps the input's order and sortedness. */
  lemma FiltersKeepOrder(rows: seq<Row>, filtreModele: string, filtreTon: string)
    requires SortedDesc(rows)
    ensures IsSubsequence(ByTon(ByModel(rows, filtreModele), filtreTon), rows)
    ensures SortedDesc(ByTon(ByModel(rows, filtreModele), filtreTon))
  {
    var m := ByModel(rows, filtreModele);
    if filtreModele != TOUS {
      FilterIsSubsequence(rows, r => ModelIs(r, filtreModele));
      FilterKeepsSorted(rows, r => ModelIs(r, filtreModele));
    } else {
      SubsequenceReflexive(rows);
    }
    if filtreTon != TOUS {
      FilterIsSubsequence(m, r => TonIs(r, filtreTon));
      FilterKeepsSorted(m, r => TonIs(r, filtreTon));
      SubsequenceTransitive(ByTon(m, filtreTon), m, rows);
    }
  }

  lemma {:induction false} SubsequenceReflexive<T>(s: seq<T>)
    ensures IsSubsequence(s, s)
  {
    if s != [] {
      SubsequenceReflexive(s[1..]);
    }
  }

  lemma {:induction false} SubsequenceTransitive<T>(a: seq<T>, b: seq<T>, c: seq<T>)
    requires IsSubsequence(a, b) && IsSubsequence(b, c)
    ensures IsSubsequence(a, c)
    decreases |c|
  {
    if a != [] {
      if b[0] == c[0] && IsSubsequence(b[1..], c[1..]) {
        if a[0] == b[0] && IsSubsequence(a[1..], b[1..]) {
          SubsequenceTransitive(a[1..], b[1..], c[1..]);
        } else {
          SubsequenceTransitive(a, b[1..], c[1..]);
        }
      } else {
        SubsequenceTransitive(a, b, c[1..]);
      }
    }
  }
}

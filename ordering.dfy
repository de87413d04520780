/**
 * Line 98, `sort_values(by='date', ascending=False)`: newest first, rows
 * whose date is NaT after every dated row. The library's own algorithm is
 * not modelled; an insertion sort stands for it, and nothing is claimed
 * about the relative order of rows with equal keys.
 */
module Ordering {
  import opened Wrappers
  import opened Frame

  /** `a` may be placed before `b` in a descending sort with NaT last. */
  predicate Precedes(a: Option<int>, b: Option<int>)
  {
    match (a, b)
    case (Some(x), Some(y)) => x >= y
    case (_, None) => true
    case (None, Some(_)) => false
  }

  ghost predicate SortedDesc(rows: seq<Row>)
  {
    forall i, j :: 0 <= i < j < |rows| ==> Precedes(Key(rows[i]), Key(rows[j]))
  }

  /** Insert `r` into a list already sorted, before the first row it may precede. */
  function Insert(r: Row, rows: seq<Row>): (s: seq<Row>)
    ensures multiset(s) == multiset(rows) + multiset{r}
    ensures SortedDesc(rows) ==> SortedDesc(s)
  {
    if rows == [] then [r]
    else if Precedes(Key(r), Key(rows[0])) then
      InsertAtFront(r, rows);
      [r] + rows
    else
      var rest := Insert(r, rows[1..]);
      assert multiset(rows) == multiset{rows[0]} + multiset(rows[1..]) by {
        assert rows == [rows[0]] + rows[1..];
      }
      InsertBehindHead(r, rows, rest);
      [rows[0]] + rest
  }

  lemma InsertAtFront(r: Row, rows: seq<Row>)
    requires rows != [] && Precedes(Key(r), Key(rows[0]))
    ensures SortedDesc(rows) ==> SortedDesc([r] + rows)
  {
    if SortedDesc(rows) {
      forall i, j | 0 <= i < j < |[r] + rows|
        ensures Precedes(Key(([r] + rows)[i]), Key(([r] + rows)[j]))
      {
        if i == 0 && j > 1 {
          assert Precedes(Key(rows[0]), Key(rows[j - 1]));
        }
      }
    }
  }

  lemma InsertBehindHead(r: Row, rows: seq<Row>, rest: seq<Row>)
    requires rows != [] && !Precedes(Key(r), Key(rows[0]))
    requires multiset(rest) == multiset(rows[1..]) + multiset{r}
    requires SortedDesc(rows[1..]) ==> SortedDesc(rest)
    ensures SortedDesc(rows) ==> SortedDesc([rows[0]] + rest)
  {
    if SortedDesc(rows) {
      assert SortedDesc(rows[1..]);
      forall x | x in rest
        ensures Precedes(Key(rows[0]), Key(x))
      {
        assert x in multiset(rest);
        if x != r {
          assert x in multiset(rows[1..]);
          var k :| 0 <= k < |rows[1..]| && rows[1..][k] == x;
          assert Precedes(Key(rows[0]), Key(rows[k + 1]));
        }
      }
      forall i, j | 0 <= i < j < |[rows[0]] + rest|
        ensures Precedes(Key(([rows[0]] + rest)[i]), Key(([rows[0]] + rest)[j]))
      {
        if i == 0 {
          assert rest[j - 1] in rest;
        }
      }
    }
  }

  /** The sorted table: a permutation of its input, newest first, NaT last. */
  function SortByDate(rows: seq<Row>): (s: seq<Row>)
    ensures multiset(s) == multiset(rows)
    ensures SortedDesc(s)
  {
    if rows == [] then []
    else
      assert rows == [rows[0]] + rows[1..];
      Insert(rows[0], SortByDate(rows[1..]))
  }

  /** Being sorted means exactly: dated rows are non-increasing and every
      NaT row comes after every dated row. */
  lemma SortedDescMeans(rows: seq<Row>)
    ensures SortedDesc(rows) <==>
      && (forall i, j :: 0 <= i < j < |rows| && Key(rows[i]).Some? && Key(rows[j]).Some? ==>
            Key(rows[i]).value >= Key(rows[j]).value)
      && (forall i, j :: 0 <= i < j < |rows| && Key(rows[i]).None? ==> Key(rows[j]).None?)
  {
  }

  /** Two dated rows and one NaT row, given oldest, NaT, newest, come out
      newest, oldest, NaT. */
  lemma ThreeRowExample(a: Row, b: Row, c: Row)
    requires Key(a) == Some(20240105) && Key(b) == None && Key(c) == Some(20240301)
    ensures SortByDate([a, b, c]) == [c, a, b]
  {
    assert [a, b, c][1..] == [b, c];
    NaTAfterDated(b, c);
    DatedBeforeNaT(a, b, c);
  }

  lemma NaTAfterDated(b: Row, c: Row)
    requires Key(b) == None && Key(c) == Some(20240301)
    ensures SortByDate([b, c]) == [c, b]
  {
    assert [b, c][1..] == [c] && [c][1..] == [];
    assert SortByDate([c]) == [c];
    assert Insert(b, [c]) == [c] + Insert(b, []);
  }

  lemma DatedBeforeNaT(a: Row, b: Row, c: Row)
    requires Key(a) == Some(20240105) && Key(b) == None && Key(c) == Some(20240301)
    ensures Insert(a, [c, b]) == [c, a, b]
  {
    assert [c, b][1..] == [b];
    assert Insert(a, [b]) == [a, b];
  }
}

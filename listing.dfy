/**
 * Ordered listings of catalogue rows: the `ORDER BY sort_order, name` of the
 * catalogue queries.  Names are compared character by character on code
 * points; rows with equal sort order and name may come in any order.
 */
module Listing {

  /** Code-point lexicographic order on strings (`a <= b`). */
  predicate StrLe(a: string, b: string)
    decreases |a|
  {
    a == [] || (b != [] && (a[0] < b[0] || (a[0] == b[0] && StrLe(a[1..], b[1..]))))
  }

  lemma {:induction false} StrLeTotal(a: string, b: string)
    ensures StrLe(a, b) || StrLe(b, a)
    decreases |a|
  {
    if a != [] && b != [] && a[0] == b[0] {
      StrLeTotal(a[1..], b[1..]);
    }
  }

  lemma {:induction false} StrLeTrans(a: string, b: string, c: string)
    requires StrLe(a, b) && StrLe(b, c)
    ensures StrLe(a, c)
    decreases |a|
  {
    if a != [] && b != [] && c != [] && a[0] == b[0] && b[0] == c[0] {
      StrLeTrans(a[1..], b[1..], c[1..]);
    }
  }

  /** A row as the listing sees it: its id and its two sort keys. */
  datatype Entry = Entry(id: int, sortOrder: int, name: string)

  /** (sort_order, name) order. */
  predicate EntryLe(x: Entry, y: Entry) {
    x.sortOrder < y.sortOrder || (x.sortOrder == y.sortOrder && StrLe(x.name, y.name))
  }

  lemma EntryLeTotal(x: Entry, y: Entry)
    ensures EntryLe(x, y) || EntryLe(y, x)
  {
    StrLeTotal(x.name, y.name);
  }

  lemma EntryLeTrans(x: Entry, y: Entry, z: Entry)
    requires EntryLe(x, y) && EntryLe(y, z)
    ensures EntryLe(x, z)
  {
    if x.sortOrder == y.sortOrder == z.sortOrder {
      StrLeTrans(x.name, y.name, z.name);
    }
  }

  predicate Sorted(s: seq<Entry>) {
    forall i, j :: 0 <= i < j < |s| ==> EntryLe(s[i], s[j])
  }

  predicate Distinct(s: seq<Entry>) {
    forall i, j :: 0 <= i < j < |s| ==> s[i] != s[j]
  }

  /** The first position at which `x` can go into `s` before a row not below it. */
  function InsertPos(s: seq<Entry>, x: Entry): (k: nat)
    ensures k <= |s|
    ensures forall i :: 0 <= i < k ==> !EntryLe(x, s[i])
    ensures k < |s| ==> EntryLe(x, s[k])
  {
    if s == [] || EntryLe(x, s[0]) then 0 else 1 + InsertPos(s[1..], x)
  }

  function Insert(s: seq<Entry>, x: Entry): seq<Entry> {
    var k := InsertPos(s, x);
    s[..k] + [x] + s[k..]
  }

  /** Insertion keeps a listing sorted. */
  lemma InsertSorted(s: seq<Entry>, x: Entry)
    requires Sorted(s)
    ensures Sorted(Insert(s, x))
  {
    var k := InsertPos(s, x);
    var r := Insert(s, x);
    forall i, j | 0 <= i < j < |r|
      ensures EntryLe(r[i], r[j])
    {
      if j < k {
        assert r[i] == s[i] && r[j] == s[j];
      } else if j == k {
        assert r[i] == s[i] && r[j] == x;
        EntryLeTotal(x, s[i]);
      } else if i == k {
        assert r[j] == s[j - 1];
        if j - 1 > k {
          EntryLeTrans(x, s[k], s[j - 1]);
        }
      } else if i < k {
        assert r[i] == s[i] && r[j] == s[j - 1];
      } else {
        assert r[i] == s[i - 1] && r[j] == s[j - 1];
      }
    }
  }

  /** Where each row of `s` ends up after inserting `x`. */
  lemma InsertIndex(s: seq<Entry>, x: Entry)
    ensures var k := InsertPos(s, x); var r := Insert(s, x);
      && |r| == |s| + 1 && r[k] == x
      && (forall i :: 0 <= i < k ==> r[i] == s[i])
      && (forall i :: k < i < |r| ==> r[i] == s[i - 1])
  {
  }

  /** Insertion adds exactly the new row, and keeps a listing free of repeats. */
  lemma InsertMembers(s: seq<Entry>, x: Entry)
    requires Distinct(s) && x !in s
    ensures Distinct(Insert(s, x))
    ensures forall e :: e in Insert(s, x) <==> e in s || e == x
    ensures |Insert(s, x)| == |s| + 1
  {
    var k := InsertPos(s, x);
    var r := Insert(s, x);
    InsertIndex(s, x);
    forall i, j | 0 <= i < j < |r|
      ensures r[i] != r[j]
    {
      if j < k {
      } else if j == k {
        assert r[i] == s[i];
      } else if i < k {
      } else if i == k {
        assert r[j] == s[j - 1];
      } else {
        assert r[i] == s[i - 1] && r[j] == s[j - 1];
      }
    }
    forall e | e in s
      ensures e in r
    {
      var i :| 0 <= i < |s| && s[i] == e;
      if i < k { assert r[i] == e; } else { assert r[i + 1] == e; }
    }
  }

  /**
   * Lists the rows of `rows` in (sort_order, name) order: every row exactly
   * once, nothing else.
   */
  method SortEntries(rows: set<Entry>) returns (r: seq<Entry>)
    ensures Sorted(r) && Distinct(r)
    ensures forall e :: e in r <==> e in rows
    ensures |r| == |rows|
  {
    r := [];
    var remaining := rows;
    while remaining != {}
      invariant Sorted(r) && Distinct(r)
      invariant forall e :: e in r <==> e in rows && e !in remaining
      invariant remaining <= rows
      invariant |r| + |remaining| == |rows|
      decreases |remaining|
    {
      var e :| e in remaining;
      InsertSorted(r, e);
      InsertMembers(r, e);
      r := Insert(r, e);
      remaining := remaining - {e};
    }
  }

  /** The ids of a listing, in order. */
  function Ids(s: seq<Entry>): (ids: seq<int>)
    ensures |ids| == |s|
    ensures forall i :: 0 <= i < |s| ==> ids[i] == s[i].id
  {
    if s == [] then [] else [s[0].id] + Ids(s[1..])
  }
}

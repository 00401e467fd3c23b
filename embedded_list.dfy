/**
 * The embedded experience and education lists of a profile, and the three array operations
 * the handlers run on them: `ids = list.map(item => item.id)`, `ids.indexOf(id)` and
 * `list.splice(index, 1)`. Insertion (`unshift`) is a prepend, `[e] + list`.
 */
module EmbeddedList {
  import opened Basics

  /** An embedded record: the id Mongoose assigns on save and the fields the request supplied. */
  datatype Entry<D> = Entry(id: RecordId, fields: D)

  /** `list.map(item => item.id)`. */
  function Ids<D>(xs: seq<Entry<D>>): (r: seq<RecordId>)
    ensures |r| == |xs|
    ensures forall i :: 0 <= i < |xs| ==> r[i] == xs[i].id
  {
    seq(|xs|, i requires 0 <= i < |xs| => xs[i].id)
  }

  /** `Array.prototype.indexOf`: the first index holding `x`, or -1 when there is none. */
  function IndexOf<T(==)>(s: seq<T>, x: T): (i: int)
    ensures -1 <= i < |s|
    ensures i == -1 <==> x !in s
    ensures 0 <= i ==> s[i] == x && forall j :: 0 <= j < i ==> s[j] != x
  {
    if s == [] then -1
    else if s[0] == x then 0
    else
      var k := IndexOf(s[1..], x);
      assert forall j :: 1 <= j < |s| ==> s[j] == s[1..][j - 1];
      if k == -1 then -1 else k + 1
  }

  /** Where `splice(start, 1)` begins: a negative start counts back from the end. */
  function SpliceStart(len: nat, start: int): (k: nat)
    ensures k <= len
    ensures 0 <= start <= len ==> k == start
    ensures -(len as int) <= start < 0 ==> k as int == len as int + start
    ensures start > len ==> k == len
    ensures start < -(len as int) ==> k == 0
  {
    if start < 0 then (if len + start < 0 then 0 else len + start)
    else if start > len then len
    else start
  }

  /** The array left after `splice(start, 1)`: the element at SpliceStart removed, if there is one. */
  function Splice<T>(s: seq<T>, start: int): (r: seq<T>)
    ensures SpliceStart(|s|, start) == |s| ==> r == s
    ensures SpliceStart(|s|, start) < |s| ==>
      && |r| == |s| - 1
      && (forall j :: 0 <= j < SpliceStart(|s|, start) ==> r[j] == s[j])
      && (forall j :: SpliceStart(|s|, start) <= j < |r| ==> r[j] == s[j + 1])
  {
    var k := SpliceStart(|s|, start);
    if k < |s| then s[..k] + s[k + 1..] else s
  }

  /** No two records of the list share an id. */
  predicate UniqueIds<D>(xs: seq<Entry<D>>) {
    forall i, j :: 0 <= i < j < |xs| ==> xs[i].id != xs[j].id
  }

  /**
   * Removing a present id: the index found is the first record with that id, and the list
   * loses exactly that record, the others keeping their relative order.
   */
  lemma RemoveFound<D>(xs: seq<Entry<D>>, id: RecordId)
    requires id in Ids(xs)
    ensures var i := IndexOf(Ids(xs), id);
      && 0 <= i < |xs| && xs[i].id == id
      && (forall j :: 0 <= j < i ==> xs[j].id != id)
      && Splice(xs, i) == xs[..i] + xs[i + 1..]
      && multiset(Splice(xs, i)) + multiset{xs[i]} == multiset(xs)
  {
    var i := IndexOf(Ids(xs), id);
    var r := Splice(xs, i);
    assert r == xs[..i] + xs[i + 1..];
    assert xs == xs[..i] + [xs[i]] + xs[i + 1..];
  }

  /** With unique ids, removal takes the id out of the list and keeps the rest unique. */
  lemma RemoveKeepsUnique<D>(xs: seq<Entry<D>>, id: RecordId)
    requires UniqueIds(xs) && id in Ids(xs)
    ensures id !in Ids(Splice(xs, IndexOf(Ids(xs), id)))
    ensures UniqueIds(Splice(xs, IndexOf(Ids(xs), id)))
  {
    var i := IndexOf(Ids(xs), id);
    var r := Splice(xs, i);
    forall a, b | 0 <= a < b < |r| ensures r[a].id != r[b].id {
      var a' := if a < i then a else a + 1;
      var b' := if b < i then b else b + 1;
      assert r[a] == xs[a'] && r[b] == xs[b'];
    }
  }

  /** Prepending a record whose id is fresh keeps the ids unique. */
  lemma PrependKeepsUnique<D>(xs: seq<Entry<D>>, e: Entry<D>)
    requires UniqueIds(xs) && e.id !in Ids(xs)
    ensures UniqueIds([e] + xs)
  {
    var r := [e] + xs;
    forall a, b | 0 <= a < b < |r| ensures r[a].id != r[b].id {
      if a == 0 {
        assert r[b] == xs[b - 1];
        assert Ids(xs)[b - 1] == xs[b - 1].id;
      } else {
        assert r[a] == xs[a - 1] && r[b] == xs[b - 1];
      }
    }
  }

  /** The includes-guard matters: `splice(-1, 1)` would silently drop the last record. */
  lemma SpliceOfMissingIndexDropsLast<T>(s: seq<T>)
    requires s != []
    ensures Splice(s, -1) == s[..|s| - 1]
  {
  }
}

/**
 * Playlist entries and the adjacent-entry lookup behind the next and
 * previous buttons. The catalog is the fetched list after the player has
 * sorted it by title; the lookup finds the current entry by the first
 * entry with an equal title and steps one position either way.
 */
module Catalog {
  import opened Wrappers
  import Search

  /** One playlist: its title and the server-relative paths of its stream, download and waveform image. */
  datatype Entry = Entry(title: string, stream: string, original: string, waveform: string, maps: seq<string>)

  predicate HasTitle(catalog: seq<Entry>, title: string) {
    exists k :: 0 <= k < |catalog| && catalog[k].title == title
  }

  /** `k` is the position of the first entry titled `title`. */
  predicate FirstWithTitle(catalog: seq<Entry>, title: string, k: int) {
    0 <= k < |catalog| && catalog[k].title == title &&
    forall j :: 0 <= j < k ==> catalog[j].title != title
  }

  predicate DistinctTitles(catalog: seq<Entry>) {
    forall i, j :: 0 <= i < j < |catalog| ==> catalog[i].title != catalog[j].title
  }

  /** `findIndex` by title: the first entry with that title, or -1. */
  function IndexOfTitle(catalog: seq<Entry>, title: string): (r: int)
    ensures HasTitle(catalog, title) ==> FirstWithTitle(catalog, title, r)
    ensures !HasTitle(catalog, title) ==> r == -1
  {
    Search.FindIndex(catalog, (e: Entry) => e.title == title)
  }

  /**
   * The entry the next button plays after `current`, or None when there is
   * none: the one after the first entry with the same title; the first
   * entry of the catalog when no entry has that title.
   */
  function NextTarget(catalog: seq<Entry>, current: Entry): (r: Option<Entry>)
    ensures forall k :: FirstWithTitle(catalog, current.title, k) ==>
      r == if k + 1 < |catalog| then Some(catalog[k + 1]) else None
    ensures !HasTitle(catalog, current.title) ==>
      r == if |catalog| == 0 then None else Some(catalog[0])
  {
    var i := IndexOfTitle(catalog, current.title) + 1;
    if i < |catalog| then Some(catalog[i]) else None
  }

  /**
   * The entry the previous button plays before `current`, or None: the one
   * before the first entry with the same title; nothing when that entry is
   * the first one or no entry has the title.
   */
  function PreviousTarget(catalog: seq<Entry>, current: Entry): (r: Option<Entry>)
    ensures forall k :: FirstWithTitle(catalog, current.title, k) ==>
      r == if k >= 1 then Some(catalog[k - 1]) else None
    ensures !HasTitle(catalog, current.title) ==> r == None
  {
    var i := IndexOfTitle(catalog, current.title) - 1;
    if 0 <= i then Some(catalog[i]) else None
  }

  /** With distinct titles, an entry is the first (and only) one with its title. */
  lemma {:induction false} OnlyWithTitle(catalog: seq<Entry>, k: int)
    requires DistinctTitles(catalog) && 0 <= k < |catalog|
    ensures FirstWithTitle(catalog, catalog[k].title, k)
  {
    forall j | 0 <= j < k
      ensures catalog[j].title != catalog[k].title
    {
      assert 0 <= j < k < |catalog|;
    }
  }

  /** Going forward then back from an entry of a catalog with distinct titles returns to it. */
  lemma {:induction false} NextThenPrevious(catalog: seq<Entry>, e: Entry)
    requires DistinctTitles(catalog) && e in catalog
    requires NextTarget(catalog, e).Some?
    ensures PreviousTarget(catalog, NextTarget(catalog, e).value) == Some(e)
  {
    var k :| 0 <= k < |catalog| && catalog[k] == e;
    OnlyWithTitle(catalog, k);
    OnlyWithTitle(catalog, k + 1);
  }

  /** Going back then forward from an entry of a catalog with distinct titles returns to it. */
  lemma {:induction false} PreviousThenNext(catalog: seq<Entry>, e: Entry)
    requires DistinctTitles(catalog) && e in catalog
    requires PreviousTarget(catalog, e).Some?
    ensures NextTarget(catalog, PreviousTarget(catalog, e).value) == Some(e)
  {
    var k :| 0 <= k < |catalog| && catalog[k] == e;
    OnlyWithTitle(catalog, k);
    OnlyWithTitle(catalog, k - 1);
  }
}

/** The storage page (Soundwave/src/pages/StorageManagement.tsx): a usage
    bar coloured by the percentage, a selection of songs toggled one at a
    time, and a confirmed bulk delete that runs deleteSong for every
    selected id. */
module StorageManagement {
  import opened Base
  import opened Text
  import opened Types
  import opened AudioService

  // ---------------------------------------------------------------- colour

  datatype StorageColor = Green | Yellow | Red

  /** getStorageColor: red from 90 %, yellow from 70 %, green below. */
  function StorageColorOf(percentage: int): (c: StorageColor)
    ensures c == Red <==> percentage >= 90
    ensures c == Yellow <==> 70 <= percentage < 90
    ensures c == Green <==> percentage < 70
  {
    if percentage >= 90 then Red
    else if percentage >= 70 then Yellow
    else Green
  }

  function Severity(c: StorageColor): nat {
    match c
    case Green => 0
    case Yellow => 1
    case Red => 2
  }

  /** More usage never shows a milder colour. */
  lemma ColorIsMonotone(p: int, q: int)
    requires p <= q
    ensures Severity(StorageColorOf(p)) <= Severity(StorageColorOf(q))
  {
  }

  /** 4 500 000 of 5 000 000 bytes is 90 %, which already shows red. */
  lemma NinetyPercentIsRed()
    ensures Percentage(4500000, 5000000) == 90
    ensures StorageColorOf(Percentage(4500000, 5000000)) == Red
  {
  }

  // ------------------------------------------------------------- selection

  /** A JavaScript Set iterates in insertion order: the selection is a list
      without repetitions. */
  predicate Distinct(s: seq<string>) {
    forall i, j :: 0 <= i < j < |s| ==> s[i] != s[j]
  }

  /** handleToggleSelect on a copy of the set: an absent id is added at the
      end, a present one removed with the other ids kept in insertion order;
      no other id changes. */
  function Toggled(sel: seq<string>, id: string): (r: seq<string>)
    requires Distinct(sel)
    ensures Distinct(r)
    ensures id in sel ==> id !in r && |r| == |sel| - 1
    ensures id in sel ==> r == WithoutSongId(sel, id)
    ensures id !in sel ==> r == sel + [id]
    ensures forall x :: x != id ==> (x in r <==> x in sel)
  {
    if id in sel then
      var r := WithoutSongId(sel, id);
      DistinctWithout(sel, id);
      r
    else sel + [id]
  }

  lemma DistinctWithout(sel: seq<string>, id: string)
    requires Distinct(sel) && id in sel
    ensures Distinct(WithoutSongId(sel, id)) && |WithoutSongId(sel, id)| == |sel| - 1
  {
    var r := WithoutSongId(sel, id);
    DistinctCounts(sel);
    RemovesOneCopy(sel, id);
    assert |multiset(r)| == |multiset(sel)| - 1;
    forall x ensures multiset(r)[x] <= 1 {
      assert multiset(r)[x] <= multiset(sel)[x];
    }
    CountsDistinct(r);
  }

  /** Removing an id that occurs exactly once takes one copy away. */
  lemma RemovesOneCopy(sel: seq<string>, id: string)
    requires multiset(sel)[id] == 1
    ensures multiset(WithoutSongId(sel, id)) == multiset(sel) - multiset{id}
  {
    var r := WithoutSongId(sel, id);
    forall x ensures multiset(r)[x] == (multiset(sel) - multiset{id})[x] {
      if x == id {
        assert x !in r;
      }
    }
  }

  lemma {:induction false} DistinctCounts(s: seq<string>)
    requires Distinct(s)
    ensures forall x :: multiset(s)[x] == if x in s then 1 else 0
  {
    if s != [] {
      assert s == [s[0]] + s[1..];
      DistinctCounts(s[1..]);
      assert s[0] !in s[1..];
    }
  }

  lemma {:induction false} CountsDistinct(s: seq<string>)
    requires forall x :: multiset(s)[x] <= 1
    ensures Distinct(s)
  {
    if s != [] {
      assert s == [s[0]] + s[1..];
      assert multiset(s) == multiset{s[0]} + multiset(s[1..]);
      forall x ensures multiset(s[1..])[x] <= 1 {
        assert multiset(s)[x] == (if x == s[0] then 1 else 0) + multiset(s[1..])[x];
      }
      CountsDistinct(s[1..]);
      assert multiset(s[1..])[s[0]] == 0;
      forall i, j | 0 <= i < j < |s| ensures s[i] != s[j] {
        if i == 0 {
          assert s[j] in s[1..];
        } else {
          assert s[i] == s[1..][i - 1] && s[j] == s[1..][j - 1];
        }
      }
    }
  }

  /** Toggling the same id twice selects the same ids again. The list comes
      back exactly when the id was absent or was the last one added: a
      removed id is re-added at the end. */
  lemma ToggleTwiceRestores(sel: seq<string>, id: string)
    requires Distinct(sel)
    ensures forall x :: x in Toggled(Toggled(sel, id), id) <==> x in sel
    ensures Toggled(Toggled(sel, id), id) == sel <==> id !in sel || sel[|sel| - 1] == id
  {
    var twice := Toggled(Toggled(sel, id), id);
    if id !in sel {
      FilterKeepsAll(sel, (x: string) => x != id);
      FilterAppend(sel, [id], (x: string) => x != id);
      assert Filter([id], (x: string) => x != id) == [];
    } else if sel[|sel| - 1] == id {
      var init := sel[..|sel| - 1];
      assert sel == init + [id];
      assert id !in init;
      FilterKeepsAll(init, (x: string) => x != id);
      FilterAppend(init, [id], (x: string) => x != id);
      assert Filter([id], (x: string) => x != id) == [];
    } else {
      assert twice[|twice| - 1] == id;
    }
  }

  /** The confirmation text: singular for one song, the count otherwise. */
  const SingleConfirm: string := "Are you sure you want to delete this song?"
  const ManyConfirmHead: string := "Are you sure you want to delete "
  const ManyConfirmTail: string := " songs?"

  function ConfirmMessage(count: nat): (r: string)
    ensures count == 1 <==> r == SingleConfirm
    ensures count != 1 ==>
      && StartsWith(r, ManyConfirmHead)
      && |ManyConfirmHead| + |ManyConfirmTail| <= |r|
      && r[|r| - |ManyConfirmTail|..] == ManyConfirmTail
      && r[|ManyConfirmHead|..|r| - |ManyConfirmTail|] == NatToString(count)
      && ParseDigits(r[|ManyConfirmHead|..|r| - |ManyConfirmTail|]) == Some(count)
  {
    if count == 1 then SingleConfirm
    else
      var digits := NatToString(count);
      var r := ManyConfirmHead + digits + ManyConfirmTail;
      ParseNatToString(count);
      assert r[|ManyConfirmHead|..|r| - |ManyConfirmTail|] == digits;
      assert r[|r| - |ManyConfirmTail|..] == ManyConfirmTail;
      assert IsDigit(r[|ManyConfirmHead|]) && !IsDigit(SingleConfirm[|ManyConfirmHead|]);
      r
  }

  // ---------------------------------------------------------- bulk delete

  /** The songs whose id is not among ids, in order. */
  function WithoutSongs(songs: seq<Song>, ids: seq<string>): (r: seq<Song>)
    ensures forall s :: s in r <==> s in songs && s.id !in ids
    ensures IsSubseq(r, songs)
    ensures forall s :: multiset(r)[s] == if s.id !in ids then multiset(songs)[s] else 0
  {
    var keep := (s: Song) => s.id !in ids;
    FilterIsSubseq(songs, keep);
    FilterCounts(songs, keep);
    Filter(songs, keep)
  }

  function WithoutSongIds(refs: seq<string>, ids: seq<string>): (r: seq<string>)
    ensures forall x :: x in r <==> x in refs && x !in ids
    ensures IsSubseq(r, refs)
    ensures forall x :: multiset(r)[x] == if x !in ids then multiset(refs)[x] else 0
  {
    var keep := (x: string) => x !in ids;
    FilterIsSubseq(refs, keep);
    FilterCounts(refs, keep);
    Filter(refs, keep)
  }

  function PruneAllFromPlaylists(ps: seq<Playlist>, ids: seq<string>): (r: seq<Playlist>)
    ensures |r| == |ps|
    ensures forall i :: 0 <= i < |ps| ==> r[i] == ps[i].(songs := WithoutSongIds(ps[i].songs, ids))
  {
    seq(|ps|, i requires 0 <= i < |ps| => ps[i].(songs := WithoutSongIds(ps[i].songs, ids)))
  }

  /** Song records with one of the ids go; bare ids stay. */
  function PruneAllFromQueue(q: seq<QueueEntry>, ids: seq<string>): (r: seq<QueueEntry>)
    ensures forall e :: e in r <==> e in q && (EntryId(e).None? || EntryId(e).value !in ids)
    ensures IsSubseq(r, q)
    ensures forall e :: multiset(r)[e] == if EntryId(e).None? || EntryId(e).value !in ids then multiset(q)[e] else 0
  {
    var keep := (e: QueueEntry) => EntryId(e).None? || EntryId(e).value !in ids;
    FilterIsSubseq(q, keep);
    FilterCounts(q, keep);
    Filter(q, keep)
  }

  /** The documents with every id of ids deleted at once. */
  function AfterDeleteAll(d: Documents, ids: seq<string>): Documents {
    Documents(WithoutSongs(d.songs, ids), PruneAllFromPlaylists(d.playlists, ids), PruneAllFromQueue(d.queue, ids))
  }

  /** Deleting no ids changes nothing. */
  lemma NothingDeletedYet(d: Documents)
    ensures AfterDeleteAll(d, []) == d
  {
    FilterKeepsAll(d.songs, (s: Song) => s.id !in []);
    FilterKeepsAll(d.queue, (e: QueueEntry) => EntryId(e).None? || EntryId(e).value !in []);
    forall i | 0 <= i < |d.playlists| ensures WithoutSongIds(d.playlists[i].songs, []) == d.playlists[i].songs {
      FilterKeepsAll(d.playlists[i].songs, (x: string) => x !in []);
    }
  }

  /** One more deleteSong extends the set of deleted ids by one. */
  lemma OneMoreDeleted(d: Documents, ids: seq<string>, id: string)
    ensures AfterDelete(AfterDeleteAll(d, ids), id) == AfterDeleteAll(d, ids + [id])
  {
    FilterTwice(d.songs, (s: Song) => s.id !in ids, (s: Song) => s.id != id, (s: Song) => s.id !in ids + [id]);
    FilterTwice(d.queue, (e: QueueEntry) => EntryId(e).None? || EntryId(e).value !in ids,
                (e: QueueEntry) => EntryId(e) != Some(id),
                (e: QueueEntry) => EntryId(e).None? || EntryId(e).value !in ids + [id]);
    var ps := d.playlists;
    forall i | 0 <= i < |ps|
      ensures WithoutSongId(WithoutSongIds(ps[i].songs, ids), id) == WithoutSongIds(ps[i].songs, ids + [id])
    {
      FilterTwice(ps[i].songs, (x: string) => x !in ids, (x: string) => x != id, (x: string) => x !in ids + [id]);
    }
  }

  /** The documents after one deleteSong per id, in list order. */
  function DeletedInTurn(d: Documents, ids: seq<string>): Documents
    decreases |ids|
  {
    if ids == [] then d else AfterDelete(DeletedInTurn(d, ids[..|ids| - 1]), ids[|ids| - 1])
  }

  /** One more element of ids is one more deleteSong. */
  lemma DeletedInTurnStep(d: Documents, ids: seq<string>, i: nat)
    requires i < |ids|
    ensures DeletedInTurn(d, ids[..i + 1]) == AfterDelete(DeletedInTurn(d, ids[..i]), ids[i])
  {
    assert ids[..i + 1][..i] == ids[..i];
  }

  /** Deleting the ids one after another removes all of them at once: the
      order of the deletes does not matter. */
  lemma {:induction false} InTurnIsAtOnce(d: Documents, ids: seq<string>)
    ensures DeletedInTurn(d, ids) == AfterDeleteAll(d, ids)
    decreases |ids|
  {
    if ids == [] {
      NothingDeletedYet(d);
    } else {
      var init, last := ids[..|ids| - 1], ids[|ids| - 1];
      assert ids == init + [last];
      calc {
        DeletedInTurn(d, ids);
        AfterDelete(DeletedInTurn(d, init), last);
        { InTurnIsAtOnce(d, init); }
        AfterDelete(AfterDeleteAll(d, init), last);
        { OneMoreDeleted(d, init, last); }
        AfterDeleteAll(d, init + [last]);
      }
    }
  }

  /** The storage page: the listed songs, the selection and the deleting
      flag. The storage figures loadData fetches are not a field: after a
      reload they are GetStorageInfo over the store's new contents. */
  class StoragePage {
    var songs: seq<Song>
    var selected: seq<string>
    var isDeleting: bool
    const store: Store

    /** The selection has no repetitions, and the deleting flag is only
        raised while a bulk delete runs. */
    ghost predicate Valid() reads this {
      Distinct(selected) && !isDeleting
    }

    /** The page opens with the stored songs and nothing selected. */
    constructor (store: Store)
      ensures Valid() && this.store == store
      ensures songs == store.GetAllSongs() && selected == [] && !isDeleting
    {
      this.store := store;
      songs := store.GetAllSongs();
      selected := [];
      isDeleting := false;
    }

    method ToggleSelect(id: string)
      requires Valid()
      modifies this
      ensures Valid()
      ensures selected == Toggled(old(selected), id)
      ensures songs == old(songs) && isDeleting == old(isDeleting)
    {
      selected := Toggled(selected, id);
    }

    /** handleDelete: nothing without a selection; otherwise the confirmation
        text is shown and, if `confirmed`, every selected id is deleted in
        selection order, the selection cleared and the list reloaded. */
    method HandleDelete(confirmed: bool) returns (prompt: Option<string>)
      requires Valid()
      modifies this, store
      ensures Valid()
      ensures old(selected) == [] ==> prompt == None
      ensures old(selected) != [] ==> prompt == Some(ConfirmMessage(|old(selected)|))
      ensures old(selected) == [] || !confirmed ==>
        && selected == old(selected) && songs == old(songs)
        && store.songs == old(store.songs) && store.playlists == old(store.playlists)
        && store.queue == old(store.queue)
      ensures old(selected) != [] && confirmed ==>
        && store.GetAllSongs() == WithoutSongs(old(store.GetAllSongs()), old(selected))
        && store.GetPlaylists() == PruneAllFromPlaylists(old(store.GetPlaylists()), old(selected))
        && store.GetQueue() == PruneAllFromQueue(old(store.GetQueue()), old(selected))
        && selected == [] && songs == store.GetAllSongs()
    {
      if |selected| == 0 {
        return None;
      }
      prompt := Some(ConfirmMessage(|selected|));
      if !confirmed {
        return;
      }
      isDeleting := true;
      DeleteEach(selected);
      selected := [];
      songs := store.GetAllSongs();
      isDeleting := false;
    }

    /** Array.from(selectedSongs).map(id => deleteSong(id)): one deleteSong
        per id, in selection order. */
    method DeleteEach(ids: seq<string>)
      modifies store
      ensures store.Contents() == AfterDeleteAll(old(store.Contents()), ids)
    {
      ghost var d0 := store.Contents();
      var i := 0;
      while i < |ids|
        invariant 0 <= i <= |ids|
        invariant store.Contents() == DeletedInTurn(d0, ids[..i])
      {
        store.DeleteSong(ids[i]);
        DeletedInTurnStep(d0, ids, i);
        i := i + 1;
      }
      assert ids[..i] == ids;
      InTurnIsAtOnce(d0, ids);
    }

    /** The per-row Delete button calls deleteSong directly; the page's list
        is not reloaded. */
    method DeleteRow(id: string)
      requires Valid()
      modifies store
      ensures store.Contents() == AfterDelete(old(store.Contents()), id)
      ensures songs == old(songs) && selected == old(selected)
    {
      store.DeleteSong(id);
    }
  }
}

/** What one pass of `generate_playlist` guarantees, stated over the `Playlist` functions. */
module PlaylistProperties {
  import opened Sequences
  import opened Naming
  import opened SongIndex
  import opened Playlist

  /** The video ids of the entries, in playlist order. */
  function Ids(entries: seq<Entry>): (ids: seq<string>)
    ensures |ids| == |entries| && forall i :: 0 <= i < |entries| ==> ids[i] == entries[i].id
  {
    if entries == [] then [] else [entries[0].id] + Ids(entries[1..])
  }

  /** The elements of `keys` not in `seen`, in order. */
  function NotIn(keys: seq<string>, seen: seq<string>): (r: seq<string>)
    ensures forall k :: k in r <==> k in keys && k !in seen
  {
    if keys == [] then []
    else if keys[0] in seen then NotIn(keys[1..], seen)
    else [keys[0]] + NotIn(keys[1..], seen)
  }

  function MoveIds(moves: seq<Move>): (ids: seq<string>)
    ensures |ids| == |moves| && forall m :: 0 <= m < |moves| ==> ids[m] == moves[m].id
  {
    if moves == [] then [] else [moves[0].id] + MoveIds(moves[1..])
  }

  lemma IdsCons(entries: seq<Entry>, i: nat)
    requires i < |entries|
    ensures Ids(entries[i..]) == [entries[i].id] + Ids(entries[i + 1..])
  {
    var a, b := Ids(entries[i..]), [entries[i].id] + Ids(entries[i + 1..]);
    assert |a| == |b|;
    forall k | 0 <= k < |a| ensures a[k] == b[k] {
      if k > 0 {
        assert a[k] == entries[i + k].id;
      }
    }
  }

  // ---------------------------------------------------------------------
  // The walk

  /**
   * For a song already on disk, the step for entry `i` touches its file only
   * when the recorded number differs from `i + 1`: then the file is retagged
   * and renamed to `"{i+1}. {song_name}"`; otherwise no file is renamed or
   * removed and only the target name may get its missing metadata. The
   * index is not rebuilt in this branch.
   */
  lemma StepRenamesOnlyWhenNeeded(p: Pass, e: Entry, i: nat)
    requires DirValid(p.dir)
    requires e.id in p.dict.records
    requires var rec := p.dict.records[e.id];
      rec.filePath in p.dir.files && ParseSongFile(rec.filePath) == Some(rec)
    ensures var rec := p.dict.records[e.id];
      var fileName := TrackFileName(i + 1, rec.songName);
      var d := DirOf(Step(p, e, i));
      && (rec.trackNum == i + 1 ==>
            d.order == p.dir.order && d.files.Keys == p.dir.files.Keys
            && forall n :: n in p.dir.files && n != fileName ==> d.files[n] == p.dir.files[n])
      && (rec.trackNum != i + 1 ==>
            && rec.filePath !in d.files && fileName in d.files && d.files[fileName].track == Some(i + 1)
            && d.files[fileName].hasTitle
               == (p.dir.files[rec.filePath].hasTitle || (Step(p, e, i).Running? && e.metadataFetchOk))
            && forall n :: n != rec.filePath && n != fileName ==>
                 (n in d.files <==> n in p.dir.files) && (n in p.dir.files ==> d.files[n] == p.dir.files[n]))
    ensures Step(p, e, i).Running? ==>
      Step(p, e, i).pass.dict == p.dict && Step(p, e, i).pass.seen == p.seen + [e.id]
  {
    if p.dict.records[e.id].trackNum == i + 1 {
      StepKeepsPlacedSong(p, e, i);
    } else {
      StepRenamesMisplacedSong(p, e, i);
    }
  }

  /** The case of a song whose recorded number is already `i + 1`. */
  lemma StepKeepsPlacedSong(p: Pass, e: Entry, i: nat)
    requires e.id in p.dict.records && p.dict.records[e.id].trackNum == i + 1
    ensures var fileName := TrackFileName(i + 1, p.dict.records[e.id].songName);
      var d := DirOf(Step(p, e, i));
      && d.order == p.dir.order && d.files.Keys == p.dir.files.Keys
      && (forall n :: n in p.dir.files && n != fileName ==> d.files[n] == p.dir.files[n])
    ensures Step(p, e, i).Running? ==>
      Step(p, e, i).pass.dict == p.dict && Step(p, e, i).pass.seen == p.seen + [e.id]
  {
  }

  /** The case of a song whose recorded number differs from `i + 1`. */
  lemma StepRenamesMisplacedSong(p: Pass, e: Entry, i: nat)
    requires e.id in p.dict.records
    requires var rec := p.dict.records[e.id];
      rec.trackNum != i + 1 && rec.filePath in p.dir.files && ParseSongFile(rec.filePath) == Some(rec)
    ensures var rec := p.dict.records[e.id];
      var fileName := TrackFileName(i + 1, rec.songName);
      var d := DirOf(Step(p, e, i));
      && rec.filePath !in d.files && fileName in d.files && d.files[fileName].track == Some(i + 1)
      && d.files[fileName].hasTitle
         == (p.dir.files[rec.filePath].hasTitle || (Step(p, e, i).Running? && e.metadataFetchOk))
      && forall n :: n != rec.filePath && n != fileName ==>
           (n in d.files <==> n in p.dir.files) && (n in p.dir.files ==> d.files[n] == p.dir.files[n])
    ensures Step(p, e, i).Running? ==>
      Step(p, e, i).pass.dict == p.dict && Step(p, e, i).pass.seen == p.seen + [e.id]
  {
    var rec := p.dict.records[e.id];
    TrackFileNameParses(i + 1, rec.songName);
    assert rec.filePath != TrackFileName(i + 1, rec.songName);
  }

  /**
   * Every file of `after` is as it was in `before`, or carries track tag
   * `track`, or has a name whose leading number is `track`.
   */
  ghost predicate WritesOnlyNumber(before: Dir, after: Dir, track: nat) {
    forall n :: n in after.files ==>
      (n in before.files && after.files[n] == before.files[n])
      || after.files[n].track == Some(track)
      || (ParseSongFile(n).Some? && ParseSongFile(n).value.trackNum == track)
  }

  /**
   * No step for entry `i` writes any number but `i + 1`: every file it adds
   * or changes either carries track tag `i + 1` or has a name whose leading
   * number is `i + 1`. A failed download before it therefore shifts nothing.
   */
  lemma StepWritesOnlyItsNumber(p: Pass, e: Entry, i: nat)
    requires DirValid(p.dir)
    ensures WritesOnlyNumber(p.dir, DirOf(Step(p, e, i)), i + 1)
  {
    if e.id in p.dict.records {
      PresentStepWritesOnlyItsNumber(p, e, i);
    } else if e.download.DownloadReturns? {
      DownloadStepWritesOnlyItsNumber(p, e, i);
    }
  }

  lemma PresentStepWritesOnlyItsNumber(p: Pass, e: Entry, i: nat)
    requires DirValid(p.dir) && e.id in p.dict.records
    ensures WritesOnlyNumber(p.dir, DirOf(Step(p, e, i)), i + 1)
  {
    var track := i + 1;
    var rec := p.dict.records[e.id];
    var fileName := TrackFileName(track, rec.songName);
    if rec.trackNum != track && rec.filePath in p.dir.files {
      var d := Rename(Retag(p.dir, rec.filePath, track), rec.filePath, fileName);
      assert WritesOnlyNumber(p.dir, d, track);
      MetadataKeepsWritesOnlyNumber(p.dir, d, fileName, track, e.metadataFetchOk);
    } else if rec.trackNum == track {
      MetadataKeepsWritesOnlyNumber(p.dir, p.dir, fileName, track, e.metadataFetchOk);
    }
  }

  lemma DownloadStepWritesOnlyItsNumber(p: Pass, e: Entry, i: nat)
    requires DirValid(p.dir) && e.id !in p.dict.records && e.download.DownloadReturns?
    ensures WritesOnlyNumber(p.dir, DirOf(Step(p, e, i)), i + 1)
  {
    var track := i + 1;
    var d := AfterDownload(p.dir, e.id, track, e.download.saved);
    if e.download.saved.Some? {
      var s := e.download.saved.value;
      TrackFileNameParses(track, s.title + "-" + e.id + ".mp3");
    }
    assert WritesOnlyNumber(p.dir, d, track);
    var dict := SongFileDictOf(d.order);
    if e.id in dict.records {
      MetadataKeepsWritesOnlyNumber(p.dir, d, dict.records[e.id].filePath, track, e.metadataFetchOk);
    }
  }

  /** A `generate_metadata` call for the same number keeps WritesOnlyNumber. */
  lemma MetadataKeepsWritesOnlyNumber(before: Dir, d: Dir, path: string, track: nat, fetchOk: bool)
    requires WritesOnlyNumber(before, d, track)
    ensures Metadata(d, path, track, fetchOk).Some? ==>
      WritesOnlyNumber(before, Metadata(d, path, track, fetchOk).value, track)
  {
    MetadataWritesOnlyItsNumber(d, path, track, fetchOk);
  }

  /** `generate_metadata` changes at most the one file, and writes it track `track`. */
  lemma MetadataWritesOnlyItsNumber(d: Dir, path: string, track: nat, fetchOk: bool)
    ensures var r := Metadata(d, path, track, fetchOk);
      r.Some? ==> (r.value.order == d.order && r.value.files.Keys == d.files.Keys
        && forall n :: n in d.files ==> r.value.files[n] == d.files[n] || r.value.files[n].track == Some(track))
  {
  }

  /** Every exception of the download branch is caught: it never ends the pass. */
  lemma DownloadBranchNeverHalts(p: Pass, e: Entry, i: nat)
    requires e.id !in p.dict.records
    ensures Step(p, e, i).Running?
    ensures e.download.DownloadRaises? ==> Step(p, e, i) == Running(Pass(p.dir, p.dict, p.seen + [e.id]))
  {
  }

  /** A walk that runs to the end has recorded every entry id, in order. */
  lemma {:induction false} WalkSeesEveryEntry(p: Pass, entries: seq<Entry>, i: nat)
    requires i <= |entries|
    ensures WalkFrom(p, entries, i).Running? ==>
      WalkFrom(p, entries, i).pass.seen == p.seen + Ids(entries[i..])
    decreases |entries| - i
  {
    if i == |entries| {
      assert entries[i..] == [];
    } else {
      match Step(p, entries[i], i)
      case Stopped(_) =>
      case Running(p') =>
        WalkSeesEveryEntry(p', entries, i + 1);
        IdsCons(entries, i);
    }
  }

  /**
   * The step for a song on disk at the right number but under another name
   * (say with a zero-padded number) renames nothing and then asks for the
   * metadata of `"{i+1}. {song_name}"`, which does not exist: the pass stops.
   */
  lemma PresentUnderOtherNameStops(p: Pass, e: Entry, i: nat)
    requires e.id in p.dict.records
    requires var rec := p.dict.records[e.id];
      rec.trackNum == i + 1 && TrackFileName(i + 1, rec.songName) !in p.dir.files
    ensures Step(p, e, i) == Stopped(p.dir)
  {
  }

  /**
   * Exactly when the step for a song on disk stops the pass (lines 176-186):
   * the renaming branch stops when its file is missing, and line 186 stops
   * when the file it asks about is missing or has no title and the fetch
   * fails. `os.rename` itself never raises here: it runs only after the
   * retag of the same path succeeded.
   */
  lemma PresentStepStopsExactly(p: Pass, e: Entry, i: nat)
    requires e.id in p.dict.records
    ensures var rec := p.dict.records[e.id];
      var path := if rec.trackNum == i + 1 then TrackFileName(i + 1, rec.songName) else rec.filePath;
      Step(p, e, i).Stopped? <==>
        path !in p.dir.files || (!p.dir.files[path].hasTitle && !e.metadataFetchOk)
  {
  }

  /** The index of a directory holding only `"0{1}. {song_name}"`. */
  lemma ZeroPaddedIndex(songName: string)
    requires IsMp3(songName) && |songName| >= 15
    ensures var name := "0" + TrackFileName(1, songName);
      SongFileDictOf([name]) == SongFileDict([SongVideoId(songName)], map[SongVideoId(songName) := SongFile(songName, 1, name)])
  {
    var name := "0" + TrackFileName(1, songName);
    ZeroPaddedNameParses(1, songName);
    assert name[|name| - 4..] == songName[|songName| - 4..];
    var listing := [name];
    assert Mp3Files(listing) == listing by {
      assert listing[1..] == [];
    }
    assert listing[..0] == [];
    assert BuildIndex(listing) == AddFile(EMPTY, name);
  }

  /** A one-song album whose file carries a zero-padded number halts at that song's entry. */
  lemma ZeroPaddedAlbumHalts(songName: string, e: Entry)
    requires IsMp3(songName) && |songName| >= 15 && e.id == SongVideoId(songName)
    ensures var name := "0" + TrackFileName(1, songName);
      var d := Dir(map[name := Tags(true, Some(1))], [name]);
      && SongFileDictOf(d.order).records == map[e.id := SongFile(songName, 1, name)]
      && Sync(d, [e]) == Halted(d)
  {
    var name := "0" + TrackFileName(1, songName);
    var d := Dir(map[name := Tags(true, Some(1))], [name]);
    ZeroPaddedIndex(songName);
    var dict := SongFileDictOf(d.order);
    assert |TrackFileName(1, songName)| < |name|;
    PresentUnderOtherNameStops(Pass(d, dict, []), e, 0);
  }

  // ---------------------------------------------------------------------
  // The orphans

  /**
   * The orphan moves are the keys of the index that are not among the seen
   * ids, in the index's key order, each with its record from the index.
   */
  lemma {:induction false} OrphanMovesNumbering(dict: SongFileDict, seen: seq<string>, track: nat, j: nat)
    requires WellFormed(dict) && j <= |dict.keys|
    ensures var ms := OrphanMovesFrom(dict, seen, track, j);
      && MoveIds(ms) == NotIn(dict.keys[j..], seen)
      && (forall m :: 0 <= m < |ms| ==> ms[m].id in dict.records && ms[m].rec == dict.records[ms[m].id])
    decreases |dict.keys| - j
  {
    if j < |dict.keys| {
      var id := dict.keys[j];
      assert dict.keys[j..] == [id] + dict.keys[j + 1..];
      if id in seen {
        OrphanMovesNumbering(dict, seen, track, j + 1);
      } else {
        OrphanMovesNumbering(dict, seen, track + 1, j + 1);
        var ms := OrphanMovesFrom(dict, seen, track, j);
        assert ms == [Move(id, dict.records[id], track)] + OrphanMovesFrom(dict, seen, track + 1, j + 1);
        assert MoveIds(ms) == [id] + MoveIds(ms[1..]);
      }
    }
  }

  /** The counter numbers the orphan moves consecutively from `track`. */
  lemma {:induction false} OrphanMovesTracks(dict: SongFileDict, seen: seq<string>, track: nat, j: nat)
    requires WellFormed(dict) && j <= |dict.keys|
    ensures forall m :: 0 <= m < |OrphanMovesFrom(dict, seen, track, j)| ==>
      OrphanMovesFrom(dict, seen, track, j)[m].track == track + m
    decreases |dict.keys| - j
  {
    if j < |dict.keys| {
      var id := dict.keys[j];
      if id in seen {
        OrphanMovesTracks(dict, seen, track, j + 1);
        assert OrphanMovesFrom(dict, seen, track, j) == OrphanMovesFrom(dict, seen, track, j + 1);
      } else {
        OrphanMovesTracks(dict, seen, track + 1, j + 1);
        var ms := OrphanMovesFrom(dict, seen, track, j);
        var rest := OrphanMovesFrom(dict, seen, track + 1, j + 1);
        assert ms == [Move(id, dict.records[id], track)] + rest;
        assert forall m :: 1 <= m < |ms| ==> ms[m] == rest[m - 1];
      }
    }
  }

  /** The numbers one pass hands out: `i + 1` to entry `i`, then the orphans' numbers. */
  function AssignedNumbers(entryCount: nat, moves: seq<Move>): seq<nat> {
    seq(entryCount, i => i + 1) + seq(|moves|, m requires 0 <= m < |moves| => moves[m].track)
  }

  /**
   * All numbers handed out in one pass are pairwise distinct, and every
   * orphan's number is above every playlist position.
   */
  lemma AssignedNumbersDistinct(dict: SongFileDict, seen: seq<string>, entryCount: nat)
    requires WellFormed(dict)
    ensures var ms := OrphanMovesFrom(dict, seen, entryCount + 1, 0);
      Distinct(AssignedNumbers(entryCount, ms))
      && forall m :: 0 <= m < |ms| ==> ms[m].track > entryCount
  {
    var ms := OrphanMovesFrom(dict, seen, entryCount + 1, 0);
    OrphanMovesTracks(dict, seen, entryCount + 1, 0);
    var r := AssignedNumbers(entryCount, ms);
    forall a, b | 0 <= a < b < |r| ensures r[a] != r[b] {
      if b < entryCount {
      } else if a < entryCount {
        assert r[b] == ms[b - entryCount].track;
      } else {
        assert r[a] == ms[a - entryCount].track && r[b] == ms[b - entryCount].track;
      }
    }
  }

  /**
   * An orphan already at its number is left alone; any other is retagged and
   * renamed to `"{n}. {song_name}"`, and its old name is gone.
   */
  lemma OrphanMoveRenamesOnlyWhenNeeded(d: Dir, m: Move)
    requires DirValid(d)
    requires m.rec.filePath in d.files && ParseSongFile(m.rec.filePath) == Some(m.rec)
    ensures m.rec.trackNum == m.track ==> ApplyMove(d, m) == Some(d)
    ensures m.rec.trackNum != m.track ==>
      var newName := TrackFileName(m.track, m.rec.songName);
      ApplyMove(d, m).Some? && m.rec.filePath !in ApplyMove(d, m).value.files
      && newName in ApplyMove(d, m).value.files
      && ApplyMove(d, m).value.files[newName].track == Some(m.track)
      && ApplyMove(d, m).value.files[newName].hasTitle == d.files[m.rec.filePath].hasTitle
      && forall n :: n != m.rec.filePath && n != newName ==>
           (n in ApplyMove(d, m).value.files <==> n in d.files)
           && (n in d.files ==> ApplyMove(d, m).value.files[n] == d.files[n])
  {
    if m.rec.trackNum != m.track {
      TrackFileNameParses(m.track, m.rec.songName);
      assert m.rec.filePath != TrackFileName(m.track, m.rec.songName);
    }
  }

  // ---------------------------------------------------------------------
  // A second pass over a tidy album changes nothing

  /**
   * Every entry `i` is on disk under the name `"{i+1}. {song_name}"`, is
   * recorded with number `i + 1`, and already has its title tag.
   */
  ghost predicate EntriesInPlace(d: Dir, dict: SongFileDict, entries: seq<Entry>, i: nat)
    requires i <= |entries|
  {
    forall k :: i <= k < |entries| ==>
      && entries[k].id in dict.records
      && var rec := dict.records[entries[k].id];
      && rec.trackNum == k + 1
      && rec.filePath == TrackFileName(k + 1, rec.songName)
      && rec.filePath in d.files
      && d.files[rec.filePath].hasTitle
  }

  lemma {:induction false} WalkInPlaceChangesNothing(d: Dir, dict: SongFileDict, seen: seq<string>, entries: seq<Entry>, i: nat)
    requires i <= |entries|
    requires EntriesInPlace(d, dict, entries, i)
    ensures WalkFrom(Pass(d, dict, seen), entries, i) == Running(Pass(d, dict, seen + Ids(entries[i..])))
    decreases |entries| - i
  {
    if i == |entries| {
      assert Ids(entries[i..]) == [];
      assert seen + Ids(entries[i..]) == seen;
    } else {
      var e := entries[i];
      assert EntriesInPlace(d, dict, entries, i + 1);
      StepInPlaceChangesNothing(Pass(d, dict, seen), e, i);
      WalkFromRunning(Pass(d, dict, seen), entries, i);
      WalkInPlaceChangesNothing(d, dict, seen + [e.id], entries, i + 1);
      IdsCons(entries, i);
      assert seen + [e.id] + Ids(entries[i + 1..]) == seen + Ids(entries[i..]);
    }
  }

  /** A step that goes on hands the walk its new pass. */
  lemma WalkFromRunning(p: Pass, entries: seq<Entry>, i: nat)
    requires i < |entries| && Step(p, entries[i], i).Running?
    ensures WalkFrom(p, entries, i) == WalkFrom(Step(p, entries[i], i).pass, entries, i + 1)
  {
  }

  /** The step for an entry that is in place with its title only records the id. */
  lemma StepInPlaceChangesNothing(p: Pass, e: Entry, i: nat)
    requires e.id in p.dict.records
    requires var rec := p.dict.records[e.id];
      rec.trackNum == i + 1 && rec.filePath == TrackFileName(i + 1, rec.songName)
      && rec.filePath in p.dir.files && p.dir.files[rec.filePath].hasTitle
    ensures Step(p, e, i) == Running(Pass(p.dir, p.dict, p.seen + [e.id]))
  {
  }

  lemma {:induction false} MovesInPlaceChangeNothing(d: Dir, moves: seq<Move>)
    requires forall m :: 0 <= m < |moves| ==> moves[m].rec.trackNum == moves[m].track
    ensures ApplyMoves(d, moves) == Completed(d)
    decreases |moves|
  {
    if moves != [] {
      MovesInPlaceChangeNothing(d, moves[1..]);
    }
  }

  /** Every orphan already carries the number the pass would give it. */
  ghost predicate OrphansInPlace(d: Dir, entries: seq<Entry>) {
    var ms := OrphanMovesFrom(SongFileDictOf(d.order), Ids(entries), |entries| + 1, 0);
    forall m :: 0 <= m < |ms| ==> ms[m].rec.trackNum == ms[m].track
  }

  /**
   * Idempotence: when every entry is already in place with its title, and
   * every orphan already carries the number the pass would give it, the
   * pass completes and leaves the directory exactly as it was.
   */
  lemma SyncInPlaceChangesNothing(d: Dir, entries: seq<Entry>)
    requires EntriesInPlace(d, SongFileDictOf(d.order), entries, 0)
    requires OrphansInPlace(d, entries)
    ensures Sync(d, entries) == Completed(d)
  {
    var dict := SongFileDictOf(d.order);
    WalkInPlaceChangesNothing(d, dict, [], entries, 0);
    assert entries[0..] == entries;
    assert [] + Ids(entries) == Ids(entries);
    MovesInPlaceChangeNothing(d, OrphanMovesFrom(dict, Ids(entries), |entries| + 1, 0));
  }
}

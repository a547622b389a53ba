/**
 * `generate_playlist`: one synchronisation pass of an album directory
 * against a remote playlist. The directory is an `Album` object whose
 * files and tags the pass renames, retags and adds to; the network and
 * yt-dlp are reduced to what each playlist entry's calls return.
 */
module Playlist {
  import opened Sequences
  import opened Naming
  import opened SongIndex

  /** The ID3 frames the model follows: whether a title (TIT2) is present, and the track (TRCK). */
  datatype Tags = Tags(hasTitle: bool, track: Option<nat>)

  /** An album directory as a value: its files and their tags, and the order `os.listdir` lists them in. */
  datatype Dir = Dir(files: map<string, Tags>, order: seq<string>)

  ghost predicate DirValid(d: Dir) {
    Distinct(d.order) && forall n :: n in d.files <==> n in d.order
  }

  /** The file yt-dlp leaves behind: the title it put in the name and the tags of the mp3. */
  datatype Saved = Saved(title: string, tags: Tags)

  /** What `download_video` does: raise, or return having saved a file or not. */
  datatype Download = DownloadRaises | DownloadReturns(saved: Option<Saved>)

  /** A playlist entry, with what the network does for it during this pass. */
  datatype Entry = Entry(id: string, download: Download, metadataFetchOk: bool)

  /**
   * The playlist info dict: its title and its "entries", when present. The
   * album directory is named `FormatFileName(title)` (line 150); the caller
   * opens that directory as the `Album` the pass runs on.
   */
  datatype PlaylistInfo = PlaylistInfo(title: string, entries: Option<seq<Entry>>)

  /** How a pass ends: `Halted` when an exception escaped `generate_playlist`; files changed so far stay changed. */
  datatype Exit = Completed(dir: Dir) | Halted(dir: Dir)

  /** What the caller of `GeneratePlaylist` observes. */
  datatype SyncResult = NoVideosFound | Aborted | Finished

  // ---------------------------------------------------------------------
  // File-system steps, on values

  /** `update_track_num` (lines 54-58) on an existing file: TRCK becomes `track`. */
  function Retag(d: Dir, path: string, track: nat): (r: Dir)
    requires path in d.files
    ensures DirValid(d) ==> DirValid(r)
  {
    d.(files := d.files[path := d.files[path].(track := Some(track))])
  }

  /**
   * `os.rename(src, dst)` with POSIX semantics: `dst` takes `src`'s content
   * and its place in the listing; a file already called `dst` is replaced.
   */
  function Rename(d: Dir, src: string, dst: string): (r: Dir)
    requires src in d.files
    ensures DirValid(d) ==> DirValid(r)
    ensures dst in r.files && r.files[dst] == d.files[src]
    ensures src != dst ==> src !in r.files
    ensures forall n :: n != src && n != dst ==> (n in r.files <==> n in d.files)
    ensures forall n :: n in d.files && n != src && n != dst ==> r.files[n] == d.files[n]
  {
    if src == dst then d
    else Dir((d.files - {src})[dst := d.files[src]], Replace(Without(d.order, dst), src, dst))
  }

  /** A file written by yt-dlp: a new name is listed last, an existing one is overwritten in place. */
  function Save(d: Dir, name: string, tags: Tags): (r: Dir)
    ensures DirValid(d) ==> DirValid(r)
  {
    DistinctSnoc(d.order, name);
    Dir(d.files[name := tags], if name in d.files then d.order else d.order + [name])
  }

  /** The directory after `download_video` returns. */
  function AfterDownload(d: Dir, id: string, track: nat, saved: Option<Saved>): (r: Dir)
    ensures DirValid(d) ==> DirValid(r)
  {
    match saved
    case None => d
    case Some(s) => Save(d, TemplateName(track, s.title, id), s.tags)
  }

  /**
   * `generate_metadata` (lines 60-102): `None` when it raises. It raises when
   * the path does not exist (`ID3(file_path)`), does nothing when a title is
   * present, and otherwise needs the network; on success it writes the
   * title and the track number.
   */
  function Metadata(d: Dir, path: string, track: nat, fetchOk: bool): (r: Option<Dir>)
    ensures r.Some? && DirValid(d) ==> DirValid(r.value)
    ensures r.Some? <==> path in d.files && (d.files[path].hasTitle || fetchOk)
  {
    if path !in d.files then None
    else if d.files[path].hasTitle then Some(d)
    else if !fetchOk then None
    else Some(d.(files := d.files[path := Tags(true, Some(track))]))
  }

  // ---------------------------------------------------------------------
  // The walk over the playlist (lines 157-202)

  /** The loop state: the directory, the current `song_file_dict`, and `updated_video_ids`. */
  datatype Pass = Pass(dir: Dir, dict: SongFileDict, seen: seq<string>)

  datatype Progress = Running(pass: Pass) | Stopped(dir: Dir)

  function DirOf(g: Progress): Dir {
    match g
    case Running(p) => p.dir
    case Stopped(d) => d
  }

  /** One iteration for the entry at 0-based index `i`; its target number is `i + 1`. */
  function Step(p: Pass, e: Entry, i: nat): (g: Progress)
    ensures DirValid(p.dir) ==> DirValid(DirOf(g))
    ensures WellFormed(p.dict) && g.Running? ==> WellFormed(g.pass.dict)
    ensures g.Running? ==> g.pass.seen == p.seen + [e.id]
  {
    var track := i + 1;
    var seen := p.seen + [e.id];
    if e.id in p.dict.records then
      var rec := p.dict.records[e.id];
      var fileName := TrackFileName(track, rec.songName);
      if rec.trackNum != track && rec.filePath !in p.dir.files then Stopped(p.dir)
      else
        var d := if rec.trackNum != track
                 then Rename(Retag(p.dir, rec.filePath, track), rec.filePath, fileName)
                 else p.dir;
        match Metadata(d, fileName, track, e.metadataFetchOk)
        case None => Stopped(d)
        case Some(d') => Running(Pass(d', p.dict, seen))
    else
      match e.download
      case DownloadRaises => Running(Pass(p.dir, p.dict, seen))
      case DownloadReturns(saved) =>
        var d := AfterDownload(p.dir, e.id, track, saved);
        var dict := SongFileDictOf(d.order);
        if e.id !in dict.records then Running(Pass(d, dict, seen))
        else
          match Metadata(d, dict.records[e.id].filePath, track, e.metadataFetchOk)
          case None => Running(Pass(d, dict, seen))
          case Some(d') => Running(Pass(d', dict, seen))
  }

  /** The walk from entry `i` on. */
  function WalkFrom(p: Pass, entries: seq<Entry>, i: nat): (g: Progress)
    requires i <= |entries|
    ensures DirValid(p.dir) ==> DirValid(DirOf(g))
    ensures WellFormed(p.dict) && g.Running? ==> WellFormed(g.pass.dict)
    decreases |entries| - i
  {
    if i == |entries| then Running(p)
    else
      match Step(p, entries[i], i)
      case Stopped(d) => Stopped(d)
      case Running(p') => WalkFrom(p', entries, i + 1)
  }

  // ---------------------------------------------------------------------
  // Songs missing from the playlist (lines 204-224)

  /** The orphan with id `id` and record `rec` is given number `track`. */
  datatype Move = Move(id: string, rec: SongFile, track: nat)

  /**
   * The orphans among `dict.keys[j..]`, in key order, numbered from `track`
   * on as the counter of the loop numbers them.
   */
  function OrphanMovesFrom(dict: SongFileDict, seen: seq<string>, track: nat, j: nat): (r: seq<Move>)
    requires WellFormed(dict) && j <= |dict.keys|
    ensures |r| <= |dict.keys| - j
    ensures forall m :: 0 <= m < |r| ==>
      r[m].id !in seen && r[m].id in dict.records && r[m].rec == dict.records[r[m].id]
    decreases |dict.keys| - j
  {
    if j == |dict.keys| then []
    else
      var id := dict.keys[j];
      if id in seen then OrphanMovesFrom(dict, seen, track, j + 1)
      else [Move(id, dict.records[id], track)] + OrphanMovesFrom(dict, seen, track + 1, j + 1)
  }

  /** One orphan: nothing when it already has its number, otherwise retag and rename. */
  function ApplyMove(d: Dir, m: Move): (r: Option<Dir>)
    ensures r.Some? && DirValid(d) ==> DirValid(r.value)
  {
    if m.rec.trackNum == m.track then Some(d)
    else if m.rec.filePath !in d.files then None
    else Some(Rename(Retag(d, m.rec.filePath, m.track), m.rec.filePath, TrackFileName(m.track, m.rec.songName)))
  }

  function ApplyMoves(d: Dir, moves: seq<Move>): (x: Exit)
    ensures DirValid(d) ==> DirValid(x.dir)
    decreases |moves|
  {
    if moves == [] then Completed(d)
    else
      match ApplyMove(d, moves[0])
      case None => Halted(d)
      case Some(d') => ApplyMoves(d', moves[1..])
  }

  /** The whole pass over a directory, for the entries of a playlist. */
  function Sync(d: Dir, entries: seq<Entry>): (x: Exit)
    ensures DirValid(d) ==> DirValid(x.dir)
  {
    match WalkFrom(Pass(d, SongFileDictOf(d.order), []), entries, 0)
    case Stopped(d') => Halted(d')
    case Running(p) => ApplyMoves(p.dir, OrphanMovesFrom(p.dict, p.seen, |entries| + 1, 0))
  }

  // ---------------------------------------------------------------------
  // The album directory

  class Album {
    var files: map<string, Tags>
    var order: seq<string>

    ghost predicate Valid()
      reads this
    {
      DirValid(Dir(files, order))
    }

    function State(): Dir
      reads this
    {
      Dir(files, order)
    }

    /** An existing album directory (or a freshly made empty one, line 154). */
    constructor (d: Dir)
      requires DirValid(d)
      ensures Valid() && State() == d
    {
      files := d.files;
      order := d.order;
    }

    /** `os.listdir(album_name)`. */
    method ListDir() returns (names: seq<string>)
      requires Valid()
      ensures Distinct(names) && forall n :: n in names <==> n in files
      ensures names == order
    {
      names := order;
    }

    /** `update_track_num(path, track)`: raises (`ok` false) when the file does not exist. */
    method UpdateTrackNum(path: string, track: nat) returns (ok: bool)
      requires Valid()
      modifies this
      ensures Valid()
      ensures ok == (path in old(files))
      ensures State() == if ok then Retag(old(State()), path, track) else old(State())
    {
      if path !in files {
        return false;
      }
      files := files[path := files[path].(track := Some(track))];
      return true;
    }

    /** `os.rename(src, dst)`; in this program it always follows a successful retag of `src`. */
    method RenameFile(src: string, dst: string)
      requires Valid() && src in files
      modifies this
      ensures Valid()
      ensures State() == Rename(old(State()), src, dst)
    {
      if src != dst {
        var d := Rename(State(), src, dst);
        files, order := d.files, d.order;
      }
    }

    /** `generate_metadata(path, link, track, ...)`: `ok` false when it raises. */
    method GenerateMetadata(path: string, track: nat, fetchOk: bool) returns (ok: bool)
      requires Valid()
      modifies this
      ensures Valid()
      ensures ok == Metadata(old(State()), path, track, fetchOk).Some?
      ensures State() == if ok then Metadata(old(State()), path, track, fetchOk).value else old(State())
    {
      if path !in files {
        return false;
      }
      if files[path].hasTitle {
        return true;
      }
      if !fetchOk {
        return false;
      }
      files := files[path := Tags(true, Some(track))];
      return true;
    }

    /** `download_video(link, album_name, track)`: `raised` when it raises. */
    method DownloadVideo(id: string, track: nat, download: Download) returns (raised: bool)
      requires Valid()
      modifies this
      ensures Valid()
      ensures raised == download.DownloadRaises?
      ensures State() == if raised then old(State()) else AfterDownload(old(State()), id, track, download.saved)
    {
      match download
      case DownloadRaises =>
        raised := true;
      case DownloadReturns(saved) =>
        raised := false;
        if saved.Some? {
          var d := Save(State(), TemplateName(track, saved.value.title, id), saved.value.tags);
          files, order := d.files, d.order;
        }
    }

    /** The body of the walk for the entry at index `i` (lines 162-202). */
    method WalkEntry(dict: SongFileDict, seen: seq<string>, e: Entry, i: nat)
      returns (running: bool, dict': SongFileDict, seen': seq<string>)
      requires Valid()
      modifies this
      ensures Valid()
      ensures var g := Step(Pass(old(State()), dict, seen), e, i);
        running == g.Running? && State() == DirOf(g)
        && (running ==> dict' == g.pass.dict && seen' == g.pass.seen)
    {
      var track := i + 1;
      seen' := seen + [e.id];
      dict' := dict;
      if e.id in dict.records {
        // Song is already downloaded: fix its number and name when they differ.
        var rec := dict.records[e.id];
        var fileName := TrackFileName(track, rec.songName);
        if rec.trackNum != track {
          var ok := UpdateTrackNum(rec.filePath, track);
          if !ok {
            return false, dict', seen';
          }
          RenameFile(rec.filePath, fileName);
        }
        running := GenerateMetadata(fileName, track, e.metadataFetchOk);
      } else {
        // Exceptions in this branch are caught and the walk goes on.
        running := true;
        var raised := DownloadVideo(e.id, track, e.download);
        if raised {
          return;
        }
        var listing := ListDir();
        dict' := GetSongFileDict(listing);
        if e.id !in dict'.records {
          return;
        }
        var _ := GenerateMetadata(dict'.records[e.id].filePath, track, e.metadataFetchOk);
      }
    }

    /** The loop of lines 205-224: orphans are numbered from `start` in key order. */
    method MoveOrphans(dict: SongFileDict, seen: seq<string>, start: nat) returns (ok: bool)
      requires Valid() && WellFormed(dict)
      modifies this
      ensures Valid()
      ensures var x := ApplyMoves(old(State()), OrphanMovesFrom(dict, seen, start, 0));
        ok == x.Completed? && State() == x.dir
    {
      ghost var goal := ApplyMoves(State(), OrphanMovesFrom(dict, seen, start, 0));
      var track := start;
      var j := 0;
      while j < |dict.keys|
        invariant Valid()
        invariant 0 <= j <= |dict.keys|
        invariant ApplyMoves(State(), OrphanMovesFrom(dict, seen, track, j)) == goal
      {
        var id := dict.keys[j];
        if id !in seen {
          var rec := dict.records[id];
          if rec.trackNum == track {
            track := track + 1;
            j := j + 1;
            continue;
          }
          var ok := UpdateTrackNum(rec.filePath, track);
          if !ok {
            return false;
          }
          RenameFile(rec.filePath, TrackFileName(track, rec.songName));
          track := track + 1;
        }
        j := j + 1;
      }
      return true;
    }

    /** `generate_playlist` for a fetched playlist (lines 143-226). */
    method GeneratePlaylist(info: PlaylistInfo) returns (r: SyncResult)
      requires Valid()
      modifies this
      ensures Valid()
      ensures info.entries.None? ==> r == NoVideosFound && State() == old(State())
      ensures info.entries.Some? ==>
        var x := Sync(old(State()), info.entries.value);
        State() == x.dir && r == (if x.Completed? then Finished else Aborted)
    {
      if info.entries.None? {
        return NoVideosFound;
      }
      var entries := info.entries.value;
      ghost var d0 := State();
      var listing := ListDir();
      var dict := GetSongFileDict(listing);
      var seen: seq<string> := [];
      ghost var walk := WalkFrom(Pass(d0, dict, seen), entries, 0);
      var i := 0;
      while i < |entries|
        invariant Valid()
        invariant 0 <= i <= |entries|
        invariant WellFormed(dict)
        invariant WalkFrom(Pass(State(), dict, seen), entries, i) == walk
      {
        var running;
        running, dict, seen := WalkEntry(dict, seen, entries[i], i);
        if !running {
          return Aborted;
        }
        i := i + 1;
      }
      var ok := MoveOrphans(dict, seen, |entries| + 1);
      return if ok then Finished else Aborted;
    }
  }
}

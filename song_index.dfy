/**
 * The local file index of `get_song_file_dict`: the mp3 names of an album
 * directory, parsed back into (video id, song name, track number, path)
 * and collected in a dictionary keyed by video id.
 */
module SongIndex {
  import opened Sequences
  import opened Naming

  /** The record kept per video id: `song_name`, `track_num`, `file_path`. */
  datatype SongFile = SongFile(songName: string, trackNum: nat, filePath: string)

  /** A Python dict from video id to record; `keys` is its insertion order. */
  datatype SongFileDict = SongFileDict(keys: seq<string>, records: map<string, SongFile>)

  ghost predicate WellFormed(dict: SongFileDict) {
    Distinct(dict.keys) && forall k :: k in dict.records <==> k in dict.keys
  }

  const EMPTY: SongFileDict := SongFileDict([], map[])

  /** `dict[key] = rec`: a new key goes to the end, an existing key keeps its place. */
  function Put(dict: SongFileDict, key: string, rec: SongFile): (r: SongFileDict)
    ensures r.records == dict.records[key := rec]
    ensures WellFormed(dict) ==> WellFormed(r)
    ensures WellFormed(dict) && key in dict.keys ==> r.keys == dict.keys
    ensures WellFormed(dict) && key !in dict.keys ==> r.keys == dict.keys + [key]
  {
    var keys := if key in dict.records then dict.keys else dict.keys + [key];
    DistinctSnoc(dict.keys, key);
    SongFileDict(keys, dict.records[key := rec])
  }

  /**
   * One name as the loop body reads it (lines 129-131): the id slice and the
   * prefix strip never fail; a name without a leading digit run makes the
   * `int(re.search(...).group())` step raise, and such a name is skipped.
   * The path is the name itself, relative to the album directory.
   */
  function ParseSongFile(name: string): (r: Option<SongFile>)
    ensures r.None? <==> name == [] || !IsDigit(name[0])
    ensures r.Some? ==> r.value.filePath == name && |r.value.songName| <= |name|
  {
    var d := LeadingDigitCount(name);
    if d == 0 then None
    else Some(SongFile(StripTrackPrefix(name), DigitsValue(name[..d]), name))
  }

  /** `name` is indexed under `key`. */
  predicate HasKey(name: string, key: string) {
    ParseSongFile(name).Some? && SongVideoId(name) == key
  }

  /** The list comprehension of line 125: the names ending in ".mp3", in listing order. */
  function Mp3Files(listing: seq<string>): (r: seq<string>)
    ensures |r| <= |listing|
    ensures forall n :: n in r <==> n in listing && IsMp3(n)
  {
    if listing == [] then []
    else if IsMp3(listing[0]) then [listing[0]] + Mp3Files(listing[1..])
    else Mp3Files(listing[1..])
  }

  /** One iteration of the loop of lines 127-140. */
  function AddFile(dict: SongFileDict, name: string): (r: SongFileDict)
    ensures WellFormed(dict) ==> WellFormed(r) && |r.keys| <= |dict.keys| + 1
    ensures ParseSongFile(name).Some? ==>
      SongVideoId(name) in r.records && r.records[SongVideoId(name)] == ParseSongFile(name).value
    ensures forall k :: k != SongVideoId(name) ==>
      (k in r.records <==> k in dict.records) && (k in dict.records ==> r.records[k] == dict.records[k])
  {
    match ParseSongFile(name)
    case None => dict
    case Some(rec) => Put(dict, SongVideoId(name), rec)
  }

  /** The dictionary the loop has built after visiting `names` in order. */
  function BuildIndex(names: seq<string>): (r: SongFileDict)
    ensures WellFormed(r) && |r.keys| <= |names|
  {
    if names == [] then EMPTY
    else AddFile(BuildIndex(names[..|names| - 1]), names[|names| - 1])
  }

  /** `get_song_file_dict` over a directory whose listing is `listing`. */
  function SongFileDictOf(listing: seq<string>): (r: SongFileDict)
    ensures WellFormed(r) && |r.keys| <= |listing|
  {
    BuildIndex(Mp3Files(listing))
  }

  /** The loop of `get_song_file_dict` (lines 124-141). */
  method GetSongFileDict(listing: seq<string>) returns (dict: SongFileDict)
    ensures dict == SongFileDictOf(listing)
  {
    var fileNames := Mp3Files(listing);
    dict := EMPTY;
    var i := 0;
    while i < |fileNames|
      invariant 0 <= i <= |fileNames|
      invariant dict == BuildIndex(fileNames[..i])
    {
      var fileName := fileNames[i];
      assert fileNames[..i + 1][..i] == fileNames[..i];
      var parsed := ParseSongFile(fileName);
      if parsed.None? {
        i := i + 1;
        continue;
      }
      dict := Put(dict, SongVideoId(fileName), parsed.value);
      i := i + 1;
    }
    assert fileNames[..i] == fileNames;
  }

  // ---------------------------------------------------------------------
  // What the index holds

  /** A key is present exactly when some listed name parses and is keyed by it. */
  lemma {:induction false} BuildIndexDomain(names: seq<string>, key: string)
    ensures key in BuildIndex(names).records <==> exists j :: 0 <= j < |names| && HasKey(names[j], key)
  {
    if names != [] {
      var prefix := names[..|names| - 1];
      BuildIndexDomain(prefix, key);
      assert forall j :: 0 <= j < |prefix| ==> prefix[j] == names[j];
      if key in BuildIndex(names).records && !HasKey(names[|names| - 1], key) {
        var j :| 0 <= j < |prefix| && HasKey(prefix[j], key);
        assert HasKey(names[j], key);
      }
    }
  }

  /** The record for a key is the one parsed from the LAST listed name keyed by it. */
  lemma {:induction false} BuildIndexLastWins(names: seq<string>, key: string, j: nat)
    requires j < |names| && HasKey(names[j], key)
    requires forall j' :: j < j' < |names| ==> !HasKey(names[j'], key)
    ensures key in BuildIndex(names).records
    ensures BuildIndex(names).records[key] == ParseSongFile(names[j]).value
  {
    if j < |names| - 1 {
      var prefix := names[..|names| - 1];
      assert forall j' :: j < j' < |prefix| ==> prefix[j'] == names[j'];
      BuildIndexLastWins(prefix, key, j);
    }
  }

  /** Each record names a listed file that parses back to that very record under that key. */
  lemma {:induction false} BuildIndexRecordOrigin(names: seq<string>, key: string)
    requires key in BuildIndex(names).records
    ensures var rec := BuildIndex(names).records[key];
      rec.filePath in names && ParseSongFile(rec.filePath) == Some(rec)
      && SongVideoId(rec.filePath) == key
  {
    var prefix := names[..|names| - 1];
    var last := names[|names| - 1];
    if !HasKey(last, key) {
      BuildIndexRecordOrigin(prefix, key);
      assert BuildIndex(prefix).records[key].filePath in names;
    }
  }

  /** Over a directory listing: every record is an mp3 file of the listing, keyed by its id slice. */
  lemma SongFileDictOfRecords(listing: seq<string>, key: string)
    requires key in SongFileDictOf(listing).records
    ensures var rec := SongFileDictOf(listing).records[key];
      rec.filePath in listing && IsMp3(rec.filePath)
      && ParseSongFile(rec.filePath) == Some(rec) && SongVideoId(rec.filePath) == key
  {
    BuildIndexRecordOrigin(Mp3Files(listing), key);
  }

  /** The filter keeps listing order: filtering a concatenation concatenates the filtered parts. */
  lemma {:induction false} Mp3FilesAppend(a: seq<string>, b: seq<string>)
    ensures Mp3Files(a + b) == Mp3Files(a) + Mp3Files(b)
  {
    if a == [] {
      assert a + b == b;
    } else {
      assert (a + b)[0] == a[0];
      assert (a + b)[1..] == a[1..] + b;
      Mp3FilesAppend(a[1..], b);
      if IsMp3(a[0]) {
        assert Mp3Files(a + b) == [a[0]] + (Mp3Files(a[1..]) + Mp3Files(b));
        assert Mp3Files(a) == [a[0]] + Mp3Files(a[1..]);
      }
    }
  }

  /**
   * Over a directory listing: the record for a key comes from the mp3 name
   * with that key that `os.listdir` lists last.
   */
  lemma SongFileDictOfLastWins(listing: seq<string>, key: string, j: nat)
    requires j < |listing| && IsMp3(listing[j]) && HasKey(listing[j], key)
    requires forall j' :: j < j' < |listing| && IsMp3(listing[j']) ==> !HasKey(listing[j'], key)
    ensures key in SongFileDictOf(listing).records
    ensures SongFileDictOf(listing).records[key] == ParseSongFile(listing[j]).value
  {
    var before, after := listing[..j], listing[j + 1..];
    assert listing == before + ([listing[j]] + after);
    Mp3FilesAppend(before, [listing[j]] + after);
    Mp3FilesAppend([listing[j]], after);
    assert Mp3Files([listing[j]]) == [listing[j]];
    var names := Mp3Files(listing);
    var at := |Mp3Files(before)|;
    assert names == Mp3Files(before) + [listing[j]] + Mp3Files(after);
    forall j' | at < j' < |names| ensures !HasKey(names[j'], key) {
      var n := names[j'];
      assert n == Mp3Files(after)[j' - at - 1];
      assert n in after && IsMp3(n);
      var k :| 0 <= k < |after| && after[k] == n;
      assert listing[j + 1 + k] == n;
    }
    BuildIndexLastWins(names, key, at);
  }

  // ---------------------------------------------------------------------
  // Names the program writes parse back

  /**
   * A renamed file `"{k}. {song_name}"` parses to track `k` and the same song
   * name; when the song name has at least 15 characters the id slice, and
   * with it the key, is unchanged.
   */
  lemma TrackFileNameParses(k: nat, songName: string)
    ensures ParseSongFile(TrackFileName(k, songName)) == Some(SongFile(songName, k, TrackFileName(k, songName)))
    ensures |songName| >= 15 ==> SongVideoId(TrackFileName(k, songName)) == SongVideoId(songName)
    ensures |songName| >= 4 ==> (IsMp3(TrackFileName(k, songName)) <==> IsMp3(songName))
  {
    var prefix := NatToString(k) + ". ";
    NumberedNameParses(NatToString(k), songName);
    assert TrackFileName(k, songName) == prefix + songName;
    if |songName| >= 15 {
      SongVideoIdOfSuffix(prefix, songName);
    }
    if |songName| >= 4 {
      Mp3OfSuffix(prefix, songName);
    }
  }

  /**
   * Renaming an indexed file to `"{k}. {song_name}"` (lines 176-183 and
   * 219-223) keeps its key when the song name has at least 15 characters,
   * and the new name is indexed with track `k`.
   */
  lemma RenameKeepsKey(name: string, k: nat)
    requires IsMp3(name) && ParseSongFile(name).Some?
    requires |ParseSongFile(name).value.songName| >= 15
    ensures var songName := ParseSongFile(name).value.songName;
      var renamed := TrackFileName(k, songName);
      IsMp3(renamed) && SongVideoId(renamed) == SongVideoId(name)
      && ParseSongFile(renamed) == Some(SongFile(songName, k, renamed))
  {
    var songName := StripTrackPrefix(name);
    StripTrackPrefixSuffix(name);
    var head := name[..|name| - |songName|];
    assert name == head + songName;
    SongVideoIdOfSuffix(head, songName);
    assert songName[|songName| - 4..] == name[|name| - 4..];
    TrackFileNameParses(k, songName);
  }

  /**
   * A name with a zero in front of its number, `"0{k}. {song_name}"`, parses
   * to the same song name and track `k`, and the same key.
   */
  lemma ZeroPaddedNameParses(k: nat, songName: string)
    requires |songName| >= 15
    ensures var name := "0" + TrackFileName(k, songName);
      ParseSongFile(name) == Some(SongFile(songName, k, name))
      && SongVideoId(name) == SongVideoId(songName)
  {
    var digits := "0" + NatToString(k);
    LeadingZeroValue(NatToString(k));
    NumberedNameParses(digits, songName);
    assert "0" + TrackFileName(k, songName) == (digits + ". ") + songName;
    SongVideoIdOfSuffix(digits + ". ", songName);
  }

  /** `"{digits}. {song_name}"` parses to that song name and the digits' value. */
  lemma NumberedNameParses(digits: string, songName: string)
    requires |digits| >= 1 && AllDigits(digits)
    ensures ParseSongFile((digits + ". ") + songName)
      == Some(SongFile(songName, DigitsValue(digits), (digits + ". ") + songName))
  {
    NumberedNameSplits(digits, songName);
  }

  /**
   * The download template of line 106 is the inverse of the parse: the name
   * `"{n}. {title}-{id}.mp3"` is an mp3 indexed under `id` with track `n`.
   */
  lemma TemplateNameParses(n: nat, title: string, id: string)
    requires |id| == 11
    ensures var name := TemplateName(n, title, id);
      IsMp3(name) && HasKey(name, id)
      && ParseSongFile(name) == Some(SongFile(title + "-" + id + ".mp3", n, name))
  {
    var songName := title + "-" + id + ".mp3";
    TrackFileNameParses(n, songName);
    assert songName[|songName| - 15..|songName| - 4] == id;
    assert songName[|songName| - 4..] == ".mp3";
  }
}

# YouTube Music Playlist Downloader — a Dafny model of the album sync

The program keeps a local "album" directory of mp3 files in step with a
YouTube playlist. Each song file is named `"{n}. {title}-{id}.mp3"`: `n` is
its position in the playlist and `id` is the 11-character video id. One run of
`generate_playlist` does three things:

- It indexes the mp3 files already in the directory by the id slice of their
  names (`get_song_file_dict`).
- It walks the playlist. Entry `i` (0-based) gets number `i + 1`. A song that
  is already on disk under another number is retagged and renamed. A missing
  song is downloaded under its number. Missing metadata is filled in.
- It moves the songs that are no longer in the playlist to the end of the
  album, numbering them consecutively after the last playlist position.

The model is built in six files:

- `sequences.dfy` holds `Option` and the list operations the others share:
  removing an element, replacing one in place, and keeping a list free of
  repeats.
- `naming.dfy` holds the string rules:
  - the file-name sanitiser;
  - `str(n)` and the value of a leading digit run;
  - Python's slice with negative bounds;
  - the regex substitution `^[0-9]+. `, backtracking included;
  - the names the program writes.
- `song_index.dfy` holds the index. It is a Python dict kept with its
  insertion order. The loop of `get_song_file_dict` is an imperative method
  proved equal to a fold over the listing.
- `playlist.dfy` holds the sync pass:
  - The directory is a class `Album`. Its fields are the files with their tags
    and the `os.listdir` order.
  - The methods of `Album` update those fields in place.
  - `GeneratePlaylist` has two loops. It is proved equal to `Sync`, a function
    composed of one `Step` per entry followed by the orphan moves.
- `playlist_properties.dfy` proves what one pass guarantees, stated about
  those functions.
- `prompt.dfy` models the two y/n questions of the interactive loop.

Some facts about the code shape the model:

- An exception that escapes `generate_playlist` ends the pass. The files it
  has already renamed or retagged stay that way. The model writes this as
  `Stopped` or `Halted` carrying the directory at that moment. Outside the
  `try` of lines 191-202 this happens in three ways:
  - `update_track_num` is called on a missing path (lines 182 and 222);
  - `generate_metadata` at line 186 is called on a missing path;
  - `generate_metadata` at line 186 is called on a file without a title tag,
    and the fetch of the video info fails.
  `os.rename` never raises here: it runs only after `update_track_num`
  succeeded on the same path. `PresentStepStopsExactly` states when a song on
  disk stops the pass. Inside the `try`, every exception is caught and the
  walk goes on.
- The pass has no skip counter and never renumbers later songs:
  - a failed download leaves a gap at its number;
  - ids come from the file name, not from a tag;
  - two files with the same id are not an error: the one listed last wins.
- A song on disk whose number is already right but whose name is not canonical
  (for example `"01. x-<id>.mp3"`) is not renamed. Line 186 then asks for the
  metadata of `"1. x-<id>.mp3"`, which does not exist, so the whole pass
  stops. `PresentUnderOtherNameStops` and `ZeroPaddedAlbumHalts` prove this.
- The second question shows "(Y/n)", which suggests that an empty reply means
  yes, but its code rejects an empty reply. The first question treats an empty
  reply as "no". The model keeps both as written.

## Model

| member | source | states |
|---|---|---|
| Naming.FormatFileName | youtube_music_playlist_downloader.py:121-122 | keeps the length; each of the nine reserved characters (backslash, slash, colon, star, question mark, double quote, angle brackets, vertical bar) becomes `_` and every other character is unchanged; the result holds none of them |
| Naming.FormatFileNameIdempotent | youtube_music_playlist_downloader.py:121-122 | sanitising twice equals sanitising once |
| Naming.FormatFileNameFixpoint | youtube_music_playlist_downloader.py:121-122 | a name is left unchanged if and only if it holds no reserved character |
| Naming.NatToString | youtube_music_playlist_downloader.py:176 | `str(n)` is a non-empty digit string whose value is `n` and which has no leading zero unless `n` is 0 |
| Naming.LeadingDigitCount | youtube_music_playlist_downloader.py:131 | the greedy match of `^[0-9]+`: a digit prefix that is followed by a non-digit or by the end of the name |
| Naming.LeadingDigitCountOfPrefix | youtube_music_playlist_downloader.py:131 | a digit string followed by a non-digit is exactly the leading run |
| Naming.LeadingZeroValue | youtube_music_playlist_downloader.py:131 | `int()` ignores a leading zero |
| Naming.DigitsValueZero | youtube_music_playlist_downloader.py:131 | `DigitsValue`, the model of `int()` on a digit run, is zero if and only if every digit is a zero |
| Naming.PySlice | youtube_music_playlist_downloader.py:129 | Python's `s[lo:hi]` never fails and is never longer than `s`; with bounds inside the string it is the plain slice, for non-negative bounds and for negative ones counted from the end |
| Naming.SongVideoId | youtube_music_playlist_downloader.py:129 | `name[-15:-4]` is the 11 characters before the last four when the name has at least 15 characters, and shorter otherwise |
| Naming.DigitPrefixWithinRun | youtube_music_playlist_downloader.py:131 | any all-digit prefix of a name lies within its leading run |
| Naming.RunStopsAtNonDigit | youtube_music_playlist_downloader.py:131 | the leading run ends no later than the first non-digit |
| Naming.Mp3OfSuffix | youtube_music_playlist_downloader.py:125 | `IsMp3`, the `endswith(".mp3")` test, depends only on the last four characters |
| Naming.SongVideoIdOfSuffix | youtube_music_playlist_downloader.py:129 | the id slice depends only on the last 15 characters |
| Naming.StripTrackPrefixIsRegex | youtube_music_playlist_downloader.py:130 | the substitution removes the longest match of "digits, one non-newline character, space", and removes nothing when no split matches |
| Naming.StripTrackPrefix | youtube_music_playlist_downloader.py:130 | the substitution never lengthens a name, and it changes only a name that starts with a digit, removing at least three characters |
| Naming.StripTrackPrefixSuffix | youtube_music_playlist_downloader.py:130 | what remains is a suffix of the name |
| Naming.NumberedNameSplits | youtube_music_playlist_downloader.py:130-131 | in `"{digits}. {song}"` the leading run is exactly `digits` and the substitution gives back `song` |
| Naming.TrackFileNameDigits | youtube_music_playlist_downloader.py:176 | `TrackFileName`, the name `"{k}. {song}"` of lines 176 and 219: its leading run is `str(k)`, its value is `k`, and stripping gives back `song` |
| Naming.TemplateName | youtube_music_playlist_downloader.py:106 | the download template, once the audio is mp3, names an mp3 file whose id slice is the video id when that id has 11 characters |
| SongIndex.Put | youtube_music_playlist_downloader.py:136-140 | dict assignment: the new record is stored; a new key is appended to the key order; an existing key keeps its place |
| SongIndex.ParseSongFile | youtube_music_playlist_downloader.py:129-135 | a name is skipped (the `except` and `continue` of lines 132-135) if and only if it does not start with a digit; a parsed record keeps the name as its path and a song name no longer than it |
| SongIndex.Mp3Files | youtube_music_playlist_downloader.py:125 | exactly the listed names that end in ".mp3", never more names than listed |
| SongIndex.Mp3FilesAppend | youtube_music_playlist_downloader.py:125 | the comprehension keeps listing order: filtering two lists one after the other gives the two filtered lists one after the other |
| SongIndex.AddFile | youtube_music_playlist_downloader.py:127-140 | one iteration keeps the dict well formed and adds at most one key; a parsed name stores its record under its id slice; every other key keeps its record |
| SongIndex.BuildIndex | youtube_music_playlist_downloader.py:126-140 | each key occurs once in the key order, the key order lists exactly the keys, and there are no more keys than names |
| SongIndex.SongFileDictOf | youtube_music_playlist_downloader.py:124-141 | the dict of a directory is well formed and has no more keys than the listing has names |
| SongIndex.GetSongFileDict | youtube_music_playlist_downloader.py:124-141 | the loop, with its `continue` for unparsable names, builds the fold `SongFileDictOf` of the mp3 names in listing order |
| SongIndex.BuildIndexDomain | youtube_music_playlist_downloader.py:127-140 | a key is present if and only if some listed name has a leading digit run and that id slice |
| SongIndex.BuildIndexLastWins | youtube_music_playlist_downloader.py:136-140 | the record for a key is the one parsed from the last listed name with that key |
| SongIndex.BuildIndexRecordOrigin | youtube_music_playlist_downloader.py:136-140 | each record names a listed file that parses back to that very record under its key |
| SongIndex.SongFileDictOfRecords | youtube_music_playlist_downloader.py:124-141 | every record of the index is an mp3 file of the directory that parses to itself under its key |
| SongIndex.SongFileDictOfLastWins | youtube_music_playlist_downloader.py:124-141 | over a directory listing, the record for a key is the one parsed from the mp3 name with that key that is listed last |
| SongIndex.TrackFileNameParses | youtube_music_playlist_downloader.py:176 | `"{k}. {song}"` parses to song `song` with track `k`; the key and the ".mp3" ending carry over from `song` |
| SongIndex.RenameKeepsKey | youtube_music_playlist_downloader.py:176-183 | renaming an indexed mp3 whose song name has at least 15 characters to `"{k}. {song}"` keeps the key, and the new name is an mp3 with track `k` |
| SongIndex.NumberedNameParses | youtube_music_playlist_downloader.py:129-131 | `"{digits}. {song}"` parses to song `song` with the digits' value as its track |
| SongIndex.ZeroPaddedNameParses | youtube_music_playlist_downloader.py:129-131 | `"0{k}. {song}"` parses to the same song, track `k` and key as `"{k}. {song}"` |
| SongIndex.TemplateNameParses | youtube_music_playlist_downloader.py:106 | the download name `"{n}. {title}-{id}.mp3"` with an 11-character id is an mp3 indexed under `id`, with track `n` and song name `"{title}-{id}.mp3"` |
| Playlist.Retag | youtube_music_playlist_downloader.py:54-58 | writing TRCK keeps the directory well formed |
| Playlist.Rename | youtube_music_playlist_downloader.py:183 | `dst` gets the content of `src`; `src` is gone; every other name is unchanged; the listing stays free of repeats |
| Playlist.Save | youtube_music_playlist_downloader.py:104-119 | a file written by a download keeps the directory well formed |
| Playlist.AfterDownload | youtube_music_playlist_downloader.py:194 | a download keeps the directory well formed |
| Playlist.Metadata | youtube_music_playlist_downloader.py:60-102 | succeeds if and only if the file exists and either has a title already or the fetch succeeds |
| Playlist.Step | youtube_music_playlist_downloader.py:161-202 | one entry keeps the directory and the index well formed, and a step that goes on appends the entry id to the recorded ids |
| Playlist.WalkFrom | youtube_music_playlist_downloader.py:161-202 | the walk keeps the directory and the index well formed |
| Playlist.OrphanMovesFrom | youtube_music_playlist_downloader.py:205-215 | there are no more orphan moves than index keys from position `j` on; each move's id is a key of the index that is not among the ids seen, and it carries that key's record |
| Playlist.ApplyMove | youtube_music_playlist_downloader.py:206-224 | one orphan move keeps the directory well formed |
| Playlist.ApplyMoves | youtube_music_playlist_downloader.py:206-224 | the orphan loop keeps the directory well formed |
| Playlist.Sync | youtube_music_playlist_downloader.py:143-226 | a pass keeps the directory well formed |
| Playlist.Album.constructor | youtube_music_playlist_downloader.py:154 | the album object holds the given directory |
| Playlist.Album.ListDir | youtube_music_playlist_downloader.py:125 | lists each file once, in directory order |
| Playlist.Album.UpdateTrackNum | youtube_music_playlist_downloader.py:54-58 | fails exactly when the file is missing; otherwise only that file's TRCK changes |
| Playlist.Album.RenameFile | youtube_music_playlist_downloader.py:183 | the new state is the POSIX rename of the old one |
| Playlist.Album.GenerateMetadata | youtube_music_playlist_downloader.py:60-102 | fails exactly when `Metadata` says so and leaves the state unchanged then; otherwise the state is `Metadata`'s result |
| Playlist.Album.DownloadVideo | youtube_music_playlist_downloader.py:104-119 | raises exactly for a raising download; otherwise the state is the directory after the download |
| Playlist.Album.WalkEntry | youtube_music_playlist_downloader.py:161-202 | the body of the walk performs `Step` on the album, stopping exactly when `Step` stops |
| Playlist.Album.MoveOrphans | youtube_music_playlist_downloader.py:204-224 | the counter loop performs the orphan moves and reports whether one of them raised |
| Playlist.Album.GeneratePlaylist | youtube_music_playlist_downloader.py:143-226 | with no "entries" the album is untouched and the result is an error; otherwise the new album state is `Sync` of the old one, and the pass reports `Aborted` exactly when `Sync` halts |
| PlaylistProperties.IdsCons | youtube_music_playlist_downloader.py:166 | the recorded ids of a suffix of the playlist are its first id followed by the ids of the rest |
| PlaylistProperties.WalkFromRunning | youtube_music_playlist_downloader.py:161-166 | a step that goes on hands the rest of the walk its new state |
| PlaylistProperties.StepKeepsPlacedSong | youtube_music_playlist_downloader.py:176-186 | a song whose recorded number is already `i+1` is not renamed; only the file `"{i+1}. {song}"` may get metadata |
| PlaylistProperties.StepRenamesMisplacedSong | youtube_music_playlist_downloader.py:176-186 | a song with another recorded number is retagged and renamed to `"{i+1}. {song}"`; its old name is gone and no other file changes |
| PlaylistProperties.StepRenamesOnlyWhenNeeded | youtube_music_playlist_downloader.py:169-186 | a song on disk is renamed to `"{i+1}. {song}"` and tagged `i+1` if and only if its recorded number differs from `i+1`; then its old name is gone, it keeps its title tag unless metadata is written for it, and every other file is unchanged; otherwise no file is renamed or removed and only the target file may be changed; the index is kept and the id is recorded |
| PlaylistProperties.StepWritesOnlyItsNumber | youtube_music_playlist_downloader.py:161-202 | every file that the step for entry `i` adds or changes carries number `i+1`, in its tag or in its name |
| PlaylistProperties.PresentStepWritesOnlyItsNumber | youtube_music_playlist_downloader.py:169-186 | the branch for a song on disk writes no number but `i+1` |
| PlaylistProperties.DownloadStepWritesOnlyItsNumber | youtube_music_playlist_downloader.py:190-202 | the download branch writes no number but `i+1`: the new file's name starts with it and its metadata carries it |
| PlaylistProperties.MetadataKeepsWritesOnlyNumber | youtube_music_playlist_downloader.py:186 | a `generate_metadata` call for number `n` after changes that wrote only `n` still writes only `n` |
| PlaylistProperties.MetadataWritesOnlyItsNumber | youtube_music_playlist_downloader.py:60-102 | `generate_metadata` keeps the listing and changes tags only to the given track |
| PlaylistProperties.DownloadBranchNeverHalts | youtube_music_playlist_downloader.py:190-202 | a missing song never ends the pass; a raising download changes nothing but the recorded ids, so the next entry still gets its own number |
| PlaylistProperties.WalkSeesEveryEntry | youtube_music_playlist_downloader.py:161-166 | a walk that runs to the end has recorded every entry id in playlist order |
| PlaylistProperties.PresentUnderOtherNameStops | youtube_music_playlist_downloader.py:176-186 | a song at the right number whose canonical name does not exist stops the pass at line 186 without changing anything |
| PlaylistProperties.PresentStepStopsExactly | youtube_music_playlist_downloader.py:176-186 | a song on disk stops the pass if and only if the file that is retagged (wrong number) or asked about at line 186 (right number) is missing, or has no title while the fetch fails |
| PlaylistProperties.ZeroPaddedIndex | youtube_music_playlist_downloader.py:124-141 | a directory holding only `"0{1}. {song}"` is indexed as one key, the id slice of `song`, with track 1 |
| PlaylistProperties.ZeroPaddedAlbumHalts | youtube_music_playlist_downloader.py:169-186 | an album holding only `"0{1}. {song}"` is indexed with track 1, and a pass over the one-entry playlist of that id halts with the album unchanged |
| PlaylistProperties.OrphanMovesNumbering | youtube_music_playlist_downloader.py:204-224 | the orphans are the index keys not among the entry ids, in key order, each with its index record |
| PlaylistProperties.OrphanMovesTracks | youtube_music_playlist_downloader.py:205-224 | the counter numbers the orphans consecutively from its start value, also past orphans that are left alone |
| PlaylistProperties.AssignedNumbersDistinct | youtube_music_playlist_downloader.py:161-224 | all numbers handed out in one pass are pairwise distinct, and every orphan's number exceeds the entry count |
| PlaylistProperties.OrphanMoveRenamesOnlyWhenNeeded | youtube_music_playlist_downloader.py:213-223 | an orphan already at its number is left alone; any other is renamed to `"{n}. {song}"` and tagged `n`, keeps its title tag, its old name is gone, and every other file is unchanged |
| PlaylistProperties.StepInPlaceChangesNothing | youtube_music_playlist_downloader.py:169-186 | a song at its number, under its canonical name, with a title, is only recorded |
| PlaylistProperties.WalkInPlaceChangesNothing | youtube_music_playlist_downloader.py:161-202 | a walk over songs that are all in place changes nothing and records every id |
| PlaylistProperties.MovesInPlaceChangeNothing | youtube_music_playlist_downloader.py:206-224 | orphans that are all at their numbers are left alone |
| PlaylistProperties.SyncInPlaceChangesNothing | youtube_music_playlist_downloader.py:143-226 | idempotence: over a tidy album (every entry at its number under its canonical name with a title, every orphan at its number) a pass completes and leaves the directory exactly as it was |
| Prompt.LowerChar | youtube_music_playlist_downloader.py:253 | in this model, a character lowers to a lower-case ASCII letter only from itself or from its upper-case ASCII form |
| Prompt.Lower | youtube_music_playlist_downloader.py:253 | `.lower()` lowers each character and keeps the length |
| Prompt.Answer | youtube_music_playlist_downloader.py:252-272 | an accepted reply has at most one character; to the playlist-name question only a one-character reply is accepted |
| Prompt.AnswerCases | youtube_music_playlist_downloader.py:252-272 | "y" or "Y" means yes; "n" or "N" means no; to the reverse question an empty reply also means no; every other reply is rejected |
| Prompt.Ask | youtube_music_playlist_downloader.py:252-272 | the question is repeated until the first accepted reply, which gives the answer; all earlier replies were rejected |

## Left out

- Fetching the playlist (`getPlaylistInfo`, lines 36-47) and the video info in `generate_metadata` make network calls through yt-dlp. Each `Entry` carries instead what its download does and whether its metadata fetch succeeds; the playlist is given already in its final order, so the `playlistreverse` option is not modelled.
- The real download (`download_video`, lines 104-119) is replaced by its effect: it raises, or it returns having saved either nothing or one file named by the output template. Nothing else about yt-dlp or ffmpeg is modelled.
- Playlist.Metadata: ID3 tags are reduced to whether TIT2 is present and the TRCK number. The artist, album and cover frames, the thumbnail cropping (lines 49-52 and 81-90) and the `playlist_to_name` choice of album name are not modelled. Every mp3 is assumed to have an ID3 header, so `ID3(path)` raises only for a missing file.
- Playlist.Metadata: a successful call writes the title and the track in one step. A failure partway through the tagging is not modelled.
- The album directory is `format_file_name` of the title, created by `mkdir` (lines 150-154). The model works inside that one directory and keeps file names relative to it, so `os.path.join` is not modelled.
- `os.listdir` order is chosen by the operating system. The model fixes one order: a new file is appended, a renamed file keeps its place, and a file replaced by a rename loses its place.
- `os.rename` follows POSIX, where an existing target is replaced. On Windows the call raises instead.
- Printing, `print_errors`, `check_ffmpeg` (lines 21-34), the outer interactive loop with its exception handlers and the URL prompt are not modelled. Only the y/n replies are.
- Prompt.LowerChar, Prompt.Lower: only ASCII letters are lowered. Python's Unicode `.lower()` also maps some other characters to ASCII letters (KELVIN SIGN U+212A to "k", for one), but none of them to "y" or "n", so the answers are the same.
- Prompt.Ask: it reads from a finite list of replies. When every one of them is rejected, it answers None, whereas the program would keep asking.
- An entry without an "id" key (a `KeyError` at line 163) is not modelled: every entry has an id.
- The helper scripts `download_single.py`, `1.2.0_updater.py` and `build.py` are not part of this model.

/**
 * String-level pieces of the downloader's file naming: the file-name
 * sanitiser, decimal track numbers, Python's slice with negative bounds,
 * the `^[0-9]+. ` prefix that is stripped to recover a song name, and the
 * two name shapes the program writes.
 */
module Naming {

  /** The characters `format_file_name` replaces: \ / : * ? " < > | */
  predicate IsReserved(c: char) {
    c == '\\' || c == '/' || c == ':' || c == '*' || c == '?'
    || c == '"' || c == '<' || c == '>' || c == '|'
  }

  /** `re.sub(r"[\\/:*?\"<>|]", "_", s)`: every reserved character becomes `_`. */
  function FormatFileName(s: string): (r: string)
    ensures |r| == |s|
    ensures forall i :: 0 <= i < |s| ==> r[i] == (if IsReserved(s[i]) then '_' else s[i])
    ensures forall i :: 0 <= i < |r| ==> !IsReserved(r[i])
  {
    if s == [] then []
    else [if IsReserved(s[0]) then '_' else s[0]] + FormatFileName(s[1..])
  }

  /** Sanitising is idempotent. */
  lemma FormatFileNameIdempotent(s: string)
    ensures FormatFileName(FormatFileName(s)) == FormatFileName(s)
  {
    var r := FormatFileName(s);
    assert forall i :: 0 <= i < |r| ==> FormatFileName(r)[i] == r[i];
  }

  /** A name is left alone exactly when it holds no reserved character. */
  lemma FormatFileNameFixpoint(s: string)
    ensures FormatFileName(s) == s <==> forall i :: 0 <= i < |s| ==> !IsReserved(s[i])
  {
    if forall i :: 0 <= i < |s| ==> !IsReserved(s[i]) {
      assert forall i :: 0 <= i < |s| ==> FormatFileName(s)[i] == s[i];
    }
  }

  // ---------------------------------------------------------------------
  // Decimal numbers

  /** The class `[0-9]` of a Python `str` pattern: ASCII digits only. */
  predicate IsDigit(c: char) {
    '0' <= c <= '9'
  }

  predicate AllDigits(s: string) {
    forall i :: 0 <= i < |s| ==> IsDigit(s[i])
  }

  function DigitChar(d: nat): (c: char)
    requires d < 10
    ensures IsDigit(c) && c as int - '0' as int == d
  {
    "0123456789"[d]
  }

  /** Python `int(s)` on a non-empty run of ASCII digits. */
  function DigitsValue(s: string): nat
    requires AllDigits(s)
  {
    if s == [] then 0
    else 10 * DigitsValue(s[..|s| - 1]) + (s[|s| - 1] as int - '0' as int)
  }

  /** `int(s)` is zero exactly when every digit of `s` is a zero. */
  lemma {:induction false} DigitsValueZero(s: string)
    requires AllDigits(s)
    ensures DigitsValue(s) == 0 <==> forall i :: 0 <= i < |s| ==> s[i] == '0'
  {
    if s != [] {
      var prefix := s[..|s| - 1];
      assert forall i :: 0 <= i < |prefix| ==> prefix[i] == s[i];
      DigitsValueZero(prefix);
    }
  }

  /** Python `str(n)` for a non-negative integer: its decimal digits, no leading zero. */
  function NatToString(n: nat): (r: string)
    ensures |r| >= 1 && AllDigits(r)
    ensures DigitsValue(r) == n
    ensures r[0] == '0' ==> n == 0
  {
    if n < 10 then [DigitChar(n)]
    else
      var prefix := NatToString(n / 10);
      assert (prefix + [DigitChar(n % 10)])[..|prefix|] == prefix;
      prefix + [DigitChar(n % 10)]
  }

  /** A leading zero does not change the value: `int("0" + s) == int(s)`. */
  lemma {:induction false} LeadingZeroValue(s: string)
    requires AllDigits(s)
    ensures AllDigits("0" + s) && DigitsValue("0" + s) == DigitsValue(s)
  {
    var z := "0" + s;
    assert forall i :: 1 <= i < |z| ==> z[i] == s[i - 1];
    if s != [] {
      assert z[..|z| - 1] == "0" + s[..|s| - 1];
      LeadingZeroValue(s[..|s| - 1]);
    } else {
      assert z[..0] == [];
    }
  }

  /** Length of the longest run of digits at the start of `s` (what `^[0-9]+` matches greedily). */
  function LeadingDigitCount(s: string): (n: nat)
    ensures n <= |s|
    ensures AllDigits(s[..n])
    ensures n < |s| ==> !IsDigit(s[n])
  {
    if s != [] && IsDigit(s[0]) then
      var rest := LeadingDigitCount(s[1..]);
      assert s[..1 + rest] == [s[0]] + s[1..][..rest];
      1 + rest
    else 0
  }

  /** The leading digit run of `p + s` is `p` when `p` is all digits and `s` does not start with one. */
  lemma {:induction false} LeadingDigitCountOfPrefix(p: string, s: string)
    requires AllDigits(p)
    requires s != [] && !IsDigit(s[0])
    ensures LeadingDigitCount(p + s) == |p|
  {
    if p != [] {
      assert (p + s)[1..] == p[1..] + s;
      LeadingDigitCountOfPrefix(p[1..], s);
    }
  }

  /** A prefix of digits lies within the leading run. */
  lemma {:induction false} DigitPrefixWithinRun(s: string, j: nat)
    requires j <= |s| && AllDigits(s[..j])
    ensures j <= LeadingDigitCount(s)
  {
    if j > 0 {
      assert s[..j][0] == s[0];
      assert s[1..][..j - 1] == s[..j][1..];
      DigitPrefixWithinRun(s[1..], j - 1);
    }
  }

  /** The leading run ends no later than the first non-digit. */
  lemma {:induction false} RunStopsAtNonDigit(s: string, k: nat)
    requires k < |s| && !IsDigit(s[k])
    ensures LeadingDigitCount(s) <= k
  {
    if k > 0 && IsDigit(s[0]) {
      RunStopsAtNonDigit(s[1..], k - 1);
    }
  }

  // ---------------------------------------------------------------------
  // Python slicing

  /** Python's normalisation of a slice bound `x` against length `n`. */
  function SliceBound(x: int, n: nat): (b: nat)
    ensures b <= n
  {
    if x < 0 then (if x + n < 0 then 0 else x + n) else (if x > n then n else x)
  }

  /** Python `s[lo:hi]` (step 1): never fails, empty when the bounds cross. */
  function PySlice(s: string, lo: int, hi: int): (r: string)
    ensures |r| <= |s|
    ensures 0 <= lo <= hi <= |s| ==> r == s[lo..hi]
    ensures -|s| <= lo <= hi < 0 ==> r == s[|s| + lo..|s| + hi]
  {
    var a, b := SliceBound(lo, |s|), SliceBound(hi, |s|);
    if a < b then s[a..b] else []
  }

  /** `name[-15:-4]`, the 11-character video id in front of ".mp3". */
  function SongVideoId(name: string): (id: string)
    ensures |name| >= 15 ==> id == name[|name| - 15..|name| - 4] && |id| == 11
    ensures |name| < 15 ==> |id| < 11
  {
    PySlice(name, -15, -4)
  }

  /** The id slice only looks at the last 15 characters. */
  lemma SongVideoIdOfSuffix(prefix: string, s: string)
    requires |s| >= 15
    ensures SongVideoId(prefix + s) == SongVideoId(s)
  {
    var n := prefix + s;
    assert n[|n| - 15..|n| - 4] == s[|s| - 15..|s| - 4];
  }

  predicate IsMp3(name: string) {
    |name| >= 4 && name[|name| - 4..] == ".mp3"
  }

  /** The ".mp3" test only looks at the last four characters. */
  lemma Mp3OfSuffix(prefix: string, s: string)
    requires |s| >= 4
    ensures IsMp3(prefix + s) <==> IsMp3(s)
  {
    var n := prefix + s;
    assert n[|n| - 4..] == s[|s| - 4..];
  }

  // ---------------------------------------------------------------------
  // The `^[0-9]+. ` prefix

  /**
   * The regex `^[0-9]+. ` can match with `[0-9]+` consuming the first `j`
   * characters: those are digits, the next is anything but a newline (`.`),
   * and the one after it is a space.
   */
  predicate PrefixMatch(s: string, j: nat) {
    1 <= j && j + 2 <= |s| && AllDigits(s[..j]) && s[j] != '\n' && s[j + 1] == ' '
  }

  /**
   * `re.sub(r"^[0-9]+. ", "", s)`. The greedy digit run is tried first; on
   * failure the engine backs off one digit, letting `.` take the last digit.
   * Backing off further cannot succeed (a digit is never a space).
   */
  function StripTrackPrefix(s: string): (r: string)
    ensures |r| <= |s|
    ensures r != s ==> |r| + 3 <= |s| && IsDigit(s[0])
  {
    var d := LeadingDigitCount(s);
    if d >= 1 && d + 1 < |s| && s[d] != '\n' && s[d + 1] == ' ' then s[d + 2..]
    else if d >= 2 && d < |s| && s[d] == ' ' then s[d + 1..]
    else s
  }

  /**
   * StripTrackPrefix agrees with the regex's meaning: when some split of the
   * prefix matches, the longest digit run that matches is removed together
   * with the two characters after it; when none matches, nothing is removed.
   */
  lemma StripTrackPrefixIsRegex(s: string)
    ensures (forall j: nat :: !PrefixMatch(s, j)) ==> StripTrackPrefix(s) == s
    ensures forall j: nat :: PrefixMatch(s, j) && (forall j': nat :: PrefixMatch(s, j') ==> j' <= j)
              ==> StripTrackPrefix(s) == s[j + 2..]
  {
    var d := LeadingDigitCount(s);
    forall j: nat | PrefixMatch(s, j) ensures j == d || j + 1 == d {
      DigitPrefixWithinRun(s, j);
      RunStopsAtNonDigit(s, j + 1);
    }
    if d >= 1 && d + 1 < |s| && s[d] != '\n' && s[d + 1] == ' ' {
      assert PrefixMatch(s, d);
    } else if d >= 2 && d < |s| && s[d] == ' ' {
      assert s[..d][d - 1] == s[d - 1];
      assert s[..d - 1] == s[..d][..d - 1];
      assert PrefixMatch(s, d - 1);
    }
  }

  /** What is left after the prefix is a suffix of the name. */
  lemma StripTrackPrefixSuffix(s: string)
    ensures s == s[..|s| - |StripTrackPrefix(s)|] + StripTrackPrefix(s)
  {
  }

  // ---------------------------------------------------------------------
  // Names the program writes

  /** `"{0}. {1}".format(track_num, song_name)` (lines 176 and 219). */
  function TrackFileName(track: nat, songName: string): (r: string)
  {
    NatToString(track) + ". " + songName
  }

  /** The download template `"{track}. %(title)s-%(id)s.%(ext)s"` once audio is extracted to mp3. */
  function TemplateName(track: nat, title: string, id: string): (r: string)
    ensures IsMp3(r)
    ensures |id| == 11 ==> SongVideoId(r) == id
  {
    TrackFileName(track, title + "-" + id + ".mp3")
  }

  /** A name written by TrackFileName has the track's digits as its leading run. */
  lemma TrackFileNameDigits(track: nat, songName: string)
    ensures LeadingDigitCount(TrackFileName(track, songName)) == |NatToString(track)|
    ensures DigitsValue(TrackFileName(track, songName)[..|NatToString(track)|]) == track
    ensures StripTrackPrefix(TrackFileName(track, songName)) == songName
  {
    NumberedNameSplits(NatToString(track), songName);
  }

  /** In `"{digits}. {song_name}"` the leading run is `digits` and stripping gives back the song name. */
  lemma NumberedNameSplits(digits: string, songName: string)
    requires |digits| >= 1 && AllDigits(digits)
    ensures var name := (digits + ". ") + songName;
      && LeadingDigitCount(name) == |digits| && name[..|digits|] == digits
      && StripTrackPrefix(name) == songName
  {
    var name := (digits + ". ") + songName;
    assert name == digits + (". " + songName);
    LeadingDigitCountOfPrefix(digits, ". " + songName);
    assert name[..|digits|] == digits;
    assert name[|digits|] == '.' && name[|digits| + 1] == ' ';
    assert name[|digits| + 2..] == songName;
  }
}

/**
 * The decisions taken by the interactive prompt of `main.py`
 * (`get_user_preferences`): the default download directory, the acceptance
 * of a directory, the channel-URL heuristic, the section and format menus
 * and their re-prompting on invalid answers.
 *
 * The console is not modelled: each prompt loop reads from a script of
 * answers that have already been read and stripped.  An answer to a numeric
 * menu is `Some(n)` when `int()` parses it and `None` when `int()` raises
 * `ValueError`.  A script that runs out before an answer is accepted makes
 * the whole prompt yield `None`.
 */
module Preferences {
  import opened Wrappers
  import opened YdlOptions
  import opened Paths
  import opened ChannelDownload

  // ---------------------------------------------------------------------------
  // The download directory
  // ---------------------------------------------------------------------------

  const DEFAULT_OUTPUT_PATH: string := "./downloads"

  /** An empty answer stands for the default directory; any other answer is kept. */
  function OutputPathOrDefault(entry: string): (path: string)
    ensures path != []
    ensures entry != [] ==> path == entry
    ensures entry == [] ==> path == DEFAULT_OUTPUT_PATH
  {
    if entry == [] then DEFAULT_OUTPUT_PATH else entry
  }

  /**
   * A directory is accepted when it exists or its parent does; both facts
   * come from the file system and are given here as `pathExists` and `parent`.
   */
  predicate OutputPathAccepted(path: string, pathExists: string -> bool, parent: string -> string) {
    pathExists(path) || pathExists(parent(path))
  }

  /**
   * The position of the first directory answer that is accepted, after the
   * default is applied; `|entries|` when none is.
   */
  function FirstPathIndex(entries: seq<string>, pathExists: string -> bool, parent: string -> string): (k: nat)
    ensures k <= |entries|
    ensures k < |entries| ==> OutputPathAccepted(OutputPathOrDefault(entries[k]), pathExists, parent)
    ensures forall j :: 0 <= j < k ==> !OutputPathAccepted(OutputPathOrDefault(entries[j]), pathExists, parent)
    decreases |entries|
  {
    if entries == [] then 0
    else if OutputPathAccepted(OutputPathOrDefault(entries[0]), pathExists, parent) then 0
    else
      var k := 1 + FirstPathIndex(entries[1..], pathExists, parent);
      assert forall j :: 1 <= j < k ==> entries[j] == entries[1..][j - 1];
      k
  }

  /**
   * Asks for the directory until an answer is accepted: `path` is the
   * accepted directory and `used` the number of answers read.
   */
  method AskOutputPath(entries: seq<string>, pathExists: string -> bool, parent: string -> string)
    returns (path: Option<string>, used: nat)
    ensures path.None? <==> FirstPathIndex(entries, pathExists, parent) == |entries|
    ensures path.Some? ==>
      used == FirstPathIndex(entries, pathExists, parent) + 1 && path.value == OutputPathOrDefault(entries[used - 1])
    ensures used <= |entries|
    ensures path.Some? ==>
      0 < used && path.value == OutputPathOrDefault(entries[used - 1])
      && OutputPathAccepted(path.value, pathExists, parent)
    ensures path.None? ==> used == |entries|
    ensures forall j :: 0 <= j < |entries| && (path.Some? ==> j < used - 1) ==>
      !OutputPathAccepted(OutputPathOrDefault(entries[j]), pathExists, parent)
  {
    used := 0;
    while used < |entries|
      invariant used <= |entries|
      invariant forall j :: 0 <= j < used ==> !OutputPathAccepted(OutputPathOrDefault(entries[j]), pathExists, parent)
      invariant used <= FirstPathIndex(entries, pathExists, parent)
    {
      var candidate := OutputPathOrDefault(entries[used]);
      used := used + 1;
      if pathExists(candidate) || pathExists(parent(candidate)) {
        return Some(candidate), used;
      }
    }
    return None, used;
  }

  // ---------------------------------------------------------------------------
  // Numeric menus
  // ---------------------------------------------------------------------------

  /** A menu answer is accepted when it parses as an integer within `lo..hi`. */
  predicate ChoiceAccepted(entry: Option<int>, lo: int, hi: int) {
    entry.Some? && lo <= entry.value <= hi
  }

  /** The position of the first accepted menu answer; `|entries|` when none is. */
  function FirstChoiceIndex(entries: seq<Option<int>>, lo: int, hi: int): (k: nat)
    ensures k <= |entries|
    ensures k < |entries| ==> ChoiceAccepted(entries[k], lo, hi)
    ensures forall j :: 0 <= j < k ==> !ChoiceAccepted(entries[j], lo, hi)
    decreases |entries|
  {
    if entries == [] then 0
    else if ChoiceAccepted(entries[0], lo, hi) then 0
    else
      var k := 1 + FirstChoiceIndex(entries[1..], lo, hi);
      assert forall j :: 1 <= j < k ==> entries[j] == entries[1..][j - 1];
      k
  }

  /**
   * Asks a numeric menu until an answer is accepted: `choice` is the first
   * accepted answer and `used` the number of answers read.  Every earlier
   * answer was out of range or not a number.
   */
  method AskChoice(entries: seq<Option<int>>, lo: int, hi: int) returns (choice: Option<int>, used: nat)
    ensures choice.None? <==> FirstChoiceIndex(entries, lo, hi) == |entries|
    ensures choice.Some? ==> used == FirstChoiceIndex(entries, lo, hi) + 1
    ensures used <= |entries|
    ensures choice.Some? ==> 0 < used && entries[used - 1] == choice && lo <= choice.value <= hi
    ensures choice.None? ==> used == |entries|
    ensures forall j :: 0 <= j < |entries| && (choice.Some? ==> j < used - 1) ==> !ChoiceAccepted(entries[j], lo, hi)
  {
    used := 0;
    while used < |entries|
      invariant used <= |entries|
      invariant forall j :: 0 <= j < used ==> !ChoiceAccepted(entries[j], lo, hi)
      invariant used <= FirstChoiceIndex(entries, lo, hi)
    {
      var entry := entries[used];
      used := used + 1;
      if entry.Some? && lo <= entry.value && entry.value <= hi {
        return entry, used;
      }
    }
    return None, used;
  }

  // ---------------------------------------------------------------------------
  // The channel-URL heuristic
  // ---------------------------------------------------------------------------

  /** `t` occurs in `s` starting at index `i`. */
  predicate OccursAt(s: string, t: string, i: int) {
    0 <= i && i + |t| <= |s| && s[i..i + |t|] == t
  }

  /** Python's `t in s` for strings. */
  function Contains(s: string, t: string): (b: bool)
    ensures b <==> exists i :: OccursAt(s, t, i)
    decreases |s|
  {
    if |s| < |t| then false
    else if s[|s| - |t|..] == t then assert OccursAt(s, t, |s| - |t|); true
    else
      var init := s[..|s| - 1];
      var b := Contains(init, t);
      assert forall i :: OccursAt(s, t, i) <==> OccursAt(init, t, i) by {
        forall i ensures OccursAt(s, t, i) <==> OccursAt(init, t, i) {
          if 0 <= i && i + |t| < |s| {
            assert init[i..i + |t|] == s[i..i + |t|];
          }
        }
      }
      b
  }

  /** A one-character pattern occurs exactly when the character does. */
  lemma ContainsChar(s: string, c: char)
    ensures Contains(s, [c]) <==> c in s
  {
    if c in s {
      var i :| 0 <= i < |s| && s[i] == c;
      assert OccursAt(s, [c], i);
    }
    if Contains(s, [c]) {
      var i :| OccursAt(s, [c], i);
      assert s[i..i + 1][0] == c;
    }
  }

  /** A pattern holding a character the string lacks never occurs in it. */
  lemma MissingCharNotContained(s: string, t: string, k: nat)
    requires k < |t| && t[k] !in s
    ensures !Contains(s, t)
  {
  }

  /** The URL names a channel: it holds `/channel/`, `/c/`, `/user/` or `@`. */
  predicate IsChannelUrl(url: string) {
    Contains(url, "/channel/") || Contains(url, "/c/") || Contains(url, "/user/") || Contains(url, "@")
  }

  /** Every URL holding an `@`, anywhere, is taken for a channel. */
  lemma HandleIsChannelUrl(url: string)
    requires '@' in url
    ensures IsChannelUrl(url)
  {
    ContainsChar(url, '@');
  }

  /** A URL without `/` and without `@` is never taken for a channel. */
  lemma NoSlashNoChannel(url: string)
    requires '/' !in url && '@' !in url
    ensures !IsChannelUrl(url)
  {
    ContainsChar(url, '@');
    assert "/channel/"[0] == '/' && "/c/"[0] == '/' && "/user/"[0] == '/';
  }

  // ---------------------------------------------------------------------------
  // The section menu
  // ---------------------------------------------------------------------------

  /**
   * The sections chosen in the menu: 1 videos, 2 playlists, 3 releases,
   * 4 all three.  The menu only returns choices in `1..4`.
   */
  function SectionsForChoice(choice: int): (sections: seq<string>)
    requires 1 <= choice <= 4
    ensures 1 <= |sections| <= 3
    ensures forall j :: 0 <= j < |sections| ==> Recognised(sections[j])
    ensures choice == 4 <==> |sections| == 3
  {
    match choice
    case 1 => ["videos"]
    case 2 => ["playlists"]
    case 3 => ["releases"]
    case 4 => ["videos", "playlists", "releases"]
  }

  /**
   * "All" is the three single choices in menu order, and the single choices
   * are pairwise different.
   */
  lemma SectionMenuStructure(a: int, b: int)
    requires 1 <= a <= 4 && 1 <= b <= 4
    ensures SectionsForChoice(4) == SectionsForChoice(1) + SectionsForChoice(2) + SectionsForChoice(3)
    ensures SectionsForChoice(a) == SectionsForChoice(b) ==> a == b
  {
  }

  /** The driver downloads every section the menu can choose: none is dropped. */
  lemma MenuSectionsAllDownloaded(url: string, base: FsPath, choice: int, formatType: string,
                                  audioFormat: Option<string>)
    requires 1 <= choice <= 4
    ensures var sections := SectionsForChoice(choice);
      DownloadsIn(SectionsPlan(url, base, sections, formatType, audioFormat))
      == SectionRequests(url, base, sections, formatType, audioFormat)
  {
    var sections := SectionsForChoice(choice);
    SectionsPlanDownloads(url, base, sections, formatType, audioFormat);
    RecognisedOnlyKeepsRecognised(sections);
  }

  // ---------------------------------------------------------------------------
  // The format menu
  // ---------------------------------------------------------------------------

  datatype FormatChoice = FormatChoice(formatType: string, audioFormat: Option<string>)

  /** 1 is MP3 audio, 2 WAV audio, anything else MP4 video. */
  function FormatForChoice(choice: int): (f: FormatChoice)
    ensures f.formatType == "audio" <==> choice == 1 || choice == 2
    ensures f.formatType == "audio" || f.formatType == "video"
    ensures f.audioFormat.None? <==> f.formatType == "video"
    ensures f.audioFormat.Some? ==> f.audioFormat.value == (if choice == 1 then "mp3" else "wav")
  {
    if choice == 1 || choice == 2 then
      FormatChoice("audio", if choice == 1 then Some("mp3") else Some("wav"))
    else
      FormatChoice("video", None)
  }

  /**
   * What each format answer leads the options builder to: MP3 at 320 kbps,
   * WAV without a quality, or merged MP4 video.
   */
  lemma FormatChoiceOptions(outputPath: FsPath, choice: int)
    requires 1 <= choice <= 3
    ensures var f := FormatForChoice(choice);
      var media := BuildOptions(outputPath, f.formatType, f.audioFormat).media;
      match choice
      case 1 => media.AudioMedia? && media.postprocessors[0] == ExtractAudio(Some("mp3"), Kbps("320"))
      case 2 => media.AudioMedia? && media.postprocessors[0] == ExtractAudio(Some("wav"), Unset)
      case 3 => media.VideoMedia? && media.mergeOutputFormat == "mp4"
  {
    var f := FormatForChoice(choice);
    var o := BuildOptions(outputPath, f.formatType, f.audioFormat);
    if choice != 3 {
      assert o.Postprocessors()[0] == o.media.postprocessors[0];
    }
  }

  // ---------------------------------------------------------------------------
  // The whole prompt
  // ---------------------------------------------------------------------------

  datatype Prefs = Prefs(url: string, outputPath: string, sections: Option<seq<string>>,
                         formatType: string, audioFormat: Option<string>)

  /**
   * The prompt: directory, then the section menu for channel URLs only, then
   * the format menu.  Each prompt takes its first accepted answer; the whole
   * prompt fails only when a script runs out without one.
   */
  method GetUserPreferences(url: string, pathEntries: seq<string>, sectionEntries: seq<Option<int>>,
                            formatEntries: seq<Option<int>>, pathExists: string -> bool,
                            parent: string -> string)
    returns (prefs: Option<Prefs>)
    ensures var kp := FirstPathIndex(pathEntries, pathExists, parent);
      var ks := FirstChoiceIndex(sectionEntries, 1, 4);
      var kf := FirstChoiceIndex(formatEntries, 1, 3);
      prefs.None? <==> kp == |pathEntries| || (IsChannelUrl(url) && ks == |sectionEntries|) || kf == |formatEntries|
    ensures prefs.Some? ==>
      var kp := FirstPathIndex(pathEntries, pathExists, parent);
      var ks := FirstChoiceIndex(sectionEntries, 1, 4);
      var kf := FirstChoiceIndex(formatEntries, 1, 3);
      var p := prefs.value;
      && p.url == url
      && p.outputPath == OutputPathOrDefault(pathEntries[kp])
      && (if IsChannelUrl(url) then p.sections == Some(SectionsForChoice(sectionEntries[ks].value))
          else p.sections == None)
      && FormatChoice(p.formatType, p.audioFormat) == FormatForChoice(formatEntries[kf].value)
    ensures prefs.Some? ==>
      var p := prefs.value;
      && OutputPathAccepted(p.outputPath, pathExists, parent)
      && (p.audioFormat.None? <==> p.formatType == "video")
  {
    var outputPath, pathsUsed := AskOutputPath(pathEntries, pathExists, parent);
    if outputPath.None? {
      return None;
    }
    var sections: Option<seq<string>> := None;
    if Contains(url, "/channel/") || Contains(url, "/c/") || Contains(url, "/user/") || Contains(url, "@") {
      var sectionChoice, sectionsUsed := AskChoice(sectionEntries, 1, 4);
      if sectionChoice.None? {
        return None;
      }
      sections := Some(SectionsForChoice(sectionChoice.value));
    }
    var formatChoice, formatsUsed := AskChoice(formatEntries, 1, 3);
    if formatChoice.None? {
      return None;
    }
    var format := FormatForChoice(formatChoice.value);
    return Some(Prefs(url, outputPath.value, sections, format.formatType, format.audioFormat));
  }
}

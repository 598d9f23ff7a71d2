/**
 * Complete runs of the downloader: the menu answers a prompt turns into
 * preferences, and the downloads the driver then asks for.
 */
module Scenarios {
  import opened Wrappers
  import opened Paths
  import opened YdlOptions
  import opened ChannelDownload
  import opened Preferences

  const HANDLE_URL: string := "https://www.youtube.com/@handle"
  const VIDEO_URL: string := "https://youtu.be/xyz"

  /**
   * "All sections" creates the three section directories and downloads the
   * three sections in menu order, each from its own address.
   */
  lemma AllSectionsPlan(url: string, base: FsPath, formatType: string, audioFormat: Option<string>)
    ensures var plan := SectionsPlan(url, base, SectionsForChoice(4), formatType, audioFormat);
      DirsIn(plan) == [Join(base, "videos"), Join(base, "playlists"), Join(base, "releases")]
      && DownloadsIn(plan) == [
        SectionItem(url + "/videos", Join(base, "videos"), formatType, audioFormat),
        SectionItem(url + "/playlists", Join(base, "playlists"), formatType, audioFormat),
        SectionItem(url + "/releases", Join(base, "releases"), formatType, audioFormat)]
  {
    var sections := SectionsForChoice(4);
    SectionsPlanDirs(url, base, sections, formatType, audioFormat);
    MenuSectionsAllDownloaded(url, base, 4, formatType, audioFormat);
    assert url + "/" + "videos" == url + "/videos";
    assert url + "/" + "playlists" == url + "/playlists";
    assert url + "/" + "releases" == url + "/releases";
  }

  /**
   * A channel handle with the default directory, "all sections" and MP3:
   * the driver creates `./downloads/Nombre del Canal` and one directory per
   * section, then downloads videos, playlists and releases, in that order,
   * each as MP3 into its own directory.
   */
  lemma HandleScenario()
    ensures IsChannelUrl(HANDLE_URL)
    ensures OutputPathOrDefault("") == "./downloads"
    ensures FormatForChoice(1) == FormatChoice("audio", Some("mp3"))
    ensures var plan := ChannelPlan(HANDLE_URL, "./downloads", Some(SectionsForChoice(4)), "audio", Some("mp3"));
      var base := FsPath("./downloads", ["Nombre del Canal"]);
      DirsIn(plan) == [base, Join(base, "videos"), Join(base, "playlists"), Join(base, "releases")]
      && DownloadsIn(plan) == [
        SectionItem(HANDLE_URL + "/videos", Join(base, "videos"), "audio", Some("mp3")),
        SectionItem(HANDLE_URL + "/playlists", Join(base, "playlists"), "audio", Some("mp3")),
        SectionItem(HANDLE_URL + "/releases", Join(base, "releases"), "audio", Some("mp3"))]
  {
    assert HANDLE_URL[24] == '@';
    HandleIsChannelUrl(HANDLE_URL);
    var sections := SectionsForChoice(4);
    ChannelLookupIsStub(HANDLE_URL, HANDLE_URL);
    var base := ChannelDir(HANDLE_URL, "./downloads");
    assert base == FsPath("./downloads", ["Nombre del Canal"]);
    AllSectionsPlan(HANDLE_URL, base, "audio", Some("mp3"));
    DownloadsInAppend([MadeDir(base)], SectionsPlan(HANDLE_URL, base, sections, "audio", Some("mp3")));
    assert [MadeDir(base)][..0] == [];
  }

  /**
   * A single video URL: no section is asked for, no directory is created and
   * the URL is downloaded once as MP4 video.
   */
  lemma SingleVideoScenario()
    ensures var plan := ChannelPlan(VIDEO_URL, "./downloads", None, "video", None);
      var request := DownloadsIn(plan)[0];
      DirsIn(plan) == [] && |DownloadsIn(plan)| == 1
      && request.SingleItem? && request.url == VIDEO_URL
      && request.options.media == VideoMedia(VIDEO_SELECTOR, "mp4")
      && request.options.outputTemplate == FsPath("./downloads", [TITLE_TEMPLATE])
  {
    ChannelPlanEffects(VIDEO_URL, "./downloads", None, "video", None);
  }

  /** The single video URL is not taken for a channel, so no section is asked for. */
  lemma VideoUrlIsNotChannel()
    ensures !IsChannelUrl(VIDEO_URL)
  {
    assert 'c' !in VIDEO_URL && 'r' !in VIDEO_URL;
    ContainsChar(VIDEO_URL, '@');
    MissingCharNotContained(VIDEO_URL, "/channel/", 1);
    MissingCharNotContained(VIDEO_URL, "/c/", 1);
    MissingCharNotContained(VIDEO_URL, "/user/", 4);
  }

  /**
   * The prompt for a channel URL: an empty directory answer, a section menu
   * answered first with garbage, then 7, then 4, and a format menu answered
   * first with 0, then 1.  The refused answers are asked again and the result
   * is the default directory, all three sections and MP3.
   */
  method HandlePrompt(url: string, pathEntries: seq<string>, sectionEntries: seq<Option<int>>,
                      formatEntries: seq<Option<int>>, pathExists: string -> bool, parent: string -> string)
    returns (prefs: Option<Prefs>)
    requires IsChannelUrl(url) && pathExists("./downloads")
    requires |pathEntries| == 1 && pathEntries[0] == ""
    requires |sectionEntries| == 3 && sectionEntries[0] == None && sectionEntries[1] == Some(7) && sectionEntries[2] == Some(4)
    requires |formatEntries| == 2 && formatEntries[0] == Some(0) && formatEntries[1] == Some(1)
    ensures prefs == Some(Prefs(url, "./downloads", Some(["videos", "playlists", "releases"]), "audio", Some("mp3")))
  {
    assert OutputPathAccepted(OutputPathOrDefault(pathEntries[0]), pathExists, parent);
    assert !ChoiceAccepted(sectionEntries[0], 1, 4) && !ChoiceAccepted(sectionEntries[1], 1, 4);
    assert !ChoiceAccepted(formatEntries[0], 1, 3);
    prefs := GetUserPreferences(url, pathEntries, sectionEntries, formatEntries, pathExists, parent);
  }
}

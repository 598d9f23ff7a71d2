/**
 * The options record the downloader hands to the download library for one
 * call, as a typed structure instead of a loosely-typed dictionary.
 */
module YdlOptions {

  import opened Wrappers
  import opened Paths

  /** Output name of every item: its title and its native extension. */
  const TITLE_TEMPLATE: string := "%(title)s.%(ext)s"
  const AUDIO_SELECTOR: string := "bestaudio/best"
  const VIDEO_SELECTOR: string := "bestvideo[ext=mp4]+bestaudio[ext=m4a]/best[ext=mp4]/best"
  const EXTRACT_KEY: string := "FFmpegExtractAudio"
  const METADATA_KEY: string := "FFmpegMetadata"
  const THUMBNAIL_KEY: string := "EmbedThumbnail"
  /** Extra ffmpeg arguments: write ID3 tags in version 2.3. */
  const ID3V23_ARGS: seq<string> := ["-id3v2_version", "3"]

  /**
   * The `preferredquality` entry of the extract step: absent from the record,
   * present with the value `None`, or present with a bitrate.
   */
  datatype Quality = Omitted | Unset | Kbps(bitrate: string)

  /** One post-processing step; `Key` is the library's name for it. */
  datatype PostProcessor =
    | ExtractAudio(codec: Option<string>, quality: Quality)
    | Metadata
    | EmbedThumbnail
  {
    function Key(): string {
      match this
      case ExtractAudio(_, _) => EXTRACT_KEY
      case Metadata => METADATA_KEY
      case EmbedThumbnail => THUMBNAIL_KEY
    }
  }

  /** The entries that depend on the requested format type. */
  datatype Media =
    | AudioMedia(format: string, writeThumbnail: bool, embedThumbnail: bool, addMetadata: bool,
                 preferFfmpeg: bool, postprocessors: seq<PostProcessor>,
                 postprocessorArgs: map<string, seq<string>>, convertThumbnails: string)
    | VideoMedia(format: string, mergeOutputFormat: string)
    | NoMedia

  datatype Options = Options(quiet: bool, noWarnings: bool, ignoreErrors: bool, extractFlat: bool,
                             outputTemplate: FsPath, media: Media)
  {
    /** The post-processing pipeline; a record without one has none. */
    function Postprocessors(): seq<PostProcessor> {
      if media.AudioMedia? then media.postprocessors else []
    }
  }

  function Keys(steps: seq<PostProcessor>): seq<string> {
    seq(|steps|, i requires 0 <= i < |steps| => steps[i].Key())
  }

  /** The options for downloading into `outputPath` in the given format. */
  function BuildOptions(outputPath: FsPath, formatType: string, audioFormat: Option<string>): (o: Options)
    // flags and template common to every record
    ensures !o.quiet && !o.noWarnings && o.ignoreErrors && !o.extractFlat
    ensures o.outputTemplate == Join(outputPath, TITLE_TEMPLATE)
    ensures o.media.AudioMedia? <==> formatType == "audio"
    ensures o.media.VideoMedia? <==> formatType == "video"
    // audio: best audio stream, three steps in a fixed order
    ensures formatType == "audio" ==>
      && o.media.format == AUDIO_SELECTOR
      && o.media.writeThumbnail && o.media.embedThumbnail && o.media.addMetadata && o.media.preferFfmpeg
      && o.media.convertThumbnails == "jpg"
      && o.media.postprocessorArgs == map[METADATA_KEY := ID3V23_ARGS, THUMBNAIL_KEY := ID3V23_ARGS]
      && Keys(o.Postprocessors()) == [EXTRACT_KEY, METADATA_KEY, THUMBNAIL_KEY]
      && o.Postprocessors()[0].ExtractAudio?
    ensures formatType == "audio" ==> o.Postprocessors()[0].codec == audioFormat
    ensures formatType == "audio" ==> (o.Postprocessors()[0].quality == Kbps("320") <==> audioFormat == Some("mp3"))
    ensures formatType == "audio" ==> (o.Postprocessors()[0].quality == Omitted <==> audioFormat == Some("aiff"))
    ensures formatType == "audio" ==>
      (o.Postprocessors()[0].quality == Unset <==> audioFormat != Some("mp3") && audioFormat != Some("aiff"))
    // video: best mp4 combination, merged into mp4, no post-processing
    ensures formatType == "video" ==>
      o.media.format == VIDEO_SELECTOR && o.media.mergeOutputFormat == "mp4" && o.Postprocessors() == []
    // any other format type: the common entries only
    ensures formatType != "audio" && formatType != "video" ==> o.media == NoMedia
  {
    var base := Options(false, false, true, false, Join(outputPath, TITLE_TEMPLATE), NoMedia);
    if formatType == "audio" then
      var steps := [ExtractAudio(audioFormat, if audioFormat == Some("mp3") then Kbps("320") else Unset),
                    Metadata, EmbedThumbnail];
      var steps' := if audioFormat == Some("aiff") then steps[0 := ExtractAudio(Some("aiff"), Omitted)] else steps;
      var args := map[METADATA_KEY := ID3V23_ARGS, THUMBNAIL_KEY := ID3V23_ARGS];
      base.(media := AudioMedia(AUDIO_SELECTOR, true, true, true, true, steps', args, "jpg"))
    else if formatType == "video" then
      base.(media := VideoMedia(VIDEO_SELECTOR, "mp4"))
    else
      base
  }

  /**
   * For aiff only the extract step differs from the record built for any
   * other codec: steps 2 and 3 and every other entry are the same.
   */
  lemma AiffReplacesOnlyExtractStep(outputPath: FsPath, other: string)
    requires other != "aiff"
    ensures var aiff := BuildOptions(outputPath, "audio", Some("aiff"));
            var o := BuildOptions(outputPath, "audio", Some(other));
            && aiff.Postprocessors()[0] == ExtractAudio(Some("aiff"), Omitted)
            && aiff.Postprocessors()[1..] == o.Postprocessors()[1..]
            && aiff.(media := aiff.media.(postprocessors := [])) == o.(media := o.media.(postprocessors := []))
  {
  }
}

# A verified model of the YT-DLP channel downloader

The downloader is a small interactive wrapper around the `yt_dlp` library. Its
own logic lives in two files. `main.py` asks the user for a URL, a download
directory, the channel sections to fetch and an audio or video format.
`src/downloader.py` turns these answers into library options and drives the
downloads.

This project models that logic in Dafny and proves what it promises.

- `sanitizer.dfy` (module `Sanitizer`) is the file-name sanitiser. It removes
  the eight characters `/ : * ? " < > |` and keeps every other character in
  order.
- `options.dfy` (module `YdlOptions`) is the options builder. It maps the
  output directory, the format type and the audio format to a typed options
  record. The record holds the fixed flags, the output template, the format
  selector and the ordered post-processor steps.
- `channel.dfy` (module `ChannelDownload`) is the channel driver.
  - Directory creation and calls into the download library go through a
    `World` object. `World` records each effect in a log and answers it from
    an oracle: `outcome(k)` says whether the k-th effect succeeded.
  - The driver method `DownloadChannel` is proved equal to a plan of effects
    (`ChannelPlan`) run by `Execute`. `Execute` stops with `false` at the
    first failing directory, which models the exception that the driver's
    `except` clause turns into `False`. A failing download only makes the
    result `false`, and the loop goes on, as `success &= …` does.
- `preferences.dfy` (module `Preferences`) holds the decisions of the prompt.
  - An empty answer selects `./downloads`.
  - A directory is accepted when it or its parent exists.
  - A URL counts as a channel when it contains `/channel/`, `/c/`, `/user/`
    or `@`.
  - The section menu is 1 → videos, 2 → playlists, 3 → releases and 4 → all
    three. The format menu is 1 → MP3, 2 → WAV and anything else → MP4 video.
  - Invalid answers are asked again.
- `scenarios.dfy` (module `Scenarios`) follows two complete runs, one for a
  channel handle and one for a plain video URL. It also follows one prompt
  whose refused answers are asked again.
- `paths.dfy` and `wrappers.dfy` hold a path made of a root and appended
  segments, and the optional value `Option`.

Section names and formats are plain strings, since the
code compares strings, and any section name is accepted. An unknown format
type gets only the base options. The channel lookup returns an ordered list,
not a set.

## Model

| member | source | states |
|---|---|---|
| Sanitizer.Forbidden | YT-DLP/src/downloader.py:20 | the character class `[/:*?"<>|]`: exactly these eight characters are removed; pinned by SanitizeOccurrences and SanitizeMembership |
| Sanitizer.Sanitize | YT-DLP/src/downloader.py:18-20 | the result contains none of the eight forbidden characters and is never longer than the input |
| Sanitizer.SanitizeOccurrences | YT-DLP/src/downloader.py:20 | every forbidden character occurs zero times in the result; every other character occurs exactly as often as in the input |
| Sanitizer.SanitizeMembership | YT-DLP/src/downloader.py:20 | a character is in the result exactly when it is in the input and is not forbidden |
| Sanitizer.SanitizeConcat | YT-DLP/src/downloader.py:20 | sanitising works piecewise: sanitising `a + b` gives the sanitised `a` followed by the sanitised `b`, so the kept characters stay in their original order |
| Sanitizer.SanitizeCleanIsIdentity | YT-DLP/src/downloader.py:20 | a name without forbidden characters is left unchanged |
| Sanitizer.SanitizeIdempotent | YT-DLP/src/downloader.py:20 | sanitising twice is the same as sanitising once |
| Sanitizer.SanitizeKeepsLengthIffClean | YT-DLP/src/downloader.py:20 | the length is kept exactly when the input has no forbidden character |
| YdlOptions.BuildOptions | YT-DLP/src/downloader.py:29-85 | quiet, no-warnings and extract-flat are off and ignore-errors is on; the output template is the directory joined with `%(title)s.%(ext)s`; audio gets `bestaudio/best`, thumbnail writing and embedding, metadata, ffmpeg, jpg thumbnails, ID3v2.3 arguments for the metadata and thumbnail steps, and exactly the steps extract, metadata and thumbnail in that order; the codec is the audio format; the quality is 320 for mp3, absent for aiff and None otherwise; video gets the mp4 selector, mp4 merging and no steps; any other format type gets the base options only |
| YdlOptions.AiffReplacesOnlyExtractStep | YT-DLP/src/downloader.py:72-77 | with aiff, step 1 becomes a bare extract to aiff with no quality; steps 2 and 3 and every other option are the same as for any other audio format |
| ChannelDownload.ChannelSections | YT-DLP/src/downloader.py:22-27 | the channel lookup stub: the name `Nombre del Canal` and the sections playlists, videos and releases for any URL; pinned by ChannelLookupIsStub |
| ChannelDownload.ChannelLookupIsStub | YT-DLP/src/downloader.py:22-27 | every URL gets the same channel, with sections playlists, videos and releases, and the sanitiser leaves its name `Nombre del Canal` unchanged |
| ChannelDownload.World.Mkdir | YT-DLP/src/downloader.py:99 | records a directory creation; its outcome is the oracle's answer for that position in the log |
| ChannelDownload.World.Download | YT-DLP/src/downloader.py:128-134 | records one call of the download library; its outcome is the oracle's answer, with exceptions already turned into `false` |
| ChannelDownload.DownloadSingleVideo | YT-DLP/src/downloader.py:122-134 | records exactly one single-item download with the options `BuildOptions` makes for the directory and format, and returns its outcome |
| ChannelDownload.DownloadSection | YT-DLP/src/downloader.py:136-138 | records exactly one section download with its address, directory and format, and returns its outcome |
| ChannelDownload.RecognisedOnly | YT-DLP/src/downloader.py:106-114 | keeps only the names playlists, videos and releases, and is never longer than its input; RecognisedOnlyCounts and RecognisedOnlyConcat state that nothing recognised is dropped and the order is kept |
| ChannelDownload.RecognisedOnlyCounts | YT-DLP/src/downloader.py:106-114 | every recognised name is kept exactly as often as it occurs in the input, and every other name is dropped |
| ChannelDownload.RecognisedOnlyConcat | YT-DLP/src/downloader.py:102-114 | filtering `a + b` gives the filtered `a` followed by the filtered `b`, so the kept names stay in input order |
| ChannelDownload.RecognisedOnlyKeepsRecognised | YT-DLP/src/downloader.py:106-114 | a list of recognised names loses nothing |
| ChannelDownload.SectionDirs | YT-DLP/src/downloader.py:103 | one directory `base / name` per section name, at the same position |
| ChannelDownload.SectionRequests | YT-DLP/src/downloader.py:106-114 | one section download per name, at the same position, from `url + "/" + name` into `base / name` |
| ChannelDownload.SectionsPlan | YT-DLP/src/downloader.py:102-114 | the section loop as a plan: per listed section, the creation of `base / section`, then its download when the name is recognised; pinned by SectionsPlanDownloads, SectionsPlanDirs and SectionsPlanAppend |
| ChannelDownload.ChannelPlan | YT-DLP/src/downloader.py:93-114 | the driver as a plan: one single-item download when there are no sections, otherwise the channel directory followed by the section plan; pinned by ChannelPlanEffects |
| ChannelDownload.SectionsPlanDownloads | YT-DLP/src/downloader.py:102-114 | the section loop downloads each recognised section exactly once, in list order, from `url + "/" + section` into `base / section`; unrecognised names cause no download |
| ChannelDownload.SectionsPlanDirs | YT-DLP/src/downloader.py:102-104 | the section loop creates `base / section` for every listed section, recognised or not, in list order |
| ChannelDownload.SectionedPlanEffects | YT-DLP/src/downloader.py:98-114 | with sections, the channel directory is created first, then one directory per section, and exactly the recognised sections are downloaded |
| ChannelDownload.ChannelPlanEffects | YT-DLP/src/downloader.py:93-114 | without sections, or with an empty list, there is no directory and exactly one single-item download; with sections, the channel directory `output / sanitize(name)` comes first, then the section directories, and exactly the recognised sections are downloaded |
| ChannelDownload.Execute | YT-DLP/src/downloader.py:101-120 | runs a plan against the oracle: a failing directory creation stops the run with false, as the `except` clause does; a failing download only clears the result; pinned by the Execute lemmas below |
| ChannelDownload.ExecutePerformsPrefix | YT-DLP/src/downloader.py:92-120 | a run performs a prefix of its plan |
| ChannelDownload.ExecuteSuccessIsConjunction | YT-DLP/src/downloader.py:101-116 | the result is true exactly when every performed effect succeeded |
| ChannelDownload.ExecuteAbortsIffDirFails | YT-DLP/src/downloader.py:118-120 | a run stops early exactly when some directory creation fails; otherwise the whole plan is performed |
| ChannelDownload.ExecuteAbortsAtFirstFailure | YT-DLP/src/downloader.py:92-120 | a stopped run ends at the first failing directory creation, and every directory creation before it succeeded |
| ChannelDownload.ExecuteWhenDirsMade | YT-DLP/src/downloader.py:101-116 | when every directory can be created, every step runs even after a failed download, and the result is the AND of all download outcomes |
| ChannelDownload.ExecuteFailsOnDirError | YT-DLP/src/downloader.py:118-120 | a failing directory creation makes the result false |
| ChannelDownload.ExecuteAppend | YT-DLP/src/downloader.py:101-116 | running two plans one after the other gives both logs and the AND of both results, unless the first one stopped |
| ChannelDownload.SectionsPlanAppend | YT-DLP/src/downloader.py:102 | the plan of a list of sections is the plans of its parts, one after the other |
| ChannelDownload.DownloadIfRecognised | YT-DLP/src/downloader.py:106-114 | a recognised section is downloaded once from `url + "/" + section` into its directory and its outcome returned; any other name causes no call and gives true |
| ChannelDownload.DownloadSections | YT-DLP/src/downloader.py:101-116 | the loop's log and result are those of running the section plan |
| ChannelDownload.DownloadChannel | YT-DLP/src/downloader.py:87-120 | the driver's log and result are those of running `ChannelPlan` against the oracle |
| Preferences.OutputPathOrDefault | YT-DLP/main.py:27-29 | an empty answer becomes `./downloads`, any other answer is kept, and the result is never empty |
| Preferences.OutputPathAccepted | YT-DLP/main.py:34 | a directory is accepted when it exists or its parent exists |
| Preferences.FirstPathIndex | YT-DLP/main.py:24-36 | the position of the first accepted answer, after the default is applied: every earlier answer is refused, and the result is the length of the list only when every answer is refused |
| Preferences.AskOutputPath | YT-DLP/main.py:24-36 | reads answers up to and including the first accepted one (position FirstPathIndex) and returns it, defaulted; no answer is returned exactly when every answer is refused |
| Preferences.ChoiceAccepted | YT-DLP/main.py:47-53 | an answer is accepted when it is a number within `lo..hi`, as the section menu (1-4) and the format menu (1-3) demand |
| Preferences.FirstChoiceIndex | YT-DLP/main.py:46-53 | the position of the first answer that is a number within the range: every earlier answer is refused, and the result is the length of the list only when every answer is refused |
| Preferences.AskChoice | YT-DLP/main.py:46-53 | reads answers up to and including the first accepted one (position FirstChoiceIndex) and returns it; no answer is returned exactly when every answer is refused |
| Preferences.Contains | YT-DLP/main.py:40 | `t in s`: true exactly when `t` occurs in `s` at some index |
| Preferences.ContainsChar | YT-DLP/main.py:40 | a one-character pattern occurs exactly when the character is in the string |
| Preferences.MissingCharNotContained | YT-DLP/main.py:40 | a pattern with a character the string lacks does not occur in it |
| Preferences.IsChannelUrl | YT-DLP/main.py:40 | a URL is a channel URL when it contains `/channel/`, `/c/`, `/user/` or `@`; pinned by HandleIsChannelUrl, NoSlashNoChannel and VideoUrlIsNotChannel |
| Preferences.HandleIsChannelUrl | YT-DLP/main.py:40 | any URL with an `@` is taken for a channel |
| Preferences.NoSlashNoChannel | YT-DLP/main.py:40 | a URL with neither `/` nor `@` is never taken for a channel |
| Preferences.SectionsForChoice | YT-DLP/main.py:55-60 | every choice gives one to three recognised sections, and only choice 4 gives three |
| Preferences.SectionMenuStructure | YT-DLP/main.py:55-60 | choice 4 is choices 1, 2 and 3 in order, and different choices give different sections |
| Preferences.MenuSectionsAllDownloaded | YT-DLP/main.py:55-60 | the driver downloads every section the menu can choose, in order, with none dropped |
| Preferences.FormatForChoice | YT-DLP/main.py:78-86 | 1 and 2, and only those, give audio; 1 gives mp3 and 2 gives wav; anything else gives video; the audio format is None exactly when the format is video |
| Preferences.FormatChoiceOptions | YT-DLP/main.py:79-86 | choice 1 leads to an MP3 extract at 320, choice 2 to a WAV extract with no quality, and choice 3 to merged MP4 video |
| Preferences.GetUserPreferences | YT-DLP/main.py:16-94 | the result keeps the URL and uses the first accepted answer of each prompt: the directory at FirstPathIndex, defaulted; for a channel URL the sections the menu gives for the answer at FirstChoiceIndex (1-4), and none otherwise; the format pair the menu gives for the answer at FirstChoiceIndex (1-3); the directory is accepted and the audio format is None exactly for video; the prompt fails exactly when a prompt that is asked has no accepted answer |
| Scenarios.AllSectionsPlan | YT-DLP/main.py:59 | "all" creates the videos, playlists and releases directories and downloads `url/videos`, `url/playlists` and `url/releases`, in that order |
| Scenarios.HandleScenario | YT-DLP/src/downloader.py:87-116 | an `@handle` URL with the default directory, "all" and MP3 creates `./downloads/Nombre del Canal` and its three section directories and makes the three section downloads as MP3, in menu order |
| Scenarios.SingleVideoScenario | YT-DLP/src/downloader.py:93-94 | a plain video with no sections creates no directory and makes one download with the MP4 video options under `./downloads` |
| Scenarios.HandlePrompt | YT-DLP/main.py:16-94 | a channel URL answered with an empty directory, then garbage, 7 and 4 for the sections, then 0 and 1 for the format, yields `./downloads`, videos, playlists and releases, and audio MP3 |
| Scenarios.VideoUrlIsNotChannel | YT-DLP/main.py:39-40 | a plain `youtu.be` video URL is not taken for a channel |

## Left out

- Logging and the progress hook (`_progress_hook` and every `logger` call) only write messages, so they are not modelled. The `progress_hooks` entry of the options record is left out too.
- The download library (`YoutubeDL` and `ydl.download`) is an oracle. So is the body of `_download_section`, which is not part of this model. Each call is one logged effect whose outcome the oracle decides.
- `World.Mkdir` does not model the file system. A directory creation is one logged effect, and a failure stands for the exception `mkdir` raises. `Path.exists` and `Path.parent` are the parameters `pathExists` and `parent`.
- `FsPath` does not model pathlib's parsing or normalisation, such as `./downloads` being shown as `downloads`. A path is a root string plus the segments joined to it, and `str(path)` is not modelled.
- The prompts do not model `input`, `print`, `str.strip` or `int()`. Each prompt reads from a list of answers that are already stripped. A numeric answer is `Some(n)`, or `None` where `int()` raises `ValueError`. Where the program would wait forever for an acceptable answer, the model stops with `None` when the list runs out.
- `main` is not modelled. This covers its `KeyboardInterrupt` and `Exception` handlers and the messages it prints after the download.
- Python's default arguments of `download_channel` and `_get_base_options` are not modelled. Every caller passes all arguments explicitly.
- Preferences.SectionsForChoice: requires a choice in 1..4. A dictionary lookup outside that range would raise `KeyError`, but the prompt loop never reaches the lookup with such a value.

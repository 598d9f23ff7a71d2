/**
 * The channel driver of the downloader: for a channel URL and a list of
 * sections it creates one directory per section under the sanitised channel
 * name and downloads each recognised section into it; without sections it
 * downloads the URL as a single item.
 *
 * Directory creation and the two download entry points are the only contact
 * with the outside world. They are performed through a `World` that records
 * each effect in order and answers it from an oracle: `outcome(k)` is whether
 * the k-th recorded effect succeeded. A failing directory creation is an
 * exception, which ends the driver with `false`; a failing download is a
 * `false` answer, which the driver folds into its result and goes on.
 */
module ChannelDownload {

  import opened Wrappers
  import opened Paths
  import opened Sanitizer
  import opened YdlOptions

  const PLACEHOLDER_CHANNEL_NAME: string := "Nombre del Canal"
  const PLACEHOLDER_SECTIONS: seq<string> := ["playlists", "videos", "releases"]

  datatype ChannelInfo = ChannelInfo(channelName: string, sections: seq<string>)

  /** The channel lookup, which the downloader leaves as a stub: the URL is not consulted. */
  function ChannelSections(url: string): ChannelInfo {
    ChannelInfo(PLACEHOLDER_CHANNEL_NAME, PLACEHOLDER_SECTIONS)
  }

  /** Every URL gets the same channel, whose name the sanitiser leaves as it is. */
  lemma ChannelLookupIsStub(u: string, v: string)
    ensures ChannelSections(u) == ChannelSections(v)
    ensures ChannelSections(u).sections == ["playlists", "videos", "releases"]
    ensures Sanitize(ChannelSections(u).channelName) == "Nombre del Canal"
  {
    assert Clean(PLACEHOLDER_CHANNEL_NAME) by {
      forall i | 0 <= i < |PLACEHOLDER_CHANNEL_NAME| ensures !Forbidden(PLACEHOLDER_CHANNEL_NAME[i]) {
        assert PLACEHOLDER_CHANNEL_NAME[i] in "Nombre del Canal";
      }
    }
    SanitizeCleanIsIdentity(PLACEHOLDER_CHANNEL_NAME);
  }

  /** A call into the download library, with the arguments it receives. */
  datatype Request =
    | SingleItem(url: string, options: Options)
    | SectionItem(url: string, output: FsPath, formatType: string, audioFormat: Option<string>)

  datatype Effect = MadeDir(path: FsPath) | Downloaded(request: Request)

  /** The outside world as the driver sees it: a log of effects and an oracle for their outcomes. */
  class World {
    var effects: seq<Effect>
    const outcome: nat -> bool

    constructor (outcome: nat -> bool)
      ensures effects == [] && this.outcome == outcome
    {
      effects := [];
      this.outcome := outcome;
    }

    /** `mkdir(parents=True, exist_ok=True)`; `false` stands for the exception it raised. */
    method Mkdir(path: FsPath) returns (ok: bool)
      modifies this
      ensures effects == old(effects) + [MadeDir(path)]
      ensures ok == outcome(|old(effects)|)
    {
      ok := outcome(|effects|);
      effects := effects + [MadeDir(path)];
    }

    /** One call of the download library, with its exceptions already turned into `false`. */
    method Download(request: Request) returns (ok: bool)
      modifies this
      ensures effects == old(effects) + [Downloaded(request)]
      ensures ok == outcome(|old(effects)|)
    {
      ok := outcome(|effects|);
      effects := effects + [Downloaded(request)];
    }
  }

  /** Downloads one item into `outputPath` with the options built for the requested format. */
  method DownloadSingleVideo(world: World, url: string, outputPath: string, formatType: string,
                             audioFormat: Option<string>) returns (ok: bool)
    modifies world
    ensures world.effects ==
      old(world.effects) + [Downloaded(SingleItem(url, BuildOptions(PathOf(outputPath), formatType, audioFormat)))]
    ensures ok == world.outcome(|old(world.effects)|)
  {
    var options := BuildOptions(PathOf(outputPath), formatType, audioFormat);
    ok := world.Download(SingleItem(url, options));
  }

  /** Downloads one channel section; what it does inside is the library's business. */
  method DownloadSection(world: World, url: string, output: FsPath, formatType: string,
                         audioFormat: Option<string>) returns (ok: bool)
    modifies world
    ensures world.effects == old(world.effects) + [Downloaded(SectionItem(url, output, formatType, audioFormat))]
    ensures ok == world.outcome(|old(world.effects)|)
  {
    ok := world.Download(SectionItem(url, output, formatType, audioFormat));
  }

  // ---------------------------------------------------------------------------
  // What the driver does when every directory can be created

  /** The section names the driver knows how to download. */
  predicate Recognised(section: string) {
    section == "playlists" || section == "videos" || section == "releases"
  }

  function SectionRequest(url: string, base: FsPath, section: string, formatType: string,
                          audioFormat: Option<string>): Request {
    SectionItem(url + "/" + section, Join(base, section), formatType, audioFormat)
  }

  /** One loop iteration: the section directory, then the download if the name is recognised. */
  function SectionSteps(url: string, base: FsPath, section: string, formatType: string,
                        audioFormat: Option<string>): seq<Effect> {
    [MadeDir(Join(base, section))]
      + if Recognised(section) then [Downloaded(SectionRequest(url, base, section, formatType, audioFormat))] else []
  }

  function SectionsPlan(url: string, base: FsPath, sections: seq<string>, formatType: string,
                        audioFormat: Option<string>): seq<Effect>
    decreases |sections|
  {
    if sections == [] then []
    else SectionsPlan(url, base, sections[..|sections| - 1], formatType, audioFormat)
         + SectionSteps(url, base, sections[|sections| - 1], formatType, audioFormat)
  }

  /** The channel directory, then every section in order. */
  function SectionedPlan(url: string, base: FsPath, sections: seq<string>, formatType: string,
                         audioFormat: Option<string>): seq<Effect> {
    [MadeDir(base)] + SectionsPlan(url, base, sections, formatType, audioFormat)
  }

  /** `output_path / sanitize(channel_name)`. */
  function ChannelDir(url: string, outputPath: string): FsPath {
    Join(PathOf(outputPath), Sanitize(ChannelSections(url).channelName))
  }

  /** `not sections`: absent or empty. */
  predicate NoSections(sections: Option<seq<string>>) {
    sections.None? || sections.value == []
  }

  /** The effects of the driver, in order, when every directory can be created. */
  function ChannelPlan(url: string, outputPath: string, sections: Option<seq<string>>, formatType: string,
                       audioFormat: Option<string>): seq<Effect> {
    if NoSections(sections) then
      [Downloaded(SingleItem(url, BuildOptions(PathOf(outputPath), formatType, audioFormat)))]
    else
      SectionedPlan(url, ChannelDir(url, outputPath), sections.value, formatType, audioFormat)
  }

  /** The download requests among `effects`, in order. */
  function DownloadsIn(effects: seq<Effect>): seq<Request>
    decreases |effects|
  {
    if effects == [] then []
    else
      var last := effects[|effects| - 1];
      DownloadsIn(effects[..|effects| - 1]) + if last.Downloaded? then [last.request] else []
  }

  /** The directories created among `effects`, in order. */
  function DirsIn(effects: seq<Effect>): seq<FsPath>
    decreases |effects|
  {
    if effects == [] then []
    else
      var last := effects[|effects| - 1];
      DirsIn(effects[..|effects| - 1]) + if last.MadeDir? then [last.path] else []
  }

  /** The recognised names of `sections`, in order. */
  function RecognisedOnly(sections: seq<string>): (r: seq<string>)
    ensures forall j :: 0 <= j < |r| ==> Recognised(r[j])
    ensures |r| <= |sections|
    decreases |sections|
  {
    if sections == [] then []
    else
      var last := sections[|sections| - 1];
      RecognisedOnly(sections[..|sections| - 1]) + if Recognised(last) then [last] else []
  }

  /** Every recognised name is kept as often as it occurs, and no other name is kept. */
  lemma {:induction false} RecognisedOnlyCounts(sections: seq<string>)
    ensures forall s :: multiset(RecognisedOnly(sections))[s] == if Recognised(s) then multiset(sections)[s] else 0
    decreases |sections|
  {
    if sections != [] {
      var init, last := sections[..|sections| - 1], sections[|sections| - 1];
      RecognisedOnlyCounts(init);
      assert sections == init + [last];
    }
  }

  /** Filtering a concatenation filters each part and keeps their order. */
  lemma {:induction false} RecognisedOnlyConcat(a: seq<string>, b: seq<string>)
    ensures RecognisedOnly(a + b) == RecognisedOnly(a) + RecognisedOnly(b)
    decreases |b|
  {
    if b != [] {
      var init, last := b[..|b| - 1], b[|b| - 1];
      var keep := if Recognised(last) then [last] else [];
      assert (a + b)[..|a + b| - 1] == a + init;
      assert RecognisedOnly(a + b) == RecognisedOnly(a + init) + keep;
      assert RecognisedOnly(b) == RecognisedOnly(init) + keep;
      RecognisedOnlyConcat(a, init);
      ConcatAssociates(RecognisedOnly(a), RecognisedOnly(init), keep);
    } else {
      assert a + b == a;
      assert RecognisedOnly(b) == [];
    }
  }

  /** Concatenation of name lists associates. */
  lemma ConcatAssociates(x: seq<string>, y: seq<string>, z: seq<string>)
    ensures (x + y) + z == x + (y + z)
  {
  }

  /** A list of recognised names is kept as it is. */
  lemma {:induction false} RecognisedOnlyKeepsRecognised(sections: seq<string>)
    requires forall j :: 0 <= j < |sections| ==> Recognised(sections[j])
    ensures RecognisedOnly(sections) == sections
    decreases |sections|
  {
    if sections != [] {
      var init, last := sections[..|sections| - 1], sections[|sections| - 1];
      RecognisedOnlyKeepsRecognised(init);
      assert Recognised(last);
      assert RecognisedOnly(sections) == init + [last];
      assert sections == init + [last];
    }
  }

  /** The directories `base / name`, one per name, in order. */
  function SectionDirs(base: FsPath, names: seq<string>): (dirs: seq<FsPath>)
    ensures |dirs| == |names|
    ensures forall j :: 0 <= j < |names| ==> dirs[j] == Join(base, names[j])
    decreases |names|
  {
    if names == [] then []
    else SectionDirs(base, names[..|names| - 1]) + [Join(base, names[|names| - 1])]
  }

  /** The section downloads of `names`, one per name, in order. */
  function SectionRequests(url: string, base: FsPath, names: seq<string>, formatType: string,
                           audioFormat: Option<string>): (requests: seq<Request>)
    ensures |requests| == |names|
    ensures forall j :: 0 <= j < |names| ==>
      requests[j] == SectionItem(url + "/" + names[j], Join(base, names[j]), formatType, audioFormat)
    decreases |names|
  {
    if names == [] then []
    else
      SectionRequests(url, base, names[..|names| - 1], formatType, audioFormat)
      + [SectionRequest(url, base, names[|names| - 1], formatType, audioFormat)]
  }

  lemma {:induction false} DownloadsInAppend(a: seq<Effect>, b: seq<Effect>)
    ensures DownloadsIn(a + b) == DownloadsIn(a) + DownloadsIn(b)
    ensures DirsIn(a + b) == DirsIn(a) + DirsIn(b)
    decreases |b|
  {
    if b == [] {
      assert a + b == a;
    } else {
      var init := b[..|b| - 1];
      assert (a + b)[..|a + b| - 1] == a + init;
      assert (a + b)[|a + b| - 1] == b[|b| - 1];
      DownloadsInAppend(a, init);
    }
  }

  /** One section creates its directory and, when recognised, downloads it. */
  lemma SectionStepsEffects(url: string, base: FsPath, section: string, formatType: string,
                            audioFormat: Option<string>)
    ensures DownloadsIn(SectionSteps(url, base, section, formatType, audioFormat))
         == if Recognised(section) then [SectionRequest(url, base, section, formatType, audioFormat)] else []
    ensures DirsIn(SectionSteps(url, base, section, formatType, audioFormat)) == [Join(base, section)]
  {
    var steps := SectionSteps(url, base, section, formatType, audioFormat);
    assert DownloadsIn([steps[0]]) == [] && DirsIn([steps[0]]) == [steps[0].path] by {
      assert [steps[0]][..0] == [];
    }
    if Recognised(section) {
      assert steps[..1] == [steps[0]];
    } else {
      assert steps == [steps[0]];
    }
  }

  /**
   * The section loop downloads each recognised section, in list order, from
   * `url/section` into `base/section`, and nothing else.
   */
  lemma {:induction false} SectionsPlanDownloads(url: string, base: FsPath, sections: seq<string>, formatType: string,
                                                 audioFormat: Option<string>)
    ensures DownloadsIn(SectionsPlan(url, base, sections, formatType, audioFormat))
         == SectionRequests(url, base, RecognisedOnly(sections), formatType, audioFormat)
    decreases |sections|
  {
    if sections != [] {
      var init, last := sections[..|sections| - 1], sections[|sections| - 1];
      SectionsPlanDownloads(url, base, init, formatType, audioFormat);
      DownloadsInAppend(SectionsPlan(url, base, init, formatType, audioFormat),
                        SectionSteps(url, base, last, formatType, audioFormat));
      SectionStepsEffects(url, base, last, formatType, audioFormat);
      var names := RecognisedOnly(init);
      if Recognised(last) {
        assert (names + [last])[..|names|] == names;
      } else {
        assert names + [] == names;
      }
    }
  }

  /** The section loop creates the directory of every section, recognised or not, in list order. */
  lemma {:induction false} SectionsPlanDirs(url: string, base: FsPath, sections: seq<string>, formatType: string,
                                            audioFormat: Option<string>)
    ensures DirsIn(SectionsPlan(url, base, sections, formatType, audioFormat)) == SectionDirs(base, sections)
    decreases |sections|
  {
    if sections != [] {
      var init, last := sections[..|sections| - 1], sections[|sections| - 1];
      SectionsPlanDirs(url, base, init, formatType, audioFormat);
      DownloadsInAppend(SectionsPlan(url, base, init, formatType, audioFormat),
                        SectionSteps(url, base, last, formatType, audioFormat));
      SectionStepsEffects(url, base, last, formatType, audioFormat);
    }
  }

  /**
   * With sections the driver creates the channel directory first, then the
   * section directories, and downloads exactly the recognised sections.
   */
  lemma SectionedPlanEffects(url: string, base: FsPath, sections: seq<string>, formatType: string,
                             audioFormat: Option<string>)
    ensures var plan := SectionedPlan(url, base, sections, formatType, audioFormat);
      && DirsIn(plan) == [base] + SectionDirs(base, sections)
      && DownloadsIn(plan) == SectionRequests(url, base, RecognisedOnly(sections), formatType, audioFormat)
  {
    var rest := SectionsPlan(url, base, sections, formatType, audioFormat);
    SectionsPlanDirs(url, base, sections, formatType, audioFormat);
    SectionsPlanDownloads(url, base, sections, formatType, audioFormat);
    DownloadsInAppend([MadeDir(base)], rest);
    assert [MadeDir(base)][..0] == [];
    assert DownloadsIn([MadeDir(base)]) == [];
  }

  /**
   * Without sections, or with an empty list, the driver makes no directory and
   * downloads the URL once with the base options; otherwise it works under the
   * channel directory `output / sanitize(name)`.
   */
  lemma ChannelPlanEffects(url: string, outputPath: string, sections: Option<seq<string>>, formatType: string,
                           audioFormat: Option<string>)
    ensures var plan := ChannelPlan(url, outputPath, sections, formatType, audioFormat);
      if NoSections(sections) then
        DirsIn(plan) == []
        && DownloadsIn(plan) == [SingleItem(url, BuildOptions(PathOf(outputPath), formatType, audioFormat))]
      else
        var base := ChannelDir(url, outputPath);
        DirsIn(plan) == [base] + SectionDirs(base, sections.value)
        && DownloadsIn(plan) == SectionRequests(url, base, RecognisedOnly(sections.value), formatType, audioFormat)
  {
    var plan := ChannelPlan(url, outputPath, sections, formatType, audioFormat);
    if NoSections(sections) {
      assert plan[..0] == [];
    } else {
      SectionedPlanEffects(url, ChannelDir(url, outputPath), sections.value, formatType, audioFormat);
    }
  }

  // ---------------------------------------------------------------------------
  // Running a plan against the oracle

  /**
   * The effects a run performed, its result, and whether it was cut short by
   * a directory that could not be created.
   */
  datatype Run = Run(performed: seq<Effect>, success: bool, aborted: bool)

  /** Every directory creation in `plan`, started at log position `start`, succeeds. */
  predicate DirsMade(plan: seq<Effect>, outcome: nat -> bool, start: nat) {
    forall j :: 0 <= j < |plan| && plan[j].MadeDir? ==> outcome(start + j)
  }

  /**
   * Performs `plan` from log position `start`: a failing directory creation
   * stops everything with `false`; a failing download only makes the result
   * `false`, and the remaining effects still happen.
   */
  function Execute(plan: seq<Effect>, outcome: nat -> bool, start: nat): Run
    decreases |plan|
  {
    if plan == [] then Run([], true, false)
    else if plan[0].MadeDir? && !outcome(start) then Run([plan[0]], false, true)
    else
      var rest := Execute(plan[1..], outcome, start + 1);
      Run([plan[0]] + rest.performed, outcome(start) && rest.success, rest.aborted)
  }

  /** What a run performs is a prefix of the plan. */
  lemma {:induction false} ExecutePerformsPrefix(plan: seq<Effect>, outcome: nat -> bool, start: nat)
    ensures var r := Execute(plan, outcome, start);
      |r.performed| <= |plan| && r.performed == plan[..|r.performed|]
    decreases |plan|
  {
    if plan != [] && !(plan[0].MadeDir? && !outcome(start)) {
      ExecutePerformsPrefix(plan[1..], outcome, start + 1);
    }
  }

  /** The result of a run is the conjunction of the outcomes of everything it performed. */
  lemma {:induction false} ExecuteSuccessIsConjunction(plan: seq<Effect>, outcome: nat -> bool, start: nat)
    ensures var r := Execute(plan, outcome, start);
      r.success <==> forall k :: start <= k < start + |r.performed| ==> outcome(k)
    decreases |plan|
  {
    if plan != [] && !(plan[0].MadeDir? && !outcome(start)) {
      ExecuteSuccessIsConjunction(plan[1..], outcome, start + 1);
    }
  }

  /** A run is cut short exactly when some directory creation of the plan fails; otherwise it performs all of it. */
  lemma {:induction false} ExecuteAbortsIffDirFails(plan: seq<Effect>, outcome: nat -> bool, start: nat)
    ensures var r := Execute(plan, outcome, start);
      && (r.aborted <==> !DirsMade(plan, outcome, start))
      && (!r.aborted ==> r.performed == plan)
    decreases |plan|
  {
    if plan != [] && !(plan[0].MadeDir? && !outcome(start)) {
      ExecuteAbortsIffDirFails(plan[1..], outcome, start + 1);
      assert DirsMade(plan, outcome, start) <==> DirsMade(plan[1..], outcome, start + 1) by {
        if DirsMade(plan[1..], outcome, start + 1) {
          forall j | 0 < j < |plan| && plan[j].MadeDir? ensures outcome(start + j) {
            assert plan[j] == plan[1..][j - 1];
          }
        }
      }
    }
  }

  /** A run that is cut short ends with the first directory creation that fails. */
  lemma {:induction false} ExecuteAbortsAtFirstFailure(plan: seq<Effect>, outcome: nat -> bool, start: nat)
    ensures var r := Execute(plan, outcome, start);
      r.aborted ==>
        && 0 < |r.performed| <= |plan|
        && plan[|r.performed| - 1].MadeDir? && !outcome(start + |r.performed| - 1)
        && DirsMade(plan[..|r.performed| - 1], outcome, start)
    decreases |plan|
  {
    if plan != [] {
      if plan[0].MadeDir? && !outcome(start) {
        assert plan[..0] == [];
      } else {
        var rest := Execute(plan[1..], outcome, start + 1);
        ExecuteAbortsAtFirstFailure(plan[1..], outcome, start + 1);
        if rest.aborted {
          var n := |rest.performed|;
          var before := plan[..n];
          var tail := plan[1..][..n - 1];
          assert DirsMade(tail, outcome, start + 1);
          forall j | 0 <= j < |before| && before[j].MadeDir? ensures outcome(start + j) {
            if j > 0 {
              assert tail[j - 1] == before[j];
              assert outcome(start + 1 + (j - 1));
            }
          }
        }
      }
    }
  }

  /** When every directory can be created, the whole plan is performed, whatever the downloads return. */
  lemma ExecuteWhenDirsMade(plan: seq<Effect>, outcome: nat -> bool, start: nat)
    requires DirsMade(plan, outcome, start)
    ensures Execute(plan, outcome, start).performed == plan
    ensures Execute(plan, outcome, start).success <==>
      forall j :: 0 <= j < |plan| && plan[j].Downloaded? ==> outcome(start + j)
  {
    var r := Execute(plan, outcome, start);
    ExecuteAbortsIffDirFails(plan, outcome, start);
    ExecuteSuccessIsConjunction(plan, outcome, start);
    if r.success {
      forall j | 0 <= j < |plan| && plan[j].Downloaded? ensures outcome(start + j) {
        assert start <= start + j < start + |r.performed|;
      }
    } else {
      var k :| start <= k < start + |plan| && !outcome(k);
      assert plan[k - start].Downloaded?;
    }
  }

  /** A directory that cannot be created makes the whole run fail. */
  lemma ExecuteFailsOnDirError(plan: seq<Effect>, outcome: nat -> bool, start: nat, j: nat)
    requires j < |plan| && plan[j].MadeDir? && !outcome(start + j)
    ensures !Execute(plan, outcome, start).success
  {
    var r := Execute(plan, outcome, start);
    ExecuteAbortsIffDirFails(plan, outcome, start);
    ExecuteAbortsAtFirstFailure(plan, outcome, start);
    ExecuteSuccessIsConjunction(plan, outcome, start);
    assert start + |r.performed| - 1 < start + |r.performed|;
  }

  /** Running `a + b`, where `a` is not cut short, runs `a` and then `b`. */
  lemma {:induction false} ExecuteAppend(a: seq<Effect>, b: seq<Effect>, outcome: nat -> bool, start: nat)
    requires !Execute(a, outcome, start).aborted
    ensures var ra := Execute(a, outcome, start);
      var rb := Execute(b, outcome, start + |a|);
      Execute(a + b, outcome, start) == Run(ra.performed + rb.performed, ra.success && rb.success, rb.aborted)
    decreases |a|
  {
    if a == [] {
      assert a + b == b;
    } else {
      assert (a + b)[0] == a[0];
      assert (a + b)[1..] == a[1..] + b;
      ExecuteAppend(a[1..], b, outcome, start + 1);
    }
  }

  lemma {:induction false} SectionsPlanAppend(url: string, base: FsPath, a: seq<string>, b: seq<string>,
                                              formatType: string, audioFormat: Option<string>)
    ensures SectionsPlan(url, base, a + b, formatType, audioFormat)
         == SectionsPlan(url, base, a, formatType, audioFormat) + SectionsPlan(url, base, b, formatType, audioFormat)
    decreases |b|
  {
    if b == [] {
      assert a + b == a;
    } else {
      var b' := b[..|b| - 1];
      assert (a + b)[..|a + b| - 1] == a + b';
      assert (a + b)[|a + b| - 1] == b[|b| - 1];
      SectionsPlanAppend(url, base, a, b', formatType, audioFormat);
    }
  }

  // ---------------------------------------------------------------------------
  // The driver loop, iteration by iteration

  /** The effects of the section loop once the first `i` sections are done. */
  function Done(url: string, base: FsPath, sections: seq<string>, i: nat, formatType: string,
                audioFormat: Option<string>): seq<Effect>
    requires i <= |sections|
  {
    SectionsPlan(url, base, sections[..i], formatType, audioFormat)
  }

  lemma DoneNext(url: string, base: FsPath, sections: seq<string>, i: nat, formatType: string,
                 audioFormat: Option<string>)
    requires i < |sections|
    ensures Done(url, base, sections, i + 1, formatType, audioFormat)
         == Done(url, base, sections, i, formatType, audioFormat)
            + SectionSteps(url, base, sections[i], formatType, audioFormat)
  {
    assert sections[..i + 1][..i] == sections[..i];
  }

  /** The section loop cut after the first `i` sections. */
  lemma SectionsPlanAt(url: string, base: FsPath, sections: seq<string>, i: nat,
                       formatType: string, audioFormat: Option<string>)
    requires i <= |sections|
    ensures SectionsPlan(url, base, sections, formatType, audioFormat)
         == Done(url, base, sections, i, formatType, audioFormat)
            + SectionsPlan(url, base, sections[i..], formatType, audioFormat)
  {
    assert sections == sections[..i] + sections[i..];
    SectionsPlanAppend(url, base, sections[..i], sections[i..], formatType, audioFormat);
  }

  /** Section `i`'s directory cannot be created: the driver stops there with `false`. */
  lemma AbortAt(url: string, base: FsPath, sections: seq<string>, i: nat, formatType: string,
                audioFormat: Option<string>, outcome: nat -> bool, start: nat, success: bool)
    requires i < |sections|
    requires var done := Done(url, base, sections, i, formatType, audioFormat);
      Execute(done, outcome, start) == Run(done, success, false) && !outcome(start + |done|)
    ensures var run := Execute(SectionsPlan(url, base, sections, formatType, audioFormat), outcome, start);
      && run.performed == Done(url, base, sections, i, formatType, audioFormat) + [MadeDir(Join(base, sections[i]))]
      && !run.success
  {
    var done := Done(url, base, sections, i, formatType, audioFormat);
    var rest := SectionsPlan(url, base, sections[i..], formatType, audioFormat);
    SectionsPlanAt(url, base, sections, i, formatType, audioFormat);
    ExecuteAppend(done, rest, outcome, start);
    assert sections[i..] == [sections[i]] + sections[i + 1..];
    SectionsPlanAppend(url, base, [sections[i]], sections[i + 1..], formatType, audioFormat);
    assert [sections[i]][..0] == [];
    assert rest[0] == MadeDir(Join(base, sections[i]));
  }

  /** Section `i`'s directory was created: the result folds in the section's download, if any. */
  lemma AdvanceAt(url: string, base: FsPath, sections: seq<string>, i: nat, formatType: string,
                  audioFormat: Option<string>, outcome: nat -> bool, start: nat, success: bool)
    requires i < |sections|
    requires var done := Done(url, base, sections, i, formatType, audioFormat);
      Execute(done, outcome, start) == Run(done, success, false) && outcome(start + |done|)
    ensures var done := Done(url, base, sections, i, formatType, audioFormat);
      var next := Done(url, base, sections, i + 1, formatType, audioFormat);
      Execute(next, outcome, start)
        == Run(next, success && (Recognised(sections[i]) ==> outcome(start + |done| + 1)), false)
  {
    var done := Done(url, base, sections, i, formatType, audioFormat);
    var steps := SectionSteps(url, base, sections[i], formatType, audioFormat);
    DoneNext(url, base, sections, i, formatType, audioFormat);
    ExecuteAppend(done, steps, outcome, start);
    var k := start + |done|;
    if Recognised(sections[i]) {
      assert steps[1..] == [steps[1]];
      assert Execute([steps[1]], outcome, k + 1) == Run([steps[1]], outcome(k + 1), false) by {
        assert [steps[1]][1..] == [];
      }
      assert Execute(steps, outcome, k) == Run(steps, outcome(k + 1), false);
    } else {
      assert steps[1..] == [];
    }
  }

  /** The log after section `i`: its directory, then its download, if any. */
  lemma AdvanceLog(url: string, base: FsPath, sections: seq<string>, i: nat, formatType: string,
                   audioFormat: Option<string>, e0: seq<Effect>)
    requires i < |sections|
    ensures e0 + Done(url, base, sections, i + 1, formatType, audioFormat)
         == (e0 + Done(url, base, sections, i, formatType, audioFormat) + [MadeDir(Join(base, sections[i]))])
            + if Recognised(sections[i]) then [Downloaded(SectionRequest(url, base, sections[i], formatType, audioFormat))]
              else []
  {
    var done := Done(url, base, sections, i, formatType, audioFormat);
    var steps := SectionSteps(url, base, sections[i], formatType, audioFormat);
    DoneNext(url, base, sections, i, formatType, audioFormat);
    assert e0 + (done + steps) == (e0 + done + [steps[0]]) + steps[1..];
  }

  /** Before the loop nothing is done; after it, the whole section plan is. */
  lemma DoneBounds(url: string, base: FsPath, sections: seq<string>, formatType: string,
                   audioFormat: Option<string>, outcome: nat -> bool, start: nat, e0: seq<Effect>)
    ensures Done(url, base, sections, 0, formatType, audioFormat) == []
    ensures e0 + Done(url, base, sections, 0, formatType, audioFormat) == e0
    ensures Execute(Done(url, base, sections, 0, formatType, audioFormat), outcome, start) == Run([], true, false)
    ensures Done(url, base, sections, |sections|, formatType, audioFormat)
         == SectionsPlan(url, base, sections, formatType, audioFormat)
  {
    assert sections[..0] == [];
    assert e0 + [] == e0;
    assert sections[..|sections|] == sections;
  }

  /** The channel directory cannot be created: the run stops there with `false`. */
  lemma SectionedRunAborts(url: string, base: FsPath, sections: seq<string>, formatType: string,
                           audioFormat: Option<string>, outcome: nat -> bool, start: nat)
    requires !outcome(start)
    ensures Execute(SectionedPlan(url, base, sections, formatType, audioFormat), outcome, start)
         == Run([MadeDir(base)], false, true)
  {
  }

  /** The channel directory was created: the run goes on with the section loop. */
  lemma SectionedRunContinues(url: string, base: FsPath, sections: seq<string>, formatType: string,
                              audioFormat: Option<string>, outcome: nat -> bool, e0: seq<Effect>)
    requires outcome(|e0|)
    ensures var run := Execute(SectionedPlan(url, base, sections, formatType, audioFormat), outcome, |e0|);
      var rest := Execute(SectionsPlan(url, base, sections, formatType, audioFormat), outcome, |e0| + 1);
      e0 + run.performed == e0 + [MadeDir(base)] + rest.performed && run.success == rest.success
  {
    var plan := SectionsPlan(url, base, sections, formatType, audioFormat);
    ExecuteAppend([MadeDir(base)], plan, outcome, |e0|);
    var performed := Execute(plan, outcome, |e0| + 1).performed;
    assert e0 + ([MadeDir(base)] + performed) == e0 + [MadeDir(base)] + performed;
  }

  /** Without sections the run is the one download. */
  lemma ChannelPlanSingle(url: string, outputPath: string, sections: Option<seq<string>>, formatType: string,
                          audioFormat: Option<string>, outcome: nat -> bool, start: nat)
    requires NoSections(sections)
    ensures var plan := ChannelPlan(url, outputPath, sections, formatType, audioFormat);
      Execute(plan, outcome, start) == Run(plan, outcome(start), false)
  {
    var plan := ChannelPlan(url, outputPath, sections, formatType, audioFormat);
    assert plan[1..] == [];
  }

  // ---------------------------------------------------------------------------
  // The driver

  /**
   * The body of one iteration after its directory exists: a recognised
   * section is downloaded from `url/section` into its directory; any other
   * name leaves everything as it is and does not change the result.
   */
  method DownloadIfRecognised(world: World, url: string, base: FsPath, section: string, formatType: string,
                              audioFormat: Option<string>) returns (ok: bool)
    modifies world
    ensures world.effects == old(world.effects)
      + if Recognised(section) then [Downloaded(SectionRequest(url, base, section, formatType, audioFormat))] else []
    ensures ok == (Recognised(section) ==> world.outcome(|old(world.effects)|))
  {
    var sectionPath := Join(base, section);
    ok := true;
    if section == "playlists" {
      assert url + "/playlists" == url + "/" + section;
      ok := DownloadSection(world, url + "/playlists", sectionPath, formatType, audioFormat);
    } else if section == "videos" {
      assert url + "/videos" == url + "/" + section;
      ok := DownloadSection(world, url + "/videos", sectionPath, formatType, audioFormat);
    } else if section == "releases" {
      assert url + "/releases" == url + "/" + section;
      ok := DownloadSection(world, url + "/releases", sectionPath, formatType, audioFormat);
    } else {
      assert old(world.effects) + [] == old(world.effects);
    }
  }

  /** The loop of the driver over the requested sections, under the channel directory `base`. */
  method DownloadSections(world: World, url: string, base: FsPath, sections: seq<string>, formatType: string,
                          audioFormat: Option<string>) returns (ok: bool)
    modifies world
    ensures var run := Execute(SectionsPlan(url, base, sections, formatType, audioFormat),
                               world.outcome, |old(world.effects)|);
      world.effects == old(world.effects) + run.performed && ok == run.success
  {
    ghost var e0 := world.effects;
    ghost var start := |e0|;
    DoneBounds(url, base, sections, formatType, audioFormat, world.outcome, start, e0);
    var success := true;
    for i := 0 to |sections|
      invariant world.effects == e0 + Done(url, base, sections, i, formatType, audioFormat)
      invariant Execute(Done(url, base, sections, i, formatType, audioFormat), world.outcome, start)
             == Run(Done(url, base, sections, i, formatType, audioFormat), success, false)
    {
      var sectionPath := Join(base, sections[i]);
      var made := world.Mkdir(sectionPath);
      if !made {
        AbortAt(url, base, sections, i, formatType, audioFormat, world.outcome, start, success);
        return false;
      }
      AdvanceAt(url, base, sections, i, formatType, audioFormat, world.outcome, start, success);
      AdvanceLog(url, base, sections, i, formatType, audioFormat, e0);
      var r := DownloadIfRecognised(world, url, base, sections[i], formatType, audioFormat);
      success := success && r;
    }
    return success;
  }

  method DownloadChannel(world: World, url: string, outputPath: string, sections: Option<seq<string>>,
                         formatType: string, audioFormat: Option<string>) returns (ok: bool)
    modifies world
    ensures var run := Execute(ChannelPlan(url, outputPath, sections, formatType, audioFormat),
                               world.outcome, |old(world.effects)|);
      world.effects == old(world.effects) + run.performed && ok == run.success
  {
    if sections.None? || sections.value == [] {
      ChannelPlanSingle(url, outputPath, sections, formatType, audioFormat, world.outcome, |world.effects|);
      ok := DownloadSingleVideo(world, url, outputPath, formatType, audioFormat);
      return;
    }
    var channelInfo := ChannelSections(url);
    var basePath := Join(PathOf(outputPath), Sanitize(channelInfo.channelName));
    assert ChannelPlan(url, outputPath, sections, formatType, audioFormat)
        == SectionedPlan(url, basePath, sections.value, formatType, audioFormat);
    var made := world.Mkdir(basePath);
    if !made {
      SectionedRunAborts(url, basePath, sections.value, formatType, audioFormat, world.outcome, |old(world.effects)|);
      return false;
    }
    SectionedRunContinues(url, basePath, sections.value, formatType, audioFormat, world.outcome, old(world.effects));
    ok := DownloadSections(world, url, basePath, sections.value, formatType, audioFormat);
  }
}

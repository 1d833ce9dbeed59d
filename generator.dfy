/**
 * One run of `genPlaylist` (genPlaylist.py): the rule table and the
 * include/exclude fields, the scan of the General directories, the
 * random draws, the report of names still missing, and the playlist text.
 */
module Generator {
  import opened Wrappers
  import opened Text
  import opened Inputs
  import opened Rules
  import opened Resolution
  import opened Sampling
  import opened Playlist

  /** The artists in the order the rule table lists them: the sections other than General, in order. */
  function ArtistOrder(order: seq<string>): (r: seq<string>)
    ensures forall a :: a in r <==> a in order && a != GENERAL
  {
    if order == [] then []
    else
      var n := order[|order| - 1];
      var front := order[..|order| - 1];
      assert forall a :: a in order <==> a in front || a == n;
      ArtistOrder(front) + (if n != GENERAL then [n] else [])
  }

  /** Leaving General out keeps the section names distinct. */
  lemma {:induction false} ArtistOrderNoDups(order: seq<string>)
    requires NoDups(order)
    ensures NoDups(ArtistOrder(order))
  {
    if order != [] {
      var n := order[|order| - 1];
      var front := order[..|order| - 1];
      ArtistOrderNoDups(front);
      assert n !in front by {
        forall i | 0 <= i < |front|
          ensures front[i] != n
        {
          assert front[i] == order[i];
        }
      }
      NoDupsConcat(ArtistOrder(front), if n != GENERAL then [n] else []);
    }
  }

  /** One warning line of the report: a file name an artist asked for that was never found. */
  datatype Missing = Missing(fileName: string, artist: string)

  /** The warnings for one artist, one per pending name, in the order the set is enumerated. */
  method ReportArtist(artist: string, pending: set<string>) returns (lines: seq<Missing>)
    ensures NoDups(lines)
    ensures forall m :: m in lines <==> m.artist == artist && m.fileName in pending
  {
    lines := [];
    var left := pending;
    while left != {}
      invariant left <= pending
      invariant NoDups(lines)
      invariant forall m :: m in lines <==> m.artist == artist && m.fileName in pending && m.fileName !in left
      decreases |left|
    {
      var fileName :| fileName in left;
      NoDupsConcat(lines, [Missing(fileName, artist)]);
      lines := lines + [Missing(fileName, artist)];
      left := left - {fileName};
    }
  }

  /**
   * The report of pending names: one warning per artist and name still
   * pending, artist by artist; it reads the rule table only.
   */
  method ReportMissing(artists: seq<string>, rules: map<string, ArtistRule>) returns (report: seq<Missing>)
    requires NoDups(artists)
    requires forall a :: a in artists ==> a in rules
    ensures NoDups(report)
    ensures forall m :: m in report <==> m.artist in artists && m.fileName in rules[m.artist].fileNames
  {
    report := [];
    var i := 0;
    while i < |artists|
      invariant 0 <= i <= |artists|
      invariant NoDups(report)
      invariant forall m :: m in report <==> m.artist in artists[..i] && m.fileName in rules[m.artist].fileNames
    {
      var artist := artists[i];
      var lines := ReportArtist(artist, rules[artist].fileNames);
      assert artist !in artists[..i];
      NoDupsConcat(report, lines);
      report := report + lines;
      assert artists[..i + 1] == artists[..i] + [artist];
      i := i + 1;
    }
    assert artists[..i] == artists;
  }

  /** The paths field `key` lists across all sections: the artist sections first, then General. */
  function SetupPaths(host: Host, cfg: Config, key: string): set<string>
  {
    PathsAcross(host, cfg, cfg.order, key)
    + (if GENERAL in cfg.sections then PathTokens(host, cfg.sections[GENERAL], key) else {})
  }

  /** The bare file names field `key` of General lists (none without a General section). */
  function GeneralNames(host: Host, cfg: Config, key: string): set<string>
  {
    if GENERAL in cfg.sections then NameTokens(host, cfg.sections[GENERAL], key) else {}
  }

  /** The state the scan starts from. */
  function InitialScan(host: Host, cfg: Config): ScanState
  {
    ScanState(SetupPaths(host, cfg, INCLUDE_KEY), GeneralNames(host, cfg, INCLUDE_KEY), [], RulesOf(host, cfg, cfg.order))
  }

  /** The state the scan ends in. */
  function ScanOf(host: Host, cfg: Config): ScanState
    requires GENERAL in cfg.sections
  {
    ScanSpec(host, SetupPaths(host, cfg, EXCLUDE_KEY), GeneralNames(host, cfg, EXCLUDE_KEY),
             InitialScan(host, cfg), Candidates(host, cfg.sections[GENERAL]))
  }

  /**
   * The first two steps of `genPlaylist`: `getArtistRules`, then
   * `addSpecifiedFiles` on General (which does nothing when there is no
   * General section).
   */
  method SetUp(host: Host, cfg: Config)
    returns (rules: map<string, ArtistRule>, filePaths: set<string>, excludePaths: set<string>,
             fileNames: set<string>, excludeNames: set<string>)
    requires WellFormed(cfg)
    ensures rules == RulesOf(host, cfg, cfg.order)
    ensures filePaths == SetupPaths(host, cfg, INCLUDE_KEY)
    ensures excludePaths == SetupPaths(host, cfg, EXCLUDE_KEY)
    ensures fileNames == GeneralNames(host, cfg, INCLUDE_KEY)
    ensures excludeNames == GeneralNames(host, cfg, EXCLUDE_KEY)
  {
    rules, filePaths, excludePaths := GetArtistRules(host, cfg, {}, {});
    assert filePaths == PathsAcross(host, cfg, cfg.order, INCLUDE_KEY);
    assert excludePaths == PathsAcross(host, cfg, cfg.order, EXCLUDE_KEY);
    filePaths, excludePaths, fileNames, excludeNames :=
      AddSpecifiedFiles(host, cfg, GENERAL, filePaths, excludePaths, {}, {});
  }

  /** The scan of `genPlaylist`: the files of the General `dirs` entries, if the field is there. */
  method ScanGeneral(host: Host, cfg: Config, start: ScanState, excludePaths: set<string>, excludeNames: set<string>)
    returns (st: ScanState)
    requires GENERAL in cfg.sections
    ensures st == ScanSpec(host, excludePaths, excludeNames, start, Candidates(host, cfg.sections[GENERAL]))
  {
    st := start;
    if DIRS_KEY in cfg.sections[GENERAL] {
      st := ScanDirectories(host, excludePaths, excludeNames, st, Pieces(cfg.sections[GENERAL][DIRS_KEY]));
    }
  }

  /**
   * The scan keeps every artist's record, leaves no excluded path in any
   * pool, and adds no excluded path to the playlist.
   */
  lemma ScanOfKeeps(host: Host, cfg: Config)
    requires WellFormed(cfg) && GENERAL in cfg.sections
    ensures ScanKeeps(SetupPaths(host, cfg, EXCLUDE_KEY), InitialScan(host, cfg), ScanOf(host, cfg))
    ensures ScanOf(host, cfg).rules.Keys == cfg.sections.Keys - {GENERAL}
    ensures PoolsAvoid(ScanOf(host, cfg).rules, SetupPaths(host, cfg, EXCLUDE_KEY))
  {
    var excluded := SetupPaths(host, cfg, EXCLUDE_KEY);
    var start := InitialScan(host, cfg);
    RulesOfConfig(host, cfg);
    assert PoolsAvoid(start.rules, excluded);
    ScanSpecKeeps(host, excluded, GeneralNames(host, cfg, EXCLUDE_KEY), start, Candidates(host, cfg.sections[GENERAL]));
  }

  /**
   * Every path an include field lists is in the playlist, and the only
   * excluded paths in it are ones an include field lists: the scan and
   * the random draws never bring in an excluded path, but a path listed
   * both as included and as excluded stays in.
   */
  lemma ExcludedOnlyIfIncluded(host: Host, cfg: Config, draws: map<string, seq<nat>>, filePaths: set<string>)
    requires WellFormed(cfg) && GENERAL in cfg.sections
    requires filePaths == ScanOf(host, cfg).filePaths + DrawnPaths(ScanOf(host, cfg).rules, ArtistOrder(cfg.order), draws)
    ensures SetupPaths(host, cfg, INCLUDE_KEY) <= filePaths
    ensures forall p :: p in filePaths && p in SetupPaths(host, cfg, EXCLUDE_KEY) ==> p in SetupPaths(host, cfg, INCLUDE_KEY)
  {
    var st := ScanOf(host, cfg);
    var excluded := SetupPaths(host, cfg, EXCLUDE_KEY);
    ScanOfKeeps(host, cfg);
    forall p | p in filePaths && p in excluded
      ensures p in SetupPaths(host, cfg, INCLUDE_KEY)
    {
      if p !in st.filePaths {
        DrawnFromPools(st.rules, ArtistOrder(cfg.order), draws, p);
      }
    }
  }

  /** Why a run stops early: no General section, or `random.sample` refusing a count. */
  datatype Crash = MissingGeneral | SampleError(artist: string, count: int)

  /**
   * A run either crashes with an uncaught exception (and writes nothing)
   * or finishes with the scan's end state, the draws, the playlist set,
   * the missing report and what was written.
   */
  datatype Run =
    | Crashed(reason: Crash)
    | Finished(scan: ScanState, draws: map<string, seq<nat>>, filePaths: set<string>,
               missing: seq<Missing>, playlist: Option<Written>)

  /**
   * The end of `genPlaylist`, once the scan is done: the random draws (or
   * the error `random.sample` raises), the report of pending names, and
   * the written playlist.
   */
  method Finish(host: Host, cfg: Config, st: ScanState) returns (run: Run)
    requires WellFormed(cfg) && GENERAL in cfg.sections
    requires st.rules.Keys == cfg.sections.Keys - {GENERAL}
    ensures run.Crashed? ==>
              && run.reason.SampleError?
              && run.reason.artist in st.rules
              && Requested(host, cfg, run.reason.artist) == Some(run.reason.count)
              && !CountFits(host, cfg, st.rules, run.reason.artist)
              && exists i :: 0 <= i < |ArtistOrder(cfg.order)|
                   && ArtistOrder(cfg.order)[i] == run.reason.artist
                   && (forall j :: 0 <= j < i ==>
                         && ArtistOrder(cfg.order)[j] in st.rules
                         && CountFits(host, cfg, st.rules, ArtistOrder(cfg.order)[j]))
    ensures run.Finished? ==>
              && run.scan == st
              && (forall a :: a in ArtistOrder(cfg.order) ==> a in st.rules && CountFits(host, cfg, st.rules, a))
              && (forall a :: a in run.draws <==> a in ArtistOrder(cfg.order) && Requested(host, cfg, a).Some?)
              && (forall a :: a in run.draws ==>
                    && a in st.rules
                    && Requested(host, cfg, a).Some?
                    && ValidDraw(|st.rules[a].random|, Requested(host, cfg, a).value, run.draws[a]))
              && run.filePaths == st.filePaths + DrawnPaths(st.rules, ArtistOrder(cfg.order), run.draws)
              && NoDups(run.missing)
              && (forall m :: m in run.missing <==> m.artist in st.rules && m.fileName in st.rules[m.artist].fileNames)
              && (run.playlist.None? <==> OUTPUT_PATH_KEY !in cfg.sections[GENERAL])
              && (run.playlist.Some? ==>
                    && run.playlist.value.outputPath == cfg.sections[GENERAL][OUTPUT_PATH_KEY]
                    && NoDups(run.playlist.value.order)
                    && (forall p :: p in run.playlist.value.order <==> p in run.filePaths)
                    && run.playlist.value.text == Document(run.playlist.value.order))
  {
    var artists := ArtistOrder(cfg.order);
    ArtistOrderNoDups(cfg.order);
    var sampled := SampleRandom(host, cfg, st.rules, artists, st.filePaths);
    if sampled.BadCount? {
      return Crashed(SampleError(sampled.artist, sampled.count));
    }
    var missing := ReportMissing(artists, st.rules);
    var playlist := WriteToPlaylist(cfg, sampled.filePaths);
    run := Finished(st, sampled.draws, sampled.filePaths, missing, playlist);
  }

  /**
   * `genPlaylist`. Without a General section the lookup of its `dirs`
   * raises. Otherwise the run is the scan from the set-up state, then the
   * random draws (or the error `random.sample` raises), the report of
   * pending names, and the written playlist.
   */
  method GenPlaylist(host: Host, cfg: Config) returns (run: Run)
    requires WellFormed(cfg)
    ensures run == Crashed(MissingGeneral) <==> GENERAL !in cfg.sections
    ensures run.Crashed? && run.reason.SampleError? ==>
              && GENERAL in cfg.sections
              && run.reason.artist in ScanOf(host, cfg).rules
              && Requested(host, cfg, run.reason.artist) == Some(run.reason.count)
              && !CountFits(host, cfg, ScanOf(host, cfg).rules, run.reason.artist)
              && exists i :: 0 <= i < |ArtistOrder(cfg.order)|
                   && ArtistOrder(cfg.order)[i] == run.reason.artist
                   && (forall j :: 0 <= j < i ==>
                         && ArtistOrder(cfg.order)[j] in ScanOf(host, cfg).rules
                         && CountFits(host, cfg, ScanOf(host, cfg).rules, ArtistOrder(cfg.order)[j]))
    ensures run.Finished? ==>
              && GENERAL in cfg.sections
              && run.scan == ScanOf(host, cfg)
              && (forall a :: a in ArtistOrder(cfg.order) ==>
                    a in run.scan.rules && CountFits(host, cfg, run.scan.rules, a))
              && (forall a :: a in run.draws <==> a in ArtistOrder(cfg.order) && Requested(host, cfg, a).Some?)
              && (forall a :: a in run.draws ==>
                    && a in run.scan.rules
                    && Requested(host, cfg, a).Some?
                    && ValidDraw(|run.scan.rules[a].random|, Requested(host, cfg, a).value, run.draws[a]))
              && run.filePaths == run.scan.filePaths + DrawnPaths(run.scan.rules, ArtistOrder(cfg.order), run.draws)
              && NoDups(run.missing)
              && (forall m :: m in run.missing <==>
                    m.artist in run.scan.rules && m.fileName in run.scan.rules[m.artist].fileNames)
              && (run.playlist.None? <==> OUTPUT_PATH_KEY !in cfg.sections[GENERAL])
              && (run.playlist.Some? ==>
                    && run.playlist.value.outputPath == cfg.sections[GENERAL][OUTPUT_PATH_KEY]
                    && NoDups(run.playlist.value.order)
                    && (forall p :: p in run.playlist.value.order <==> p in run.filePaths)
                    && run.playlist.value.text == Document(run.playlist.value.order))
  {
    var artistRules, filePaths, excludePaths, fileNames, excludeNames := SetUp(host, cfg);
    if GENERAL !in cfg.sections {
      return Crashed(MissingGeneral);
    }
    var start := ScanState(filePaths, fileNames, [], artistRules);
    assert start == InitialScan(host, cfg);
    var st := ScanGeneral(host, cfg, start, excludePaths, excludeNames);
    ScanOfKeeps(host, cfg);
    run := Finish(host, cfg, st);
  }
}

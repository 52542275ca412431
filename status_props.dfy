/**
 * What the backup status report promises, stated against independent
 * definitions and proved about the specification functions of BackupStatus.
 */
module StatusProperties {
  import opened Json
  import opened BackupStatus

  // ---------------------------------------------------------------------
  // The archive entries of one repository

  /** The per-archive query for this entry can be made and answers. */
  predicate Answerable(b: Value, ai: Value -> Answer<Dict<Value>>) {
    ArchiveName(b).Some? && ai(ArchiveName(b).value).Answered?
  }

  /** The info an answerable entry is enriched with. */
  function InfoOf(b: Value, ai: Value -> Answer<Dict<Value>>): Dict<Value> {
    if Answerable(b, ai) then ai(ArchiveName(b).value).value else []
  }

  function Infos(bs: seq<Value>, ai: Value -> Answer<Dict<Value>>): seq<Dict<Value>> {
    seq(|bs|, i requires 0 <= i < |bs| => InfoOf(bs[i], ai))
  }

  /** The infos that make a chart point, in order. */
  function Plotted(infos: seq<Dict<Value>>): seq<Dict<Value>> {
    if infos == [] then []
    else (if Charted(infos[0]) then [infos[0]] else []) + Plotted(infos[1..])
  }

  function Dates(infos: seq<Dict<Value>>): seq<Value> {
    seq(|infos|, i requires 0 <= i < |infos| => GetOr(infos[i], "date", Null))
  }

  function Sizes(infos: seq<Dict<Value>>): seq<Value> {
    seq(|infos|, i requires 0 <= i < |infos| => GetOr(infos[i], "size", Null))
  }

  /** The error an unanswerable entry raises. */
  function EntryError(repo: string, b: Value, ai: Value -> Answer<Dict<Value>>): Error
    requires !Answerable(b, ai)
  {
    if ArchiveName(b).None? then NoArchiveName(repo)
    else ArchiveInfoFailed(repo, ArchiveName(b).value, ai(ArchiveName(b).value).reason)
  }

  lemma {:induction false} PlottedSnoc(infos: seq<Dict<Value>>, info: Dict<Value>)
    ensures Plotted(infos + [info]) == Plotted(infos) + (if Charted(info) then [info] else [])
  {
    if infos == [] {
      assert [info][1..] == [];
    } else {
      assert (infos + [info])[1..] == infos[1..] + [info];
      PlottedSnoc(infos[1..], info);
    }
  }

  /** Every point of the chart comes from a charted info. */
  lemma {:induction false} PlottedAreCharted(infos: seq<Dict<Value>>)
    ensures forall k :: 0 <= k < |Plotted(infos)| ==> Charted(Plotted(infos)[k])
    ensures |Plotted(infos)| <= |infos|
  {
    if infos != [] {
      PlottedAreCharted(infos[1..]);
    }
  }

  /** An empty info leaves the entry as it was and makes no chart point. */
  lemma EmptyInfoChangesNothing(b: Value)
    ensures Merged(b, []) == b && !Charted([])
  {
  }

  /** The inner loop succeeds exactly when every entry has a name and its
      query answers. */
  lemma {:induction false} EnrichSucceedsIff(repo: string, bs: seq<Value>, ai: Value -> Answer<Dict<Value>>)
    ensures Enrich(repo, bs, ai).Ok? <==> forall i :: 0 <= i < |bs| ==> Answerable(bs[i], ai)
  {
    if bs != [] {
      var n := |bs|;
      var pre := bs[..n - 1];
      EnrichSucceedsIff(repo, pre, ai);
      if Enrich(repo, pre, ai).Ok? {
        assert Enrich(repo, bs, ai).Ok? <==> Answerable(bs[n - 1], ai);
        assert forall i :: 0 <= i < n - 1 ==> bs[i] == pre[i];
      } else {
        var i :| 0 <= i < n - 1 && !Answerable(pre[i], ai);
        assert bs[i] == pre[i];
      }
    }
  }

  /** A successful pass appends the merged entry, and a chart point exactly
      when the entry's info is charted. */
  lemma StepContents(repo: string, acc: Enriched, b: Value, ai: Value -> Answer<Dict<Value>>)
    requires EnrichStep(repo, acc, b, ai).Ok?
    ensures Answerable(b, ai)
    ensures var info := InfoOf(b, ai);
            EnrichStep(repo, acc, b, ai).value ==
              if Charted(info) then
                Enriched(acc.backups + [Merged(b, info)],
                         acc.x + [GetOr(info, "date", Null)], acc.y + [GetOr(info, "size", Null)])
              else Enriched(acc.backups + [Merged(b, info)], acc.x, acc.y)
  {
    EmptyInfoChangesNothing(b);
  }

  lemma ChartSnoc(plot: seq<Dict<Value>>, info: Dict<Value>)
    ensures Dates(plot + [info]) == Dates(plot) + [GetOr(info, "date", Null)]
    ensures Sizes(plot + [info]) == Sizes(plot) + [GetOr(info, "size", Null)]
  {
  }

  /** One successful step of the inner loop, read off the whole list. */
  lemma EnrichLast(repo: string, bs: seq<Value>, ai: Value -> Answer<Dict<Value>>)
    requires bs != [] && Enrich(repo, bs, ai).Ok?
    ensures Enrich(repo, bs[..|bs| - 1], ai).Ok?
    ensures EnrichStep(repo, Enrich(repo, bs[..|bs| - 1], ai).value, bs[|bs| - 1], ai)
              == Enrich(repo, bs, ai)
  {
  }

  /** On success entry `i` is entry `i` of the list merged with its info. */
  lemma {:induction false} EnrichEntries(repo: string, bs: seq<Value>, ai: Value -> Answer<Dict<Value>>)
    requires Enrich(repo, bs, ai).Ok?
    ensures var e := Enrich(repo, bs, ai).value;
            && |e.backups| == |bs|
            && forall i :: 0 <= i < |bs| ==> e.backups[i] == Merged(bs[i], InfoOf(bs[i], ai))
  {
    if bs != [] {
      var n := |bs|;
      var pre := bs[..n - 1];
      EnrichLast(repo, bs, ai);
      var acc := Enrich(repo, pre, ai).value;
      var e := Enrich(repo, bs, ai).value;
      EnrichEntries(repo, pre, ai);
      StepContents(repo, acc, bs[n - 1], ai);
      assert e.backups == acc.backups + [Merged(bs[n - 1], InfoOf(bs[n - 1], ai))];
      forall i | 0 <= i < n
        ensures e.backups[i] == Merged(bs[i], InfoOf(bs[i], ai))
      {
        if i < n - 1 {
          assert e.backups[i] == acc.backups[i] && bs[i] == pre[i];
        }
      }
    }
  }

  /** On success the chart holds the dates and sizes of exactly the infos with
      a date and a true size, in archive order. */
  lemma {:induction false} EnrichChart(repo: string, bs: seq<Value>, ai: Value -> Answer<Dict<Value>>)
    requires Enrich(repo, bs, ai).Ok?
    ensures var e := Enrich(repo, bs, ai).value;
            e.x == Dates(Plotted(Infos(bs, ai))) && e.y == Sizes(Plotted(Infos(bs, ai)))
  {
    if bs != [] {
      var n := |bs|;
      var pre := bs[..n - 1];
      var b := bs[n - 1];
      EnrichLast(repo, bs, ai);
      var acc := Enrich(repo, pre, ai).value;
      EnrichChart(repo, pre, ai);
      StepContents(repo, acc, b, ai);
      var info := InfoOf(b, ai);
      assert Infos(bs, ai) == Infos(pre, ai) + [info];
      PlottedSnoc(Infos(pre, ai), info);
      ChartSnoc(Plotted(Infos(pre, ai)), info);
      assert Plotted(Infos(pre, ai)) + [] == Plotted(Infos(pre, ai));
    }
  }

  /** The first entry without a name or whose query raises aborts the loop
      with its error. */
  lemma EnrichFirstFailure(repo: string, bs: seq<Value>, ai: Value -> Answer<Dict<Value>>, i: nat)
    requires i < |bs| && !Answerable(bs[i], ai)
    requires forall j :: 0 <= j < i ==> Answerable(bs[j], ai)
    ensures Enrich(repo, bs, ai) == Err(EntryError(repo, bs[i], ai))
  {
    EnrichSucceedsIff(repo, bs[..i], ai);
    assert bs[..i + 1][..i] == bs[..i];
    EnrichStopsAtError(repo, bs, ai, i + 1);
  }

  /** Every series has as many dates as sizes. */
  lemma SeriesBalanced(repo: string, bs: seq<Value>, ai: Value -> Answer<Dict<Value>>)
    requires Enrich(repo, bs, ai).Ok?
    ensures |Enrich(repo, bs, ai).value.x| == |Enrich(repo, bs, ai).value.y|
  {
    EnrichChart(repo, bs, ai);
  }

  // ---------------------------------------------------------------------
  // The record of one repository

  /** The archive entries the repository info supplies under `backups` (none
      when it has no such key), or None when it supplies something else than a list. */
  function PriorBackups(info: Dict<Value>): Option<seq<Value>> {
    if "backups" !in Keys(info) then Some([])
    else
      var v := GetOr(info, "backups", Null);
      if v.List? then Some(v.items) else None
  }

  /** The archive entries the record lists: those of the repository info,
      then those of the archive list query, when both queries answer. */
  function AllBackups(be: Backend): Option<seq<Value>> {
    if be.info.Answered? && be.list.Answered? && PriorBackups(be.info.value).Some?
    then Some(PriorBackups(be.info.value).value + be.list.value)
    else None
  }

  lemma SeededField(cfg: Dict<Value>, k: string)
    ensures Get(Seeded(cfg), k) ==
              if k == "backups" then Some(List([]))
              else if k == "script" then Some(GetOr(cfg, "script", Str("")))
              else None
  {
    var s := Seeded(cfg);
    assert s[..1] == [("backups", List([]))];
    assert s[..1][..0] == [];
    assert Get(s[..1], k) == if k == "backups" then Some(List([])) else None;
  }

  /** The value of `backups` once the repository info is merged in. */
  lemma MergedBackups(cfg: Dict<Value>, info: Dict<Value>)
    ensures var v := GetOr(Update(Seeded(cfg), info), "backups", Null);
            v.List? <==> PriorBackups(info).Some?
    ensures var v := GetOr(Update(Seeded(cfg), info), "backups", Null);
            v.List? ==> v.items == PriorBackups(info).value
  {
    GetUpdate(Seeded(cfg), info, "backups");
    SeededField(cfg, "backups");
    GetDefined(info, "backups");
  }

  lemma {:induction false} RunStatusField(d: Dict<Value>, all: seq<Value>, latest: Option<LogRun>, k: string)
    ensures Get(WithRunStatus(d, all, latest), k) ==
              if k == "archives" then Some(Int(|all|))
              else if k == "last_result" then Some(Str(if latest.Some? then latest.value.result else "warning"))
              else if k == "last_date" then Some(Str(if latest.Some? then latest.value.date else ""))
              else if k == "last_time" then Some(Str(if latest.Some? then latest.value.time else ""))
              else if k == "last_log" && latest.Some? then Some(Str(latest.value.file))
              else Get(d, k)
  {
    var d1 := Set(d, "last_result", Str("warning"));
    var d2 := Set(d1, "last_date", Str(""));
    var d3 := Set(d2, "last_time", Str(""));
    var d4 := Set(d3, "archives", Int(|all|));
    GetSet(d, "last_result", Str("warning"), k);
    GetSet(d1, "last_date", Str(""), k);
    GetSet(d2, "last_time", Str(""), k);
    GetSet(d3, "archives", Int(|all|), k);
    if latest.Some? {
      var run := latest.value;
      var e1 := Set(d4, "last_log", Str(run.file));
      var e2 := Set(e1, "last_result", Str(run.result));
      var e3 := Set(e2, "last_date", Str(run.date));
      GetSet(d4, "last_log", Str(run.file), k);
      GetSet(e1, "last_result", Str(run.result), k);
      GetSet(e2, "last_date", Str(run.date), k);
      GetSet(e3, "last_time", Str(run.time), k);
    }
  }

  /** A repository's record is built exactly when its configuration has a path
      and a passphrase, its info and list queries answer, the info supplies no
      `backups` other than a list, and every listed archive can be queried. */
  lemma RepoDataSucceedsIff(name: string, cfg: Dict<Value>, be: Backend)
    ensures RepoData(name, cfg, be).Ok? <==>
              && "repo_path" in Keys(cfg) && "repo_pwd" in Keys(cfg)
              && AllBackups(be).Some?
              && forall i :: 0 <= i < |AllBackups(be).value| ==> Answerable(AllBackups(be).value[i], be.archiveInfo)
  {
    if be.info.Answered? {
      MergedBackups(cfg, be.info.value);
      if AllBackups(be).Some? {
        EnrichSucceedsIff(name, AllBackups(be).value, be.archiveInfo);
      }
    }
  }

  /** Precedence of the fields of a repository record, for every key `k`: the
      enriched `backups` and the run-status fields the builder sets win over the
      repository info, which wins over the configured `script`; every other key
      holds what the repository info holds, and `last_log` is only set by the
      builder when there is a log file. */
  lemma RecordField(name: string, cfg: Dict<Value>, be: Backend, k: string)
    requires RepoData(name, cfg, be).Ok?
    ensures AllBackups(be).Some? && Enrich(name, AllBackups(be).value, be.archiveInfo).Ok?
    ensures var all := AllBackups(be).value;
            var latest := be.latestLog;
            Get(RepoData(name, cfg, be).value.0, k) ==
              if k == "backups" then Some(List(Enrich(name, all, be.archiveInfo).value.backups))
              else if k == "archives" then Some(Int(|all|))
              else if k == "last_result" then Some(Str(if latest.Some? then latest.value.result else "warning"))
              else if k == "last_date" then Some(Str(if latest.Some? then latest.value.date else ""))
              else if k == "last_time" then Some(Str(if latest.Some? then latest.value.time else ""))
              else if k == "last_log" && latest.Some? then Some(Str(latest.value.file))
              else if k in Keys(be.info.value) then Get(be.info.value, k)
              else if k == "script" then Some(GetOr(cfg, "script", Str("")))
              else None
  {
    var info := be.info.value;
    var merged := Update(Seeded(cfg), info);
    MergedBackups(cfg, info);
    var all := AllBackups(be).value;
    var withList := Set(merged, "backups", List(all));
    var d := WithRunStatus(withList, all, be.latestLog);
    var e := Enrich(name, all, be.archiveInfo).value;
    GetSet(d, "backups", List(e.backups), k);
    RunStatusField(withList, all, be.latestLog, k);
    GetSet(merged, "backups", List(all), k);
    GetUpdate(Seeded(cfg), info, k);
    SeededField(cfg, k);
  }

  /** The series of a repository is named after it and charts its enriched archives. */
  lemma RecordSeries(name: string, cfg: Dict<Value>, be: Backend)
    requires RepoData(name, cfg, be).Ok?
    ensures AllBackups(be).Some? && Enrich(name, AllBackups(be).value, be.archiveInfo).Ok?
    ensures var e := Enrich(name, AllBackups(be).value, be.archiveInfo).value;
            RepoData(name, cfg, be).value.1 == Series(name, e.x, e.y)
    ensures |RepoData(name, cfg, be).value.1.x| == |RepoData(name, cfg, be).value.1.y|
  {
    MergedBackups(cfg, be.info.value);
    SeriesBalanced(name, AllBackups(be).value, be.archiveInfo);
  }

  /** `archives` is the number of entries under `backups`, and those entries are
      the repository info's, then the listed archives, in list order, each merged
      with its own info. */
  lemma ArchivesCountBackups(name: string, cfg: Dict<Value>, be: Backend)
    requires RepoData(name, cfg, be).Ok?
    ensures AllBackups(be).Some?
    ensures var d := RepoData(name, cfg, be).value.0;
            var all := AllBackups(be).value;
            && Get(d, "backups").Some? && Get(d, "backups").value.List?
            && var bs := Get(d, "backups").value.items;
               && Get(d, "archives") == Some(Int(|bs|))
               && |bs| == |all|
               && forall i :: 0 <= i < |all| ==> bs[i] == Merged(all[i], InfoOf(all[i], be.archiveInfo))
  {
    RecordField(name, cfg, be, "backups");
    RecordField(name, cfg, be, "archives");
    EnrichEntries(name, AllBackups(be).value, be.archiveInfo);
  }

  // ---------------------------------------------------------------------
  // The report. Build(config, backends, clock) is Fold(Update([], config), RepoOf(backends), clock);
  // the lemmas below hold for any way `repo` of building one repository.

  /** What `repo` makes of the i-th configured repository. */
  function RepoAt(config: Dict<Dict<Value>>, repo: (string, Dict<Value>) -> Result<(Dict<Value>, Series)>, i: nat): Result<(Dict<Value>, Series)>
    requires i < |config|
  {
    repo(config[i].0, config[i].1)
  }

  /** The report is built exactly when every configured repository's record is:
      one failing query aborts the whole report. */
  lemma {:induction false} FoldSucceedsIff(config: Dict<Dict<Value>>, repo: (string, Dict<Value>) -> Result<(Dict<Value>, Series)>, clock: string)
    ensures Fold(config, repo, clock).Ok? <==>
              forall i :: 0 <= i < |config| ==> RepoAt(config, repo, i).Ok?
  {
    if config != [] {
      var n := |config|;
      var pre := config[..n - 1];
      FoldSucceedsIff(pre, repo, clock);
      assert forall i :: 0 <= i < n - 1 ==> RepoAt(pre, repo, i) == RepoAt(config, repo, i);
      if Fold(pre, repo, clock).Ok? {
        assert Fold(config, repo, clock).Ok? <==> RepoAt(config, repo, n - 1).Ok?;
      } else {
        var i :| 0 <= i < n - 1 && !RepoAt(pre, repo, i).Ok?;
        assert !RepoAt(config, repo, i).Ok?;
      }
    }
  }

  /** The build fails with the error of the first repository that fails. */
  lemma FoldFirstFailure(config: Dict<Dict<Value>>, repo: (string, Dict<Value>) -> Result<(Dict<Value>, Series)>, clock: string, i: nat)
    requires i < |config| && RepoAt(config, repo, i).Err?
    requires forall j :: 0 <= j < i ==> RepoAt(config, repo, j).Ok?
    ensures Fold(config, repo, clock) == Err(RepoAt(config, repo, i).error)
  {
    assert forall j :: 0 <= j < i ==> RepoAt(config[..i], repo, j) == RepoAt(config, repo, j);
    FoldSucceedsIff(config[..i], repo, clock);
    assert config[..i + 1][..i] == config[..i];
    FoldStopsAtError(config, repo, clock, i + 1);
  }

  /** One series per configured repository, in configuration order, each the
      one built for that repository; `ctime` is set exactly when there is at
      least one repository. */
  lemma {:induction false} FoldSeries(config: Dict<Dict<Value>>, repo: (string, Dict<Value>) -> Result<(Dict<Value>, Series)>, clock: string)
    requires Fold(config, repo, clock).Ok?
    ensures var st := Fold(config, repo, clock).value;
            && |st.bargraph| == |config|
            && (forall i :: 0 <= i < |config| ==>
                  RepoAt(config, repo, i).Ok? && st.bargraph[i] == RepoAt(config, repo, i).value.1)
            && st.ctime == if config == [] then None else Some(clock)
  {
    if config != [] {
      var n := |config|;
      var pre := config[..n - 1];
      assert Fold(pre, repo, clock).Ok?;
      FoldSeries(pre, repo, clock);
      assert forall i :: 0 <= i < n - 1 ==> RepoAt(pre, repo, i) == RepoAt(config, repo, i);
    }
  }

  /** With distinct repository names, as in any configuration mapping, the
      report has one record per repository, keyed and ordered as configured,
      each the record built for that repository. */
  lemma {:induction false} FoldRecords(config: Dict<Dict<Value>>, repo: (string, Dict<Value>) -> Result<(Dict<Value>, Series)>, clock: string)
    requires UniqueKeys(config) && Fold(config, repo, clock).Ok?
    ensures var st := Fold(config, repo, clock).value;
            && Keys(st.repos) == Keys(config)
            && forall i :: 0 <= i < |config| ==>
                 RepoAt(config, repo, i).Ok? &&
                 Get(st.repos, config[i].0) == Some(Obj(RepoAt(config, repo, i).value.0))
  {
    if config != [] {
      var n := |config|;
      var pre := config[..n - 1];
      var name := config[n - 1].0;
      assert Fold(pre, repo, clock).Ok?;
      var repos := Fold(pre, repo, clock).value.repos;
      var d := RepoAt(config, repo, n - 1).value.0;
      assert Fold(config, repo, clock).value.repos == Set(repos, name, Obj(d));
      assert UniqueKeys(pre) by {
        forall i, j | 0 <= i < j < |pre| ensures pre[i].0 != pre[j].0 {
          assert pre[i] == config[i] && pre[j] == config[j];
        }
      }
      FoldRecords(pre, repo, clock);
      KeysOfPrefix(config);
      assert name !in Keys(pre) by {
        forall i | 0 <= i < |pre| ensures Keys(pre)[i] != name {
          assert Keys(pre)[i] == config[i].0;
        }
      }
      KeysSet(repos, name, Obj(d));
      forall i | 0 <= i < n
        ensures RepoAt(config, repo, i).Ok?
        ensures Get(Set(repos, name, Obj(d)), config[i].0) == Some(Obj(RepoAt(config, repo, i).value.0))
      {
        GetSet(repos, name, Obj(d), config[i].0);
        if i < n - 1 {
          assert RepoAt(pre, repo, i) == RepoAt(config, repo, i);
          assert config[i].0 != name;
        }
      }
    }
  }

  /** Every series of the report is named after its repository and has as
      many dates as sizes; there is one per distinct configured name, in the
      order in which the names first appear. */
  lemma BargraphBalanced(config: Dict<Dict<Value>>, backends: string -> Backend, clock: string)
    requires Build(config, backends, clock).Ok?
    ensures var st := Build(config, backends, clock).value;
            var repos := Update([], config);
            && |st.bargraph| == |repos|
            && forall i :: 0 <= i < |repos| ==>
              && st.bargraph[i].name == repos[i].0
              && |st.bargraph[i].x| == |st.bargraph[i].y|
  {
    var repos := Update([], config);
    FoldSeries(repos, RepoOf(backends), clock);
    var st := Build(config, backends, clock).value;
    forall i | 0 <= i < |repos|
      ensures st.bargraph[i].name == repos[i].0 && |st.bargraph[i].x| == |st.bargraph[i].y|
    {
      assert RepoAt(repos, RepoOf(backends), i) == RepoData(repos[i].0, repos[i].1, backends(repos[i].0));
      RecordSeries(repos[i].0, repos[i].1, backends(repos[i].0));
    }
  }

  /** Looping over `dict(config)` gives a record exactly for the configured
      names, each name once, holding what `repo` makes of that name's last
      configuration. */
  lemma DictRecords(config: Dict<Dict<Value>>, repo: (string, Dict<Value>) -> Result<(Dict<Value>, Series)>, clock: string)
    requires Fold(Update([], config), repo, clock).Ok?
    ensures var st := Fold(Update([], config), repo, clock).value;
            && UniqueKeys(st.repos)
            && (forall k :: k in Keys(st.repos) <==> k in Keys(config))
            && forall k :: k in Keys(config) ==>
                 && Get(config, k).Some?
                 && repo(k, Get(config, k).value).Ok?
                 && Get(st.repos, k) == Some(Obj(repo(k, Get(config, k).value).value.0))
  {
    var repos := Update([], config);
    var st := Fold(repos, repo, clock).value;
    UpdateUnique([], config);
    FoldRecords(repos, repo, clock);
    assert UniqueKeys(st.repos) by {
      forall i, j | 0 <= i < j < |st.repos| ensures st.repos[i].0 != st.repos[j].0 {
        assert Keys(st.repos)[i] == st.repos[i].0 && Keys(st.repos)[j] == st.repos[j].0;
        assert Keys(repos)[i] == repos[i].0 && Keys(repos)[j] == repos[j].0;
      }
    }
    forall k ensures k in Keys(st.repos) <==> k in Keys(config) {
      KeysUpdate([], config, k);
    }
    forall k | k in Keys(config)
      ensures Get(config, k).Some?
      ensures repo(k, Get(config, k).value).Ok?
      ensures Get(st.repos, k) == Some(Obj(repo(k, Get(config, k).value).value.0))
    {
      GetDefined(config, k);
      KeysUpdate([], config, k);
      var i :| 0 <= i < |repos| && Keys(repos)[i] == k;
      GetUnique(repos, i);
      GetUpdate([], config, k);
      assert RepoAt(repos, repo, i) == repo(k, repos[i].1);
    }
  }

  /** The report has a record exactly for the configured names, each name
      once, holding the record built from that name's last configuration. */
  lemma BuildRecords(config: Dict<Dict<Value>>, backends: string -> Backend, clock: string)
    requires Build(config, backends, clock).Ok?
    ensures var st := Build(config, backends, clock).value;
            && UniqueKeys(st.repos)
            && (forall k :: k in Keys(st.repos) <==> k in Keys(config))
            && forall k :: k in Keys(config) ==>
                 && Get(config, k).Some?
                 && RepoData(k, Get(config, k).value, backends(k)).Ok?
                 && Get(st.repos, k) == Some(Obj(RepoData(k, Get(config, k).value, backends(k)).value.0))
  {
    DictRecords(config, RepoOf(backends), clock);
    forall k | k in Keys(config) && Get(config, k).Some?
      ensures RepoOf(backends)(k, Get(config, k).value) == RepoData(k, Get(config, k).value, backends(k))
    {
    }
  }

  /** A configuration without a repeated name, as any configuration mapping
      is, is visited exactly as given. */
  lemma ConfiguredAsGiven(config: Dict<Dict<Value>>, backends: string -> Backend, clock: string)
    requires UniqueKeys(config)
    ensures Build(config, backends, clock) == Fold(config, RepoOf(backends), clock)
  {
    DictOfUnique(config);
  }
}

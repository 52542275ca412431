/**
 * The backup status report: one record and one bar-chart series per
 * configured repository, assembled from the answers of the backup tool and
 * of the run logs.
 *
 * The answers of those collaborators are inputs here. Each specification
 * function below is a left fold (recursion on the last element), so that the
 * loops of the methods that implement them can be checked step by step.
 */
module BackupStatus {
  import opened Json

  /** What a collaborator call gave back: a value, or an exception. */
  datatype Answer<+T> = Answered(value: T) | Raised(reason: string)

  /** The first log file of a repository and the (result, date, time) read from it. */
  datatype LogRun = LogRun(file: string, result: string, date: string, time: string)

  /** What the builder learns about one repository from outside. */
  datatype Backend = Backend(
    info: Answer<Dict<Value>>,                  // repository info query
    list: Answer<seq<Value>>,                   // archive list query
    archiveInfo: Value -> Answer<Dict<Value>>,  // info query for one archive, by name
    latestLog: Option<LogRun>)                  // None when there is no log file

  /** Why a build was aborted. Every one of them escapes the builder. */
  datatype Error =
    | ConfigKeyMissing(repo: string, key: string)
    | InfoFailed(repo: string, reason: string)
    | ListFailed(repo: string, reason: string)
    | BackupsNotAList(repo: string)
    | NoArchiveName(repo: string)
    | ArchiveInfoFailed(repo: string, archive: Value, reason: string)

  datatype Result<+T> = Ok(value: T) | Err(error: Error)

  /** One bar-chart series: dates on `x`, sizes on `y`. */
  datatype Series = Series(name: string, x: seq<Value>, y: seq<Value>)

  /** The report: `repos`, `bargraph` and, once a repository was processed, `ctime`. */
  datatype Status = Status(repos: Dict<Value>, bargraph: seq<Series>, ctime: Option<string>)

  /** The archive entries of one repository after enrichment, and its chart points. */
  datatype Enriched = Enriched(backups: seq<Value>, x: seq<Value>, y: seq<Value>)

  /** `backup["name"]`; None where that lookup raises. */
  function ArchiveName(b: Value): Option<Value> {
    match b
    case Obj(f) => Get(f, "name")
    case _ => None
  }

  /** `backup.update(info)` */
  function Merged(b: Value, info: Dict<Value>): Value {
    match b
    case Obj(f) => Obj(Update(f, info))
    case _ => b
  }

  /** An archive is charted when its info has a `date` key and a true `size`. */
  predicate Charted(info: Dict<Value>) {
    "date" in Keys(info) && Truthy(GetOr(info, "size", Null))
  }

  /** One pass of the inner loop, for the archive entry `b`: the entry is
      merged with its info when that info is non-empty, and charted when its
      info has a date and a true size. */
  function EnrichStep(repo: string, acc: Enriched, b: Value, ai: Value -> Answer<Dict<Value>>): Result<Enriched> {
    match ArchiveName(b)
    case None => Err(NoArchiveName(repo))
    case Some(n) =>
      match ai(n)
      case Raised(why) => Err(ArchiveInfoFailed(repo, n, why))
      case Answered(info) =>
        if info == [] then Ok(Enriched(acc.backups + [b], acc.x, acc.y))
        else if Charted(info) then
          Ok(Enriched(acc.backups + [Merged(b, info)],
                      acc.x + [GetOr(info, "date", Null)],
                      acc.y + [GetOr(info, "size", Null)]))
        else Ok(Enriched(acc.backups + [Merged(b, info)], acc.x, acc.y))
  }

  /** The inner loop over the archive entries of one repository. */
  function Enrich(repo: string, bs: seq<Value>, ai: Value -> Answer<Dict<Value>>): Result<Enriched> {
    if bs == [] then Ok(Enriched([], [], []))
    else
      match Enrich(repo, bs[..|bs| - 1], ai)
      case Err(e) => Err(e)
      case Ok(acc) => EnrichStep(repo, acc, bs[|bs| - 1], ai)
  }

  /** A record before the repository info is merged in. */
  function Seeded(cfg: Dict<Value>): Dict<Value> {
    [("backups", List([])), ("script", GetOr(cfg, "script", Str("")))]
  }

  /** The run-status fields: the defaults, then the first log file's status if any. */
  function WithRunStatus(d: Dict<Value>, all: seq<Value>, latest: Option<LogRun>): Dict<Value> {
    var defaulted :=
      Set(Set(Set(Set(d, "last_result", Str("warning")), "last_date", Str("")), "last_time", Str("")),
          "archives", Int(|all|));
    match latest
    case None => defaulted
    case Some(run) =>
      Set(Set(Set(Set(defaulted, "last_log", Str(run.file)), "last_result", Str(run.result)),
              "last_date", Str(run.date)), "last_time", Str(run.time))
  }

  /** The record and the series of one repository, or the error that aborts the build. */
  function RepoData(name: string, cfg: Dict<Value>, be: Backend): Result<(Dict<Value>, Series)> {
    if "repo_path" !in Keys(cfg) then Err(ConfigKeyMissing(name, "repo_path"))
    else if "repo_pwd" !in Keys(cfg) then Err(ConfigKeyMissing(name, "repo_pwd"))
    else
      match be.info
      case Raised(why) => Err(InfoFailed(name, why))
      case Answered(info) =>
        var merged: Dict<Value> := Update(Seeded(cfg), info);
        match be.list
        case Raised(why) => Err(ListFailed(name, why))
        case Answered(listed) =>
          var current := GetOr(merged, "backups", Null);
          if !current.List? then Err(BackupsNotAList(name))
          else
            var all := current.items + listed;
            var d := WithRunStatus(Set(merged, "backups", List(all)), all, be.latestLog);
            match Enrich(name, all, be.archiveInfo)
            case Err(e) => Err(e)
            case Ok(e) => Ok((Set(d, "backups", List(e.backups)), Series(name, e.x, e.y)))
  }

  /** One pass of the outer loop: the repository's record and series are
      added to the report, and `ctime` is stamped. */
  function AddRepo(st: Status, name: string, repo: Result<(Dict<Value>, Series)>, clock: string): Result<Status> {
    match repo
    case Err(e) => Err(e)
    case Ok((d, s)) => Ok(Status(Set(st.repos, name, Obj(d)), st.bargraph + [s], Some(clock)))
  }

  /** The outer loop over the configured repositories, in configuration order,
      for any way `repo` of building one repository's record and series. */
  function Fold(config: Dict<Dict<Value>>, repo: (string, Dict<Value>) -> Result<(Dict<Value>, Series)>, clock: string): Result<Status> {
    if config == [] then Ok(Status([], [], None))
    else
      match Fold(config[..|config| - 1], repo, clock)
      case Err(e) => Err(e)
      case Ok(st) => AddRepo(st, config[|config| - 1].0, repo(config[|config| - 1].0, config[|config| - 1].1), clock)
  }

  /** Each repository is built from the answers of its own collaborators. */
  function RepoOf(backends: string -> Backend): (string, Dict<Value>) -> Result<(Dict<Value>, Series)> {
    (name: string, cfg: Dict<Value>) => RepoData(name, cfg, backends(name))
  }

  /** The whole report for the configured repositories. The configuration is
      first made a dictionary, so a repeated name is visited once, with its
      last configuration. */
  function Build(config: Dict<Dict<Value>>, backends: string -> Backend, clock: string): Result<Status> {
    Fold(Update([], config), RepoOf(backends), clock)
  }

  function SeriesJson(s: Series): Value {
    Obj([("type", Str("bar")), ("name", Str(s.name)), ("x", List(s.x)), ("y", List(s.y))])
  }

  /** The document that is serialized; it is never false, so a cached copy of
      it is always served. */
  function ToJson(st: Status): (v: Value)
    ensures Truthy(v)
  {
    Obj([("repos", Obj(st.repos)),
         ("bargraph", List(seq(|st.bargraph|, i requires 0 <= i < |st.bargraph| => SeriesJson(st.bargraph[i]))))]
        + match st.ctime case Some(t) => [("ctime", Str(t))] case None => [])
  }

  /** Once an archive aborts the inner loop, the later archives change nothing. */
  lemma {:induction false} EnrichStopsAtError(repo: string, bs: seq<Value>, ai: Value -> Answer<Dict<Value>>, k: nat)
    requires k <= |bs| && Enrich(repo, bs[..k], ai).Err?
    ensures Enrich(repo, bs, ai) == Enrich(repo, bs[..k], ai)
    decreases |bs| - k
  {
    if k < |bs| {
      assert bs[..k + 1][..k] == bs[..k];
      EnrichStopsAtError(repo, bs, ai, k + 1);
    } else {
      assert bs[..k] == bs;
    }
  }

  /** Once a repository aborts the build, the later repositories change nothing. */
  lemma {:induction false} FoldStopsAtError(config: Dict<Dict<Value>>, repo: (string, Dict<Value>) -> Result<(Dict<Value>, Series)>, clock: string, k: nat)
    requires k <= |config| && Fold(config[..k], repo, clock).Err?
    ensures Fold(config, repo, clock) == Fold(config[..k], repo, clock)
    decreases |config| - k
  {
    if k < |config| {
      assert config[..k + 1][..k] == config[..k];
      FoldStopsAtError(config, repo, clock, k + 1);
    } else {
      assert config[..k] == config;
    }
  }

  /** The loop over the archive entries of one repository, updating them in place. */
  method EnrichBackups(repo: string, backups: seq<Value>, ai: Value -> Answer<Dict<Value>>) returns (r: Result<Enriched>)
    ensures r == Enrich(repo, backups, ai)
  {
    var bs := backups;
    var xs: seq<Value> := [];
    var ys: seq<Value> := [];
    for i := 0 to |backups|
      invariant |bs| == |backups|
      invariant forall j :: i <= j < |bs| ==> bs[j] == backups[j]
      invariant Enrich(repo, backups[..i], ai) == Ok(Enriched(bs[..i], xs, ys))
    {
      assert backups[..i + 1][..i] == backups[..i];
      assert bs[i] == backups[i];
      var name := ArchiveName(bs[i]);
      if name.None? {
        EnrichStopsAtError(repo, backups, ai, i + 1);
        return Err(NoArchiveName(repo));
      }
      var answer := ai(name.value);
      if answer.Raised? {
        EnrichStopsAtError(repo, backups, ai, i + 1);
        return Err(ArchiveInfoFailed(repo, name.value, answer.reason));
      }
      var info := answer.value;
      if info != [] {
        bs := bs[i := Merged(bs[i], info)];
        if Charted(info) {
          xs := xs + [GetOr(info, "date", Null)];
          ys := ys + [GetOr(info, "size", Null)];
        }
      }
      assert bs[..i + 1] == bs[..i] + [bs[i]];
    }
    assert backups[..|backups|] == backups && bs[..|bs|] == bs;
    return Ok(Enriched(bs, xs, ys));
  }

  /** The body of the outer loop for one repository. */
  method BuildRepo(name: string, cfg: Dict<Value>, be: Backend) returns (r: Result<(Dict<Value>, Series)>)
    ensures r == RepoData(name, cfg, be)
  {
    var repoData := [("backups", List([])), ("script", GetOr(cfg, "script", Str("")))];
    if "repo_path" !in Keys(cfg) {
      return Err(ConfigKeyMissing(name, "repo_path"));
    }
    if "repo_pwd" !in Keys(cfg) {
      return Err(ConfigKeyMissing(name, "repo_pwd"));
    }
    if be.info.Raised? {
      return Err(InfoFailed(name, be.info.reason));
    }
    repoData := Update(repoData, be.info.value);
    if be.list.Raised? {
      return Err(ListFailed(name, be.list.reason));
    }
    var backups := GetOr(repoData, "backups", Null);
    if !backups.List? {
      return Err(BackupsNotAList(name));
    }
    var all := backups.items + be.list.value;
    repoData := Set(repoData, "backups", List(all));
    repoData := Set(repoData, "last_result", Str("warning"));
    repoData := Set(repoData, "last_date", Str(""));
    repoData := Set(repoData, "last_time", Str(""));
    repoData := Set(repoData, "archives", Int(|all|));
    if be.latestLog.Some? {
      var run := be.latestLog.value;
      repoData := Set(repoData, "last_log", Str(run.file));
      repoData := Set(repoData, "last_result", Str(run.result));
      repoData := Set(repoData, "last_date", Str(run.date));
      repoData := Set(repoData, "last_time", Str(run.time));
    }
    var enriched := EnrichBackups(name, all, be.archiveInfo);
    if enriched.Err? {
      return Err(enriched.error);
    }
    repoData := Set(repoData, "backups", List(enriched.value.backups));
    return Ok((repoData, Series(name, enriched.value.x, enriched.value.y)));
  }

  /** The loop over the repository dictionary, in its order. */
  method AssembleRepos(repos: Dict<Dict<Value>>, backends: string -> Backend, clock: string) returns (r: Result<Status>)
    ensures r == Fold(repos, RepoOf(backends), clock)
  {
    var records: Dict<Value> := [];
    var bargraph: seq<Series> := [];
    var ctime: Option<string> := None;
    for i := 0 to |repos|
      invariant Fold(repos[..i], RepoOf(backends), clock) == Ok(Status(records, bargraph, ctime))
    {
      assert repos[..i + 1][..i] == repos[..i];
      var (name, cfg) := repos[i];
      var repo := BuildRepo(name, cfg, backends(name));
      if repo.Err? {
        FoldStopsAtError(repos, RepoOf(backends), clock, i + 1);
        return Err(repo.error);
      }
      records := Set(records, name, Obj(repo.value.0));
      bargraph := bargraph + [repo.value.1];
      ctime := Some(clock);
    }
    assert repos[..|repos|] == repos;
    return Ok(Status(records, bargraph, ctime));
  }

  /** The report: the configuration is made a dictionary, then looped over. */
  method AssembleStatus(config: Dict<Dict<Value>>, backends: string -> Backend, clock: string) returns (r: Result<Status>)
    ensures r == Build(config, backends, clock)
  {
    var repos := Update([], config);
    r := AssembleRepos(repos, backends, clock);
  }
}

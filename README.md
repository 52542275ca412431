# borgweb backup status: report builder and report cache

A Dafny model of the backup status view of borgweb (`borgweb/views/backups.py`).
The view does two things:

- It builds a status report. The configured repositories are first made a
  dictionary, so a repeated name counts once, with its last configuration.
  For each repository, in configuration order, it makes one record under
  `repos` and one bar-chart series under `bargraph`, and it stamps `ctime`. The repository record starts
  from `backups` and `script`. The repository info is merged into it, the
  listed archives are appended, and the run-status fields and the archive
  count are set. Each archive entry is then merged with its own info. An
  archive is charted as a `(date, size)` point when its info has a `date` and
  a true `size`.
- It caches the serialized report in one file whose modification time is its
  age. A request serves the parsed file while it is younger than the TTL.
  Otherwise it builds the report, writes it to the file and returns it. A
  flush removes the file.

Files:

- `json.dfy` (module `Json`): JSON documents, the host language's truthiness,
  and its insertion-ordered dictionary (`Get`, `Set`, `Update`) with lemmas.
- `status.dfy` (module `BackupStatus`): the answers of the backup tool and of
  the run logs as inputs (`Backend`). It holds the specification functions
  `Enrich`, `RepoData`, `Fold` and `Build`, and the methods `EnrichBackups`,
  `BuildRepo` and `AssembleRepos`, which implement the loops and are proved
  equal to `Enrich`, `RepoData` and `Fold`. `Build` is
  `Fold(Update([], config), RepoOf(backends), clock)`: `Fold` loops over
  `dict(config)`. `AssembleStatus` computes `dict(config)` and calls
  `AssembleRepos`, so it is proved equal to `Build`.
- `status_props.dfy` (module `StatusProperties`): what the report promises,
  proved about the specification functions.
- `cache.dfy` (module `StatusCache`): the cache file as a class with
  `present`, `mtime` and `content`, the request dispatch, and client methods
  that state properties across several calls.

Where the intended design and the code differ, the model follows the code:

- A failing query aborts the whole report. There is no degraded per-repository
  or per-archive entry. Any exception in the loop escapes to the request,
  which answers with an error.
- A cache file that cannot be parsed fails the request (`CacheUnreadable`).
  It is not treated as a miss.
- The cache file is written in place. There is no write-to-temp-then-rename.
- A parsed cache document that is false (for example `{}`) is not served. The
  request builds a new report instead, because the dispatch is `load() or create()`.
- `last_log` is absent only when the repository info does not supply it.
- The repository info can replace `backups` and `script`. A `backups` that is
  not a list aborts the build.

## Model

| member | source | states |
|---|---|---|
| `Json.GetSet` | borgweb/views/backups.py:82-85 | after `d[k] = v`, key `k` reads `v` and every other key reads what it read before |
| `Json.GetUpdate` | borgweb/views/backups.py:75 | after `d.update(e)`, a key reads its value from `e` if `e` has it, and from `d` otherwise |
| `Json.UpdateUnique` | borgweb/views/backups.py:61 | `dict(pairs)` never repeats a key |
| `Json.DictOfUnique` | borgweb/views/backups.py:61 | `dict(pairs)` of pairs without a repeated key is those pairs, in order |
| `BackupStatus.ToJson` | borgweb/views/backups.py:62-68 | the report document is never false, so a fresh cache file that parses back to it is served rather than rebuilt |
| `BackupStatus.EnrichBackups` | borgweb/views/backups.py:96-107 | the inner loop, updating entries in place, computes exactly `Enrich`, including the error of an aborting archive |
| `BackupStatus.BuildRepo` | borgweb/views/backups.py:67-107 | the loop body for one repository computes exactly `RepoData`, in the source's order of queries and assignments |
| `BackupStatus.AssembleRepos` | borgweb/views/backups.py:66-112 | the loop over the repository dictionary computes exactly `Fold` over it; the first failing repository aborts it with its error |
| `BackupStatus.AssembleStatus` | borgweb/views/backups.py:60-112 | the outer loop over `dict(config)` computes exactly `Build`; the first failing repository aborts it with its error |
| `StatusProperties.PlottedAreCharted` | borgweb/views/backups.py:101-103 | every chart point comes from an info with a `date` key and a true `size` |
| `StatusProperties.EmptyInfoChangesNothing` | borgweb/views/backups.py:99-107 | an empty archive info leaves the entry unchanged and adds no chart point |
| `StatusProperties.EnrichSucceedsIff` | borgweb/views/backups.py:97-98 | the inner loop succeeds if and only if every entry has a `name` and its info query answers |
| `StatusProperties.StepContents` | borgweb/views/backups.py:98-105 | one successful pass appends the merged entry, and a point exactly when the info is charted |
| `StatusProperties.EnrichEntries` | borgweb/views/backups.py:97-100 | on success, entry `i` is entry `i` merged with its info |
| `StatusProperties.EnrichChart` | borgweb/views/backups.py:101-103 | on success, `x`/`y` are the dates/sizes of exactly the charted infos, in archive order |
| `StatusProperties.EnrichFirstFailure` | borgweb/views/backups.py:97-98 | the first entry without a name, or whose query raises, aborts the loop with its own error |
| `StatusProperties.SeriesBalanced` | borgweb/views/backups.py:101-103 | a series has as many dates as sizes |
| `StatusProperties.SeededField` | borgweb/views/backups.py:69-70 | a fresh record holds `backups = []` and `script` from the configuration (default `""`), nothing else |
| `StatusProperties.MergedBackups` | borgweb/views/backups.py:69-79 | after the merge, `backups` is a list exactly when the repository info has no `backups` or a list there |
| `StatusProperties.RunStatusField` | borgweb/views/backups.py:82-94 | `archives` is the entry count; `last_*` are `warning`/`""`/`""` without a log file and the first log file's status with one; `last_log` is set only with a log file |
| `StatusProperties.RepoDataSucceedsIff` | borgweb/views/backups.py:70-98 | a record is built if and only if the configuration has `repo_path` and `repo_pwd`, both queries answer, `backups` stays a list, and every archive can be queried |
| `StatusProperties.RecordField` | borgweb/views/backups.py:67-107 | the precedence of every key of a record: builder-set fields over repository info over configured `script`; other keys are the repository info's |
| `StatusProperties.RecordSeries` | borgweb/views/backups.py:68 | the series is named after the repository, charts its enriched archives, and has `len(x) == len(y)` |
| `StatusProperties.ArchivesCountBackups` | borgweb/views/backups.py:78-85 | `archives` equals the number of entries in `backups`; those are the info's entries, then the listed ones in list order, each merged with its info |
| `StatusProperties.FoldSucceedsIff` | borgweb/views/backups.py:66-111 | the report is built if and only if every repository's record is |
| `StatusProperties.FoldFirstFailure` | borgweb/views/backups.py:66-111 | a failing build carries the error of the first failing repository |
| `StatusProperties.FoldSeries` | borgweb/views/backups.py:111-112 | the loop over the repository dictionary adds one series per entry, in order; `ctime` is set if and only if there is a repository |
| `StatusProperties.FoldRecords` | borgweb/views/backups.py:61-110 | over a dictionary without repeated names, `repos` has exactly its names in order, each with its own record |
| `StatusProperties.BargraphBalanced` | borgweb/views/backups.py:61-111 | one series per distinct configured name, in order of first appearance; each is named after its repository and has `len(x) == len(y)` |
| `StatusProperties.DictRecords` | borgweb/views/backups.py:61-110 | for any way of building one repository, looping over `dict(config)` gives exactly the configured names as keys, each once, with what is built from its last configuration |
| `StatusProperties.BuildRecords` | borgweb/views/backups.py:61-110 | the report's records are keyed by exactly the configured names, each once, each holding the record built from that name's last configuration |
| `StatusProperties.ConfiguredAsGiven` | borgweb/views/backups.py:61-66 | a configuration without repeated names is visited exactly as given |
| `StatusCache.TtlBoundary` | borgweb/views/backups.py:52 | a file exactly `ttl` old is stale; one a second younger is fresh |
| `StatusCache.CacheFile.Load` | borgweb/views/backups.py:49-57 | content is read if and only if the file exists and `now - mtime < ttl`; a parse error is reported, not turned into a miss |
| `StatusCache.CacheFile.Save` | borgweb/views/backups.py:44-46 | the file exists afterwards with the given text and the write time as mtime |
| `StatusCache.CacheFile.Invalidate` | borgweb/views/backups.py:19-26 | the file is gone, every later load misses, and the reply is ok whether or not it existed |
| `StatusCache.CacheFile.CreateBackupStatus` | borgweb/views/backups.py:114-118 | the returned text is the serialized report and equals the stored content; an aborted build stores nothing |
| `StatusCache.CacheFile.GetBackups` | borgweb/views/backups.py:33-41 | a fresh, true cached document is served with the file unchanged; otherwise the report is built and stored, or the build's error is answered |
| `StatusCache.RequestTwice` | borgweb/views/backups.py:37 | a request within the TTL of a report's writing is served the very document built, with no build, when that document parses back from its serialization |
| `StatusCache.FlushThenRequest` | borgweb/views/backups.py:23-37 | after a flush the next request always builds, and stores the report with the write time as mtime |
| `StatusCache.FlushTwice` | borgweb/views/backups.py:23-26 | flushing twice leaves the same state and reply as flushing once |

## Left out

- HTTP routing, `jsonify` and the application configuration. The repository
  mapping, TTL and cache file are parameters, or the `CacheFile` object.
- The backup tool client and the log scanner are not part of this model.
  Their answers are inputs (`Backend`). `set_repo` and the log scanner are
  taken never to raise. Of the log files, only the first one and the status
  read from it are modelled.
- JSON serialization and parsing are a `Codec` parameter. No codec is assumed
  lossless on every document (floats, modelled as reals, cannot all survive a
  text form); `RequestTwice` assumes only that the report it writes parses
  back to itself (`RoundTrips`).
- Clocks: times are whole seconds. The file's mtime is the `savedAt` reading.
  `time.ctime()` is one `clock` string. The source reads it once per
  repository, and only the last reading survives.
- Filesystem errors: a failing `os.remove` (which gives an error reply) and a
  failing `open`/`write` in the save are not modelled.
- Concurrent requests racing on the cache file.
- Object identity. The same dictionary object appearing twice among the
  archive entries (updated twice in place) is not modelled. Entries are values.
- Error text and logging. An escaping exception is an `Error` value naming
  the failing step, not the formatted message.
- Documents are JSON values only. A repository or archive info that is not a
  dictionary is not modelled. Floats are reals.

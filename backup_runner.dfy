/**
 * The backup job: export the budget from the Actual server (always shutting
 * the API down afterwards), check and start one upload task per enabled
 * destination in a fixed order, wait for all of them, and, when no local copy
 * was written, leave a `.last-success` marker beside the output directory.
 *
 * The Actual API, the file system and the outcome of each upload task are
 * oracles; the steps the job takes are recorded in a trace.
 */
module Runner {
  import opened Results
  import opened Text
  import opened Js
  import opened Paths
  import Config
  import Tokens
  import Local
  import Naming
  import DriveExport
  import S3Export
  import DropboxExport
  import WebDavExport

  /** The destinations, in the order the job checks and starts them. */
  datatype Dest = LocalDest | DriveDest | S3Dest | DropboxDest | WebDavDest

  function Rank(d: Dest): nat {
    match d
    case LocalDest => 0
    case DriveDest => 1
    case S3Dest => 2
    case DropboxDest => 3
    case WebDavDest => 4
  }

  /** The arguments `writeLocalBackup` receives: the local settings, the budget id and the stamp. */
  datatype LocalJob = LocalJob(outputDir: string, retentionCount: int, retentionWeeks: int,
                               budgetId: string, timestamp: string)

  /** An upload task as started, with the options handed to its exporter. */
  datatype Task =
    | LocalTask(local: LocalJob)
    | DriveTask(drive: DriveExport.DriveOptions)
    | S3Task(s3: S3Export.S3Options)
    | DropboxTask(dropbox: DropboxExport.DropboxOptions)
    | WebDavTask(webdav: WebDavExport.WebDavOptions)

  function DestOf(t: Task): Dest {
    match t
    case LocalTask(_) => LocalDest
    case DriveTask(_) => DriveDest
    case S3Task(_) => S3Dest
    case DropboxTask(_) => DropboxDest
    case WebDavTask(_) => WebDavDest
  }

  // ---------------------------------------------------------------------
  // exportBudgetBuffer
  // ---------------------------------------------------------------------

  /** What the Actual API and the file system answer during an export.
      `download` is `None` when `downloadBudget` rejects; `existing` are the
      paths `fs.stat` finds; `loadable` the ids `loadBudget` accepts;
      `exportResult` is `None` when `internal.send` rejects. */
  datatype ActualApi = ActualApi(
    mkdirOk: bool,
    initOk: bool,
    download: Option<Value>,
    existing: set<string>,
    loadable: set<string>,
    exportResult: Option<Value>,
    shutdownOk: bool)

  datatype ExportError =
    | BudgetDirFailed
    | InitFailed
    | DownloadFailed
    | DbFileMissing(dbFile: string)
    | LoadFailed
    | ExportFailed
    | NoData

  /** One step of the job, in the order it is taken. */
  datatype Step =
    | MakeBudgetDir(dir: string)
    | CloseBudget
    | Init(dataDir: string, serverUrl: string, password: string)
    | Download(syncId: string, encryptionPassword: Option<string>)
    | Stat(path: string)
    | Load(budgetId: string)
    | SendExport
    | Shutdown
    | ReadTokens(provider: string)
    | Start(task: Task)
    | MakeOutputDir(dir: string)
    | MakeMarkerDir(dir: string)
    | WriteMarker(path: string, content: string)

  /** `downloadResult?.error` is set, or the download rejected. */
  predicate DownloadRejected(download: Option<Value>) {
    download.None? || Truthy(Get(download.value, "error"))
  }

  /** A non-empty string. */
  predicate NonEmptyStr(v: Value) {
    v.Str? && |v.s| > 0
  }

  /** The id the download result offers, before trimming: `result.id` when it is a
      non-empty string, else `result.id.id`, else `result.budgetId`. */
  function OfferedId(result: Value): (r: Option<string>)
    ensures r.Some? ==> |r.value| > 0
  {
    if !Truthy(result) then None
    else if NonEmptyStr(Get(result, "id")) then Some(Get(result, "id").s)
    else if Truthy(Get(result, "id")) && NonEmptyStr(Get(Get(result, "id"), "id")) then Some(Get(Get(result, "id"), "id").s)
    else if NonEmptyStr(Get(result, "budgetId")) then Some(Get(result, "budgetId").s)
    else None
  }

  /** `resolvedBudgetId`: the offered id trimmed, unless that leaves nothing, else the sync id. */
  function ResolveBudgetId(result: Value, syncId: string): (r: string)
    ensures r == syncId || (r != "" && Trimmed(r))
    ensures OfferedId(result).None? ==> r == syncId
  {
    var offered := OfferedId(result);
    var trimmed := if offered.Some? then Trim(offered.value) else syncId;
    if |trimmed| > 0 then trimmed else syncId
  }

  /** `result.id` wins whenever it is a non-empty string, even over a `budgetId`. */
  lemma ResolveFromId(result: Value, syncId: string, id: string)
    requires result.Obj? && Get(result, "id") == Str(id) && id != ""
    ensures ResolveBudgetId(result, syncId) == (if Trim(id) != "" then Trim(id) else syncId)
  {
  }

  /** A nested `result.id.id` is used when `result.id` is an object. */
  lemma ResolveFromNestedId(result: Value, syncId: string, id: string)
    requires result.Obj? && Get(result, "id").Obj? && Get(Get(result, "id"), "id") == Str(id) && id != ""
    ensures ResolveBudgetId(result, syncId) == (if Trim(id) != "" then Trim(id) else syncId)
  {
  }

  /** `result.budgetId` is the last resort before the sync id. */
  lemma ResolveFromBudgetId(result: Value, syncId: string, id: string)
    requires result.Obj? && !Truthy(Get(result, "id")) && Get(result, "budgetId") == Str(id) && id != ""
    ensures ResolveBudgetId(result, syncId) == (if Trim(id) != "" then Trim(id) else syncId)
  {
  }

  /** An id of white space alone falls back to the sync id, and hides a `budgetId` beside it. */
  lemma BlankIdFallsBack(result: Value, syncId: string, blank: string, other: string)
    requires result.Obj? && Get(result, "id") == Str(blank) && blank != "" && AllSpace(blank)
    requires Get(result, "budgetId") == Str(other)
    ensures ResolveBudgetId(result, syncId) == syncId
  {
    TrimPadded(blank, "", "");
    assert blank + "" + "" == blank;
  }

  /** `path.join(budgetDir, budgetId, "db.sqlite")` */
  function DbFile(budgetDir: string, budgetId: string): string {
    JoinPath(JoinPath(budgetDir, budgetId), "db.sqlite")
  }

  /** `downloadOptions.password`: the encryption key, when it is set. */
  function DownloadPassword(encryptionKey: Option<string>): Option<string> {
    if Filled(encryptionKey) then encryptionKey else None
  }

  /** `loadBudget(id)`, and `loadBudget(syncId)` once more when that throws. */
  function LoadAttempts(id: string, syncId: string, loadable: set<string>): seq<Step> {
    if id in loadable then [Load(id)] else [Load(id), Load(syncId)]
  }

  /** The buffer `export-budget` yields: an error when it rejects or reports one, or gives no data. */
  function ExportedData(exportResult: Option<Value>): (r: Result<Value, ExportError>)
    ensures r.Ok? ==> Truthy(r.value)
  {
    if exportResult.None? || Truthy(Get(exportResult.value, "error")) then Err(ExportFailed)
    else if !Truthy(Get(exportResult.value, "data")) then Err(NoData)
    else Ok(Get(exportResult.value, "data"))
  }

  datatype ExportRun = ExportRun(result: Result<Value, ExportError>, steps: seq<Step>)

  /** `exportBudgetBuffer(config)`: its outcome and the steps it takes. */
  function Export(actual: Config.ActualSettings, api: ActualApi): ExportRun {
    var dir := actual.budgetDir;
    if !api.mkdirOk then ExportRun(Err(BudgetDirFailed), [MakeBudgetDir(dir)])
    else
      var prepared := [MakeBudgetDir(dir), CloseBudget, Init(dir, actual.serverUrl, actual.password)];
      if !api.initOk then ExportRun(Err(InitFailed), prepared)
      else
        var downloaded := prepared + [Download(actual.syncId, DownloadPassword(actual.encryptionKey))];
        if DownloadRejected(api.download) then ExportRun(Err(DownloadFailed), downloaded)
        else
          var id := ResolveBudgetId(api.download.value, actual.syncId);
          var statted := downloaded + [Stat(DbFile(dir, id))];
          if DbFile(dir, id) !in api.existing then ExportRun(Err(DbFileMissing(DbFile(dir, id))), statted)
          else
            var loaded := statted + LoadAttempts(id, actual.syncId, api.loadable);
            if id !in api.loadable && actual.syncId !in api.loadable then ExportRun(Err(LoadFailed), loaded)
            else ExportRun(ExportedData(api.exportResult), loaded + [SendExport])
  }

  /** A failed download ends the export before the database is looked at. */
  lemma DownloadAborts(actual: Config.ActualSettings, api: ActualApi)
    requires api.mkdirOk && api.initOk && DownloadRejected(api.download)
    ensures Export(actual, api).result == Err(DownloadFailed)
    ensures forall s :: s in Export(actual, api).steps ==> !s.Stat? && !s.Load? && !s.SendExport?
  {
  }

  /** A successful export found the database of the resolved id, loaded that id
      or the sync id, and returns truthy data with no error reported. */
  lemma ExportSucceeded(actual: Config.ActualSettings, api: ActualApi)
    requires Export(actual, api).result.Ok?
    ensures api.mkdirOk && api.initOk && !DownloadRejected(api.download)
    ensures var id := ResolveBudgetId(api.download.value, actual.syncId);
            && DbFile(actual.budgetDir, id) in api.existing
            && (id in api.loadable || actual.syncId in api.loadable)
    ensures api.exportResult.Some? && !Truthy(Get(api.exportResult.value, "error"))
    ensures Export(actual, api).result.value == Get(api.exportResult.value, "data")
    ensures Truthy(Export(actual, api).result.value)
  {
  }

  /** The load is retried once, with the sync id, and only when the resolved id fails. */
  lemma LoadRetriedOnce(actual: Config.ActualSettings, api: ActualApi)
    requires api.mkdirOk && api.initOk && !DownloadRejected(api.download)
    requires DbFile(actual.budgetDir, ResolveBudgetId(api.download.value, actual.syncId)) in api.existing
    ensures var id := ResolveBudgetId(api.download.value, actual.syncId);
            var steps := Export(actual, api).steps;
            && steps[5] == Load(id)
            && (id in api.loadable ==> steps[6] == SendExport)
            && (id !in api.loadable ==> steps[6] == Load(actual.syncId))
            && (id !in api.loadable && actual.syncId !in api.loadable ==> Export(actual, api).result == Err(LoadFailed))
  {
  }

  /** The `budgetId` variable of `exportBudgetBuffer`, as the code narrows it. */
  method ResolveId(result: Value, syncId: string) returns (resolved: string)
    ensures resolved == ResolveBudgetId(result, syncId)
  {
    var budgetId := syncId;
    if Truthy(result) {
      var id := Get(result, "id");
      if id.Str? && |id.s| > 0 {
        budgetId := Trim(id.s);
      } else if Truthy(id) && Get(id, "id").Str? && |Get(id, "id").s| > 0 {
        budgetId := Trim(Get(id, "id").s);
      } else if Get(result, "budgetId").Str? && |Get(result, "budgetId").s| > 0 {
        budgetId := Trim(Get(result, "budgetId").s);
      }
    }
    resolved := if |budgetId| > 0 then budgetId else syncId;
  }

  /** `exportBudgetBuffer`, step by step. */
  method ExportBudgetBuffer(actual: Config.ActualSettings, api: ActualApi)
    returns (r: Result<Value, ExportError>, steps: seq<Step>)
    ensures ExportRun(r, steps) == Export(actual, api)
  {
    var dir := actual.budgetDir;
    steps := [MakeBudgetDir(dir)];
    if !api.mkdirOk {
      return Err(BudgetDirFailed), steps;
    }
    // a failing `closeBudget` is logged and ignored
    steps := steps + [CloseBudget, Init(dir, actual.serverUrl, actual.password)];
    if !api.initOk {
      return Err(InitFailed), steps;
    }
    var password: Option<string> := None;
    if Filled(actual.encryptionKey) {
      password := actual.encryptionKey;
    }
    steps := steps + [Download(actual.syncId, password)];
    if api.download.None? || Truthy(Get(api.download.value, "error")) {
      return Err(DownloadFailed), steps;
    }
    var resolved := ResolveId(api.download.value, actual.syncId);
    var dbFile := JoinPath(JoinPath(dir, resolved), "db.sqlite");
    steps := steps + [Stat(dbFile)];
    if dbFile !in api.existing {
      return Err(DbFileMissing(dbFile)), steps;
    }
    steps := steps + [Load(resolved)];
    if resolved !in api.loadable {
      steps := steps + [Load(actual.syncId)];
      if actual.syncId !in api.loadable {
        return Err(LoadFailed), steps;
      }
    }
    steps := steps + [SendExport];
    var exported := api.exportResult;
    if exported.None? || Truthy(Get(exported.value, "error")) {
      return Err(ExportFailed), steps;
    }
    var data := Get(exported.value, "data");
    if !Truthy(data) {
      return Err(NoData), steps;
    }
    return Ok(data), steps;
  }

  // ---------------------------------------------------------------------
  // runBackup
  // ---------------------------------------------------------------------

  /** The token store the job is given: none, or its base directory and files. */
  datatype StoreView = NoStore | StoreAt(baseDir: string, files: map<string, Tokens.Stored>)

  function View(store: Tokens.TokenStore?): StoreView
    reads store
  {
    if store == null then NoStore else StoreAt(store.baseDir, store.files)
  }

  /** `await tokenStore.get(provider)` */
  function ReadStore(store: StoreView, provider: string): Result<Value, Tokens.StoreError>
    requires store.StoreAt?
  {
    Tokens.Read(store.files, Tokens.ProviderFile(store.baseDir, provider))
  }

  datatype RunError =
    | ExportError(cause: ExportError)
    | DriveKeyMissing
    | DriveClientMissing
    | DriveStoreMissing
    | DriveTokensUnreadable(driveStoreError: Tokens.StoreError)
    | DriveNotLinked
    | S3BucketMissing
    | DropboxAppMissing
    | DropboxStoreMissing
    | DropboxTokensUnreadable(dropboxStoreError: Tokens.StoreError)
    | DropboxNotLinked
    | WebDavUrlMissing
    | UploadsFailed(failed: set<Dest>)
    | MarkerFailed

  /** The errors thrown while checking a destination's settings, before `Promise.all`. */
  predicate Rejection(e: RunError) {
    !e.ExportError? && !e.UploadsFailed? && !e.MarkerFailed?
  }

  /** The destination whose check threw. */
  function RejectedDest(e: RunError): Dest
    requires Rejection(e)
  {
    match e
    case S3BucketMissing => S3Dest
    case WebDavUrlMissing => WebDavDest
    case DropboxAppMissing => DropboxDest
    case DropboxStoreMissing => DropboxDest
    case DropboxTokensUnreadable(_) => DropboxDest
    case DropboxNotLinked => DropboxDest
    case _ => DriveDest
  }

  /** `new Date().toISOString().replace(/[:]/g, "-")` */
  function RunStamp(isoNow: string): (ts: string)
    ensures ts == Naming.RemoteStamp(None, isoNow)
  {
    Replace(isoNow, ':', "-")
  }

  /** The checks and task starts of one destination: the steps taken, and the error thrown if any. */
  datatype Stage = Stage(steps: seq<Step>, error: Option<RunError>)

  /** The later stage runs only when the earlier one threw nothing. */
  function Then(a: Stage, b: Stage): Stage {
    if a.error.Some? then a else Stage(a.steps + b.steps, b.error)
  }

  function LocalStage(c: Config.LocalSettings, budgetId: string, stamp: string): Stage {
    if !c.enabled then Stage([], None)
    else Stage([Start(LocalTask(LocalJob(c.outputDir, c.retentionCount, c.retentionWeeks, budgetId, stamp)))], None)
  }

  /** `{ ...config.googleDrive, budgetId, timestamp }` with the `oauth` the exporter sees. */
  function DriveOptionsFor(s: Config.DriveSettings, budgetId: string, stamp: string,
                           oauth: Option<DriveExport.DriveOAuth>): DriveExport.DriveOptions {
    DriveExport.DriveOptions(s.credentialsPath, s.folderId, budgetId, Some(stamp), oauth)
  }

  function DriveStage(s: Config.DriveSettings, store: StoreView, budgetId: string, stamp: string): Stage {
    if !s.enabled then Stage([], None)
    else if s.mode == Config.ServiceAccount then
      if !Filled(s.credentialsPath) then Stage([], Some(DriveKeyMissing))
      else Stage([Start(DriveTask(DriveOptionsFor(s, budgetId, stamp, None)))], None)
    else if !Filled(s.clientId) || !Filled(s.clientSecret) then Stage([], Some(DriveClientMissing))
    else if store.NoStore? then Stage([], Some(DriveStoreMissing))
    else
      var tokens := ReadStore(store, "google");
      if tokens.Err? then Stage([ReadTokens("google")], Some(DriveTokensUnreadable(tokens.error)))
      else if !Truthy(tokens.value) then Stage([ReadTokens("google")], Some(DriveNotLinked))
      else
        var oauth := DriveExport.DriveOAuth(s.clientId, s.clientSecret, tokens.value, true);
        Stage([ReadTokens("google"), Start(DriveTask(DriveOptionsFor(s, budgetId, stamp, Some(oauth))))], None)
  }

  function S3Stage(s: Config.S3Settings, budgetId: string, stamp: string): Stage {
    if !s.enabled then Stage([], None)
    else if !Filled(s.bucket) then Stage([], Some(S3BucketMissing))
    else
      var opts := S3Export.S3Options(s.endpoint, s.region, s.bucket, Some(s.prefix), s.accessKeyId,
                                     s.secretAccessKey, s.forcePathStyle, budgetId, Some(stamp));
      Stage([Start(S3Task(opts))], None)
  }

  function DropboxOptionsFor(s: Config.DropboxSettings, budgetId: string, stamp: string,
                             oauth: Option<DropboxExport.DropboxOAuth>): DropboxExport.DropboxOptions {
    DropboxExport.DropboxOptions(s.accessToken, Some(s.basePath), budgetId, Some(stamp), oauth)
  }

  function DropboxStage(s: Config.DropboxSettings, store: StoreView, budgetId: string, stamp: string): Stage {
    if !s.enabled then Stage([], None)
    else if Filled(s.accessToken) then Stage([Start(DropboxTask(DropboxOptionsFor(s, budgetId, stamp, None)))], None)
    else if !Filled(s.appKey) || !Filled(s.appSecret) then Stage([], Some(DropboxAppMissing))
    else if store.NoStore? then Stage([], Some(DropboxStoreMissing))
    else
      var tokens := ReadStore(store, "dropbox");
      if tokens.Err? then Stage([ReadTokens("dropbox")], Some(DropboxTokensUnreadable(tokens.error)))
      else if !Truthy(tokens.value) then Stage([ReadTokens("dropbox")], Some(DropboxNotLinked))
      else
        var oauth := DropboxExport.DropboxOAuth(s.appKey.value, s.appSecret.value, tokens.value, true);
        Stage([ReadTokens("dropbox"), Start(DropboxTask(DropboxOptionsFor(s, budgetId, stamp, Some(oauth))))], None)
  }

  function WebDavStage(s: Config.WebDavSettings, budgetId: string, stamp: string): Stage {
    if !s.enabled then Stage([], None)
    else if !Filled(s.url) then Stage([], Some(WebDavUrlMissing))
    else
      var opts := WebDavExport.WebDavOptions(s.url, s.username, s.password, Some(s.basePath), budgetId, Some(stamp));
      Stage([Start(WebDavTask(opts))], None)
  }

  /** The five checks in the order the job makes them: local, Drive, S3, Dropbox, WebDAV. */
  function Admit(config: Config.Settings, store: StoreView, budgetId: string, stamp: string): Stage {
    Then(Then(Then(Then(
      LocalStage(config.local, budgetId, stamp),
      DriveStage(config.googleDrive, store, budgetId, stamp)),
      S3Stage(config.s3, budgetId, stamp)),
      DropboxStage(config.dropbox, store, budgetId, stamp)),
      WebDavStage(config.webdav, budgetId, stamp))
  }

  /** The destinations whose tasks the steps start. */
  function Launched(steps: seq<Step>): set<Dest> {
    set s | s in steps && s.Start? :: DestOf(s.task)
  }

  /** What the file system answers while the marker is written. */
  datatype MarkerDisk = MarkerDisk(outputDirOk: bool, markerDirOk: bool, writeOk: bool)

  datatype RunResult = RunResult(result: Result<(), RunError>, steps: seq<Step>)

  /** The directory `markSuccess` is given: `outputDir || budgetDir`. */
  function MarkedDir(config: Config.Settings): string {
    if config.local.outputDir != "" then config.local.outputDir else config.actual.budgetDir
  }

  /** `ensureDir(outputDir)` then `markSuccess(outputDir || budgetDir)`: the parent of
      that directory gets `.last-success` holding the time in whole seconds. */
  function Marker(config: Config.Settings, nowMs: int, disk: MarkerDisk): RunResult {
    var markerDir := Dirname(MarkedDir(config));
    var made := [MakeOutputDir(config.local.outputDir)];
    if !disk.outputDirOk then RunResult(Err(MarkerFailed), made)
    else if !disk.markerDirOk then RunResult(Err(MarkerFailed), made + [MakeMarkerDir(markerDir)])
    else
      RunResult(if disk.writeOk then Ok(()) else Err(MarkerFailed),
                made + [MakeMarkerDir(markerDir), WriteMarker(JoinPath(markerDir, ".last-success"), DecimalString(nowMs / 1000))])
  }

  /** `runBackup(config, tokenStore)`: its outcome and the steps it takes. `failing` are
      the destinations whose upload task rejects; `Promise.all` rejects with one of their
      errors, so the outcome names them all. */
  function Run(config: Config.Settings, store: StoreView, api: ActualApi, isoNow: string, nowMs: int,
               failing: set<Dest>, disk: MarkerDisk): RunResult {
    var ex := Export(config.actual, api);
    var exported := ex.steps + [Shutdown];
    if ex.result.Err? then RunResult(Err(ExportError(ex.result.error)), exported)
    else
      var admitted := Admit(config, store, config.actual.syncId, RunStamp(isoNow));
      var started := exported + admitted.steps;
      if admitted.error.Some? then RunResult(Err(admitted.error.value), started)
      else if Launched(admitted.steps) * failing != {} then
        RunResult(Err(UploadsFailed(Launched(admitted.steps) * failing)), started)
      else if config.local.enabled then RunResult(Ok(()), started)
      else
        var marked := Marker(config, nowMs, disk);
        RunResult(marked.result, started + marked.steps)
  }

  /** The Drive checks of `runBackup`, reading the token store when OAuth is used. */
  method CheckDrive(s: Config.DriveSettings, store: Tokens.TokenStore?, budgetId: string, stamp: string)
    returns (st: Stage)
    ensures st == DriveStage(s, View(store), budgetId, stamp)
  {
    if !s.enabled {
      return Stage([], None);
    }
    if s.mode == Config.ServiceAccount {
      if !Filled(s.credentialsPath) {
        return Stage([], Some(DriveKeyMissing));
      }
      // a missing folder id is only a warning
      return Stage([Start(DriveTask(DriveOptionsFor(s, budgetId, stamp, None)))], None);
    }
    if !Filled(s.clientId) || !Filled(s.clientSecret) {
      return Stage([], Some(DriveClientMissing));
    }
    if store == null {
      return Stage([], Some(DriveStoreMissing));
    }
    var tokens := store.Get("google");
    if tokens.Err? {
      return Stage([ReadTokens("google")], Some(DriveTokensUnreadable(tokens.error)));
    }
    if !Truthy(tokens.value) {
      return Stage([ReadTokens("google")], Some(DriveNotLinked));
    }
    var oauth := DriveExport.DriveOAuth(s.clientId, s.clientSecret, tokens.value, true);
    return Stage([ReadTokens("google"), Start(DriveTask(DriveOptionsFor(s, budgetId, stamp, Some(oauth))))], None);
  }

  /** The Dropbox checks of `runBackup`: a static token, else the linked tokens from the store. */
  method CheckDropbox(s: Config.DropboxSettings, store: Tokens.TokenStore?, budgetId: string, stamp: string)
    returns (st: Stage)
    ensures st == DropboxStage(s, View(store), budgetId, stamp)
  {
    if !s.enabled {
      return Stage([], None);
    }
    if Filled(s.accessToken) {
      return Stage([Start(DropboxTask(DropboxOptionsFor(s, budgetId, stamp, None)))], None);
    }
    if !Filled(s.appKey) || !Filled(s.appSecret) {
      return Stage([], Some(DropboxAppMissing));
    }
    if store == null {
      return Stage([], Some(DropboxStoreMissing));
    }
    var tokens := store.Get("dropbox");
    if tokens.Err? {
      return Stage([ReadTokens("dropbox")], Some(DropboxTokensUnreadable(tokens.error)));
    }
    if !Truthy(tokens.value) {
      return Stage([ReadTokens("dropbox")], Some(DropboxNotLinked));
    }
    var oauth := DropboxExport.DropboxOAuth(s.appKey.value, s.appSecret.value, tokens.value, true);
    return Stage([ReadTokens("dropbox"), Start(DropboxTask(DropboxOptionsFor(s, budgetId, stamp, Some(oauth))))], None);
  }

  /** The destination checks of `runBackup`, in order, stopping at the first that throws. */
  method CheckDestinations(config: Config.Settings, store: Tokens.TokenStore?, budgetId: string, stamp: string)
    returns (checks: Stage)
    ensures checks == Admit(config, View(store), budgetId, stamp)
  {
    checks := Stage([], None);
    if config.local.enabled {
      checks := Stage([Start(LocalTask(LocalJob(config.local.outputDir, config.local.retentionCount,
                                                config.local.retentionWeeks, budgetId, stamp)))], None);
    }
    assert checks == LocalStage(config.local, budgetId, stamp);
    var drive := CheckDrive(config.googleDrive, store, budgetId, stamp);
    checks := Then(checks, drive);
    if checks.error.Some? {
      return;
    }
    checks := Then(checks, S3Stage(config.s3, budgetId, stamp));
    if checks.error.Some? {
      return;
    }
    var dropbox := CheckDropbox(config.dropbox, store, budgetId, stamp);
    checks := Then(checks, dropbox);
    if checks.error.Some? {
      return;
    }
    checks := Then(checks, WebDavStage(config.webdav, budgetId, stamp));
  }

  /** `ensureDir(outputDir)` then `markSuccess(outputDir || budgetDir)`. */
  method MarkSuccess(config: Config.Settings, nowMs: int, disk: MarkerDisk)
    returns (r: Result<(), RunError>, steps: seq<Step>)
    ensures RunResult(r, steps) == Marker(config, nowMs, disk)
  {
    var markerDir := Dirname(if config.local.outputDir != "" then config.local.outputDir else config.actual.budgetDir);
    steps := [MakeOutputDir(config.local.outputDir)];
    if !disk.outputDirOk {
      return Err(MarkerFailed), steps;
    }
    steps := steps + [MakeMarkerDir(markerDir)];
    if !disk.markerDirOk {
      return Err(MarkerFailed), steps;
    }
    steps := steps + [WriteMarker(JoinPath(markerDir, ".last-success"), DecimalString(nowMs / 1000))];
    if !disk.writeOk {
      return Err(MarkerFailed), steps;
    }
    return Ok(()), steps;
  }

  /** `runBackup`, step by step. */
  method RunBackup(config: Config.Settings, store: Tokens.TokenStore?, api: ActualApi, isoNow: string,
                   nowMs: int, failing: set<Dest>, disk: MarkerDisk)
    returns (r: Result<(), RunError>, steps: seq<Step>)
    ensures RunResult(r, steps) == Run(config, View(store), api, isoNow, nowMs, failing, disk)
  {
    var buffer, exportSteps := ExportBudgetBuffer(config.actual, api);
    // `finally`: the API is shut down whatever the export did; a failing shutdown is only logged
    steps := exportSteps + [Shutdown];
    if buffer.Err? {
      return Err(ExportError(buffer.error)), steps;
    }
    var timestamp := RunStamp(isoNow);
    var checks := CheckDestinations(config, store, config.actual.syncId, timestamp);
    steps := steps + checks.steps;
    if checks.error.Some? {
      return Err(checks.error.value), steps;
    }
    var launched := Launched(checks.steps);
    if launched == {} {
      // no destinations enabled: nothing to wait for
    } else if launched * failing != {} {
      return Err(UploadsFailed(launched * failing)), steps;
    }
    if !config.local.enabled {
      var marked;
      r, marked := MarkSuccess(config, nowMs, disk);
      return r, steps + marked;
    }
    return Ok(()), steps;
  }

  // ---------------------------------------------------------------------
  // What the job promises
  // ---------------------------------------------------------------------

  /** The export never shuts the API down, starts a task or touches the marker. */
  lemma ExportStepsQuiet(actual: Config.ActualSettings, api: ActualApi)
    ensures forall s :: s in Export(actual, api).steps ==> !s.Shutdown? && !s.Start? && !s.WriteMarker?
  {
  }

  /** Whether the shutdown fails makes no difference to the outcome or the steps. */
  lemma ShutdownFailureIgnored(config: Config.Settings, store: StoreView, api: ActualApi, isoNow: string,
                               nowMs: int, failing: set<Dest>, disk: MarkerDisk)
    ensures Run(config, store, api.(shutdownOk := false), isoNow, nowMs, failing, disk)
            == Run(config, store, api.(shutdownOk := true), isoNow, nowMs, failing, disk)
  {
  }

  predicate Enabled(config: Config.Settings, d: Dest) {
    match d
    case LocalDest => config.local.enabled
    case DriveDest => config.googleDrive.enabled
    case S3Dest => config.s3.enabled
    case DropboxDest => config.dropbox.enabled
    case WebDavDest => config.webdav.enabled
  }

  /** The label a task is given. */
  function TaskBudgetId(t: Task): string {
    match t
    case LocalTask(j) => j.budgetId
    case DriveTask(o) => o.budgetId
    case S3Task(o) => o.budgetId
    case DropboxTask(o) => o.budgetId
    case WebDavTask(o) => o.budgetId
  }

  /** The stamp a task is given. */
  function TaskStamp(t: Task): Option<string> {
    match t
    case LocalTask(j) => Some(j.timestamp)
    case DriveTask(o) => o.timestamp
    case S3Task(o) => o.timestamp
    case DropboxTask(o) => o.timestamp
    case WebDavTask(o) => o.timestamp
  }

  /** Steps of the checks: no shutdown and nothing done to the marker. */
  predicate Plain(steps: seq<Step>) {
    forall s :: s in steps ==> !s.Shutdown? && !s.WriteMarker? && !s.MakeOutputDir? && !s.MakeMarkerDir?
  }

  /** Every task started carries the label and the stamp. */
  predicate Labelled(steps: seq<Step>, budgetId: string, stamp: string) {
    forall s :: s in steps && s.Start? ==> TaskBudgetId(s.task) == budgetId && TaskStamp(s.task) == Some(stamp)
  }

  /** One destination's checks: nothing when it is disabled; when one throws, the
      error names the destination and no task starts; otherwise its one task starts. */
  predicate Shaped(st: Stage, d: Dest, enabled: bool, budgetId: string, stamp: string) {
    && (!enabled ==> st == Stage([], None))
    && (st.error.Some? ==> Rejection(st.error.value) && RejectedDest(st.error.value) == d && Launched(st.steps) == {})
    && (st.error.None? ==> Launched(st.steps) == (if enabled then {d} else {}))
    && Plain(st.steps) && Labelled(st.steps, budgetId, stamp)
  }

  lemma LaunchedSmall(t: Task, p: string)
    ensures Launched([]) == {} && Launched([ReadTokens(p)]) == {}
    ensures Launched([Start(t)]) == {DestOf(t)} && Launched([ReadTokens(p), Start(t)]) == {DestOf(t)}
  {
    assert Start(t) in [Start(t)];
    assert Start(t) in [ReadTokens(p), Start(t)];
  }

  lemma LocalShaped(c: Config.LocalSettings, budgetId: string, stamp: string)
    ensures Shaped(LocalStage(c, budgetId, stamp), LocalDest, c.enabled, budgetId, stamp)
  {
    LaunchedSmall(LocalTask(LocalJob(c.outputDir, c.retentionCount, c.retentionWeeks, budgetId, stamp)), "");
  }

  lemma DriveShaped(s: Config.DriveSettings, store: StoreView, budgetId: string, stamp: string)
    ensures Shaped(DriveStage(s, store, budgetId, stamp), DriveDest, s.enabled, budgetId, stamp)
  {
    if s.enabled && s.mode == Config.ServiceAccount {
      LaunchedSmall(DriveTask(DriveOptionsFor(s, budgetId, stamp, None)), "google");
    } else if s.enabled && store.StoreAt? {
      var tokens := ReadStore(store, "google");
      var oauth := DriveExport.DriveOAuth(s.clientId, s.clientSecret, if tokens.Ok? then tokens.value else Undefined, true);
      LaunchedSmall(DriveTask(DriveOptionsFor(s, budgetId, stamp, Some(oauth))), "google");
    }
  }

  lemma S3Shaped(s: Config.S3Settings, budgetId: string, stamp: string)
    ensures Shaped(S3Stage(s, budgetId, stamp), S3Dest, s.enabled, budgetId, stamp)
  {
    var opts := S3Export.S3Options(s.endpoint, s.region, s.bucket, Some(s.prefix), s.accessKeyId,
                                   s.secretAccessKey, s.forcePathStyle, budgetId, Some(stamp));
    LaunchedSmall(S3Task(opts), "");
  }

  lemma DropboxShaped(s: Config.DropboxSettings, store: StoreView, budgetId: string, stamp: string)
    ensures Shaped(DropboxStage(s, store, budgetId, stamp), DropboxDest, s.enabled, budgetId, stamp)
  {
    if s.enabled && Filled(s.accessToken) {
      LaunchedSmall(DropboxTask(DropboxOptionsFor(s, budgetId, stamp, None)), "dropbox");
    } else if s.enabled && Filled(s.appKey) && Filled(s.appSecret) && store.StoreAt? {
      var tokens := ReadStore(store, "dropbox");
      var oauth := DropboxExport.DropboxOAuth(s.appKey.value, s.appSecret.value,
                                              if tokens.Ok? then tokens.value else Undefined, true);
      LaunchedSmall(DropboxTask(DropboxOptionsFor(s, budgetId, stamp, Some(oauth))), "dropbox");
    }
  }

  lemma WebDavShaped(s: Config.WebDavSettings, budgetId: string, stamp: string)
    ensures Shaped(WebDavStage(s, budgetId, stamp), WebDavDest, s.enabled, budgetId, stamp)
  {
    var opts := WebDavExport.WebDavOptions(s.url, s.username, s.password, Some(s.basePath), budgetId, Some(stamp));
    LaunchedSmall(WebDavTask(opts), "");
  }

  /** The rank up to which destinations have been looked at: the destination that
      threw, or `k` when the first `k` checks all passed. */
  function Reached(st: Stage, k: nat): nat {
    if st.error.Some? && Rejection(st.error.value) then Rank(RejectedDest(st.error.value)) else k
  }

  /** After the first `k` checks: a thrown error names an enabled destination among
      them, and exactly the enabled destinations before the one reached have started. */
  predicate Checked(st: Stage, config: Config.Settings, k: nat, budgetId: string, stamp: string) {
    && Plain(st.steps) && Labelled(st.steps, budgetId, stamp)
    && (st.error.Some? ==> Rejection(st.error.value) && Enabled(config, RejectedDest(st.error.value))
                           && Rank(RejectedDest(st.error.value)) < k)
    && (forall e :: e in Launched(st.steps) <==> Enabled(config, e) && Rank(e) < Reached(st, k))
  }

  /** The next check in order keeps `Checked`. */
  lemma ThenChecked(config: Config.Settings, a: Stage, b: Stage, d: Dest, budgetId: string, stamp: string)
    requires Checked(a, config, Rank(d), budgetId, stamp)
    requires Shaped(b, d, Enabled(config, d), budgetId, stamp)
    ensures Checked(Then(a, b), config, Rank(d) + 1, budgetId, stamp)
  {
    if a.error.None? {
      var ab := a.steps + b.steps;
      assert forall s :: s in ab <==> s in a.steps || s in b.steps;
      assert Launched(ab) == Launched(a.steps) + Launched(b.steps);
      forall e
        ensures e in Launched(ab) <==> Enabled(config, e) && Rank(e) < Reached(Then(a, b), Rank(d) + 1)
      {
        assert Rank(e) == Rank(d) ==> e == d;
      }
    }
  }

  /** The checks run in the order local, Drive, S3, Dropbox, WebDAV. */
  lemma AdmitChecked(config: Config.Settings, store: StoreView, budgetId: string, stamp: string)
    ensures Checked(Admit(config, store, budgetId, stamp), config, 5, budgetId, stamp)
  {
    var s1 := LocalStage(config.local, budgetId, stamp);
    var s2 := DriveStage(config.googleDrive, store, budgetId, stamp);
    var s3 := S3Stage(config.s3, budgetId, stamp);
    var s4 := DropboxStage(config.dropbox, store, budgetId, stamp);
    var s5 := WebDavStage(config.webdav, budgetId, stamp);
    LocalShaped(config.local, budgetId, stamp);
    DriveShaped(config.googleDrive, store, budgetId, stamp);
    S3Shaped(config.s3, budgetId, stamp);
    DropboxShaped(config.dropbox, store, budgetId, stamp);
    WebDavShaped(config.webdav, budgetId, stamp);
    forall e
      ensures e in Launched(s1.steps) <==> Enabled(config, e) && Rank(e) < Reached(s1, 1)
    {
      assert Rank(e) < 1 ==> e == LocalDest;
    }
    ThenChecked(config, s1, s2, DriveDest, budgetId, stamp);
    ThenChecked(config, Then(s1, s2), s3, S3Dest, budgetId, stamp);
    ThenChecked(config, Then(Then(s1, s2), s3), s4, DropboxDest, budgetId, stamp);
    ThenChecked(config, Then(Then(Then(s1, s2), s3), s4), s5, WebDavDest, budgetId, stamp);
  }

  /** The marker steps never shut down or start a task. */
  lemma MarkerStepsQuiet(config: Config.Settings, nowMs: int, disk: MarkerDisk)
    ensures forall s :: s in Marker(config, nowMs, disk).steps ==> !s.Shutdown? && !s.Start?
  {
  }

  /** The API is shut down exactly once, right after the export, whether the export
      succeeded or threw. */
  lemma ShutdownOnce(config: Config.Settings, store: StoreView, api: ActualApi, isoNow: string, nowMs: int,
                     failing: set<Dest>, disk: MarkerDisk)
    ensures var steps := Run(config, store, api, isoNow, nowMs, failing, disk).steps;
            var n := |Export(config.actual, api).steps|;
            && n < |steps| && steps[..n] == Export(config.actual, api).steps && steps[n] == Shutdown
            && multiset(steps)[Shutdown] == 1
  {
    var rest := StepsAfterShutdown(config, store, api, isoNow, nowMs, failing, disk);
    ExportStepsQuiet(config.actual, api);
    OnceBetween(Export(config.actual, api).steps, Shutdown, rest);
  }

  /** What follows the shutdown: the checks and, possibly, the marker. */
  lemma StepsAfterShutdown(config: Config.Settings, store: StoreView, api: ActualApi, isoNow: string, nowMs: int,
                           failing: set<Dest>, disk: MarkerDisk) returns (rest: seq<Step>)
    ensures Run(config, store, api, isoNow, nowMs, failing, disk).steps == Export(config.actual, api).steps + [Shutdown] + rest
    ensures Shutdown !in rest
  {
    var ex := Export(config.actual, api);
    var admitted := Admit(config, store, config.actual.syncId, RunStamp(isoNow));
    var marked := Marker(config, nowMs, disk);
    AdmitChecked(config, store, config.actual.syncId, RunStamp(isoNow));
    MarkerStepsQuiet(config, nowMs, disk);
    assert Shutdown !in admitted.steps && Shutdown !in marked.steps;
    if ex.result.Err? {
      rest := [];
    } else {
      var tail: seq<Step> := if admitted.error.Some? || Launched(admitted.steps) * failing != {} || config.local.enabled
                             then [] else marked.steps;
      rest := admitted.steps + tail;
      assert Run(config, store, api, isoNow, nowMs, failing, disk).steps == (ex.steps + [Shutdown]) + admitted.steps + tail;
    }
  }

  lemma OnceBetween(a: seq<Step>, x: Step, b: seq<Step>)
    requires x !in a && x !in b
    ensures (a + [x] + b)[..|a|] == a && (a + [x] + b)[|a|] == x
    ensures multiset(a + [x] + b)[x] == 1
  {
    assert (a + [x] + b)[..|a|] == a;
    assert multiset(a + [x] + b) == multiset(a) + multiset{x} + multiset(b);
  }

  /** A failed export is the job's outcome: no destination is checked, nothing starts
      and no marker is written. */
  lemma ExportFailureAborts(config: Config.Settings, store: StoreView, api: ActualApi, isoNow: string,
                            nowMs: int, failing: set<Dest>, disk: MarkerDisk)
    requires Export(config.actual, api).result.Err?
    ensures Run(config, store, api, isoNow, nowMs, failing, disk)
            == RunResult(Err(ExportError(Export(config.actual, api).result.error)), Export(config.actual, api).steps + [Shutdown])
    ensures Launched(Run(config, store, api, isoNow, nowMs, failing, disk).steps) == {}
  {
    ExportStepsQuiet(config.actual, api);
  }

  /** The steps after the export that the run takes, when the export succeeded. */
  lemma AfterExport(config: Config.Settings, store: StoreView, api: ActualApi, isoNow: string, nowMs: int,
                    failing: set<Dest>, disk: MarkerDisk)
    requires Export(config.actual, api).result.Ok?
    ensures var admitted := Admit(config, store, config.actual.syncId, RunStamp(isoNow));
            var run := Run(config, store, api, isoNow, nowMs, failing, disk);
            && Launched(run.steps) == Launched(admitted.steps)
            && (forall s :: s in run.steps && s.Start? ==> s in admitted.steps)
            && ((exists s :: s in run.steps && s.WriteMarker?) <==>
                  admitted.error.None? && Launched(admitted.steps) * failing == {} && !config.local.enabled
                  && disk.outputDirOk && disk.markerDirOk)
  {
    var ex := Export(config.actual, api);
    var admitted := Admit(config, store, config.actual.syncId, RunStamp(isoNow));
    var marked := Marker(config, nowMs, disk);
    var run := Run(config, store, api, isoNow, nowMs, failing, disk);
    ExportStepsQuiet(config.actual, api);
    AdmitChecked(config, store, config.actual.syncId, RunStamp(isoNow));
    MarkerStepsQuiet(config, nowMs, disk);
    var tail: seq<Step> := if admitted.error.Some? || Launched(admitted.steps) * failing != {} || config.local.enabled
                           then [] else marked.steps;
    assert run.steps == (ex.steps + [Shutdown]) + admitted.steps + tail;
    assert forall s :: s in run.steps <==> s in ex.steps || s == Shutdown || s in admitted.steps || s in tail;
    if tail == marked.steps && disk.outputDirOk && disk.markerDirOk {
      assert marked.steps[2].WriteMarker?;
    }
  }

  /** A destination whose check throws rejects the job after every enabled
      destination before it (local, Drive, S3, Dropbox, WebDAV) has started, and
      before any after it is looked at; no marker is written. */
  lemma ChecksInOrder(config: Config.Settings, store: StoreView, api: ActualApi, isoNow: string, nowMs: int,
                      failing: set<Dest>, disk: MarkerDisk)
    requires Run(config, store, api, isoNow, nowMs, failing, disk).result.Err?
    requires Rejection(Run(config, store, api, isoNow, nowMs, failing, disk).result.error)
    ensures var run := Run(config, store, api, isoNow, nowMs, failing, disk);
            var d := RejectedDest(run.result.error);
            && Export(config.actual, api).result.Ok?
            && Enabled(config, d)
            && (forall e :: e in Launched(run.steps) <==> Enabled(config, e) && Rank(e) < Rank(d))
            && (forall s :: s in run.steps ==> !s.WriteMarker?)
  {
    AdmitChecked(config, store, config.actual.syncId, RunStamp(isoNow));
    AfterExport(config, store, api, isoNow, nowMs, failing, disk);
  }

  /** Every task is labelled with the sync id and stamped with the run's time, whose
      colons have become dashes. */
  lemma TasksLabelled(config: Config.Settings, store: StoreView, api: ActualApi, isoNow: string, nowMs: int,
                      failing: set<Dest>, disk: MarkerDisk)
    ensures forall s :: s in Run(config, store, api, isoNow, nowMs, failing, disk).steps && s.Start? ==>
              TaskBudgetId(s.task) == config.actual.syncId && TaskStamp(s.task) == Some(RunStamp(isoNow))
    ensures ':' !in RunStamp(isoNow)
  {
    if Export(config.actual, api).result.Ok? {
      AdmitChecked(config, store, config.actual.syncId, RunStamp(isoNow));
      AfterExport(config, store, api, isoNow, nowMs, failing, disk);
    } else {
      ExportStepsQuiet(config.actual, api);
    }
  }

  /** The job succeeds exactly when the export does, every check passes, no task
      fails and, with local backups disabled, the marker is written; every enabled
      destination has then started. */
  lemma SuccessMeans(config: Config.Settings, store: StoreView, api: ActualApi, isoNow: string, nowMs: int,
                     failing: set<Dest>, disk: MarkerDisk)
    ensures var admitted := Admit(config, store, config.actual.syncId, RunStamp(isoNow));
            Run(config, store, api, isoNow, nowMs, failing, disk).result.Ok? <==>
              && Export(config.actual, api).result.Ok? && admitted.error.None?
              && Launched(admitted.steps) * failing == {}
              && (config.local.enabled || (disk.outputDirOk && disk.markerDirOk && disk.writeOk))
    ensures Run(config, store, api, isoNow, nowMs, failing, disk).result.Ok? ==>
              forall e :: e in Launched(Run(config, store, api, isoNow, nowMs, failing, disk).steps) <==> Enabled(config, e)
  {
    if Export(config.actual, api).result.Ok? {
      AdmitChecked(config, store, config.actual.syncId, RunStamp(isoNow));
      AfterExport(config, store, api, isoNow, nowMs, failing, disk);
    }
  }

  /** With local backups disabled, the marker is written exactly when the export
      succeeded, every check passed, no task failed and both directories were made. */
  lemma MarkerRule(config: Config.Settings, store: StoreView, api: ActualApi, isoNow: string, nowMs: int,
                   failing: set<Dest>, disk: MarkerDisk)
    ensures var admitted := Admit(config, store, config.actual.syncId, RunStamp(isoNow));
            (exists s :: s in Run(config, store, api, isoNow, nowMs, failing, disk).steps && s.WriteMarker?) <==>
              && Export(config.actual, api).result.Ok? && admitted.error.None?
              && Launched(admitted.steps) * failing == {}
              && !config.local.enabled && disk.outputDirOk && disk.markerDirOk
  {
    if Export(config.actual, api).result.Ok? {
      AfterExport(config, store, api, isoNow, nowMs, failing, disk);
    } else {
      ExportStepsQuiet(config.actual, api);
    }
  }

  /** With no destination enabled nothing is uploaded, and the job's outcome is the marker's. */
  lemma NoDestinations(config: Config.Settings, store: StoreView, api: ActualApi, isoNow: string, nowMs: int,
                       failing: set<Dest>, disk: MarkerDisk)
    requires Export(config.actual, api).result.Ok?
    requires forall d :: !Enabled(config, d)
    ensures Launched(Run(config, store, api, isoNow, nowMs, failing, disk).steps) == {}
    ensures Run(config, store, api, isoNow, nowMs, failing, disk).result == Marker(config, nowMs, disk).result
    ensures Run(config, store, api, isoNow, nowMs, failing, disk).result.Ok? <==>
              disk.outputDirOk && disk.markerDirOk && disk.writeOk
  {
    AdmitChecked(config, store, config.actual.syncId, RunStamp(isoNow));
    AfterExport(config, store, api, isoNow, nowMs, failing, disk);
    assert !Enabled(config, LocalDest);
  }

  /** With an output directory, the job's marker is the file the local exporter
      writes: the same path and the same number of seconds. */
  lemma MarkerMatchesLocal(config: Config.Settings, nowMs: int, disk: MarkerDisk)
    requires config.local.outputDir != ""
    requires disk.outputDirOk && disk.markerDirOk
    ensures |Marker(config, nowMs, disk).steps| == 3
    ensures Marker(config, nowMs, disk).steps[2]
            == WriteMarker(Local.MarkerPath(config.local.outputDir), DecimalString(nowMs / 1000))
  {
  }

  // ---------------------------------------------------------------------
  // Drive in service-account mode
  // ---------------------------------------------------------------------

  /** The Drive options as the job builds them: spreading the Drive settings copies
      their `oauth` object, which holds only the client id and secret and is truthy
      in either mode. */
  function DriveOptionsAsWritten(s: Config.DriveSettings, budgetId: string, stamp: string): (o: DriveExport.DriveOptions)
    ensures o.oauth.Some? && o.oauth.value.tokens == Undefined
  {
    DriveOptionsFor(s, budgetId, stamp, Some(DriveExport.DriveOAuth(s.clientId, s.clientSecret, Undefined, false)))
  }

  /** The Drive upload of a service-account job, with the options as the job builds
      them: the exporter takes the OAuth path and throws on the missing tokens before
      any request, so the key file is never read and no backup reaches Drive. */
  method ServiceAccountUploadAsWritten(s: Config.DriveSettings, budgetId: string, stamp: string,
                                       isoNow: string, now: int, api: DriveExport.DriveApi)
    returns (r: Result<(), DriveExport.DriveError>, calls: seq<DriveExport.DriveCall>)
    requires s.mode == Config.ServiceAccount && Filled(s.credentialsPath)
    ensures r == Err(DriveExport.TokensUndefined) && calls == []
  {
    r, calls := DriveExport.UploadToDrive(DriveOptionsAsWritten(s, budgetId, stamp), isoNow, now, api);
  }

  /** The Drive upload of a service-account job as `DriveStage` starts it, without
      `oauth`: the exporter reads the key file first, and a successful upload ends by
      creating the backup in the target folder. */
  method ServiceAccountUpload(s: Config.DriveSettings, budgetId: string, stamp: string,
                              isoNow: string, now: int, api: DriveExport.DriveApi)
    returns (r: Result<(), DriveExport.DriveError>, calls: seq<DriveExport.DriveCall>)
    requires s.mode == Config.ServiceAccount && Filled(s.credentialsPath)
    ensures |calls| > 0 && calls[0] == DriveExport.ReadKeyFile(s.credentialsPath.value)
    ensures r.Ok? ==> calls[|calls| - 1].CreateFile?
                      && calls[|calls| - 1].name == Naming.RemoteName(budgetId, Naming.RemoteStamp(Some(stamp), isoNow))
    ensures s.enabled ==> DriveStage(s, NoStore, budgetId, stamp).steps
                          == [Start(DriveTask(DriveOptionsFor(s, budgetId, stamp, None)))]
  {
    r, calls := DriveExport.UploadToDrive(DriveOptionsFor(s, budgetId, stamp, None), isoNow, now, api);
  }
}

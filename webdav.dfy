/**
 * The WebDAV exporter: the `createClient` export looked up in the loaded
 * `webdav` module, and one `putFileContents` that overwrites
 * `<basePath>/<budgetId>-<timestamp>.zip` on the server.
 */
module WebDavExport {
  import opened Results
  import opened Text
  import opened Js
  import opened Paths
  import opened Naming

  /** The options `uploadToWebDAV` receives; `basePath` is `None` when the property is undefined. */
  datatype WebDavOptions = WebDavOptions(
    url: Option<string>,
    username: Option<string>,
    password: Option<string>,
    basePath: Option<string>,
    budgetId: string,
    timestamp: Option<string>)

  /** `createClient(url, { username, password })` followed by
      `putFileContents(targetPath, buffer, { overwrite })`. */
  datatype PutFile = PutFile(url: string, username: Option<string>, password: Option<string>,
                             targetPath: string, overwrite: bool)

  datatype WebDavError = UrlMissing | ExportMissing | PutFailed

  const DefaultBasePath := "/actual-backups"

  /** `mod.createClient || mod.default?.createClient` */
  function CreateClientExport(mod: Value): Value {
    Or(Get(mod, "createClient"), Get(Get(mod, "default"), "createClient"))
  }

  /** `loadWebDavClient` succeeds exactly when the lookup finds a function. */
  predicate HasCreateClient(mod: Value) {
    CreateClientExport(mod).Fn?
  }

  /** A named export is taken first, the default export's is the fallback; a
      truthy named export that is not a function hides the default one. */
  lemma CreateClientLookup(mod: Value)
    ensures Get(mod, "createClient").Fn? ==> HasCreateClient(mod)
    ensures !Truthy(Get(mod, "createClient")) ==>
              (HasCreateClient(mod) <==> Get(Get(mod, "default"), "createClient").Fn?)
    ensures Truthy(Get(mod, "createClient")) && !Get(mod, "createClient").Fn? ==> !HasCreateClient(mod)
  {
  }

  /** `${basePath.replace(/\/$/, "")}/${filename}` */
  function TargetPath(basePath: Option<string>, filename: string): string {
    StripTrailingSlash(basePath.GetOr(DefaultBasePath)) + "/" + filename
  }

  /** The file lands directly in the base folder, and one trailing slash on it
      makes no difference. */
  lemma TargetPathInBase(base: string, filename: string)
    requires base != "" && base[|base| - 1] != '/'
    requires filename != "" && '/' !in filename
    ensures TargetPath(Some(base + "/"), filename) == TargetPath(Some(base), filename)
    ensures Dirname(TargetPath(Some(base), filename)) == base
  {
    assert StripTrailingSlash(base + "/") == base;
    assert StripTrailingSlash(base) == base;
    assert JoinPath(base, filename) == base + "/" + filename;
    DirnameOfJoin(base, filename);
  }

  /** Without a base path the backup goes to "/actual-backups". */
  lemma TargetPathDefault(budgetId: string, ts: string)
    requires '/' !in budgetId && '/' !in ts
    ensures TargetPath(None, RemoteName(budgetId, ts)) == DefaultBasePath + "/" + RemoteName(budgetId, ts)
    ensures Dirname(TargetPath(None, RemoteName(budgetId, ts))) == DefaultBasePath
  {
    var name := RemoteName(budgetId, ts);
    assert '/' !in name by {
      forall i | 0 <= i < |name| ensures name[i] != '/' {
        if i < |budgetId| {
          assert name[i] == budgetId[i];
        } else if |budgetId| < i < |budgetId| + 1 + |ts| {
          assert name[i] == ts[i - |budgetId| - 1];
        }
      }
    }
    TargetPathInBase(DefaultBasePath, name);
  }

  /** What `uploadToWebDAV` asks of the server, or why it throws first:
      the url is checked before the module is consulted. */
  function PutRequest(opts: WebDavOptions, mod: Value, isoNow: string): (r: Result<PutFile, WebDavError>)
    ensures !Filled(opts.url) ==> r == Err(UrlMissing)
    ensures Filled(opts.url) && !HasCreateClient(mod) ==> r == Err(ExportMissing)
    ensures r.Ok? <==> Filled(opts.url) && HasCreateClient(mod)
    ensures r.Ok? ==> r.value.url == opts.url.value && r.value.overwrite
                      && r.value.username == opts.username && r.value.password == opts.password
                      && EndsWith(r.value.targetPath, "/" + RemoteName(opts.budgetId, RemoteStamp(opts.timestamp, isoNow)))
  {
    if !Filled(opts.url) then Err(UrlMissing)
    else if !HasCreateClient(mod) then Err(ExportMissing)
    else
      var filename := RemoteName(opts.budgetId, RemoteStamp(opts.timestamp, isoNow));
      var target := TargetPath(opts.basePath, filename);
      assert target[|target| - |"/" + filename|..] == "/" + filename;
      Ok(PutFile(opts.url.value, opts.username, opts.password, target, true))
  }

  /** `await uploadToWebDAV(buffer, config)`: `putOk` is whether the server accepts the file. */
  function UploadToWebDav(opts: WebDavOptions, mod: Value, isoNow: string, putOk: bool): (r: Result<(), WebDavError>)
    ensures r.Ok? <==> Filled(opts.url) && HasCreateClient(mod) && putOk
    ensures !Filled(opts.url) ==> r == Err(UrlMissing)
  {
    match PutRequest(opts, mod, isoNow)
    case Err(e) => Err(e)
    case Ok(_) => if putOk then Ok(()) else Err(PutFailed)
  }
}

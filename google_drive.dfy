/**
 * The Google Drive exporter: a client from a service-account key file or from
 * stored OAuth tokens (refreshed when they expire within a minute), the backup
 * folder (the configured one, else the first folder named "Actual Budget
 * Backups", else a new one), and one file upload into that folder.
 *
 * The Drive API is an oracle: the key file, the refresh answer, the folder
 * listing and the success of each call are inputs.
 */
module DriveExport {
  import opened Results
  import opened Text
  import opened Js
  import opened Naming

  /** `config.oauth`: the client credentials, the stored tokens and whether `onTokenUpdate` is a function. */
  datatype DriveOAuth = DriveOAuth(clientId: Option<string>, clientSecret: Option<string>, tokens: Value, hasTokenUpdate: bool)

  /** The options `uploadToDrive` receives. */
  datatype DriveOptions = DriveOptions(
    credentialsPath: Option<string>,
    folderId: Option<string>,
    budgetId: string,
    timestamp: Option<string>,
    oauth: Option<DriveOAuth>)

  /** Reading the service-account key: JSON, a read failure, or text `JSON.parse` rejects. */
  datatype KeyFile = KeyJson | KeyUnreadable | KeyUnparsable

  /** `refreshAccessToken()`: the new credentials object, or a rejection. */
  datatype Refresh = RefreshedTo(credentials: map<string, Value>) | RefreshRejected

  /** `drive.files.list(...)`: `res.data.files` (`None` when absent), or a rejection. */
  datatype Listing = Listed(files: Option<seq<Value>>) | ListRejected

  /** `drive.files.create(...)` for the folder: `created.data.id`, or a rejection. */
  datatype Creation = CreatedFolder(id: Value) | CreateRejected

  datatype DriveApi = DriveApi(
    keyFile: KeyFile,
    refresh: Refresh,
    tokenUpdateOk: bool,
    listing: Listing,
    creation: Creation,
    uploadOk: bool)

  datatype DriveError =
    | CredentialsPathMissing
    | CredentialsReadFailed
    | CredentialsParseFailed
    | TokensUndefined    // `tokens.expiry_date` on null or undefined throws
    | RefreshFailed
    | TokenUpdateFailed
    | ListFailed
    | FolderCreateFailed
    | UploadFailed

  /** How the client authenticates: the key file, or OAuth with the credentials last set. */
  datatype DriveAuth = ServiceAccount(keyPath: string) | OAuthClient(clientId: Option<string>, clientSecret: Option<string>, credentials: Value)

  datatype DriveCall =
    | ReadKeyFile(path: string)
    | RefreshToken
    | TokenUpdate(newTokens: Value)
    | ListFolders(query: string)
    | CreateFolder(name: string, mimeType: string)
    | CreateFile(auth: DriveAuth, name: string, parent: Value, mimeType: string)

  const FolderName := "Actual Budget Backups"
  const FolderMime := "application/vnd.google-apps.folder"
  const ZipType := "application/zip"

  /** `tokens.expiry_date && Date.now() >= tokens.expiry_date - 60 * 1000` */
  predicate NeedsRefresh(tokens: Value, now: int) {
    ExpiryDue(Get(tokens, "expiry_date"), now)
  }

  /** `refreshed.credentials`, given the old refresh token when it came back without one. */
  function NewTokens(tokens: Value, credentials: map<string, Value>): Value {
    var c := Obj(credentials);
    if !Truthy(Get(c, "refresh_token")) then Put(c, "refresh_token", Get(tokens, "refresh_token")) else c
  }

  /** The refresh token is the new one when Google sent one, the stored one otherwise,
      and every other credential is what Google sent. */
  lemma NewTokensMeaning(tokens: Value, credentials: map<string, Value>)
    ensures var n := NewTokens(tokens, credentials);
            && n.Obj?
            && Get(n, "refresh_token") == Or(Get(Obj(credentials), "refresh_token"), Get(tokens, "refresh_token"))
            && forall k :: k != "refresh_token" ==> Get(n, k) == Get(Obj(credentials), k)
  {
  }

  /** `name.replace(/'/g, "\\'")` */
  function Escape(name: string): string {
    Replace(name, '\'', "\\'")
  }

  /** How the Drive query language reads a quoted literal: a backslash takes the next character as it is. */
  function Unescape(s: string): string {
    if s == [] then []
    else if s[0] == '\\' && |s| >= 2 then [s[1]] + Unescape(s[2..])
    else [s[0]] + Unescape(s[1..])
  }

  /** A name without backslashes reads back exactly from its escaped form. */
  lemma {:induction false} UnescapeEscape(name: string)
    requires '\\' !in name
    ensures Unescape(Escape(name)) == name
  {
    if name != [] {
      var rest := Escape(name[1..]);
      UnescapeEscape(name[1..]);
      if name[0] == '\'' {
        assert Escape(name) == "\\'" + rest;
        assert ("\\'" + rest)[2..] == rest;
      } else {
        assert Escape(name) == [name[0]] + rest;
        assert ([name[0]] + rest)[1..] == rest;
      }
      assert name == [name[0]] + name[1..];
    }
  }

  /** Every quote of the escaped name is preceded by a backslash, so none ends the literal. */
  lemma {:induction false} EscapeQuotes(name: string)
    ensures var e := Escape(name);
            forall i :: 0 <= i < |e| && e[i] == '\'' ==> 0 < i && e[i - 1] == '\\'
  {
    if name != [] {
      EscapeQuotes(name[1..]);
      var rest := Escape(name[1..]);
      var head: string := if name[0] == '\'' then "\\'" else [name[0]];
      assert Escape(name) == head + rest;
      forall i | 0 <= i < |head + rest| && (head + rest)[i] == '\''
        ensures 0 < i && (head + rest)[i - 1] == '\\'
      {
        if i >= |head| {
          assert (head + rest)[i] == rest[i - |head|];
          if i - |head| == 0 {
            assert false;
          }
          assert (head + rest)[i - 1] == rest[i - |head| - 1];
        }
      }
    }
  }

  /** A backslash in the name is not escaped: the query would look for another name. */
  lemma EscapeKeepsBackslash()
    ensures Unescape(Escape("\\a")) == "a"
  {
    assert Escape("\\a") == "\\a" by {
      ReplaceAbsent("\\a", '\'', "\\'");
    }
    assert Unescape("\\a"[2..]) == [];
  }

  /** `parts.join(sep)` */
  function JoinWith(parts: seq<string>, sep: string): string {
    if |parts| == 0 then ""
    else if |parts| == 1 then parts[0]
    else parts[0] + sep + JoinWith(parts[1..], sep)
  }

  const FolderClause := "mimeType = 'application/vnd.google-apps.folder'"
  const TrashClause := "trashed = false"

  /** The folder search: a folder, not in the trash, with the escaped name. */
  function FolderQuery(name: string): string {
    JoinWith([FolderClause, TrashClause, "name = '" + Escape(name) + "'"], " and ")
  }

  /** The query is the three clauses in order with " and " between them, and a
      name without quotes appears in it as it is. */
  lemma FolderQueryShape(name: string)
    ensures FolderQuery(name) == FolderClause + " and " + TrashClause + " and name = '" + Escape(name) + "'"
    ensures '\'' !in name ==> FolderQuery(name) == FolderClause + " and " + TrashClause + " and name = '" + name + "'"
  {
    var last := "name = '" + Escape(name) + "'";
    assert JoinWith([FolderClause, TrashClause, last], " and ") == FolderClause + " and " + JoinWith([TrashClause, last], " and ") by {
      assert [FolderClause, TrashClause, last][1..] == [TrashClause, last];
    }
    assert JoinWith([TrashClause, last], " and ") == TrashClause + " and " + last by {
      assert [TrashClause, last][1..] == [last];
    }
    if '\'' !in name {
      ReplaceAbsent(name, '\'', "\\'");
    }
  }

  /** `res.data.files?.[0]` */
  function FirstFile(files: Option<seq<Value>>): Value {
    if files.Some? && |files.value| > 0 then files.value[0] else Undefined
  }

  /** `ensureFolder(drive, folderId, name)`: the folder id it answers and the calls it makes. */
  method EnsureFolder(folderId: Option<string>, name: string, listing: Listing, creation: Creation)
    returns (r: Result<Value, DriveError>, calls: seq<DriveCall>)
    ensures forall c :: c in calls ==> c.ListFolders? || c.CreateFolder?
    ensures Filled(folderId) ==> r == Ok(Str(folderId.value)) && calls == []
    ensures !Filled(folderId) && listing.ListRejected? ==> r == Err(ListFailed) && calls == [ListFolders(FolderQuery(name))]
    ensures !Filled(folderId) && listing.Listed? && Truthy(FirstFile(listing.files)) ==>
              r == Ok(Get(FirstFile(listing.files), "id")) && calls == [ListFolders(FolderQuery(name))]
    ensures !Filled(folderId) && listing.Listed? && !Truthy(FirstFile(listing.files)) ==>
              calls == [ListFolders(FolderQuery(name)), CreateFolder(name, FolderMime)]
              && (r.Ok? <==> creation.CreatedFolder?)
              && (r.Ok? ==> r.value == creation.id)
              && (r.Err? ==> r.error == FolderCreateFailed)
  {
    if Filled(folderId) {
      return Ok(Str(folderId.value)), [];
    }
    calls := [ListFolders(FolderQuery(name))];
    if listing.ListRejected? {
      return Err(ListFailed), calls;
    }
    var existing := FirstFile(listing.files);
    if Truthy(existing) {
      return Ok(Get(existing, "id")), calls;
    }
    calls := calls + [CreateFolder(name, FolderMime)];
    if creation.CreateRejected? {
      return Err(FolderCreateFailed), calls;
    }
    return Ok(creation.id), calls;
  }

  /** The folder the backup lands in when every call succeeds. */
  function TargetFolder(folderId: Option<string>, listing: Listing, creation: Creation): Value {
    if Filled(folderId) then Str(folderId.value)
    else if listing.Listed? && Truthy(FirstFile(listing.files)) then Get(FirstFile(listing.files), "id")
    else if creation.CreatedFolder? then creation.id
    else Undefined
  }

  /** Whether the client is built: stored OAuth tokens, refreshed when due with the
      callback (when there is one) accepting the new tokens, or a readable key file. */
  predicate Authorized(opts: DriveOptions, now: int, api: DriveApi) {
    if opts.oauth.Some? then
      var o := opts.oauth.value;
      && !Nullish(o.tokens)
      && (!NeedsRefresh(o.tokens, now) || (api.refresh.RefreshedTo? && (!o.hasTokenUpdate || api.tokenUpdateOk)))
    else
      Filled(opts.credentialsPath) && api.keyFile.KeyJson?
  }

  /** The client that does the upload: OAuth with the refreshed tokens when a refresh
      happened and the stored ones otherwise, or the service account of the key file. */
  function Client(opts: DriveOptions, now: int, api: DriveApi): DriveAuth {
    if opts.oauth.Some? then
      var o := opts.oauth.value;
      OAuthClient(o.clientId, o.clientSecret,
        if NeedsRefresh(o.tokens, now) && api.refresh.RefreshedTo? then NewTokens(o.tokens, api.refresh.credentials) else o.tokens)
    else
      ServiceAccount(opts.credentialsPath.GetOr(""))
  }

  /** The client `uploadToDrive` builds: `getOAuthDriveClient` when OAuth is
      configured, `getDriveClient` otherwise; `now` is the clock at the expiry check. */
  method Authorize(opts: DriveOptions, now: int, api: DriveApi)
    returns (r: Result<DriveAuth, DriveError>, calls: seq<DriveCall>)
    ensures forall c :: c in calls ==> c.ReadKeyFile? || c.RefreshToken? || c.TokenUpdate?
    ensures opts.oauth.None? && !Filled(opts.credentialsPath) ==> r == Err(CredentialsPathMissing) && calls == []
    ensures opts.oauth.None? && Filled(opts.credentialsPath) ==>
              && calls == [ReadKeyFile(opts.credentialsPath.value)]
              && (r.Ok? <==> api.keyFile.KeyJson?)
              && (r.Ok? ==> r.value == ServiceAccount(opts.credentialsPath.value))
    ensures opts.oauth.Some? && Nullish(opts.oauth.value.tokens) ==> r == Err(TokensUndefined) && calls == []
    ensures opts.oauth.Some? && !Nullish(opts.oauth.value.tokens) && !NeedsRefresh(opts.oauth.value.tokens, now) ==>
              var o := opts.oauth.value;
              r == Ok(OAuthClient(o.clientId, o.clientSecret, o.tokens)) && calls == []
    ensures opts.oauth.Some? && NeedsRefresh(opts.oauth.value.tokens, now) ==>
              && |calls| > 0 && calls[0] == RefreshToken
              && (api.refresh.RefreshRejected? ==> r == Err(RefreshFailed) && calls == [RefreshToken])
    ensures opts.oauth.Some? && NeedsRefresh(opts.oauth.value.tokens, now) && api.refresh.RefreshedTo? ==>
              var o := opts.oauth.value;
              var newTokens := NewTokens(o.tokens, api.refresh.credentials);
              && (TokenUpdate(newTokens) in calls <==> o.hasTokenUpdate)
              && (r.Ok? <==> !o.hasTokenUpdate || api.tokenUpdateOk)
              && (r.Ok? ==> r.value == OAuthClient(o.clientId, o.clientSecret, newTokens))
    ensures r.Ok? <==> Authorized(opts, now, api)
    ensures r.Ok? ==> r.value == Client(opts, now, api)
    ensures forall c :: c in calls && c.TokenUpdate? ==>
              && opts.oauth.Some? && opts.oauth.value.hasTokenUpdate
              && NeedsRefresh(opts.oauth.value.tokens, now) && api.refresh.RefreshedTo?
              && c.newTokens == NewTokens(opts.oauth.value.tokens, api.refresh.credentials)
  {
    if opts.oauth.Some? {
      var oauth := opts.oauth.value;
      var tokens := oauth.tokens;
      if Nullish(tokens) {
        return Err(TokensUndefined), [];
      }
      if !NeedsRefresh(tokens, now) {
        return Ok(OAuthClient(oauth.clientId, oauth.clientSecret, tokens)), [];
      }
      if api.refresh.RefreshRejected? {
        return Err(RefreshFailed), [RefreshToken];
      }
      var newTokens := NewTokens(tokens, api.refresh.credentials);
      if !oauth.hasTokenUpdate {
        return Ok(OAuthClient(oauth.clientId, oauth.clientSecret, newTokens)), [RefreshToken];
      }
      calls := [RefreshToken, TokenUpdate(newTokens)];
      if !api.tokenUpdateOk {
        return Err(TokenUpdateFailed), calls;
      }
      return Ok(OAuthClient(oauth.clientId, oauth.clientSecret, newTokens)), calls;
    }
    if !Filled(opts.credentialsPath) {
      return Err(CredentialsPathMissing), [];
    }
    var path := opts.credentialsPath.value;
    calls := [ReadKeyFile(path)];
    match api.keyFile
    case KeyUnreadable => r := Err(CredentialsReadFailed);
    case KeyUnparsable => r := Err(CredentialsParseFailed);
    case KeyJson => r := Ok(ServiceAccount(path));
  }

  /** Whether a folder to upload into is found: the configured id, a listed folder, or a new one. */
  predicate FolderReady(folderId: Option<string>, listing: Listing, creation: Creation) {
    Filled(folderId) || (listing.Listed? && (Truthy(FirstFile(listing.files)) || creation.CreatedFolder?))
  }

  /** The second half of `uploadToDrive`: find or create the folder `folderName`, then create the file in it. */
  method StoreBackup(auth: DriveAuth, folderId: Option<string>, folderName: string, filename: string, api: DriveApi)
    returns (r: Result<(), DriveError>, calls: seq<DriveCall>)
    ensures forall c :: c in calls ==> c.ListFolders? || c.CreateFolder? || c.CreateFile?
    ensures Filled(folderId) ==> forall c :: c in calls ==> c.CreateFile?
    ensures r.Ok? ==>
              && api.uploadOk && |calls| > 0
              && calls[|calls| - 1] == CreateFile(auth, filename, TargetFolder(folderId, api.listing, api.creation), ZipType)
    ensures r.Ok? <==> FolderReady(folderId, api.listing, api.creation) && api.uploadOk
    ensures forall c :: c in calls && c.CreateFile? ==> c.auth == auth && c.name == filename
  {
    var folder, folderCalls := EnsureFolder(folderId, folderName, api.listing, api.creation);
    if folder.Err? {
      return Err(folder.error), folderCalls;
    }
    calls := folderCalls + [CreateFile(auth, filename, folder.value, ZipType)];
    if !api.uploadOk {
      return Err(UploadFailed), calls;
    }
    return Ok(()), calls;
  }

  /** `uploadToDrive(buffer, options)`: the calls it makes and its outcome. */
  method UploadToDrive(opts: DriveOptions, isoNow: string, now: int, api: DriveApi)
    returns (r: Result<(), DriveError>, calls: seq<DriveCall>)
    ensures opts.oauth.None? && !Filled(opts.credentialsPath) ==> r == Err(CredentialsPathMissing) && calls == []
    ensures opts.oauth.None? && Filled(opts.credentialsPath) ==> |calls| > 0 && calls[0] == ReadKeyFile(opts.credentialsPath.value)
    ensures opts.oauth.None? && Filled(opts.credentialsPath) && !api.keyFile.KeyJson? ==>
              r.Err? && calls == [ReadKeyFile(opts.credentialsPath.value)]
    ensures opts.oauth.Some? ==> (RefreshToken in calls <==> NeedsRefresh(opts.oauth.value.tokens, now))
    ensures opts.oauth.Some? && Nullish(opts.oauth.value.tokens) ==> r == Err(TokensUndefined) && calls == []
    ensures opts.oauth.Some? && NeedsRefresh(opts.oauth.value.tokens, now) && api.refresh.RefreshRejected? ==>
              r == Err(RefreshFailed) && calls == [RefreshToken]
    ensures Filled(opts.folderId) ==> forall c :: c in calls ==> !c.ListFolders? && !c.CreateFolder?
    ensures r.Ok? ==>
              && api.uploadOk && |calls| > 0
              && var last := calls[|calls| - 1];
              && last.CreateFile?
              && last.name == RemoteName(opts.budgetId, RemoteStamp(opts.timestamp, isoNow))
              && last.parent == TargetFolder(opts.folderId, api.listing, api.creation)
              && last.mimeType == ZipType
    ensures r.Ok? <==> Authorized(opts, now, api) && FolderReady(opts.folderId, api.listing, api.creation) && api.uploadOk
    ensures forall c :: c in calls && c.CreateFile? ==> c.auth == Client(opts, now, api)
    ensures forall c :: c in calls && c.TokenUpdate? ==>
              && opts.oauth.Some? && opts.oauth.value.hasTokenUpdate
              && NeedsRefresh(opts.oauth.value.tokens, now) && api.refresh.RefreshedTo?
              && c.newTokens == NewTokens(opts.oauth.value.tokens, api.refresh.credentials)
  {
    var auth, pre := Authorize(opts, now, api);
    if auth.Err? {
      return Err(auth.error), pre;
    }
    var filename := RemoteName(opts.budgetId, RemoteStamp(opts.timestamp, isoNow));
    var post;
    r, post := StoreBackup(auth.value, opts.folderId, FolderName, filename, api);
    assert RefreshToken !in post;
    calls := pre + post;
  }
}

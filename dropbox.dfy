/**
 * The Dropbox exporter: a client from a static access token or from the
 * stored OAuth tokens (refreshed when they expire within a minute, the new
 * tokens handed to `onTokenUpdate`), then one upload that overwrites any
 * file at `<basePath>/<budgetId>-<timestamp>.zip`.
 *
 * The SDK is an oracle: what `refreshAccessToken` answers and whether the
 * callback and the upload succeed are inputs.
 */
module DropboxExport {
  import opened Results
  import opened Text
  import opened Js
  import opened Paths
  import opened Naming

  /** `config.oauth`: the app credentials, the stored tokens and whether `onTokenUpdate` is a function. */
  datatype DropboxOAuth = DropboxOAuth(appKey: string, appSecret: string, tokens: Value, hasTokenUpdate: bool)

  /** The options `uploadToDropbox` receives. `basePath` is `None` when the property is undefined. */
  datatype DropboxOptions = DropboxOptions(
    accessToken: Option<string>,
    basePath: Option<string>,
    budgetId: string,
    timestamp: Option<string>,
    oauth: Option<DropboxOAuth>)

  /** `refreshAccessToken()`: the new access token and its lifetime in seconds, or a rejection. */
  datatype Refresh = Refreshed(accessToken: Value, expiresIn: int) | RefreshRejected

  /** What the Dropbox service answers. */
  datatype DropboxApi = DropboxApi(refresh: Refresh, tokenUpdateOk: bool, uploadOk: bool)

  datatype DropboxError =
    | OAuthMissing
    | TokensUndefined    // `tokens.refresh_token` on null or undefined throws
    | RefreshFailed
    | TokenUpdateFailed
    | UploadFailed

  /** The credentials the client sends with the upload. */
  datatype Credentials =
    | StaticToken(token: string)
    | OAuthTokens(accessToken: Value, refreshToken: Value, expiresAt: Value)

  /** The arguments of `filesUpload`; the file body is the backup. */
  datatype Upload = Upload(path: string, overwrite: bool, autorename: bool, mute: bool)

  datatype DropboxCall =
    | RefreshToken
    | TokenUpdate(updated: Value)
    | FilesUpload(credentials: Credentials, upload: Upload)

  const DefaultBasePath := "/Actual-Backups"

  /** `tokens.expires_at && Date.now() >= new Date(tokens.expires_at).getTime() - 60 * 1000`,
      for an expiry stored as a number of milliseconds. */
  predicate NeedsRefresh(tokens: Value, now: int) {
    ExpiryDue(Get(tokens, "expires_at"), now)
  }

  /** The refresh token the SDK holds: the stored one, set only when truthy. */
  function AuthRefreshToken(tokens: Value): Value {
    if Truthy(Get(tokens, "refresh_token")) then Get(tokens, "refresh_token") else Undefined
  }

  /** The `updated` record: new access token, `auth.getRefreshToken() || tokens.refresh_token`,
      and an expiry `expires_in` seconds after `refreshedAt`. */
  function UpdatedTokens(tokens: Value, accessToken: Value, expiresIn: int, refreshedAt: int): Value {
    Obj(map[
      "access_token" := accessToken,
      "refresh_token" := Or(AuthRefreshToken(tokens), Get(tokens, "refresh_token")),
      "expires_at" := Num(refreshedAt + expiresIn * 1000)])
  }

  /** A refresh keeps the stored refresh token, and a token that lives longer than a
      minute is not due again at the moment it was issued. */
  lemma UpdatedTokensMeaning(tokens: Value, accessToken: Value, expiresIn: int, refreshedAt: int)
    ensures var u := UpdatedTokens(tokens, accessToken, expiresIn, refreshedAt);
            && Get(u, "refresh_token") == Get(tokens, "refresh_token")
            && Get(u, "access_token") == accessToken
            && (expiresIn > 60 ==> !NeedsRefresh(u, refreshedAt))
  {
  }

  /** The credentials the OAuth client uploads with: the stored tokens, or after a
      refresh (`due`) the new access token and expiry beside the stored refresh token. */
  function ClientCredentials(tokens: Value, due: bool, refresh: Refresh, refreshedAt: int): Credentials {
    if due && refresh.Refreshed? then
      var updated := UpdatedTokens(tokens, refresh.accessToken, refresh.expiresIn, refreshedAt);
      OAuthTokens(Get(updated, "access_token"), AuthRefreshToken(tokens), Get(updated, "expires_at"))
    else
      OAuthTokens(Get(tokens, "access_token"), AuthRefreshToken(tokens), Get(tokens, "expires_at"))
  }

  /** `basePath.replace(/\/$/, "")` + "/" + the remote name. */
  function DropboxPath(basePath: Option<string>, name: string): string {
    StripTrailingSlash(basePath.GetOr(DefaultBasePath)) + "/" + name
  }

  /** The file lands directly in the base folder, and one trailing slash on the
      base folder makes no difference. */
  lemma DropboxPathInBase(base: string, name: string)
    requires base != "" && base[|base| - 1] != '/'
    requires name != "" && '/' !in name
    ensures DropboxPath(Some(base + "/"), name) == DropboxPath(Some(base), name)
    ensures Dirname(DropboxPath(Some(base), name)) == base
  {
    assert StripTrailingSlash(base + "/") == base;
    assert StripTrailingSlash(base) == base;
    assert JoinPath(base, name) == base + "/" + name;
    DirnameOfJoin(base, name);
  }

  /** `uploadToDropbox(buffer, config)`: the calls it makes and its outcome.
      `now` is the clock at the expiry check, `refreshedAt` the clock after the refresh. */
  method UploadToDropbox(opts: DropboxOptions, isoNow: string, now: int, refreshedAt: int, api: DropboxApi)
    returns (r: Result<(), DropboxError>, calls: seq<DropboxCall>)
    ensures Filled(opts.accessToken) ==>
              calls == [FilesUpload(StaticToken(opts.accessToken.value),
                          Upload(DropboxPath(opts.basePath, RemoteName(opts.budgetId, RemoteStamp(opts.timestamp, isoNow))),
                                 true, false, true))]
              && (r.Ok? <==> api.uploadOk)
    ensures !Filled(opts.accessToken) && opts.oauth.None? ==> r == Err(OAuthMissing) && calls == []
    ensures !Filled(opts.accessToken) && opts.oauth.Some? && Nullish(opts.oauth.value.tokens) ==>
              r == Err(TokensUndefined) && calls == []
    ensures !Filled(opts.accessToken) && opts.oauth.Some? ==>
              var tokens := opts.oauth.value.tokens;
              && (RefreshToken in calls <==> NeedsRefresh(tokens, now))
              && (NeedsRefresh(tokens, now) && api.refresh.RefreshRejected? ==> r == Err(RefreshFailed) && calls == [RefreshToken])
              && (NeedsRefresh(tokens, now) && api.refresh.Refreshed? ==>
                    var updated := UpdatedTokens(tokens, api.refresh.accessToken, api.refresh.expiresIn, refreshedAt);
                    (TokenUpdate(updated) in calls <==> opts.oauth.value.hasTokenUpdate))
              && (r.Ok? ==> api.uploadOk)
    ensures !Filled(opts.accessToken) && opts.oauth.Some? && !Nullish(opts.oauth.value.tokens) ==>
              var oauth := opts.oauth.value;
              var due := NeedsRefresh(oauth.tokens, now);
              && (forall c :: c in calls && c.TokenUpdate? ==>
                    due && api.refresh.Refreshed? && oauth.hasTokenUpdate
                    && c.updated == UpdatedTokens(oauth.tokens, api.refresh.accessToken, api.refresh.expiresIn, refreshedAt))
              && (forall c :: c in calls && c.FilesUpload? ==> c.credentials == ClientCredentials(oauth.tokens, due, api.refresh, refreshedAt))
              && (r == Err(TokenUpdateFailed) <==> due && api.refresh.Refreshed? && oauth.hasTokenUpdate && !api.tokenUpdateOk)
              && (r.Ok? <==> (!due || (api.refresh.Refreshed? && (!oauth.hasTokenUpdate || api.tokenUpdateOk))) && api.uploadOk)
    ensures r == Err(UploadFailed) <==> |calls| > 0 && calls[|calls| - 1].FilesUpload? && !api.uploadOk
    ensures r.Ok? ==> (exists c :: c in calls && c.FilesUpload? && c.upload.path ==
                         DropboxPath(opts.basePath, RemoteName(opts.budgetId, RemoteStamp(opts.timestamp, isoNow))))
    ensures forall c :: c in calls && c.FilesUpload? ==> c.upload.overwrite && !c.upload.autorename
  {
    var credentials: Credentials;
    calls := [];
    if Filled(opts.accessToken) {
      credentials := StaticToken(opts.accessToken.value);
    } else {
      if opts.oauth.None? {
        return Err(OAuthMissing), [];
      }
      var oauth := opts.oauth.value;
      var tokens := oauth.tokens;
      if Nullish(tokens) {
        return Err(TokensUndefined), [];
      }
      credentials := ClientCredentials(tokens, false, api.refresh, refreshedAt);
      if NeedsRefresh(tokens, now) {
        calls := [RefreshToken];
        if api.refresh.RefreshRejected? {
          return Err(RefreshFailed), calls;
        }
        var updated := UpdatedTokens(tokens, api.refresh.accessToken, api.refresh.expiresIn, refreshedAt);
        credentials := ClientCredentials(tokens, true, api.refresh, refreshedAt);
        if oauth.hasTokenUpdate {
          calls := calls + [TokenUpdate(updated)];
          if !api.tokenUpdateOk {
            return Err(TokenUpdateFailed), calls;
          }
        }
      }
    }
    var filename := RemoteName(opts.budgetId, RemoteStamp(opts.timestamp, isoNow));
    var path := DropboxPath(opts.basePath, filename);
    calls := calls + [FilesUpload(credentials, Upload(path, true, false, true))];
    if !api.uploadOk {
      return Err(UploadFailed), calls;
    }
    return Ok(()), calls;
  }
}

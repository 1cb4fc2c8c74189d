/**
 * The configuration loader of the backup tool: environment variables become
 * one settings record, or loading stops with the first missing or malformed
 * setting. The environment is a map from variable names to values; a name
 * absent from the map is an unset variable.
 */
module Config {
  import opened Results
  import opened Text
  import opened Order
  import opened Paths

  type Env = map<string, string>

  /** `process.env[name]` */
  function Var(env: Env, name: string): Option<string> {
    if name in env then Some(env[name]) else None
  }

  /** The variable is set to a non-empty value (what `process.env[name]` tests truthy on). */
  predicate Present(env: Env, name: string) {
    name in env && env[name] != ""
  }

  /** `process.env[name] || fallback` */
  function VarOr(env: Env, name: string, fallback: string): (r: string)
    ensures Present(env, name) ==> r == env[name]
    ensures !Present(env, name) ==> r == fallback
  {
    if Present(env, name) then env[name] else fallback
  }

  /** `process.env[name] || null` */
  function VarOrNull(env: Env, name: string): (r: Option<string>)
    ensures r.Some? <==> Present(env, name)
    ensures r.Some? ==> r.value == env[name]
  {
    if Present(env, name) then Some(env[name]) else None
  }

  /** The words `bool` accepts as true, after trimming and lower-casing. */
  const TrueWords: set<string> := {"1", "true", "yes", "on"}

  /** `bool(value, defaultValue)`: an unset or empty value gives the default. */
  function Bool(value: Option<string>, default: bool): bool {
    if value.None? || value.value == "" then default
    else Lower(Trim(value.value)) in TrueWords
  }

  /** `int(value, defaultValue)`: an unset or empty value, or one `parseInt`
      finds no digits in, gives the default. */
  function Int(value: Option<string>, default: int): int {
    if value.None? || value.value == "" then default
    else
      match ParseInt(value.value)
      case None => default
      case Some(n) => n
  }

  lemma TrueWordEdges(w: string)
    requires Lower(w) in TrueWords
    ensures Trimmed(w)
  {
    assert w != [] && LowerChar(w[0]) == Lower(w)[0];
    assert LowerChar(w[|w| - 1]) == Lower(w)[|w| - 1];
  }

  /** A true word in any letter case and with white space around it reads as true. */
  lemma BoolAcceptsPadded(a: string, w: string, b: string, default: bool)
    requires AllSpace(a) && AllSpace(b) && Lower(w) in TrueWords
    ensures Bool(Some(a + w + b), default)
  {
    TrueWordEdges(w);
    TrimPadded(a, w, b);
    var v := a + w + b;
    assert |v| >= |w| > 0;
    assert Lower(Trim(v)) in TrueWords;
  }

  /** A value made only of white space is set, so the default does not apply: it reads as false. */
  lemma BoolBlankIsFalse(s: string, default: bool)
    requires s != [] && AllSpace(s)
    ensures !Bool(Some(s), default)
  {
    assert s + [] + [] == s;
    TrimPadded(s, [], []);
    assert Lower([]) == [];
  }

  /** Any other word is false, whatever the default. */
  lemma BoolRejectsOtherWords(s: string, default: bool)
    requires s != [] && Lower(Trim(s)) !in TrueWords
    ensures !Bool(Some(s), default)
  {
  }

  /** `int` reads back any integer written in decimal, up to the size a double holds exactly. */
  lemma IntReadsDecimal(n: int, default: int)
    requires -MaxExactInteger <= n <= MaxExactInteger
    ensures Int(Some(DecimalString(n)), default) == n
  {
    ParseIntDecimal(n);
  }

  /** `int` stops at the first character that is not a digit: "7days" reads as 7. */
  lemma IntReadsLeadingDigits(n: nat, tail: string, default: int)
    requires tail == [] || !IsDigit(tail[0])
    ensures Int(Some(Digits(n) + tail), default) == n
  {
    var ds := Digits(n);
    var s := ds + tail;
    assert s[0] == ds[0] && IsDigit(s[0]);
    assert !IsSpace(s[0]) && s[0] != '+' && s[0] != '-';
    assert TrimStart(s) == s;
    DigitPrefixStops(ds, tail);
    DigitsValueOfDigits(n);
    assert ParseInt(s) == Some(n);
  }

  /** `int` falls back to the default when no digits start the value. */
  lemma IntWithoutDigits(s: string, default: int)
    requires s != [] && !IsDigit(s[0]) && !IsSpace(s[0]) && s[0] != '+' && s[0] != '-'
    ensures Int(Some(s), default) == default
  {
    assert TrimStart(s) == s;
  }

  // ---------------------------------------------------------------------
  // BACKUP_SYNC_ID: a comma-separated list of `SyncID` or `BudgetID:SyncID`
  // ---------------------------------------------------------------------

  /** One budget to back up: the sync id on the server and, optionally, the
      local budget id to open it under. */
  datatype SyncTarget = SyncTarget(budgetId: Option<string>, syncId: string)

  datatype ConfigError =
    | ServerUrlMissing       // ACTUAL_SERVER_URL is required
    | PasswordMissing        // ACTUAL_PASSWORD is required
    | SyncSourceMissing      // BACKUP_SYNC_ID or ACTUAL_SYNC_ID is required
    | NoEntries              // BACKUP_SYNC_ID must include at least one entry
    | EntryWithoutSyncId     // entries must include a sync ID
    | EntryHalfMissing       // both budget and sync IDs in the BudgetID:SyncID form
    | NoValidEntry           // BACKUP_SYNC_ID must include at least one valid entry

  /** The key two entries are the same target under: `::S` or `B::S`. */
  function TargetKey(t: SyncTarget): string {
    match t.budgetId
    case None => "::" + t.syncId
    case Some(b) => b + "::" + t.syncId
  }

  /** What every parsed target looks like: non-empty halves without ':'. */
  predicate WellFormed(t: SyncTarget) {
    && t.syncId != "" && ':' !in t.syncId
    && (t.budgetId.Some? ==> t.budgetId.value != "" && ':' !in t.budgetId.value)
  }

  /** The budget half ends at the key's first ':' and the sync id follows "::". */
  lemma KeyShape(t: SyncTarget)
    requires WellFormed(t)
    ensures var k := TargetKey(t);
            var pre := if t.budgetId.Some? then t.budgetId.value else "";
            && ':' in k && FirstIndex(k, ':') == |pre|
            && k[..|pre|] == pre && k[|pre| + 2..] == t.syncId
  {
    var k := TargetKey(t);
    var pre := if t.budgetId.Some? then t.budgetId.value else "";
    assert k == pre + "::" + t.syncId;
    assert k[|pre|] == ':';
    FirstIndexAtMost(k, ':', |pre|);
    assert forall i :: 0 <= i < |pre| ==> k[i] == pre[i];
  }

  /** Different well-formed targets have different keys. */
  lemma TargetKeyInjective(t: SyncTarget, u: SyncTarget)
    requires WellFormed(t) && WellFormed(u)
    requires TargetKey(t) == TargetKey(u)
    ensures t == u
  {
    KeyShape(t);
    KeyShape(u);
  }

  /** One trimmed entry: `S` alone, or `B:S`; anything after a second ':' is ignored. */
  function ParseEntry(entry: string): Result<SyncTarget, ConfigError> {
    var parts := Split(entry, ':');
    if |parts| == 1 then
      var syncId := Trim(parts[0]);
      if syncId == "" then Err(EntryWithoutSyncId) else Ok(SyncTarget(None, syncId))
    else
      var budgetId := Trim(parts[0]);
      var syncId := Trim(parts[1]);
      if budgetId == "" || syncId == "" then Err(EntryHalfMissing)
      else Ok(SyncTarget(Some(budgetId), syncId))
  }

  lemma ParseEntryWellFormed(entry: string)
    requires ParseEntry(entry).Ok?
    ensures WellFormed(ParseEntry(entry).value)
  {
    var parts := Split(entry, ':');
    TrimWithout(parts[0], ':');
    if |parts| > 1 {
      TrimWithout(parts[1], ':');
    }
  }

  /** A plain sync id is a target without a budget id. */
  lemma ParsePlainEntry(s: string)
    requires s != "" && Trimmed(s) && ':' !in s
    ensures ParseEntry(s) == Ok(SyncTarget(None, s))
  {
    SplitWithout(s, ':');
    assert [] + s + [] == s;
    TrimPadded([], s, []);
  }

  /** `B:S` names budget B and sync id S, with white space around either half
      dropped and whatever follows a second ':' ignored. */
  lemma ParsePairEntry(a1: string, b: string, a2: string, a3: string, s: string, rest: seq<char>)
    requires AllSpace(a1) && AllSpace(a2) && AllSpace(a3)
    requires b != "" && Trimmed(b) && s != "" && Trimmed(s)
    requires ':' !in b && ':' !in s
    requires rest == [] || rest[0] == ':'
    ensures ParseEntry(a1 + b + a2 + ":" + a3 + s + rest) == Ok(SyncTarget(Some(b), s))
  {
    var x := a1 + b + a2;
    var y := a3 + s;
    assert ':' !in a1 && ':' !in a2 && ':' !in a3 by {
      assert !IsSpace(':');
    }
    assert ':' !in x && ':' !in y;
    assert a1 + b + a2 + ":" + a3 + s + rest == x + [':'] + (y + rest);
    SplitAt(x, ':', y + rest);
    if rest == [] {
      SplitWithout(y, ':');
      assert y + rest == y;
    } else {
      assert y + rest == y + [':'] + rest[1..];
      SplitAt(y, ':', rest[1..]);
    }
    TrimPadded(a1, b, a2);
    assert y == a3 + s + [];
    TrimPadded(a3, s, []);
  }

  /** `:S` and `B:` are rejected: the pair form needs both halves. */
  lemma ParseHalfMissing(b: string, s: string)
    requires ':' !in b && ':' !in s
    requires Trim(b) == "" || Trim(s) == ""
    ensures ParseEntry(b + ":" + s) == Err(EntryHalfMissing)
  {
    SplitAt(b, ':', s);
    SplitWithout(s, ':');
    assert b + ":" + s == b + [':'] + s;
  }

  /** The entries of a BACKUP_SYNC_ID value: comma-separated, trimmed, blanks dropped. */
  function Entries(raw: string): (es: seq<string>)
    ensures forall i :: 0 <= i < |es| ==> es[i] != "" && Trim(es[i]) == es[i] && ',' !in es[i]
  {
    NonBlank(Split(raw, ','))
  }

  function NonBlank(parts: seq<string>): (es: seq<string>)
    requires forall i :: 0 <= i < |parts| ==> ',' !in parts[i]
    ensures forall i :: 0 <= i < |es| ==> es[i] != "" && Trim(es[i]) == es[i] && ',' !in es[i]
  {
    if parts == [] then []
    else
      var t := Trim(parts[0]);
      TrimWithout(parts[0], ',');
      TrimIdempotent(parts[0]);
      (if t == "" then [] else [t]) + NonBlank(parts[1..])
  }

  lemma {:induction false} NonBlankFixed(es: seq<string>)
    requires forall i :: 0 <= i < |es| ==> Trim(es[i]) == es[i] && es[i] != "" && ',' !in es[i]
    ensures NonBlank(es) == es
  {
    if es != [] {
      NonBlankFixed(es[1..]);
      assert es == [es[0]] + es[1..];
    }
  }

  /** Blank-dropping keeps every entry that is already an entry. */
  lemma NonBlankKeeps(es: seq<string>)
    requires forall i :: 0 <= i < |es| ==> es[i] != "" && Trimmed(es[i]) && ',' !in es[i]
    ensures NonBlank(es) == es
  {
    forall i | 0 <= i < |es| ensures Trim(es[i]) == es[i] {
      TrimTrimmed(es[i]);
    }
    NonBlankFixed(es);
  }

  /** Entries joined with commas are read back as those entries. */
  lemma EntriesOfJoin(es: seq<string>)
    requires es != []
    requires forall i :: 0 <= i < |es| ==> es[i] != "" && Trimmed(es[i]) && ',' !in es[i]
    ensures Entries(Join(es, ',')) == es
  {
    SplitJoin(es, ',');
    NonBlankKeeps(es);
  }

  /** The targets BACKUP_SYNC_ID names: parsed, then duplicates dropped by key. */
  function SyncTargets(raw: string): Result<seq<SyncTarget>, ConfigError> {
    var es := Entries(raw);
    if es == [] then Err(NoEntries)
    else
      match MapAll(ParseEntry, es)
      case Err(e) => Err(e)
      case Ok(ts) => if Dedup(ts) == [] then Err(NoValidEntry) else Ok(Dedup(ts))
  }

  /** The keys of the targets kept so far. */
  function Keys(ts: seq<SyncTarget>): set<string> {
    set t | t in ts :: TargetKey(t)
  }

  /** Skipping a target whose key was seen is de-duplication: a new target is
      appended, a repeated one leaves the list as it was. */
  lemma DedupByKey(prefix: seq<SyncTarget>, t: SyncTarget)
    requires forall j :: 0 <= j < |Dedup(prefix)| ==> WellFormed(Dedup(prefix)[j])
    requires WellFormed(t)
    ensures var d := Dedup(prefix);
            && (TargetKey(t) in Keys(d) ==> Dedup(prefix + [t]) == d)
            && (TargetKey(t) !in Keys(d) ==> Dedup(prefix + [t]) == d + [t])
            && Keys(d + [t]) == Keys(d) + {TargetKey(t)}
            && forall j :: 0 <= j < |d + [t]| ==> WellFormed((d + [t])[j])
  {
    var d := Dedup(prefix);
    assert (prefix + [t])[..|prefix|] == prefix;
    if TargetKey(t) in Keys(d) {
      var other :| other in d && TargetKey(other) == TargetKey(t);
      TargetKeyInjective(other, t);
    }
    assert forall u :: u in d + [t] <==> u in d || u == t;
  }

  /** The parse loop of `loadConfig`: each entry is parsed, the first invalid one
      stops loading, and a target whose key was seen before is skipped. */
  method ParseSyncTargets(raw: string) returns (r: Result<seq<SyncTarget>, ConfigError>)
    ensures r == SyncTargets(raw)
  {
    var entries := Entries(raw);
    if |entries| == 0 {
      return Err(NoEntries);
    }
    var seen: set<string> := {};
    var targets: seq<SyncTarget> := [];
    var i := 0;
    while i < |entries|
      invariant 0 <= i <= |entries|
      invariant MapAll(ParseEntry, entries[..i]).Ok?
      invariant targets == Dedup(MapAll(ParseEntry, entries[..i]).value)
      invariant forall j :: 0 <= j < |targets| ==> WellFormed(targets[j])
      invariant seen == Keys(targets)
    {
      var parsed := ParseEntry(entries[i]);
      MapAllStep(ParseEntry, entries, i);
      if parsed.Err? {
        MapAllErrSticks(ParseEntry, entries, i + 1);
        return Err(parsed.error);
      }
      ParseEntryWellFormed(entries[i]);
      DedupByKey(MapAll(ParseEntry, entries[..i]).value, parsed.value);
      var key := TargetKey(parsed.value);
      if key !in seen {
        seen := seen + {key};
        targets := targets + [parsed.value];
      }
      i := i + 1;
    }
    assert entries[..i] == entries;
    if |targets| == 0 {
      return Err(NoValidEntry);
    }
    return Ok(targets);
  }

  /** De-duplicating the results of a loop that succeeded: the first result leads,
      every result is kept once, and nothing else is kept. */
  lemma MapAllDedup<A, B, E>(f: A -> Result<B, E>, xs: seq<A>)
    requires xs != [] && MapAll(f, xs).Ok?
    ensures var ys := Dedup(MapAll(f, xs).value);
            && f(xs[0]).Ok? && ys != [] && ys[0] == f(xs[0]).value && Distinct(ys)
            && (forall i :: 0 <= i < |ys| ==> exists j :: 0 <= j < |xs| && f(xs[j]) == Ok(ys[i]))
            && (forall j :: 0 <= j < |xs| ==> f(xs[j]).Ok? && f(xs[j]).value in ys)
  {
    MapAllMeaning(f, xs);
    var all := MapAll(f, xs).value;
    var ys := Dedup(all);
    forall i | 0 <= i < |ys| ensures exists j :: 0 <= j < |xs| && f(xs[j]) == Ok(ys[i]) {
      var j :| 0 <= j < |all| && all[j] == ys[i];
      assert f(xs[j]) == Ok(ys[i]);
    }
    forall j | 0 <= j < |xs| ensures f(xs[j]).Ok? && f(xs[j]).value in ys {
      assert all[j] == f(xs[j]).value;
    }
    DedupHead(all);
    assert ys[0] == all[0] == f(xs[0]).value;
  }

  /** A successful parse names at least one target, each once, each well formed,
      each parsed from an entry, and every entry's target is among them; the
      first entry's target comes first. */
  lemma SyncTargetsMeaning(raw: string)
    requires SyncTargets(raw).Ok?
    ensures var ts := SyncTargets(raw).value;
            && ts != [] && Distinct(ts)
            && (forall i :: 0 <= i < |ts| ==> WellFormed(ts[i]))
            && (forall i :: 0 <= i < |ts| ==> exists j :: 0 <= j < |Entries(raw)| && ParseEntry(Entries(raw)[j]) == Ok(ts[i]))
            && (forall j :: 0 <= j < |Entries(raw)| ==> ParseEntry(Entries(raw)[j]).Ok? && ParseEntry(Entries(raw)[j]).value in ts)
            && Entries(raw) != [] && ParseEntry(Entries(raw)[0]) == Ok(ts[0])
  {
    var es := Entries(raw);
    MapAllDedup(ParseEntry, es);
    var ts := SyncTargets(raw).value;
    assert ts == Dedup(MapAll(ParseEntry, es).value);
    forall i | 0 <= i < |ts| ensures WellFormed(ts[i]) {
      var j :| 0 <= j < |es| && ParseEntry(es[j]) == Ok(ts[i]);
      ParseEntryWellFormed(es[j]);
    }
  }

  /** An entry (non-empty and trimmed) never fails the plain-form check. */
  lemma EntryHasSyncId(e: string)
    requires e != "" && Trim(e) == e
    ensures ParseEntry(e) != Err(EntryWithoutSyncId)
  {
    var parts := Split(e, ':');
    if |parts| == 1 {
      JoinSplit(e, ':');
      assert parts[0] == e;
    }
  }

  /** The parse only fails on an empty list or on the first entry with a half
      missing: the "at least one valid entry" and the plain-form "sync ID"
      checks never fire. */
  lemma SyncTargetsErrors(raw: string)
    ensures SyncTargets(raw) != Err(NoValidEntry)
    ensures SyncTargets(raw) != Err(EntryWithoutSyncId)
    ensures SyncTargets(raw).Err? && SyncTargets(raw) != Err(NoEntries) ==> SyncTargets(raw) == Err(EntryHalfMissing)
  {
    var es := Entries(raw);
    if es != [] {
      MapAllMeaning(ParseEntry, es);
      if MapAll(ParseEntry, es).Ok? {
        DedupHead(MapAll(ParseEntry, es).value);
      } else {
        var j :| 0 <= j < |es| && ParseEntry(es[j]) == Err(MapAll(ParseEntry, es).error);
        EntryHasSyncId(es[j]);
      }
    }
  }

  /** The sync ids of the targets, each once, in first-occurrence order. */
  function SyncIdsOf(targets: seq<SyncTarget>): (ids: seq<string>)
    ensures forall i :: 0 <= i < |targets| ==> targets[i].syncId in ids
    ensures forall i :: 0 <= i < |ids| ==> exists j :: 0 <= j < |targets| && targets[j].syncId == ids[i]
    ensures Distinct(ids)
  {
    var all := seq(|targets|, i requires 0 <= i < |targets| => targets[i].syncId);
    assert forall i :: 0 <= i < |targets| ==> all[i] == targets[i].syncId;
    Dedup(all)
  }

  /** The first sync id listed is the primary one. */
  lemma SyncIdsFirst(targets: seq<SyncTarget>)
    requires targets != []
    ensures SyncIdsOf(targets) != [] && SyncIdsOf(targets)[0] == targets[0].syncId
  {
    var all := seq(|targets|, i requires 0 <= i < |targets| => targets[i].syncId);
    DedupHead(all);
  }

  // ---------------------------------------------------------------------
  // The settings record
  // ---------------------------------------------------------------------

  datatype ActualSettings = ActualSettings(
    serverUrl: string,
    password: string,
    syncId: string,
    syncIds: seq<string>,
    syncTargets: seq<SyncTarget>,
    budgetDir: string,
    encryptionKey: Option<string>)

  datatype LocalSettings = LocalSettings(
    enabled: bool, outputDir: string, retentionCount: int, retentionWeeks: int)

  datatype DriveMode = ServiceAccount | OAuth

  datatype DriveSettings = DriveSettings(
    enabled: bool,
    credentialsPath: Option<string>,
    folderId: Option<string>,
    mode: DriveMode,
    clientId: Option<string>,
    clientSecret: Option<string>)

  datatype S3Settings = S3Settings(
    enabled: bool,
    endpoint: Option<string>,
    region: Option<string>,
    bucket: Option<string>,
    prefix: string,
    accessKeyId: Option<string>,
    secretAccessKey: Option<string>,
    forcePathStyle: bool)

  datatype DropboxSettings = DropboxSettings(
    enabled: bool,
    accessToken: Option<string>,
    basePath: string,
    appKey: Option<string>,
    appSecret: Option<string>)

  datatype WebDavSettings = WebDavSettings(
    enabled: bool,
    url: Option<string>,
    username: Option<string>,
    password: Option<string>,
    basePath: string)

  datatype Settings = Settings(
    actual: ActualSettings,
    tokensPath: string,
    local: LocalSettings,
    googleDrive: DriveSettings,
    s3: S3Settings,
    dropbox: DropboxSettings,
    webdav: WebDavSettings)

  /** `requireFileIfExists`: the path made absolute against `cwd`, if such a file exists. */
  function ExistingFile(maybePath: Option<string>, cwd: string, existing: set<string>): (r: Option<string>)
    ensures r.Some? ==> r.value in existing
    ensures maybePath.None? || maybePath.value == "" ==> r.None?
  {
    if maybePath.None? || maybePath.value == "" then None
    else
      var resolved := Absolute(cwd, maybePath.value);
      if resolved in existing then Some(resolved) else None
  }

  /** `GDRIVE_MODE`: "oauth" in any letter case selects OAuth, anything else the service account. */
  function DriveModeOf(env: Env): (m: DriveMode)
    ensures m == OAuth <==> Lower(VarOr(env, "GDRIVE_MODE", "service-account")) == "oauth"
  {
    if Lower(VarOr(env, "GDRIVE_MODE", "service-account")) == "oauth" then OAuth else ServiceAccount
  }

  /** Every section but `actual`, read from the environment. */
  function Sections(env: Env, cwd: string, existing: set<string>, actual: ActualSettings): Settings {
    Settings(
      actual,
      Absolute(cwd, VarOr(env, "TOKEN_STORE_PATH", "/app/data/tokens")),
      LocalSettings(
        Bool(Var(env, "ENABLE_LOCAL"), true),
        Absolute(cwd, VarOr(env, "BACKUP_OUTPUT", "/app/data/backups")),
        Int(Var(env, "LOCAL_RETENTION_COUNT"), 4),
        Int(Var(env, "LOCAL_RETENTION_WEEKS"), 0)),
      DriveSettings(
        Bool(Var(env, "ENABLE_GDRIVE"), false),
        ExistingFile(Var(env, "GDRIVE_SERVICE_ACCOUNT_JSON"), cwd, existing),
        VarOrNull(env, "GDRIVE_FOLDER_ID"),
        DriveModeOf(env),
        VarOrNull(env, "GDRIVE_OAUTH_CLIENT_ID"),
        VarOrNull(env, "GDRIVE_OAUTH_CLIENT_SECRET")),
      S3Settings(
        Bool(Var(env, "ENABLE_S3"), false),
        VarOrNull(env, "S3_ENDPOINT"),
        VarOrNull(env, "S3_REGION"),
        VarOrNull(env, "S3_BUCKET"),
        VarOr(env, "S3_PREFIX", ""),
        VarOrNull(env, "S3_ACCESS_KEY_ID"),
        VarOrNull(env, "S3_SECRET_ACCESS_KEY"),
        Bool(Var(env, "S3_FORCE_PATH_STYLE"), false)),
      DropboxSettings(
        Bool(Var(env, "ENABLE_DROPBOX"), false),
        VarOrNull(env, "DROPBOX_ACCESS_TOKEN"),
        VarOr(env, "DROPBOX_BASE_PATH", "/Actual-Backups"),
        VarOrNull(env, "DROPBOX_APP_KEY"),
        VarOrNull(env, "DROPBOX_APP_SECRET")),
      WebDavSettings(
        Bool(Var(env, "ENABLE_WEBDAV"), false),
        VarOrNull(env, "WEBDAV_URL"),
        VarOrNull(env, "WEBDAV_USERNAME"),
        VarOrNull(env, "WEBDAV_PASSWORD"),
        VarOr(env, "WEBDAV_BASE_PATH", "/actual-backups")))
  }

  /** The targets the environment names: BACKUP_SYNC_ID when set, else ACTUAL_SYNC_ID alone. */
  function TargetsOf(env: Env): Result<seq<SyncTarget>, ConfigError> {
    if Present(env, "BACKUP_SYNC_ID") then SyncTargets(env["BACKUP_SYNC_ID"])
    else if Present(env, "ACTUAL_SYNC_ID") then Ok([SyncTarget(None, env["ACTUAL_SYNC_ID"])])
    else Err(SyncSourceMissing)
  }

  /** `loadConfig`: the settings, or the first failed requirement.
      `cwd` is the working directory and `existing` the files that exist. */
  method LoadConfig(env: Env, cwd: string, existing: set<string>) returns (r: Result<Settings, ConfigError>)
    ensures !Present(env, "ACTUAL_SERVER_URL") ==> r == Err(ServerUrlMissing)
    ensures Present(env, "ACTUAL_SERVER_URL") && !Present(env, "ACTUAL_PASSWORD") ==> r == Err(PasswordMissing)
    ensures (Present(env, "ACTUAL_SERVER_URL") && Present(env, "ACTUAL_PASSWORD") && TargetsOf(env).Err?)
            ==> r == Err(TargetsOf(env).error)
    ensures r.Ok? <==> Present(env, "ACTUAL_SERVER_URL") && Present(env, "ACTUAL_PASSWORD") && TargetsOf(env).Ok?
    ensures r.Ok? ==>
      var targets := TargetsOf(env).value;
      && targets != []
      && r.value.actual == ActualSettings(
           env["ACTUAL_SERVER_URL"], env["ACTUAL_PASSWORD"],
           targets[0].syncId, SyncIdsOf(targets), targets,
           Absolute(cwd, VarOr(env, "BUDGET_DIR", "/app/data/budget")),
           VarOrNull(env, "ACTUAL_BUDGET_ENCRYPTION_PASSWORD"))
      && r.value == Sections(env, cwd, existing, r.value.actual)
  {
    if !Present(env, "ACTUAL_SERVER_URL") {
      return Err(ServerUrlMissing);
    }
    if !Present(env, "ACTUAL_PASSWORD") {
      return Err(PasswordMissing);
    }
    if !Present(env, "BACKUP_SYNC_ID") && !Present(env, "ACTUAL_SYNC_ID") {
      return Err(SyncSourceMissing);
    }
    var targets: seq<SyncTarget>;
    if Present(env, "BACKUP_SYNC_ID") {
      var parsed := ParseSyncTargets(env["BACKUP_SYNC_ID"]);
      if parsed.Err? {
        return Err(parsed.error);
      }
      targets := parsed.value;
    } else {
      targets := [SyncTarget(None, env["ACTUAL_SYNC_ID"])];
    }
    var actual := ActualSettings(
      env["ACTUAL_SERVER_URL"], env["ACTUAL_PASSWORD"],
      targets[0].syncId, SyncIdsOf(targets), targets,
      Absolute(cwd, VarOr(env, "BUDGET_DIR", "/app/data/budget")),
      VarOrNull(env, "ACTUAL_BUDGET_ENCRYPTION_PASSWORD"));
    return Ok(Sections(env, cwd, existing, actual));
  }

  /** The primary sync id is listed first among the sync ids, which hold each id once. */
  lemma LoadedSyncIds(env: Env, cwd: string, existing: set<string>, s: Settings)
    requires TargetsOf(env).Ok? && TargetsOf(env).value != []
    requires s.actual.syncTargets == TargetsOf(env).value
    requires s.actual.syncId == s.actual.syncTargets[0].syncId
    requires s.actual.syncIds == SyncIdsOf(s.actual.syncTargets)
    ensures s.actual.syncIds != [] && s.actual.syncIds[0] == s.actual.syncId
    ensures Distinct(s.actual.syncIds)
    ensures forall i :: 0 <= i < |s.actual.syncTargets| ==> s.actual.syncTargets[i].syncId in s.actual.syncIds
  {
    SyncIdsFirst(s.actual.syncTargets);
  }

  /** The variables that have defaults. */
  const DefaultedNames: set<string> := {
    "TOKEN_STORE_PATH", "ENABLE_LOCAL", "BACKUP_OUTPUT", "LOCAL_RETENTION_COUNT", "LOCAL_RETENTION_WEEKS",
    "ENABLE_GDRIVE", "GDRIVE_SERVICE_ACCOUNT_JSON", "GDRIVE_MODE", "ENABLE_S3", "S3_PREFIX", "S3_FORCE_PATH_STYLE",
    "ENABLE_DROPBOX", "DROPBOX_BASE_PATH", "ENABLE_WEBDAV", "WEBDAV_BASE_PATH"}

  /** With none of those variables set, only the local destination is on,
      keeping 4 backups and no weekly ones, under /app/data. */
  lemma Defaults(env: Env, cwd: string, existing: set<string>, actual: ActualSettings)
    requires forall name :: name in DefaultedNames ==> !Present(env, name)
    ensures var s := Sections(env, cwd, existing, actual);
            && s.local == LocalSettings(true, "/app/data/backups", 4, 0)
            && s.tokensPath == "/app/data/tokens"
            && !s.googleDrive.enabled && s.googleDrive.mode == ServiceAccount && s.googleDrive.credentialsPath.None?
            && !s.s3.enabled && s.s3.prefix == "" && !s.s3.forcePathStyle
            && !s.dropbox.enabled && s.dropbox.basePath == "/Actual-Backups"
            && !s.webdav.enabled && s.webdav.basePath == "/actual-backups"
  {
    var sa := "service-account";
    assert Lower(sa) != "oauth" by {
      assert |Lower(sa)| == 15;
    }
    assert StartsWith("/app/data/tokens", "/");
    assert StartsWith("/app/data/backups", "/");
  }
}

# actual-auto-backup, modelled in Dafny

actual-auto-backup exports an Actual Budget file through the Actual API and stores
the zip in up to five places:

- a local directory, which is pruned to the newest N backups plus the newest backup
  of each of the last W weeks;
- Google Drive;
- an S3 bucket;
- Dropbox;
- a WebDAV server.

When local backups are off, it also writes a `.last-success` marker.

This project models the core of the tool and proves what it promises:

- **Configuration** (`Config`): reading the environment, the boolean and integer
  parsers, the `BACKUP_SYNC_ID` target list and its de-duplication.
- **Token store** (`Tokens`): the OAuth token store as a class over its provider
  files, with its JSON round trip.
- **Local exporter** (`Local`): writing a local backup and the pruning rule. The
  loops are imperative methods proved against specification functions.
- **Remote exporters** (`DropboxExport`, `DriveExport`, `S3Export`,
  `WebDavExport`): the remote name `<budgetId>-<timestamp>.zip` and where it goes.
  - The settings each one refuses.
  - The token refresh a minute before expiry, and that it keeps the refresh token.
  - The Drive folder query and its quote escaping.
  - The S3 client configuration.
  - The WebDAV `createClient` lookup.
- **Backup job** (`Runner`):
  - `exportBudgetBuffer`: budget id resolution, the database check, the load retry
    and the export checks.
  - `runBackup`: the shutdown that always happens once, the destination checks in
    order, the label and the stamp each task gets, and the marker rule.

Effects are inputs. An "api" or "disk" record says what each external call answers,
and each operation returns its outcome together with the trace of calls it made.
Helper modules model the JavaScript built-ins the code relies on:

- `Results`: Option and Result.
- `Text`: `trim`, `split`, `replace`, `parseInt` and decimal printing.
- `Js`: values, truthiness and optional property access.
- `Order`: string order, sorting and `new Set` de-duplication.
- `Paths`: `path.join` and `path.dirname`.

Where the project's prose description and the code disagree, the model follows the
code:

- The job writes `.last-success` whenever local backups are disabled. This includes
  a run with no destination at all.
- A failure to write the marker rejects the job. It is not best effort.
- There is no multi-budget orchestration: `runBackup` backs up the primary sync id
  only.

## Model

| member | source | states |
|---|---|---|
| Config.VarOr | src/config.js:95-97 | a set, non-empty variable wins, otherwise the fallback |
| Config.VarOrNull | src/config.js:148-153 | `Some` exactly when the variable is set and non-empty, holding its value |
| Config.TrueWordEdges | src/config.js:11-12 | the accepted true words have no white space at either end |
| Config.BoolAcceptsPadded | src/config.js:7-13 | a true word in any case, with white space around it, reads as true |
| Config.BoolBlankIsFalse | src/config.js:7-13 | a set value made only of white space reads as false, whatever the default |
| Config.BoolRejectsOtherWords | src/config.js:7-13 | any other word reads as false, whatever the default |
| Config.IntReadsDecimal | src/config.js:15-21 | `int` reads back every integer printed in decimal whose size is at most 2^53 |
| Config.IntReadsLeadingDigits | src/config.js:15-21 | `int` stops at the first non-digit ("7days" is 7) |
| Config.IntWithoutDigits | src/config.js:15-21 | a value that does not start with a digit, space or sign gives the default |
| Config.KeyShape | src/config.js:65-78 | the de-duplication key `B::S` splits back at its first ':' into budget and sync id |
| Config.TargetKeyInjective | src/config.js:65-80 | different well-formed targets never share a key |
| Config.ParseEntryWellFormed | src/config.js:57-82 | every parsed target has non-empty halves without ':' |
| Config.ParsePlainEntry | src/config.js:58-69 | a plain sync id is a target without a budget id |
| Config.ParsePairEntry | src/config.js:72-81 | `B:S` names B and S, with white space around either half dropped and a third part ignored |
| Config.ParseHalfMissing | src/config.js:72-77 | `:S` and `B:` are rejected |
| Config.Entries | src/config.js:45-48 | every entry is non-empty, trimmed and free of commas |
| Config.NonBlank | src/config.js:47-48 | the filter keeps only non-empty trimmed parts |
| Config.NonBlankFixed | src/config.js:47-48 | blank-dropping leaves a list of entries as it is |
| Config.NonBlankKeeps | src/config.js:47-48 | blank-dropping keeps every entry that is already an entry |
| Config.EntriesOfJoin | src/config.js:45-48 | entries joined with commas read back as those entries |
| Config.DedupByKey | src/config.js:55-82 | skipping a seen key is de-duplication: a new target is appended, a repeated one changes nothing |
| Config.ParseSyncTargets | src/config.js:43-87 | the parse loop computes exactly the specified target list or the first error |
| Config.MapAllDedup | src/config.js:57-82 | after a successful loop, the first result leads, each result is kept once and nothing else is kept |
| Config.SyncTargetsMeaning | src/config.js:43-91 | a successful parse names at least one target, each once and well formed; every entry's target is among them, the first entry's first |
| Config.EntryHasSyncId | src/config.js:59-64 | an entry never fails the plain-form "sync ID" check |
| Config.SyncTargetsErrors | src/config.js:50-87 | the only failures are an empty list and a half missing; two of the invariants can never fire |
| Config.SyncIdsOf | src/config.js:107 | the sync ids of the targets, each once, and no others |
| Config.SyncIdsFirst | src/config.js:93-107 | the primary sync id is the first listed |
| Config.ExistingFile | src/config.js:23-29 | a result is an existing file; an unset or empty path gives none |
| Config.DriveModeOf | src/config.js:137-140 | OAuth exactly when GDRIVE_MODE is "oauth" in any letter case |
| Config.LoadConfig | src/config.js:31-175 | the server url, then the password, then the targets are required, in that order; success iff all three hold, with the settings built from them |
| Config.LoadedSyncIds | src/config.js:93-108 | the primary sync id is listed first, the list is duplicate-free and holds every target's sync id |
| Config.Defaults | src/config.js:95-169 | with nothing set, only local backups are on, keeping 4 and no weekly ones, under /app/data |
| Tokens.Stringified | src/token-store.js:17-32 | what `JSON.stringify` then `JSON.parse` yields is JSON |
| Tokens.StringifiedJson | src/token-store.js:17-32 | a JSON value survives the round trip unchanged |
| Tokens.ProviderFileInjective | src/token-store.js:13-15 | different providers have different files |
| Tokens.Read | src/token-store.js:17-27 | a missing file reads as null; a non-null result is the stored JSON |
| Tokens.ReadAfterWrite | src/token-store.js:17-32 | what `set` wrote, `get` reads back (a JSON value exactly) |
| Tokens.WriteUndefined | src/token-store.js:29-32 | storing undefined or a function fails |
| Tokens.ReadAfterClear | src/token-store.js:34-40 | after `clear`, `get` reads null and `has` is false |
| Tokens.OtherFilesUnchanged | src/token-store.js:13-36 | writing or clearing one provider does not change what another reads |
| Tokens.HoldsAfterWrite | src/token-store.js:29-40 | after storing a JSON value, `has` is true exactly when the value is not null |
| Tokens.TokenStore.constructor | src/token-store.js:5-7 | the store holds its directory and the files given |
| Tokens.TokenStore.Get | src/token-store.js:17-27 | returns `Read` of the provider's file |
| Tokens.TokenStore.Set | src/token-store.js:9-32 | a failing mkdir of the base directory, then undefined or a function, then a failing write each give their own error and change nothing; otherwise the provider's file holds the JSON text and nothing else changes |
| Tokens.TokenStore.Clear | src/token-store.js:34-36 | removes exactly the provider's file (a missing file is no error); a failing `rm` is an error and changes nothing |
| Tokens.TokenStore.Has | src/token-store.js:38-40 | a read error propagates, otherwise the answer is whether the file holds something other than null |
| Local.WeekNumberRange | src/exporters/local.js:81-88 | week numbers run from 1 to 54 |
| Local.WeekDigitsShape | src/exporters/local.js:86-87 | the week is written as two digits that read back as the number |
| Local.NewYearsDayWeek | src/exporters/local.js:83-86 | 1 January is in week 1 only on a Sunday, otherwise in week 2 |
| Local.WeekNumberMonotone | src/exporters/local.js:84-86 | within a year a later file never has an earlier week |
| Local.TwoDigitsBelow | src/exporters/local.js:57-58 | two-digit strings compare as their numbers do |
| Local.WeekKeyOrder | src/exporters/local.js:81-88 | within a year the greater week key is the later week |
| Local.InsertByMtime | src/exporters/local.js:40 | insertion adds exactly the one entry |
| Local.InsertKeepsOrder | src/exporters/local.js:40 | insertion keeps the newest-first order |
| Local.SortByMtime | src/exporters/local.js:40 | the sort is a permutation, newest first |
| Local.InsertStable | src/exporters/local.js:40 | insertion puts the entry before every entry with the same time and keeps their order |
| Local.SortStable | src/exporters/local.js:40 | the sort is stable, as `Array.prototype.sort` is: entries with the same time keep their listing order |
| Local.FileSetMeaning | src/exporters/local.js:42-47 | the name set holds exactly the names of the entries |
| Local.NewestCount | src/exporters/local.js:45 | `slice(0, max(count, 0))` takes at most all files |
| Local.WeekFilesMeaning | src/exporters/local.js:57-60 | the newest file of each chosen week is kept |
| Local.UnkeptMeaning | src/exporters/local.js:63-65 | the delete list holds exactly the files not kept |
| Local.Zips | src/exporters/local.js:32 | exactly the listed names ending in `.zip` |
| Local.Statted | src/exporters/local.js:34-39 | the statted entries are the files in listing order |
| Local.ByWeekSeen | src/exporters/local.js:51-56 | a seen week key leaves `byWeek` as it is |
| Local.ByWeekNew | src/exporters/local.js:51-56 | a new week key maps to the first (newest) entry that has it |
| Local.KeepNewest | src/exporters/local.js:45-47 | the loop keeps exactly the newest `count` files |
| Local.KeepWeekly | src/exporters/local.js:49-61 | the loops keep the newest file of each of the `weeks` greatest weeks |
| Local.NewestOfEach | src/exporters/local.js:60 | each chosen week's entry goes into `keep` |
| Local.GroupByWeek | src/exporters/local.js:50-56 | `byWeek` maps each week to its newest entry, keys in first-seen order |
| Local.Unkeep | src/exporters/local.js:63-65 | the loop lists the files not kept, in sorted order |
| Local.SelectDoomed | src/exporters/local.js:42-65 | the selection deletes the files outside `keep` |
| Local.PruneLocalBackups | src/exporters/local.js:27-79 | computes the specified deletions; with neither retention set nothing is deleted |
| Local.RankedFiles | src/exporters/local.js:34-40 | sorting keeps exactly the listed files |
| Local.PrunedIsDoomed | src/exporters/local.js:27-65 | with a listing and every status, pruning deletes `Doomed` |
| Local.DoomedListed | src/exporters/local.js:63-65 | only listed files are deleted |
| Local.PrunedOnlyZips | src/exporters/local.js:31-32 | only `.zip` files are ever deleted |
| Local.DoomedPartition | src/exporters/local.js:63-65 | a file is deleted exactly when it is not kept |
| Local.DoomedSparesNewest | src/exporters/local.js:45-47 | the newest `count` files survive and everything deleted ranks after them |
| Local.DoomedSparesWeekly | src/exporters/local.js:49-61 | the newest file of each of the `weeks` greatest weeks survives |
| Local.TopWeeksFromKeys | src/exporters/local.js:57-59 | the chosen weeks are weeks of some file |
| Local.TopWeeksGreatest | src/exporters/local.js:57-59 | the chosen weeks are the greatest keys, `weeks` of them or all |
| Local.NewestOfWeekIsNewest | src/exporters/local.js:51-55 | the entry kept for a week is the newest of that week |
| Local.RankedDistinct | src/exporters/local.js:40 | sorting keeps distinct names distinct |
| Local.ZipsDistinct | src/exporters/local.js:32 | filtering keeps distinct names distinct |
| Local.UnkeptAfterNewest | src/exporters/local.js:45-65 | without the newest `m`, the remaining files all go, in order |
| Local.DoomedCountOnly | src/exporters/local.js:42-65 | with only a count, exactly the newest `count` files remain |
| Local.PrunedCountOnly | src/exporters/local.js:27-65 | pruning with only a count leaves exactly the newest `count` backups |
| Local.LocalStamp | src/exporters/local.js:13-14 | the fallback stamp holds no ':' |
| Local.BackupNameIsZip | src/exporters/local.js:15 | the new backup is a `.zip` that pruning sees |
| Local.MarkerBesideOutput | src/exporters/local.js:19-22 | the marker goes in the parent of the output directory |
| Local.Unlinks | src/exporters/local.js:67-74 | one unlink per deleted name, in order, inside the directory |
| Local.WriteLocalBackup | src/exporters/local.js:9-25 | mkdir, write the backup, write the marker (whole seconds) beside the directory, then prune, each failure stopping there; success returns the backup's path after the unlinks of the pruned files |
| Naming.DefaultStamp | src/exporters/s3.js:25 | the fallback stamp is the ISO time with every colon turned into a dash, nothing else changed |
| Naming.RemoteNameParts | src/exporters/s3.js:25 | the name is the budget id, '-', the stamp and `.zip`, and gives the stamp back |
| Naming.RemoteNameInjective | src/exporters/s3.js:25 | backups of one budget with different stamps never share a name |
| Naming.ExpiringMeaning | src/exporters/dropbox.js:34-37 | once due, a token stays due; with more than a minute left it is not due |
| DropboxExport.UpdatedTokensMeaning | src/exporters/dropbox.js:38-46 | a refresh keeps the stored refresh token and takes the new access token; a token living over a minute is not due when issued |
| DropboxExport.DropboxPathInBase | src/exporters/dropbox.js:56-59 | the file lands directly in the base folder; a trailing slash on it makes no difference |
| DropboxExport.UploadToDropbox | src/exporters/dropbox.js:6-68 | see the note below the table |
| DriveExport.NewTokensMeaning | src/exporters/google-drive.js:28-32 | the refresh token is Google's new one, else the stored one; the other credentials are Google's |
| DriveExport.UnescapeEscape | src/exporters/google-drive.js:47 | a name without backslashes reads back exactly from its escaped form |
| DriveExport.EscapeQuotes | src/exporters/google-drive.js:47 | every quote of the escaped name follows a backslash |
| DriveExport.EscapeKeepsBackslash | src/exporters/google-drive.js:47 | a backslash is not escaped, so the query looks for another name |
| DriveExport.FolderQueryShape | src/exporters/google-drive.js:44-48 | the query is the folder clause, the trash clause and the escaped name clause joined by " and " |
| DriveExport.EnsureFolder | src/exporters/google-drive.js:42-64 | a set folder id is used with no call; else the first listed folder's id; else the folder is created; a failed call is an error |
| DriveExport.Authorize | src/exporters/google-drive.js:4-40 | with `oauth` absent, the key file is read; nullish tokens throw; a due token is refreshed, the new tokens handed to `onTokenUpdate` exactly when it exists; it succeeds exactly when `Authorized` holds and then returns the `Client` (the refreshed tokens after a refresh) |
| DriveExport.StoreBackup | src/exporters/google-drive.js:77-93 | the folder is ensured, then the file is created in it as a zip with the given client; success exactly when a folder is found or created and the upload is accepted |
| DriveExport.UploadToDrive | src/exporters/google-drive.js:66-99 | see the note below the table |
| S3Export.CreateClient | src/exporters/s3.js:3-17 | the region or us-east-1, the path style, the endpoint iff set, and static credentials iff both keys are set |
| S3Export.CreateClientDefaults | src/exporters/s3.js:7-15 | no region means us-east-1; one key missing means the SDK's own credentials |
| S3Export.ObjectKeyParts | src/exporters/s3.js:25 | the key is the prefix then the remote name, and gives the stamp back |
| S3Export.ObjectKeyNoPrefix | src/exporters/s3.js:20-25 | no prefix puts the backup at the top of the bucket |
| S3Export.ObjectKeyInjective | src/exporters/s3.js:25 | two keys under one prefix are equal only for equal stamps |
| S3Export.PutRequest | src/exporters/s3.js:19-33 | an error iff the bucket is unset; else the bucket, a zip content type, the key ending in `.zip` and the client of `createClient` |
| S3Export.PutRequestKey | src/exporters/s3.js:25-29 | the request's key is the prefix, the budget id and the stamp |
| S3Export.UploadToS3 | src/exporters/s3.js:19-35 | success iff the bucket is set and S3 accepts |
| WebDavExport.CreateClientLookup | src/exporters/webdav.js:1-8 | the named export wins; a falsy named export falls back to the default export's; a truthy non-function hides it |
| WebDavExport.TargetPathInBase | src/exporters/webdav.js:26-28 | the file lands directly in the base folder; a trailing slash makes no difference |
| WebDavExport.TargetPathDefault | src/exporters/webdav.js:15-28 | without a base path the backup goes to /actual-backups |
| WebDavExport.PutRequest | src/exporters/webdav.js:10-29 | the url is checked first, then the export; on success the url, the credentials, overwrite, and a path ending in `/<name>` |
| WebDavExport.UploadToWebDav | src/exporters/webdav.js:10-31 | success iff the url is set, `createClient` is found and the server accepts |
| Runner.OfferedId | src/backup-runner.js:50-65 | an offered id is non-empty |
| Runner.ResolveBudgetId | src/backup-runner.js:49-68 | the result is the sync id or a non-empty trimmed id; with nothing offered, the sync id |
| Runner.ResolveFromId | src/backup-runner.js:51-52 | a non-empty string `id` wins, trimmed, over any `budgetId` |
| Runner.ResolveFromNestedId | src/backup-runner.js:53-58 | an object `id` yields its own `id`, trimmed |
| Runner.ResolveFromBudgetId | src/backup-runner.js:59-63 | `budgetId` is the last resort before the sync id |
| Runner.BlankIdFallsBack | src/backup-runner.js:49-68 | an `id` of white space gives the sync id and hides a `budgetId` beside it |
| Runner.ExportedData | src/backup-runner.js:92-101 | exported data is truthy |
| Runner.DownloadAborts | src/backup-runner.js:40-45 | a rejected download ends the export before any stat, load or export |
| Runner.ExportSucceeded | src/backup-runner.js:16-107 | success means the database of the resolved id exists, that id or the sync id loads, and the data is truthy with no error |
| Runner.LoadRetriedOnce | src/backup-runner.js:82-90 | the resolved id is loaded first; only when it fails is the sync id tried, once; both failing is an error |
| Runner.ResolveId | src/backup-runner.js:49-68 | the imperative narrowing of `budgetId` computes `ResolveBudgetId` |
| Runner.ExportBudgetBuffer | src/backup-runner.js:16-107 | outcome and steps are exactly those of the specification `Export` |
| Runner.RunStamp | src/backup-runner.js:137 | the job's stamp is the exporters' fallback stamp |
| Runner.CheckDrive | src/backup-runner.js:152-195 | the Drive checks read the token store exactly as `DriveStage` specifies |
| Runner.CheckDropbox | src/backup-runner.js:224-253 | the Dropbox checks read the token store exactly as `DropboxStage` specifies |
| Runner.CheckDestinations | src/backup-runner.js:139-280 | the checks, stopping at the first that throws, yield exactly the specified `Admit` |
| Runner.MarkSuccess | src/backup-runner.js:288-291 | the two directories and the marker write yield exactly the specified `Marker` |
| Runner.RunBackup | src/backup-runner.js:118-294 | outcome and steps are exactly those of the specification `Run` for the store's files; `Run` does not depend on the shutdown's answer |
| Runner.ExportStepsQuiet | src/backup-runner.js:16-107 | the export never shuts down, starts a task or writes the marker |
| Runner.ShutdownFailureIgnored | src/backup-runner.js:127-131 | a failing shutdown changes neither outcome nor steps; this holds by construction, because `Run` never reads the shutdown's answer, which is how the swallowed error is modelled |
| Runner.LocalShaped | src/backup-runner.js:139-150 | the local check starts one task when enabled, nothing otherwise |
| Runner.DriveShaped | src/backup-runner.js:152-202 | a Drive check that throws names Drive and starts nothing; otherwise one task when enabled |
| Runner.S3Shaped | src/backup-runner.js:204-222 | likewise for S3 |
| Runner.DropboxShaped | src/backup-runner.js:224-260 | likewise for Dropbox |
| Runner.WebDavShaped | src/backup-runner.js:262-280 | likewise for WebDAV |
| Runner.ThenChecked | src/backup-runner.js:139-280 | one more check in order keeps "started = enabled destinations before the one reached" |
| Runner.AdmitChecked | src/backup-runner.js:139-280 | after all five checks, a thrown error names an enabled destination, and exactly the enabled ones before it have started |
| Runner.MarkerStepsQuiet | src/backup-runner.js:109-116 | marking never shuts down or starts a task |
| Runner.ShutdownOnce | src/backup-runner.js:121-132 | the API is shut down exactly once, right after the export steps, whether or not the export threw |
| Runner.StepsAfterShutdown | src/backup-runner.js:121-132 | the job's steps are the export's, the shutdown, and steps without a shutdown |
| Runner.ExportFailureAborts | src/backup-runner.js:121-126 | a failed export is the job's error; nothing else happens after the shutdown |
| Runner.AfterExport | src/backup-runner.js:134-291 | after a good export, the started tasks are the checks' tasks, and the marker is written iff no check threw, no task failed, local is off and both directories were made |
| Runner.ChecksInOrder | src/backup-runner.js:139-280 | a check that throws names an enabled destination; exactly the enabled destinations before it (local, Drive, S3, Dropbox, WebDAV) have started; no marker |
| Runner.TasksLabelled | src/backup-runner.js:135-137 | every task is labelled with the sync id and stamped with the run's time, which holds no ':' |
| Runner.SuccessMeans | src/backup-runner.js:282-291 | success iff the export succeeds, no check throws, no task fails and, with local off, the marker is written; all enabled destinations then started |
| Runner.MarkerRule | src/backup-runner.js:282-291 | the marker is written iff export ok, no check threw, no task failed, local is off and both directories were made |
| Runner.NoDestinations | src/backup-runner.js:282-291 | with nothing enabled nothing starts, and the outcome is the marker's |
| Runner.MarkerMatchesLocal | src/backup-runner.js:109-116 | with an output directory, the job's marker is the local exporter's: same path, same seconds |
| Runner.DriveOptionsAsWritten | src/backup-runner.js:153-157 | the spread Drive options always carry an `oauth` object, without tokens |
| Runner.ServiceAccountUploadAsWritten | src/backup-runner.js:152-158 | with those options, a service-account upload throws on the missing tokens before any call |
| Runner.ServiceAccountUpload | src/backup-runner.js:152-163 | without `oauth`, the upload reads the key file first and ends by creating the named backup; `DriveStage` starts exactly this upload |
| Results.MapAllMeaning | src/config.js:57-82 | the throwing loop succeeds iff every element does, yielding their results in order; otherwise the first error |
| Text.TrimPadded | src/config.js:47 | `trim` removes exactly the surrounding white space |
| Text.JoinSplit | src/config.js:45-46 | splitting loses nothing |
| Text.SplitAt | src/config.js:58 | the first part of a split ends at the first separator |
| Text.ReplaceByChar | src/exporters/s3.js:25 | replacing ':' by '-' keeps the length and changes only the colons |
| Text.StripTrailingSlash | src/exporters/webdav.js:26 | at most one trailing slash goes, and only when there is one |
| Text.ParseIntDecimal | src/config.js:19 | `parseInt` reads back a printed integer of size at most 2^53 |
| Text.PadStart | src/exporters/local.js:87 | the padded string ends with the input and is padded to the width |
| Order.Dedup | src/config.js:107 | `new Set` keeps each element once and loses none |
| Order.DedupOrder | src/config.js:107 | `new Set` keeps first-occurrence order |
| Order.SortDescending | src/exporters/local.js:57-58 | the week sort is a permutation, in descending order |
| Order.BelowTotal | src/exporters/local.js:58 | string `<` orders any two different strings |
| Paths.DirnameOfJoin | src/exporters/local.js:20 | the directory of a joined path is the directory joined onto |

`DropboxExport.UploadToDropbox` states:

- A static token gives exactly one overwrite upload to `<basePath>/<name>`.
- Without `oauth` it throws, and so do nullish tokens.
- A refresh happens iff the expiry is within a minute.
- A rejected refresh is an error.
- `onTokenUpdate` gets the updated tokens iff it exists, and is never called without a refresh.
- A callback that rejects is the `TokenUpdateFailed` error, and only that.
- The OAuth upload uses the stored tokens, or after a refresh the new access token and expiry (`ClientCredentials`).
- With OAuth it succeeds exactly when the tokens are usable, a due refresh and its callback succeed, and the upload is accepted.
- A success uploaded to the right path, and every upload overwrites.

`DriveExport.UploadToDrive` states:

- An unset key path throws.
- In service-account mode the key file is read first.
- A refresh happens iff it is due.
- Nullish tokens throw before any call.
- A set folder id means no folder call.
- A success ends with the zip created under `<budgetId>-<stamp>.zip` in the target folder.
- It succeeds exactly when a client is built (`Authorized`), a folder is found or created, and the upload is accepted.
- Every file is created with the `Client`: the refreshed tokens after a refresh.
- `onTokenUpdate` gets the new tokens only after a refresh.

## Left out

- The HTTP server, the web UI, the scheduler entry point, the logger and the lint configuration: these are not part of the core.
- The SDKs and the file system (Actual API, googleapis, the AWS SDK, Dropbox, webdav, `fs`): each call is a trace step, and its answer is an input.
- Tokens.TokenStore.Set / Clear: a failed `writeFile` is taken to leave the file as it was; a partly written file is not modelled. The directories `mkdir` creates are not part of the file map.
- Text.ParseIntDecimal / Config.IntReadsDecimal: numbers are exact integers in the model; `parseInt` returns a double, which rounds integers beyond 2^53, so both lemmas are stated only up to 2^53.
- `Promise.all` concurrency: the model keeps only the aggregate outcome. `failing` is the set of destinations whose task rejects. The code rejects with one of their errors; the model names them all.
- Runner.RunBackup: the checks that throw after earlier tasks were started leave those tasks running. The model records which tasks started but not what they go on to do.
- The token write-back from inside a task (`onTokenUpdate` → `tokenStore.set`) is not applied by the runner. It is modelled as the exporters' `TokenUpdate` call, and as `Tokens.TokenStore.Set` on its own.
- Clocks and date formatting (`Date.now`, `toISOString`, `formatISO`, UTC year and weekday) are inputs.
- JSON parsing: stored records are opaque values or unreadable.
- `Buffer.from` and the stream conversion are opaque: the buffer is the export's data value.
- `path.resolve(dir, "..")` is modelled as `Dirname`, and `path.join` does no normalisation of "." or ".." segments.
- DropboxExport.NeedsRefresh: an `expires_at` stored as a date string, or any non-number, never triggers a refresh in the model. `new Date(...)` parsing is not modelled. DriveExport.NeedsRefresh does the same for `expiry_date`.
- DropboxExport.UploadToDropbox: the refresh response shape (`result` or the response itself) is collapsed into one access token and lifetime.
- The closing of a previous budget is recorded as a step, and its failure is ignored as in the code.
- Config: the schedule, the HTTP port and the public URL are not modelled; only the sections the job reads are.
- Multi-budget orchestration, label uniqueness across budgets, budget candidates and SQLite sanitisation are not in this code and not modelled.

## Findings

| source | as written | input that shows it | evidently intended | confidence | as-written member | corrected member |
|---|---|---|---|---|---|---|
| src/backup-runner.js:152-158 | in service-account mode the Drive options spread `config.googleDrive`, whose `oauth` object (src/config.js:141-144) is always truthy, so `uploadToDrive` takes the OAuth path and reads `tokens.expiry_date` on undefined tokens | `GDRIVE_MODE=service-account`, `ENABLE_GDRIVE=true`, a readable key file: the upload throws a TypeError before reading the key file | service-account mode uploads with the key file, as if `oauth` were absent | high, not executed | Runner.ServiceAccountUploadAsWritten | Runner.ServiceAccountUpload |

The rest of the model (`Runner.DriveStage`) starts the corrected service-account task.

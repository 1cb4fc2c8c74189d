/**
 * What the four cloud exporters share: the backup's remote file name
 * `<budgetId>-<timestamp>.zip`, the timestamp they fall back to, and the
 * rule that an OAuth access token is refreshed one minute before it expires.
 */
module Naming {
  import opened Results
  import opened Text
  import opened Js

  /** `timestamp || new Date().toISOString().replace(/[:]/g, "-")`, with the ISO text as input. */
  function RemoteStamp(timestamp: Option<string>, isoNow: string): string {
    if Filled(timestamp) then timestamp.value else Replace(isoNow, ':', "-")
  }

  /** The fallback stamp is the ISO time with every colon turned into a dash, nothing else changed. */
  lemma DefaultStamp(isoNow: string)
    ensures var ts := RemoteStamp(None, isoNow);
            && |ts| == |isoNow| && ':' !in ts
            && forall i :: 0 <= i < |isoNow| ==> ts[i] == (if isoNow[i] == ':' then '-' else isoNow[i])
  {
    ReplaceByChar(isoNow, ':', '-');
  }

  /** `${budgetId}-${ts}.zip` */
  function RemoteName(budgetId: string, ts: string): string {
    budgetId + "-" + ts + ".zip"
  }

  /** The stamp read back out of a remote name. */
  function StampOf(budgetId: string, name: string): string
    requires |budgetId| + 5 <= |name|
  {
    name[|budgetId| + 1..|name| - 4]
  }

  /** The name carries the budget id, the stamp and the `.zip` suffix, and gives the stamp back. */
  lemma RemoteNameParts(budgetId: string, ts: string)
    ensures var n := RemoteName(budgetId, ts);
            && StartsWith(n, budgetId + "-") && EndsWith(n, ".zip")
            && |budgetId| + 5 <= |n| && StampOf(budgetId, n) == ts
  {
    var n := RemoteName(budgetId, ts);
    assert n[..|budgetId| + 1] == budgetId + "-";
    assert n[|n| - 4..] == ".zip";
    assert n[|budgetId| + 1..|n| - 4] == ts;
  }

  /** Backups of one budget taken at different times never share a name. */
  lemma RemoteNameInjective(budgetId: string, ts1: string, ts2: string)
    requires RemoteName(budgetId, ts1) == RemoteName(budgetId, ts2)
    ensures ts1 == ts2
  {
    RemoteNameParts(budgetId, ts1);
    RemoteNameParts(budgetId, ts2);
  }

  /** One minute, in milliseconds. */
  const RefreshMarginMs := 60 * 1000

  /** `Date.now() >= expiry - 60 * 1000` */
  predicate Expiring(now: int, expiry: int) {
    now >= expiry - RefreshMarginMs
  }

  /** A token stays due for refresh as time goes on, and is not due while more than a minute is left. */
  lemma ExpiringMeaning(now: int, later: int, expiry: int)
    requires now <= later
    ensures Expiring(now, expiry) ==> Expiring(later, expiry)
    ensures expiry - now > RefreshMarginMs ==> !Expiring(now, expiry)
  {
  }

  /** `expiry && Date.now() >= expiry - 60 * 1000` for a stored expiry field: an
      absent, zero or non-numeric expiry never asks for a refresh. */
  predicate ExpiryDue(expiry: Value, now: int) {
    Truthy(expiry) && expiry.Num? && Expiring(now, expiry.n)
  }
}

/**
 * The S3 exporter: the client configuration built from the settings, and the
 * one `PutObject` request that stores the backup under
 * `<prefix><budgetId>-<timestamp>.zip` in the configured bucket.
 */
module S3Export {
  import opened Results
  import opened Text
  import opened Naming

  /** The options `uploadToS3` receives; `prefix` is `None` when the property is undefined. */
  datatype S3Options = S3Options(
    endpoint: Option<string>,
    region: Option<string>,
    bucket: Option<string>,
    prefix: Option<string>,
    accessKeyId: Option<string>,
    secretAccessKey: Option<string>,
    forcePathStyle: bool,
    budgetId: string,
    timestamp: Option<string>)

  datatype StaticCredentials = StaticCredentials(accessKeyId: string, secretAccessKey: string)

  /** The configuration handed to `new S3Client`; an absent property is `None`. */
  datatype ClientConfig = ClientConfig(
    region: string,
    forcePathStyle: bool,
    endpoint: Option<string>,
    credentials: Option<StaticCredentials>)

  /** The `PutObjectCommand` input, without the body. */
  datatype PutObject = PutObject(client: ClientConfig, bucket: string, key: string, contentType: string)

  datatype S3Error = BucketMissing | PutFailed

  const DefaultRegion := "us-east-1"
  const ZipType := "application/zip"

  /** `createClient(config)` */
  function CreateClient(opts: S3Options): (c: ClientConfig)
    ensures c.region != ""
    ensures Filled(opts.region) ==> c.region == opts.region.value
    ensures c.forcePathStyle == opts.forcePathStyle
    ensures c.endpoint.Some? <==> Filled(opts.endpoint)
    ensures c.endpoint.Some? ==> c.endpoint == opts.endpoint
    ensures c.credentials.Some? <==> Filled(opts.accessKeyId) && Filled(opts.secretAccessKey)
    ensures c.credentials.Some? ==>
              c.credentials.value == StaticCredentials(opts.accessKeyId.value, opts.secretAccessKey.value)
  {
    ClientConfig(
      if Filled(opts.region) then opts.region.value else DefaultRegion,
      opts.forcePathStyle,
      if Filled(opts.endpoint) then opts.endpoint else None,
      if Filled(opts.accessKeyId) && Filled(opts.secretAccessKey)
      then Some(StaticCredentials(opts.accessKeyId.value, opts.secretAccessKey.value))
      else None)
  }

  /** Without a region, or with an empty one, the client talks to us-east-1;
      with one key of the pair missing, it falls back to the SDK's own credentials. */
  lemma CreateClientDefaults(opts: S3Options)
    ensures !Filled(opts.region) ==> CreateClient(opts).region == DefaultRegion
    ensures !Filled(opts.accessKeyId) || !Filled(opts.secretAccessKey) ==> CreateClient(opts).credentials.None?
  {
  }

  /** `${prefix}${budgetId}-${timestamp}.zip` */
  function ObjectKey(prefix: Option<string>, budgetId: string, ts: string): string {
    prefix.GetOr("") + RemoteName(budgetId, ts)
  }

  /** A key is the prefix followed by the remote name, and the stamp can be read back from it. */
  lemma ObjectKeyParts(prefix: string, budgetId: string, ts: string)
    ensures var key := ObjectKey(Some(prefix), budgetId, ts);
            && StartsWith(key, prefix + budgetId + "-") && EndsWith(key, ".zip")
            && key[|prefix|..] == RemoteName(budgetId, ts)
            && StampOf(budgetId, key[|prefix|..]) == ts
  {
    var key := ObjectKey(Some(prefix), budgetId, ts);
    RemoteNameParts(budgetId, ts);
    assert key[|prefix|..] == RemoteName(budgetId, ts);
    assert key[..|prefix| + |budgetId| + 1] == prefix + budgetId + "-";
    assert key[|key| - 4..] == RemoteName(budgetId, ts)[|RemoteName(budgetId, ts)| - 4..];
  }

  /** No prefix puts the backup at the top of the bucket. */
  lemma ObjectKeyNoPrefix(budgetId: string, ts: string)
    ensures ObjectKey(None, budgetId, ts) == RemoteName(budgetId, ts)
    ensures ObjectKey(Some(""), budgetId, ts) == RemoteName(budgetId, ts)
  {
  }

  /** Two backups under one prefix share a key only when they share a stamp. */
  lemma ObjectKeyInjective(prefix: Option<string>, budgetId: string, ts1: string, ts2: string)
    requires ObjectKey(prefix, budgetId, ts1) == ObjectKey(prefix, budgetId, ts2)
    ensures ts1 == ts2
  {
    var p := prefix.GetOr("");
    assert ObjectKey(prefix, budgetId, ts1)[|p|..] == RemoteName(budgetId, ts1);
    assert ObjectKey(prefix, budgetId, ts2)[|p|..] == RemoteName(budgetId, ts2);
    RemoteNameInjective(budgetId, ts1, ts2);
  }

  /** The request `uploadToS3` sends, or the error it throws before building a client. */
  function PutRequest(opts: S3Options, isoNow: string): (r: Result<PutObject, S3Error>)
    ensures r.Err? <==> !Filled(opts.bucket)
    ensures r.Err? ==> r.error == BucketMissing
    ensures r.Ok? ==> r.value.bucket == opts.bucket.value && r.value.contentType == ZipType
    ensures r.Ok? ==> r.value.client == CreateClient(opts)
    ensures r.Ok? ==> EndsWith(r.value.key, ".zip")
  {
    if !Filled(opts.bucket) then Err(BucketMissing)
    else
      var key := ObjectKey(opts.prefix, opts.budgetId, RemoteStamp(opts.timestamp, isoNow));
      ObjectKeyParts(opts.prefix.GetOr(""), opts.budgetId, RemoteStamp(opts.timestamp, isoNow));
      Ok(PutObject(CreateClient(opts), opts.bucket.value, key, ZipType))
  }

  /** The request's key is the configured prefix, the budget id and the stamp. */
  lemma PutRequestKey(opts: S3Options, isoNow: string)
    requires Filled(opts.bucket)
    ensures PutRequest(opts, isoNow).Ok?
    ensures PutRequest(opts, isoNow).value.key == ObjectKey(opts.prefix, opts.budgetId, RemoteStamp(opts.timestamp, isoNow))
  {
  }

  /** `await uploadToS3(buffer, config)`: `sendOk` is whether S3 accepts the request. */
  function UploadToS3(opts: S3Options, isoNow: string, sendOk: bool): (r: Result<(), S3Error>)
    ensures r.Ok? <==> Filled(opts.bucket) && sendOk
    ensures !Filled(opts.bucket) ==> r == Err(BucketMissing)
  {
    match PutRequest(opts, isoNow)
    case Err(e) => Err(e)
    case Ok(_) => if sendOk then Ok(()) else Err(PutFailed)
  }
}

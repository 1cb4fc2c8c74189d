/**
 * The token store: one JSON file per provider ("google.json", "dropbox.json")
 * under a base directory, holding the OAuth tokens of that provider.
 * The files the store can see are a map from path to content; a path
 * absent from the map is a file that does not exist.
 */
module Tokens {
  import opened Results
  import opened Js
  import opened Paths

  /** What a token file holds: text `JSON.parse` accepts, text it rejects,
      or a file the process cannot read (any failure but ENOENT). */
  datatype Stored = Json(v: Value) | Unparsable | Unreadable

  datatype StoreError =
    | ParseFailed        // the file exists but is not JSON
    | ReadFailed         // reading the file failed for another reason
    | NotSerializable    // `JSON.stringify` gave undefined, so nothing could be written
    | DirFailed          // `init`'s recursive mkdir of the base directory failed
    | WriteFailed        // `writeFile` failed
    | RemoveFailed       // `rm` failed for another reason than a missing file

  /** What the file system answers to `set`: `mkdir` of the base directory, then `writeFile`. */
  datatype WriteOutcome = WriteDone | MkdirRejected | WriteRejected

  /** A value JSON can carry at every depth: no undefined, no function. */
  predicate IsJson(v: Value) {
    match v
    case Undefined => false
    case Fn => false
    case Obj(fields) => forall k :: k in fields ==> IsJson(fields[k])
    case _ => true
  }

  /** `JSON.stringify` has a text for the value itself. */
  predicate Serializable(v: Value) {
    !v.Undefined? && !v.Fn?
  }

  /** `JSON.parse(JSON.stringify(v))`: properties holding undefined or a function are dropped. */
  function Stringified(v: Value): (r: Value)
    requires Serializable(v)
    ensures IsJson(r)
  {
    match v
    case Obj(fields) =>
      Obj(map k | k in fields && Serializable(fields[k]) :: Stringified(fields[k]))
    case _ => v
  }

  /** JSON values survive the round trip unchanged. */
  lemma {:induction false} StringifiedJson(v: Value)
    requires IsJson(v)
    ensures Stringified(v) == v
  {
    if v.Obj? {
      var fields := v.fields;
      forall k | k in fields ensures Stringified(fields[k]) == fields[k] {
        StringifiedJson(fields[k]);
      }
      assert Stringified(v).fields == fields;
    }
  }

  /** `filePath(provider)` */
  function ProviderFile(baseDir: string, provider: string): string {
    JoinPath(baseDir, provider + ".json")
  }

  /** Different providers have different files. */
  lemma ProviderFileInjective(baseDir: string, p: string, q: string)
    requires ProviderFile(baseDir, p) == ProviderFile(baseDir, q)
    ensures p == q
  {
    var a := ProviderFile(baseDir, p);
    var pre := a[..|a| - |p| - 5];
    assert a == pre + p + ".json";
    assert ProviderFile(baseDir, q) == pre + q + ".json";
    assert p == a[|pre|..|a| - 5];
  }

  /** `get(provider)`: the parsed file, null when there is none, an error otherwise. */
  function Read(files: map<string, Stored>, path: string): (r: Result<Value, StoreError>)
    ensures path !in files ==> r == Ok(Null)
    ensures r.Ok? && r.value != Null ==> path in files && files[path] == Json(r.value)
  {
    if path !in files then Ok(Null)
    else
      match files[path]
      case Json(v) => Ok(v)
      case Unparsable => Err(ParseFailed)
      case Unreadable => Err(ReadFailed)
  }

  /** `set(provider, data)` on the file map. */
  function Written(files: map<string, Stored>, path: string, data: Value): (r: Result<map<string, Stored>, StoreError>)
  {
    if Serializable(data) then Ok(files[path := Json(Stringified(data))]) else Err(NotSerializable)
  }

  /** What `set` wrote, `get` reads back; a JSON value exactly. */
  lemma ReadAfterWrite(files: map<string, Stored>, path: string, data: Value)
    requires Serializable(data)
    ensures Written(files, path, data).Ok?
    ensures Read(Written(files, path, data).value, path) == Ok(Stringified(data))
    ensures IsJson(data) ==> Read(Written(files, path, data).value, path) == Ok(data)
  {
    if IsJson(data) {
      StringifiedJson(data);
    }
  }

  /** `set(provider, undefined)` fails and leaves the files alone. */
  lemma WriteUndefined(files: map<string, Stored>, path: string)
    ensures Written(files, path, Undefined) == Err(NotSerializable)
    ensures Written(files, path, Fn) == Err(NotSerializable)
  {
  }

  /** After `clear`, `get` reads null and `has` is false. */
  lemma ReadAfterClear(files: map<string, Stored>, path: string)
    ensures Read(files - {path}, path) == Ok(Null)
    ensures !Holds(files - {path}, path)
  {
  }

  /** Writing or clearing one provider's file does not change what another reads. */
  lemma OtherFilesUnchanged(files: map<string, Stored>, baseDir: string, p: string, q: string, data: Value)
    requires p != q && Serializable(data)
    ensures Read(Written(files, ProviderFile(baseDir, p), data).value, ProviderFile(baseDir, q)) == Read(files, ProviderFile(baseDir, q))
    ensures Read(files - {ProviderFile(baseDir, p)}, ProviderFile(baseDir, q)) == Read(files, ProviderFile(baseDir, q))
  {
    if ProviderFile(baseDir, p) == ProviderFile(baseDir, q) {
      ProviderFileInjective(baseDir, p, q);
    }
  }

  /** `has(provider)`: `get` returned something other than null. */
  predicate Holds(files: map<string, Stored>, path: string) {
    Read(files, path).Ok? && Read(files, path).value != Null
  }

  /** Storing null makes `has` false, as `has` compares with null. */
  lemma HoldsAfterWrite(files: map<string, Stored>, path: string, data: Value)
    requires IsJson(data)
    ensures Holds(Written(files, path, data).value, path) <==> data != Null
  {
    ReadAfterWrite(files, path, data);
  }

  class TokenStore {
    const baseDir: string
    /** The provider files in the file system, by path. */
    var files: map<string, Stored>

    constructor(baseDir: string, files: map<string, Stored>)
      ensures this.baseDir == baseDir && this.files == files
    {
      this.baseDir := baseDir;
      this.files := files;
    }

    function FilePath(provider: string): string {
      ProviderFile(baseDir, provider)
    }

    method Get(provider: string) returns (r: Result<Value, StoreError>)
      ensures r == Read(files, FilePath(provider))
    {
      var path := FilePath(provider);
      if path !in files {
        return Ok(Null);
      }
      match files[path]
      case Json(v) => r := Ok(v);
      case Unparsable => r := Err(ParseFailed);
      case Unreadable => r := Err(ReadFailed);
    }

    /** `set(provider, data)`; `disk` is what `mkdir` and `writeFile` answer. */
    method Set(provider: string, data: Value, disk: WriteOutcome) returns (r: Result<(), StoreError>)
      modifies this
      ensures disk.MkdirRejected? ==> r == Err(DirFailed) && files == old(files)
      ensures !disk.MkdirRejected? && Written(old(files), FilePath(provider), data).Err? ==>
                r == Err(NotSerializable) && files == old(files)
      ensures disk.WriteRejected? && Written(old(files), FilePath(provider), data).Ok? ==>
                r == Err(WriteFailed) && files == old(files)
      ensures disk.WriteDone? && Written(old(files), FilePath(provider), data).Ok? ==>
                r.Ok? && files == Written(old(files), FilePath(provider), data).value
    {
      if disk.MkdirRejected? {
        return Err(DirFailed);
      }
      if !Serializable(data) {
        return Err(NotSerializable);
      }
      if disk.WriteRejected? {
        return Err(WriteFailed);
      }
      files := files[FilePath(provider) := Json(Stringified(data))];
      return Ok(());
    }

    /** `clear(provider)`: `rm` with `force`, so a missing file is no error;
        `removeOk` is false when `rm` fails for another reason. */
    method Clear(provider: string, removeOk: bool) returns (r: Result<(), StoreError>)
      modifies this
      ensures removeOk ==> r.Ok? && files == old(files) - {FilePath(provider)}
      ensures !removeOk ==> r == Err(RemoveFailed) && files == old(files)
    {
      if !removeOk {
        return Err(RemoveFailed);
      }
      files := files - {FilePath(provider)};
      return Ok(());
    }

    method Has(provider: string) returns (r: Result<bool, StoreError>)
      ensures Read(files, FilePath(provider)).Err? ==> r == Err(Read(files, FilePath(provider)).error)
      ensures Read(files, FilePath(provider)).Ok? ==> r == Ok(Holds(files, FilePath(provider)))
    {
      var got := Get(provider);
      if got.Err? {
        return Err(got.error);
      }
      return Ok(got.value != Null);
    }
  }
}

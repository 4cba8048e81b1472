/**
 * The account-mapping policy and the two file-consuming loaders of
 * pkg/config/config.go, over an abstract file system.
 */
module Config {
  import opened Wrappers

  /** One `{account_id, custom_name}` pair of the mapping file. */
  datatype AccountMapping = AccountMapping(accountId: string, customName: string)

  /** The whole mapping file: the ordered mappings and the ignore list. */
  datatype AccountMappingConfig = AccountMappingConfig(mappings: seq<AccountMapping>, ignoreList: seq<string>)

  /** The configuration used when no mapping file is configured or found. */
  const EmptyConfig := AccountMappingConfig([], [])

  /** `i` is the position of the first mapping for `accountId`. */
  ghost predicate FirstMatch(mappings: seq<AccountMapping>, accountId: string, i: int)
  {
    && 0 <= i < |mappings|
    && mappings[i].accountId == accountId
    && forall j :: 0 <= j < i ==> mappings[j].accountId != accountId
  }

  /** The linear scan over `mappings`: the custom name of the first match, else `originalName`. */
  function ScanMappings(mappings: seq<AccountMapping>, accountId: string, originalName: string): (name: string)
    ensures forall i | FirstMatch(mappings, accountId, i) :: name == mappings[i].customName
    ensures (forall i | 0 <= i < |mappings| :: mappings[i].accountId != accountId) ==> name == originalName
    ensures name == originalName || exists i :: FirstMatch(mappings, accountId, i)
  {
    if mappings == [] then originalName
    else if mappings[0].accountId == accountId then
      assert FirstMatch(mappings, accountId, 0);
      mappings[0].customName
    else
      var rest := ScanMappings(mappings[1..], accountId, originalName);
      assert forall i | FirstMatch(mappings, accountId, i) :: i > 0 && FirstMatch(mappings[1..], accountId, i - 1);
      assert forall i | FirstMatch(mappings[1..], accountId, i) :: FirstMatch(mappings, accountId, i + 1);
      rest
  }

  /** The custom name of `accountId` if some mapping names it (the first one wins), else `originalName`. */
  function GetAccountNameMapping(config: AccountMappingConfig, accountId: string, originalName: string): (name: string)
    ensures forall i | FirstMatch(config.mappings, accountId, i) :: name == config.mappings[i].customName
    ensures (forall i | 0 <= i < |config.mappings| :: config.mappings[i].accountId != accountId) ==> name == originalName
    ensures name == originalName || exists i :: FirstMatch(config.mappings, accountId, i)
  {
    ScanMappings(config.mappings, accountId, originalName)
  }

  /** The linear scan over the ignore list. */
  function ScanIgnoreList(ignoreList: seq<string>, accountId: string): (ignored: bool)
    ensures ignored <==> exists i :: 0 <= i < |ignoreList| && ignoreList[i] == accountId
  {
    if ignoreList == [] then false
    else if ignoreList[0] == accountId then true
    else
      var rest := ScanIgnoreList(ignoreList[1..], accountId);
      assert forall i | 0 < i < |ignoreList| :: ignoreList[i] == ignoreList[1..][i - 1];
      rest
  }

  /** Whether `accountId` is suppressed from the metrics. */
  function IsAccountIgnored(config: AccountMappingConfig, accountId: string): (ignored: bool)
    ensures ignored <==> accountId in config.ignoreList
  {
    ScanIgnoreList(config.ignoreList, accountId)
  }

  /** With the empty configuration nothing is ignored and every account keeps its own name. */
  lemma EmptyConfigIsNeutral(accountId: string, originalName: string)
    ensures !IsAccountIgnored(EmptyConfig, accountId)
    ensures GetAccountNameMapping(EmptyConfig, accountId, originalName) == originalName
  {
  }

  // ---------------------------------------------------------------------------
  // The file system the loaders work on

  /**
   * A file: its contents, whether reading it succeeds (permissions, I/O) and
   * whether removing it succeeds.
   */
  datatype FileEntry = FileEntry(data: string, readable: bool, removable: bool)

  /** Why `os.ReadFile` failed: the `os.IsNotExist` case, or any other error. */
  datatype ReadError = NotExist | ReadFailed

  datatype ConfigError =
    | ReadAccessUrlError(cause: ReadError)
    | ParseAccessUrlError
    | RemoveAccessUrlError
    | ReadMappingsError(cause: ReadError)
    | ParseMappingsError

  /** The mutable file system, keyed by path. */
  class FileSystem {
    var files: map<string, FileEntry>

    constructor (files: map<string, FileEntry>)
      ensures this.files == files
    {
      this.files := files;
    }
  }

  /** `os.ReadFile`: the whole contents, or why they could not be read. */
  function ReadFile(files: map<string, FileEntry>, path: string): (r: Result<string, ReadError>)
    ensures r.Failure? && r.error == NotExist <==> path !in files
    ensures r.Success? <==> path in files && files[path].readable
    ensures r.Success? ==> r.value == files[path].data
  {
    if path !in files then Failure(NotExist)
    else if !files[path].readable then Failure(ReadFailed)
    else Success(files[path].data)
  }

  /** `os.Remove`: the file system without `path`, or a failure that changes nothing. */
  function RemoveFile(files: map<string, FileEntry>, path: string): (r: Option<map<string, FileEntry>>)
    ensures r.Some? <==> path in files && files[path].removable
    ensures r.Some? ==> r.value.Keys == files.Keys - {path}
    ensures r.Some? ==> forall p | p in r.value :: r.value[p] == files[p]
  {
    if path in files && files[path].removable then Some(files - {path}) else None
  }

  /**
   * What reading-and-deleting the access-URL file yields and leaves behind:
   * the file goes away only after it was read, parsed and removed.
   */
  function ConsumeAccessUrlFile(files: map<string, FileEntry>, path: string, parseUrl: string -> Option<string>)
    : (r: (Result<string, ConfigError>, map<string, FileEntry>))
    ensures r.0.Success? <==>
              && path in files && files[path].readable
              && parseUrl(files[path].data).Some? && files[path].removable
    ensures r.0.Success? ==> r.0.value == parseUrl(files[path].data).value && r.1 == files - {path}
    ensures r.0.Failure? ==> r.1 == files
    ensures path !in files ==> r.0 == Failure(ReadAccessUrlError(NotExist))
  {
    match ReadFile(files, path)
    case Failure(e) => (Failure(ReadAccessUrlError(e)), files)
    case Success(data) =>
      match parseUrl(data)
      case None => (Failure(ParseAccessUrlError), files)
      case Some(url) =>
        match RemoveFile(files, path)
        case None => (Failure(RemoveAccessUrlError), files)
        case Some(rest) => (Success(url), rest)
  }

  /**
   * Reads the access URL from `filepath`, parses it, and deletes the file;
   * returns the parsed URL's string form.
   */
  method ReadAndDeleteAccessURLFile(fs: FileSystem, filepath: string, parseUrl: string -> Option<string>)
    returns (r: Result<string, ConfigError>)
    modifies fs
    ensures (r, fs.files) == ConsumeAccessUrlFile(old(fs.files), filepath, parseUrl)
  {
    var data := ReadFile(fs.files, filepath);
    if data.Failure? {
      return Failure(ReadAccessUrlError(data.error));
    }
    var parsedUrl := parseUrl(data.value);
    if parsedUrl.None? {
      return Failure(ParseAccessUrlError);
    }
    var removed := RemoveFile(fs.files, filepath);
    if removed.None? {
      return Failure(RemoveAccessUrlError);
    }
    fs.files := removed.value;
    return Success(parsedUrl.value);
  }

  /** A file that was consumed once cannot be consumed again: the second read finds nothing. */
  lemma ConsumedFileIsGone(files: map<string, FileEntry>, path: string, parseUrl: string -> Option<string>)
    requires ConsumeAccessUrlFile(files, path, parseUrl).0.Success?
    ensures path !in ConsumeAccessUrlFile(files, path, parseUrl).1
    ensures ConsumeAccessUrlFile(ConsumeAccessUrlFile(files, path, parseUrl).1, path, parseUrl)
         == (Failure(ReadAccessUrlError(NotExist)), ConsumeAccessUrlFile(files, path, parseUrl).1)
  {
  }

  /**
   * Loads the mapping file at `filepath`. An empty path, or a path that does
   * not exist, gives the empty configuration; any other read error, or
   * contents that do not parse, is an error.
   */
  method LoadAccountMappings(fs: FileSystem, filepath: string, parseJson: string -> Option<AccountMappingConfig>)
    returns (r: Result<AccountMappingConfig, ConfigError>)
    ensures filepath == "" ==> r == Success(EmptyConfig)
    ensures filepath != "" && filepath !in fs.files ==> r == Success(EmptyConfig)
    ensures filepath != "" && filepath in fs.files && !fs.files[filepath].readable ==>
              r == Failure(ReadMappingsError(ReadFailed))
    ensures filepath != "" && filepath in fs.files && fs.files[filepath].readable ==>
              match parseJson(fs.files[filepath].data)
              case None => r == Failure(ParseMappingsError)
              case Some(config) => r == Success(config)
  {
    if filepath == "" {
      return Success(EmptyConfig);
    }
    var data := ReadFile(fs.files, filepath);
    if data.Failure? {
      if data.error == NotExist {
        return Success(EmptyConfig);
      }
      return Failure(ReadMappingsError(data.error));
    }
    var config := parseJson(data.value);
    if config.None? {
      return Failure(ParseMappingsError);
    }
    return Success(config.value);
  }
}

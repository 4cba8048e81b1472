/**
 * Credential resolution at start-up and one poll iteration, after
 * cmd/main-modified.go: the Kubernetes secret used as a durable cache of the
 * access URL, the one-time setup-token exchange, and the precedence chain
 * that decides which access URL the client is built from.
 */
module Cmd {
  import opened Wrappers
  import opened Config
  import opened Exporter

  /** The data key of the secret that holds the access URL. */
  const AccessUrlKey := "access_url"

  /** HTTP 200, the only status that completes a setup-token claim. */
  const StatusOK := 200

  // ---------------------------------------------------------------------------
  // The Kubernetes secret store

  datatype SecretRef = SecretRef(namespace: string, name: string)

  /** A secret; `data` is `None` when the secret's data map is nil. */
  datatype Secret = Secret(data: Option<map<string, string>>)

  /**
   * The secrets of the cluster, with the ones a `Get` fails on (missing
   * permission, API error) and the ones an `Update` fails on.
   */
  datatype Cluster = Cluster(secrets: map<SecretRef, Secret>, unreadable: set<SecretRef>, unwritable: set<SecretRef>)

  datatype StoreError = GetFailed | UpdateFailed

  /** A `Get` of the secret at `ref`. */
  function GetSecret(c: Cluster, ref: SecretRef): (r: Result<Secret, StoreError>)
    ensures r.Success? <==> ref in c.secrets && ref !in c.unreadable
    ensures r.Success? ==> r.value == c.secrets[ref]
  {
    if ref in c.secrets && ref !in c.unreadable then Success(c.secrets[ref]) else Failure(GetFailed)
  }

  /** The entry `key` of the secret's data; a nil data map has no entries. */
  function Field(s: Secret, key: string): Option<string>
  {
    match s.data
    case None => None
    case Some(data) => Lookup(data, key)
  }

  /** The access URL the secret at `ref` holds, if it can be read and has one. */
  function StoredAccessUrl(c: Cluster, ref: SecretRef): Option<string>
  {
    match GetSecret(c, ref)
    case Failure(_) => None
    case Success(secret) => Field(secret, AccessUrlKey)
  }

  /** The guard against error strings stored in place of a URL. */
  predicate HasHttpScheme(s: string)
  {
    "http://" <= s || "https://" <= s
  }

  /** Both the secret's name and namespace are configured. */
  predicate UsesSecret(secretName: string, secretNamespace: string)
  {
    secretName != "" && secretNamespace != ""
  }

  /**
   * The access URL cached in the secret, or "" when the secret is not
   * configured, cannot be read, has no access URL, or holds a value that is
   * not an http(s) URL. Never an error.
   */
  function GetAccessUrlFromSecret(c: Cluster, secretName: string, secretNamespace: string): (r: Result<string, StoreError>)
    ensures r.Success?
    ensures !UsesSecret(secretName, secretNamespace) ==> r.value == ""
    ensures r.value != "" <==>
              && UsesSecret(secretName, secretNamespace)
              && StoredAccessUrl(c, SecretRef(secretNamespace, secretName)).Some?
              && HasHttpScheme(StoredAccessUrl(c, SecretRef(secretNamespace, secretName)).value)
    ensures r.value != "" ==> StoredAccessUrl(c, SecretRef(secretNamespace, secretName)) == Some(r.value)
  {
    if secretName == "" || secretNamespace == "" then Success("")
    else
      match GetSecret(c, SecretRef(secretNamespace, secretName))
      case Failure(_) => Success("")
      case Success(secret) =>
        match Field(secret, AccessUrlKey)
        case None => Success("")
        case Some(accessUrlStr) => if HasHttpScheme(accessUrlStr) then Success(accessUrlStr) else Success("")
  }

  /** The secret with its access URL set; a nil data map is first made empty, other keys are kept. */
  function WithAccessUrl(s: Secret, accessUrl: string): (r: Secret)
    ensures r.data.Some?
    ensures forall key :: Field(r, key) == if key == AccessUrlKey then Some(accessUrl) else Field(s, key)
  {
    var data := match s.data case None => map[] case Some(d) => d;
    Secret(Some(data[AccessUrlKey := accessUrl]))
  }

  /** The outcome and the cluster after a read-modify-write of the access URL. */
  function SaveAccessUrl(c: Cluster, secretName: string, secretNamespace: string, accessUrl: string)
    : (r: (Outcome<StoreError>, Cluster))
    ensures !UsesSecret(secretName, secretNamespace) ==> r == (Pass, c)
    ensures r.0.Fail? ==> r.1 == c
    ensures UsesSecret(secretName, secretNamespace) ==>
              (r.0 == Fail(GetFailed) <==> GetSecret(c, SecretRef(secretNamespace, secretName)).Failure?)
    ensures UsesSecret(secretName, secretNamespace) ==>
              (r.0 == Fail(UpdateFailed) <==>
                 GetSecret(c, SecretRef(secretNamespace, secretName)).Success?
                 && SecretRef(secretNamespace, secretName) in c.unwritable)
    ensures UsesSecret(secretName, secretNamespace) && r.0 == Pass ==>
              var ref := SecretRef(secretNamespace, secretName);
              && ref in c.secrets
              && r.1 == c.(secrets := c.secrets[ref := WithAccessUrl(c.secrets[ref], accessUrl)])
  {
    if secretName == "" || secretNamespace == "" then (Pass, c)
    else
      var ref := SecretRef(secretNamespace, secretName);
      match GetSecret(c, ref)
      case Failure(_) => (Fail(GetFailed), c)
      case Success(secret) =>
        if ref in c.unwritable then (Fail(UpdateFailed), c)
        else (Pass, c.(secrets := c.secrets[ref := WithAccessUrl(secret, accessUrl)]))
  }

  /** What was saved is what is read back, provided it passes the http(s) guard. */
  lemma SavedAccessUrlIsRead(c: Cluster, secretName: string, secretNamespace: string, accessUrl: string)
    requires UsesSecret(secretName, secretNamespace)
    requires SaveAccessUrl(c, secretName, secretNamespace, accessUrl).0 == Pass
    ensures var c' := SaveAccessUrl(c, secretName, secretNamespace, accessUrl).1;
            && StoredAccessUrl(c', SecretRef(secretNamespace, secretName)) == Some(accessUrl)
            && GetAccessUrlFromSecret(c', secretName, secretNamespace)
               == Success(if HasHttpScheme(accessUrl) then accessUrl else "")
  {
    var ref := SecretRef(secretNamespace, secretName);
    var c' := SaveAccessUrl(c, secretName, secretNamespace, accessUrl).1;
    assert GetSecret(c', ref) == Success(WithAccessUrl(c.secrets[ref], accessUrl));
    assert Field(WithAccessUrl(c.secrets[ref], accessUrl), AccessUrlKey) == Some(accessUrl);
  }

  /** The cluster as seen through the process's Kubernetes client. */
  class SecretStore {
    var cluster: Cluster

    constructor (cluster: Cluster)
      ensures this.cluster == cluster
    {
      this.cluster := cluster;
    }

    /** Replaces the secret at `ref`. */
    method Update(ref: SecretRef, secret: Secret) returns (r: Outcome<StoreError>)
      modifies this
      ensures r == Pass <==> ref in old(cluster.secrets) && ref !in old(cluster.unwritable)
      ensures r == Pass ==> cluster == old(cluster).(secrets := old(cluster.secrets)[ref := secret])
      ensures r != Pass ==> r == Fail(UpdateFailed) && cluster == old(cluster)
    {
      if ref in cluster.secrets && ref !in cluster.unwritable {
        cluster := cluster.(secrets := cluster.secrets[ref := secret]);
        return Pass;
      }
      return Fail(UpdateFailed);
    }
  }

  /** Stores `accessUrl` into the configured secret, keeping its other keys. */
  method SaveAccessUrlToSecret(store: SecretStore, secretName: string, secretNamespace: string, accessUrl: string)
    returns (r: Outcome<StoreError>)
    modifies store
    ensures (r, store.cluster) == SaveAccessUrl(old(store.cluster), secretName, secretNamespace, accessUrl)
  {
    if secretName == "" || secretNamespace == "" {
      return Pass;
    }
    var ref := SecretRef(secretNamespace, secretName);
    var got := GetSecret(store.cluster, ref);
    if got.Failure? {
      return Fail(GetFailed);
    }
    var data: map<string, string>;
    if got.value.data.None? {
      data := map[];
    } else {
      data := got.value.data.value;
    }
    data := data[AccessUrlKey := accessUrl];
    var updated := store.Update(ref, Secret(Some(data)));
    if updated.Fail? {
      return Fail(UpdateFailed);
    }
    return Pass;
  }

  // ---------------------------------------------------------------------------
  // The setup-token exchange

  /** What the POST to the claim URL gave: no response at all, or a status and the whole body. */
  datatype HttpResponse = TransportError | Response(status: int, body: string)

  datatype ClaimError = DecodeTokenError | RequestError | ClaimRejected(status: int, body: string)

  /**
   * Exchanges the setup token for an access URL: the token is the base64 form
   * of a claim URL, and only a 200 answer to the POST yields its body.
   */
  function CreateClientAndGetAccessUrl(setupToken: string, decodeBase64: string -> Option<string>,
                                       post: string -> HttpResponse): (r: Result<string, ClaimError>)
    ensures decodeBase64(setupToken).None? ==> r == Failure(DecodeTokenError)
    ensures r.Success? <==>
              && decodeBase64(setupToken).Some?
              && post(decodeBase64(setupToken).value).Response?
              && post(decodeBase64(setupToken).value).status == StatusOK
    ensures r.Success? ==> r.value == post(decodeBase64(setupToken).value).body
    ensures decodeBase64(setupToken).Some? && post(decodeBase64(setupToken).value).Response?
              && post(decodeBase64(setupToken).value).status != StatusOK ==>
              r == Failure(ClaimRejected(post(decodeBase64(setupToken).value).status,
                                         post(decodeBase64(setupToken).value).body))
  {
    match decodeBase64(setupToken)
    case None => Failure(DecodeTokenError)
    case Some(claimUrl) =>
      match post(claimUrl)
      case TransportError => Failure(RequestError)
      case Response(status, body) =>
        if status != StatusOK then Failure(ClaimRejected(status, body)) else Success(body)
  }

  // ---------------------------------------------------------------------------
  // Start-up resolution

  /** The command-line flags that take part in resolution. */
  datatype Flags = Flags(
    setupToken: string,
    accessUrl: string,
    accessUrlVolatileFile: string,
    secretName: string,
    secretNamespace: string)

  /** The outside world as resolution sees it. */
  datatype Environment = Environment(
    inCluster: bool,                         // the in-cluster Kubernetes client can be built
    parseUrl: string -> Option<string>,      // url.Parse, then the URL's string form
    intervalParses: bool,                    // the update interval is a valid duration
    decodeBase64: string -> Option<string>,  // standard base64 decoding
    post: string -> HttpResponse,            // the empty-bodied POST to a claim URL
    clientAccepts: string -> bool)           // a SimpleFin client can be built from this URL

  /** The reasons start-up ends the process. */
  datatype Fatal =
    | KubernetesInitFailed
    | AccessUrlFileFailed(fileError: ConfigError)
    | CredentialsMissing
    | IntervalInvalid
    | SetupTokenFailed(claimError: ClaimError)
    | ClientInitFailed

  /**
   * A successful resolution: the URL the client is built from, whether the
   * setup token was claimed, and the outcome of saving the claimed URL (None
   * when no save was attempted).
   */
  datatype Resolution = Resolution(accessUrl: string, claimed: bool, saved: Option<Outcome<StoreError>>)

  /** The result of start-up and the external state it leaves behind. */
  datatype Startup = Startup(result: Result<Resolution, Fatal>, cluster: Cluster, files: map<string, FileEntry>)

  /** The access URL held after the secret and the flag: a valid cached URL replaces the flag. */
  function UrlAfterSecret(flags: Flags, cluster: Cluster): (url: string)
    ensures var stored := StoredAccessUrl(cluster, SecretRef(flags.secretNamespace, flags.secretName));
            UsesSecret(flags.secretName, flags.secretNamespace) && stored.Some? && HasHttpScheme(stored.value) ==>
              url == stored.value
    ensures var stored := StoredAccessUrl(cluster, SecretRef(flags.secretNamespace, flags.secretName));
            !(UsesSecret(flags.secretName, flags.secretNamespace) && stored.Some? && HasHttpScheme(stored.value)) ==>
              url == flags.accessUrl
  {
    var stored := GetAccessUrlFromSecret(cluster, flags.secretName, flags.secretNamespace);
    if UsesSecret(flags.secretName, flags.secretNamespace) && stored.Success? && stored.value != "" then stored.value
    else flags.accessUrl
  }

  /** Start-up from the credential check on, once `accessUrl` is settled. */
  function ResolveFrom(flags: Flags, env: Environment, cluster: Cluster, files: map<string, FileEntry>, accessUrl: string)
    : Startup
  {
    if accessUrl == "" && flags.setupToken == "" then Startup(Failure(CredentialsMissing), cluster, files)
    else if !env.intervalParses then Startup(Failure(IntervalInvalid), cluster, files)
    else if accessUrl != "" then
      Startup(if env.clientAccepts(accessUrl) then Success(Resolution(accessUrl, false, None)) else Failure(ClientInitFailed),
              cluster, files)
    else
      match CreateClientAndGetAccessUrl(flags.setupToken, env.decodeBase64, env.post)
      case Failure(e) => Startup(Failure(SetupTokenFailed(e)), cluster, files)
      case Success(newAccessUrl) =>
        var saved := if UsesSecret(flags.secretName, flags.secretNamespace)
                     then Some(SaveAccessUrl(cluster, flags.secretName, flags.secretNamespace, newAccessUrl).0)
                     else None;
        var cluster' := SaveAccessUrl(cluster, flags.secretName, flags.secretNamespace, newAccessUrl).1;
        Startup(if env.clientAccepts(newAccessUrl) then Success(Resolution(newAccessUrl, true, saved))
                else Failure(ClientInitFailed),
                cluster', files)
  }

  /** The whole start-up resolution: secret, then volatile file, then token. */
  function Resolve(flags: Flags, env: Environment, cluster: Cluster, files: map<string, FileEntry>): (s: Startup)
    // the only file start-up can remove is the volatile file
    ensures s.files == files || (flags.accessUrlVolatileFile != "" && s.files == files - {flags.accessUrlVolatileFile})
    // success needs a valid interval and a client built from the resolved URL
    ensures s.result.Success? ==> env.intervalParses && env.clientAccepts(s.result.value.accessUrl)
    // without a claim nothing is saved and the store is untouched
    ensures s.result.Success? && !s.result.value.claimed ==> s.result.value.saved == None && s.cluster == cluster
  {
    if UsesSecret(flags.secretName, flags.secretNamespace) && !env.inCluster then
      Startup(Failure(KubernetesInitFailed), cluster, files)
    else if flags.accessUrlVolatileFile != "" then
      var (fromFile, files') := ConsumeAccessUrlFile(files, flags.accessUrlVolatileFile, env.parseUrl);
      match fromFile
      case Failure(e) => Startup(Failure(AccessUrlFileFailed(e)), cluster, files')
      case Success(url) => ResolveFrom(flags, env, cluster, files', url)
    else
      ResolveFrom(flags, env, cluster, files, UrlAfterSecret(flags, cluster))
  }

  /**
   * Resolves the access URL at start-up, reassigning it step by step, and
   * builds the client from it; a `Failure` is a fatal exit.
   */
  method ParseConfig(flags: Flags, env: Environment, store: SecretStore, fs: FileSystem)
    returns (r: Result<Resolution, Fatal>)
    modifies store, fs
    ensures Startup(r, store.cluster, fs.files) == Resolve(flags, env, old(store.cluster), old(fs.files))
  {
    var accessUrl := flags.accessUrl;
    if flags.secretName != "" && flags.secretNamespace != "" {
      if !env.inCluster {
        return Failure(KubernetesInitFailed);
      }
      var storedAccessUrl := GetAccessUrlFromSecret(store.cluster, flags.secretName, flags.secretNamespace);
      if storedAccessUrl.Success? && storedAccessUrl.value != "" {
        accessUrl := storedAccessUrl.value;
      }
    }

    if flags.accessUrlVolatileFile != "" {
      var fromFile := ReadAndDeleteAccessURLFile(fs, flags.accessUrlVolatileFile, env.parseUrl);
      if fromFile.Failure? {
        return Failure(AccessUrlFileFailed(fromFile.error));
      }
      accessUrl := fromFile.value;
    }

    if accessUrl == "" && flags.setupToken == "" {
      return Failure(CredentialsMissing);
    }
    if !env.intervalParses {
      return Failure(IntervalInvalid);
    }

    var clientUrl := accessUrl;
    var claimed := false;
    var saved: Option<Outcome<StoreError>> := None;
    if accessUrl == "" {
      var newAccessUrl := CreateClientAndGetAccessUrl(flags.setupToken, env.decodeBase64, env.post);
      if newAccessUrl.Failure? {
        return Failure(SetupTokenFailed(newAccessUrl.error));
      }
      if flags.secretName != "" && flags.secretNamespace != "" {
        var saveErr := SaveAccessUrlToSecret(store, flags.secretName, flags.secretNamespace, newAccessUrl.value);
        saved := Some(saveErr);
      }
      clientUrl, claimed := newAccessUrl.value, true;
    }

    if !env.clientAccepts(clientUrl) {
      return Failure(ClientInitFailed);
    }
    return Success(Resolution(clientUrl, claimed, saved));
  }

  // ---------------------------------------------------------------------------
  // Properties of resolution

  /**
   * Without a setup token, start-up fails for lack of credentials when the
   * access URL is still empty: no volatile file and neither a flag nor a valid
   * cached URL, or a volatile file whose contents parse to the empty URL
   * (which replaces any flag or cached URL). Nothing is claimed or written;
   * only the consumed file is gone.
   */
  lemma MissingCredentialsIsFatal(flags: Flags, env: Environment, cluster: Cluster, files: map<string, FileEntry>)
    requires flags.setupToken == ""
    requires UsesSecret(flags.secretName, flags.secretNamespace) ==> env.inCluster
    requires flags.accessUrlVolatileFile == "" ==> UrlAfterSecret(flags, cluster) == ""
    requires flags.accessUrlVolatileFile != "" ==>
               ConsumeAccessUrlFile(files, flags.accessUrlVolatileFile, env.parseUrl).0 == Success("")
    ensures Resolve(flags, env, cluster, files)
         == Startup(Failure(CredentialsMissing), cluster,
                    if flags.accessUrlVolatileFile == "" then files else files - {flags.accessUrlVolatileFile})
  {
  }

  /** A valid cached URL wins over the `-accessUrl` flag and makes the setup token unused. */
  lemma SecretOverridesFlag(flags: Flags, env: Environment, cluster: Cluster, files: map<string, FileEntry>, url: string)
    requires UsesSecret(flags.secretName, flags.secretNamespace) && env.inCluster
    requires flags.accessUrlVolatileFile == ""
    requires StoredAccessUrl(cluster, SecretRef(flags.secretNamespace, flags.secretName)) == Some(url)
    requires HasHttpScheme(url)
    requires env.intervalParses && env.clientAccepts(url)
    ensures Resolve(flags, env, cluster, files) == Startup(Success(Resolution(url, false, None)), cluster, files)
  {
  }

  /**
   * Without a volatile file, the `-accessUrl` flag is used when the secret is
   * not configured, or holds no access URL, or holds one without an http(s)
   * prefix (such a value counts as absent).
   */
  lemma FlagUsedWithoutValidCache(flags: Flags, env: Environment, cluster: Cluster, files: map<string, FileEntry>)
    requires UsesSecret(flags.secretName, flags.secretNamespace) ==> env.inCluster
    requires flags.accessUrlVolatileFile == ""
    requires UsesSecret(flags.secretName, flags.secretNamespace) ==>
               var stored := StoredAccessUrl(cluster, SecretRef(flags.secretNamespace, flags.secretName));
               stored.None? || !HasHttpScheme(stored.value)
    requires flags.accessUrl != ""
    requires env.intervalParses && env.clientAccepts(flags.accessUrl)
    ensures Resolve(flags, env, cluster, files)
         == Startup(Success(Resolution(flags.accessUrl, false, None)), cluster, files)
  {
  }

  /** A volatile file that cannot be read, parsed or removed is fatal with that error, and stays in place. */
  lemma FileFailureIsFatal(flags: Flags, env: Environment, cluster: Cluster, files: map<string, FileEntry>,
                           e: ConfigError)
    requires UsesSecret(flags.secretName, flags.secretNamespace) ==> env.inCluster
    requires flags.accessUrlVolatileFile != ""
    requires ConsumeAccessUrlFile(files, flags.accessUrlVolatileFile, env.parseUrl).0 == Failure(e)
    ensures Resolve(flags, env, cluster, files) == Startup(Failure(AccessUrlFileFailed(e)), cluster, files)
  {
  }

  /** A configured volatile file wins over the secret and the flag, and is removed. */
  lemma VolatileFileOverridesAll(flags: Flags, env: Environment, cluster: Cluster, files: map<string, FileEntry>, url: string)
    requires UsesSecret(flags.secretName, flags.secretNamespace) ==> env.inCluster
    requires flags.accessUrlVolatileFile != ""
    requires ConsumeAccessUrlFile(files, flags.accessUrlVolatileFile, env.parseUrl).0 == Success(url)
    requires url != "" && env.intervalParses && env.clientAccepts(url)
    ensures Resolve(flags, env, cluster, files)
         == Startup(Success(Resolution(url, false, None)), cluster, files - {flags.accessUrlVolatileFile})
  {
  }

  /**
   * The setup token is claimed only when every earlier source left the
   * access URL empty: no flag and no valid cached URL, or a volatile file
   * whose contents parse to the empty URL.
   */
  lemma TokenClaimedOnlyWithoutUrl(flags: Flags, env: Environment, cluster: Cluster, files: map<string, FileEntry>)
    ensures var s := Resolve(flags, env, cluster, files);
            s.result.Success? && s.result.value.claimed ==>
              && flags.setupToken != ""
              && (flags.accessUrlVolatileFile == "" ==> UrlAfterSecret(flags, cluster) == "" && flags.accessUrl == "")
              && (flags.accessUrlVolatileFile != "" ==>
                    ConsumeAccessUrlFile(files, flags.accessUrlVolatileFile, env.parseUrl).0 == Success(""))
  {
  }

  /**
   * When every earlier source left the access URL empty and a setup token is
   * set, the token is claimed. A claim answered with status 200 makes the
   * response body the access URL, and the body is saved when a secret is
   * configured; whatever the save's outcome, start-up goes on with that URL.
   */
  lemma ClaimedBodyBecomesAccessUrl(flags: Flags, env: Environment, cluster: Cluster, files: map<string, FileEntry>,
                                    url: string)
    requires flags.setupToken != ""
    requires UsesSecret(flags.secretName, flags.secretNamespace) ==> env.inCluster
    requires flags.accessUrlVolatileFile == "" ==> UrlAfterSecret(flags, cluster) == ""
    requires flags.accessUrlVolatileFile != "" ==>
               ConsumeAccessUrlFile(files, flags.accessUrlVolatileFile, env.parseUrl).0 == Success("")
    requires env.intervalParses && env.clientAccepts(url)
    requires env.decodeBase64(flags.setupToken).Some?
    requires env.post(env.decodeBase64(flags.setupToken).value) == Response(StatusOK, url)
    ensures Resolve(flags, env, cluster, files)
         == Startup(Success(Resolution(url, true,
                                       if UsesSecret(flags.secretName, flags.secretNamespace)
                                       then Some(SaveAccessUrl(cluster, flags.secretName, flags.secretNamespace, url).0)
                                       else None)),
                    SaveAccessUrl(cluster, flags.secretName, flags.secretNamespace, url).1,
                    if flags.accessUrlVolatileFile == "" then files else files - {flags.accessUrlVolatileFile})
  {
  }

  /**
   * When the token is claimed and the claim fails (it does not decode, the
   * request gets no answer, or the answer is not 200), start-up fails with
   * that claim error and the store is not written.
   */
  lemma FailedClaimIsFatal(flags: Flags, env: Environment, cluster: Cluster, files: map<string, FileEntry>,
                           e: ClaimError)
    requires flags.setupToken != ""
    requires UsesSecret(flags.secretName, flags.secretNamespace) ==> env.inCluster
    requires flags.accessUrlVolatileFile == "" ==> UrlAfterSecret(flags, cluster) == ""
    requires flags.accessUrlVolatileFile != "" ==>
               ConsumeAccessUrlFile(files, flags.accessUrlVolatileFile, env.parseUrl).0 == Success("")
    requires env.intervalParses
    requires CreateClientAndGetAccessUrl(flags.setupToken, env.decodeBase64, env.post) == Failure(e)
    ensures Resolve(flags, env, cluster, files)
         == Startup(Failure(SetupTokenFailed(e)), cluster,
                    if flags.accessUrlVolatileFile == "" then files else files - {flags.accessUrlVolatileFile})
  {
  }

  /** Only a successful claim with a configured secret writes the store, and it writes the claimed URL. */
  lemma StoreWrittenOnlyByClaim(flags: Flags, env: Environment, cluster: Cluster, files: map<string, FileEntry>)
    ensures var s := Resolve(flags, env, cluster, files);
            var claim := CreateClientAndGetAccessUrl(flags.setupToken, env.decodeBase64, env.post);
            s.cluster != cluster ==>
              && UsesSecret(flags.secretName, flags.secretNamespace)
              && claim.Success?
              && s.cluster == SaveAccessUrl(cluster, flags.secretName, flags.secretNamespace, claim.value).1
  {
  }

  /** A failed claim (bad token, no answer, non-200 status) is fatal and leaves the store untouched. */
  lemma FailedClaimWritesNothing(flags: Flags, env: Environment, cluster: Cluster, files: map<string, FileEntry>)
    ensures var s := Resolve(flags, env, cluster, files);
            s.result.Failure? && s.result.error.SetupTokenFailed? ==>
              && s.cluster == cluster
              && CreateClientAndGetAccessUrl(flags.setupToken, env.decodeBase64, env.post)
                 == Failure(s.result.error.claimError)
  {
  }

  /** After a successful claim whose save passed, the store holds exactly the claimed URL. */
  lemma ClaimedUrlIsStored(flags: Flags, env: Environment, cluster: Cluster, files: map<string, FileEntry>)
    requires Resolve(flags, env, cluster, files).result.Success?
    requires Resolve(flags, env, cluster, files).result.value.claimed
    requires Resolve(flags, env, cluster, files).result.value.saved == Some(Pass)
    ensures var s := Resolve(flags, env, cluster, files);
            StoredAccessUrl(s.cluster, SecretRef(flags.secretNamespace, flags.secretName)) == Some(s.result.value.accessUrl)
  {
    var s := Resolve(flags, env, cluster, files);
    SavedAccessUrlIsRead(cluster, flags.secretName, flags.secretNamespace, s.result.value.accessUrl);
  }

  /**
   * A restart with the same flags reuses the URL the first start claimed and
   * saved: the token is not claimed a second time and nothing is written.
   */
  lemma RestartReusesClaimedUrl(flags: Flags, env: Environment, cluster: Cluster, files: map<string, FileEntry>)
    requires flags.accessUrlVolatileFile == ""
    requires Resolve(flags, env, cluster, files).result.Success?
    requires Resolve(flags, env, cluster, files).result.value.claimed
    requires Resolve(flags, env, cluster, files).result.value.saved == Some(Pass)
    requires HasHttpScheme(Resolve(flags, env, cluster, files).result.value.accessUrl)
    ensures var s := Resolve(flags, env, cluster, files);
            Resolve(flags, env, s.cluster, s.files)
            == Startup(Success(Resolution(s.result.value.accessUrl, false, None)), s.cluster, s.files)
  {
    var s := Resolve(flags, env, cluster, files);
    SavedAccessUrlIsRead(cluster, flags.secretName, flags.secretNamespace, s.result.value.accessUrl);
  }

  /** The volatile file is consumed exactly once: a second start with the same flags cannot read it. */
  lemma VolatileFileConsumedOnce(flags: Flags, env: Environment, cluster: Cluster, files: map<string, FileEntry>)
    requires flags.accessUrlVolatileFile != ""
    requires Resolve(flags, env, cluster, files).result.Success?
    ensures var s := Resolve(flags, env, cluster, files);
            && flags.accessUrlVolatileFile !in s.files
            && Resolve(flags, env, s.cluster, s.files)
               == Startup(Failure(AccessUrlFileFailed(ReadAccessUrlError(NotExist))), s.cluster, s.files)
  {
  }

  // ---------------------------------------------------------------------------
  // The poll loop

  /** One iteration of the poll loop: a failed fetch exports nothing. */
  method PollOnce<V>(e: Exporter<V>, fetched: Result<seq<Account>, string>, parseFloat: string -> Option<V>)
    modifies e
    ensures fetched.Failure? ==> e.Tables() == old(e.Tables())
    ensures fetched.Success? ==> e.Tables() == ExportAll(old(e.Tables()), e.accountMappings, parseFloat, fetched.value)
  {
    if fetched.Success? {
      var _ := e.Export(fetched.value, parseFloat);
    }
  }
}

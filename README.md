# SimpleFin bridge exporter: a Dafny model of its core

This project models the logic of the SimpleFin-to-Prometheus bridge exporter. The exporter
turns a one-time SimpleFin setup token into a durable access URL and caches that URL in a
Kubernetes secret. It then repeatedly fetches account snapshots and republishes them as
three labelled gauges: `balance`, `available_balance` and `last_updated`. Each record goes
through an account-mapping policy that can rename the account or ignore it.

There are four modules, one per source file plus one helper module:

- `Wrappers` (`wrappers.dfy`): `Option`, `Result`, `Outcome` and a map `Lookup`.
- `Config` (`config.dfy`, `pkg/config/config.go`): the mapping policy. Its lookups are
  recursive functions: the display name of an account ID, where the first mapping wins, and
  membership of the ignore list. Its two loaders are methods over a `FileSystem` object
  whose `files` map is the whole file system. `ReadAndDeleteAccessURLFile` is proved equal
  to the pure function `ConsumeAccessUrlFile`.
- `Exporter` (`exporter.dfy`, `pkg/exporter/exporter.go`): the class `Exporter` holds the
  three gauge tables as `map` fields. `Export` updates them in place with a loop. It is
  proved equal to the fold `ExportAll` of the per-record step `ExportAccount`. Lemmas about
  `ExportAll` cover several properties:
  - idempotence;
  - no deletion;
  - last writer wins, for each label set;
  - ignored accounts leave every series alone;
  - the worked example with accounts A1 and A2.
- `Cmd` (`cmd.dfy`, `cmd/main-modified.go`): the Kubernetes secret store is a `SecretStore`
  object holding a `Cluster` value. `GetAccessUrlFromSecret` is a pure function.
  `SaveAccessUrlToSecret` is a method, proved equal to `SaveAccessUrl`. The claim check of
  the setup-token exchange is `CreateClientAndGetAccessUrl`. The start-up chain of
  `parseConfig` is the method `ParseConfig`. It reassigns the access URL step by step and
  is proved equal to the function `Resolve`, which the precedence lemmas are about.
  `PollOnce` is one iteration of the poll loop.

External collaborators are parameters:
- float parsing: `parseFloat: string -> Option<V>`, where `V` is the gauge value type;
- URL parsing: `parseUrl`;
- JSON decoding: `parseJson`;
- base64 decoding: `decodeBase64`;
- the POST to the claim URL: `post: string -> HttpResponse`;
- whether the in-cluster Kubernetes client, the update interval and the SimpleFin client
  can be built: the fields of `Environment`.

Files carry flags that say whether reading and removing them succeed. The cluster carries
the sets of secrets whose `Get` or `Update` fails.

### Behaviour the code has that one might not expect (the model follows the code)

- Precedence. One might expect the sources to be tried in turn (cache, then volatile file,
  then explicit URL, then token), each only when the ones before gave nothing. In the code a
  valid cached value overwrites the `-accessUrl` flag. A configured volatile file is then
  consumed in every case, and its value overwrites whatever came before, including a valid
  cached value. `VolatileFileOverridesAll` and `SecretOverridesFlag` state this.
- Volatile file. The flag's help text says "delete the file or die". In the code the file is
  removed only after it was read and parsed; a read or parse failure is fatal and leaves the
  file in place.
- Saving the claimed URL. The code does not create a missing secret: a failed `Get` makes the
  save fail, with no write. Only a nil data map of an existing secret is initialised. A failed
  save is not fatal (`ClaimedBodyBecomesAccessUrl`).
- A volatile file whose contents parse to the empty URL is consumed. Resolution then falls
  through to the setup token (`ClaimedBodyBecomesAccessUrl`, `FailedClaimIsFatal`) or, with
  no token, fails for lack of credentials (`MissingCredentialsIsFatal`).

## Model

| member | source | states |
|---|---|---|
| `Config.ScanMappings` | pkg/config/config.go:65-70 | the scan returns the custom name at the first position whose account ID matches, the original name when no mapping matches, and nothing else |
| `Config.GetAccountNameMapping` | pkg/config/config.go:64-71 | the first mapping for the ID gives the name; no mapping gives `originalName` |
| `Config.ScanIgnoreList` | pkg/config/config.go:75-80 | the scan is true iff some position of the list holds the ID |
| `Config.IsAccountIgnored` | pkg/config/config.go:74-81 | ignored iff the ID occurs in the ignore list |
| `Config.EmptyConfigIsNeutral` | pkg/config/config.go:43-45 | under the empty configuration no ID is ignored and every account keeps its original name |
| `Config.ReadFile` | pkg/config/config.go:11 | `os.ReadFile`: a missing path is the not-exist error, an unreadable file another error, otherwise the contents |
| `Config.RemoveFile` | pkg/config/config.go:21 | `os.Remove`: succeeds iff the file exists and is removable, and then drops exactly that path |
| `Config.ConsumeAccessUrlFile` | pkg/config/config.go:10-27 | succeeds iff the file exists, is readable, parses and is removable; on success it returns the parsed URL and the file system loses exactly that path; any failure leaves the file system unchanged; a missing path is a read error |
| `Config.ReadAndDeleteAccessURLFile` | pkg/config/config.go:10-27 | the read, parse and remove steps give the result and the new file system that `ConsumeAccessUrlFile` describes |
| `Config.ConsumedFileIsGone` | pkg/config/config.go:11-26 | after a successful consumption the path is gone, and a second consumption fails with a not-exist read error and changes nothing |
| `Config.LoadAccountMappings` | pkg/config/config.go:42-61 | an empty path or a missing file gives the empty configuration; any other read error is an error; unparsable contents are an error; otherwise the parsed configuration |
| `Config.FileSystem.constructor` | pkg/config/config.go:11 | the file system starts with the given files |
| `Exporter.BalanceKey` | pkg/exporter/exporter.go:74-82 | the balance label set carries the record's domain, ID and currency; its `account_name` is the custom name of the first mapping for the ID, the record's own name when no mapping names the ID, and never anything else |
| `Exporter.UpdateKey` | pkg/exporter/exporter.go:74-94 | the `last_updated` label set carries the record's domain and ID; its `account_name` is the custom name of the first mapping for the ID, the record's own name when no mapping names the ID, and never anything else |
| `Exporter.ExportAccount` | pkg/exporter/exporter.go:66-95 | an ignored record changes nothing; otherwise `last_updated` is set to the balance date whatever the parses give; each balance gauge is set to its parsed value iff its own parse succeeds and is untouched otherwise; no other series changes |
| `Exporter.SetIfParsedOverlay` | pkg/exporter/exporter.go:76-92 | a guarded set commutes with laying a table over another |
| `Exporter.ExportAccountOverlay` | pkg/exporter/exporter.go:66-95 | one record's update commutes with laying the gauges over older ones |
| `Exporter.ExportAll` | pkg/exporter/exporter.go:66-96 | the gauges after exporting a snapshot in order; a snapshot whose accounts are all ignored leaves them unchanged |
| `Exporter.ExportAllOverlay` | pkg/exporter/exporter.go:66-97 | exporting a snapshot only sets entries: the result is the old tables overlaid with what the snapshot writes into empty tables |
| `Exporter.ExportNeverDeletes` | pkg/exporter/exporter.go:66-97 | no series present before an export is missing after it |
| `Exporter.ExportIdempotent` | pkg/exporter/exporter.go:82-94 | exporting the same snapshot twice yields the same tables as exporting it once |
| `Exporter.LastUpdatedStep` | pkg/exporter/exporter.go:68-94 | one record sets `last_updated` at a label set exactly when it is not ignored and its label set is that one |
| `Exporter.BalanceStep` | pkg/exporter/exporter.go:68-83 | one record sets the balance at a label set exactly when it is not ignored, its balance parses and its label set is that one |
| `Exporter.AvailableStep` | pkg/exporter/exporter.go:68-92 | as `BalanceStep`, for the available balance, independently of the balance parse |
| `Exporter.LastUpdatedLastWriterWins` | pkg/exporter/exporter.go:94 | `last_updated` at a label set holds the timestamp of the last record of the snapshot that writes it |
| `Exporter.LastUpdatedUnwritten` | pkg/exporter/exporter.go:66-97 | a label set that no record writes keeps its `last_updated` entry, or its absence |
| `Exporter.BalanceLastWriterWins` | pkg/exporter/exporter.go:82 | the balance at a label set holds the parsed value of the last record that writes it |
| `Exporter.BalanceUnwritten` | pkg/exporter/exporter.go:76-83 | a label set that no record writes keeps its balance entry, or its absence |
| `Exporter.AvailableLastWriterWins` | pkg/exporter/exporter.go:91 | the available balance at a label set holds the parsed value of the last record that writes it |
| `Exporter.AvailableUnwritten` | pkg/exporter/exporter.go:85-92 | a label set that no record writes keeps its available-balance entry, or its absence |
| `Exporter.IgnoredAccountsUntouched` | pkg/exporter/exporter.go:68-71 | no series whose account ID is ignored is created or changed by an export |
| `Exporter.MappedAndIgnoredExample` | pkg/exporter/exporter.go:66-97 | with A1 mapped to "Checking" and A2 ignored, the tables hold exactly A1's balance, available balance and timestamp under the mapped name, and nothing for A2 |
| `Exporter.Exporter.constructor` | pkg/exporter/exporter.go:29-63 | a new exporter keeps the mapping policy and starts with three empty tables |
| `Exporter.Exporter.Export` | pkg/exporter/exporter.go:65-98 | the loop leaves the tables equal to `ExportAll` of the old tables over the snapshot, and always returns no error |
| `Cmd.GetSecret` | cmd/main-modified.go:72 | a `Get` succeeds iff the secret exists and is readable, and returns it |
| `Cmd.GetAccessUrlFromSecret` | cmd/main-modified.go:67-91 | never an error; "" when the name or namespace is empty; non-empty iff the secret is readable and holds an `access_url` starting with `http://` or `https://`, and then exactly that value |
| `Cmd.WithAccessUrl` | cmd/main-modified.go:104-108 | the updated secret has a data map, with `access_url` set to the new value and every other key unchanged; a nil map counts as empty |
| `Cmd.SaveAccessUrl` | cmd/main-modified.go:93-117 | a no-op success without name or namespace; a failed `Get` or `Update` is an error and writes nothing; on success exactly that secret is replaced by its copy with the new `access_url` |
| `Cmd.SavedAccessUrlIsRead` | cmd/main-modified.go:78-110 | after a successful save the secret holds the saved URL, and `GetAccessUrlFromSecret` returns it when it has an http(s) prefix and "" otherwise |
| `Cmd.SecretStore.constructor` | cmd/main-modified.go:52-65 | the store starts with the given cluster |
| `Cmd.SecretStore.Update` | cmd/main-modified.go:110 | an `Update` succeeds iff the secret exists and is writable, and then replaces exactly that secret; a failure changes nothing |
| `Cmd.SaveAccessUrlToSecret` | cmd/main-modified.go:93-117 | the get-initialise-set-update steps give the outcome and the cluster that `SaveAccessUrl` describes |
| `Cmd.CreateClientAndGetAccessUrl` | cmd/main-modified.go:217-248 | a token that does not decode fails before any request; success iff the POST to the decoded URL answers status 200, and then the URL is the body verbatim; any other status fails with that status and body |
| `Cmd.UrlAfterSecret` | cmd/main-modified.go:142-155 | the access URL after the cache step: the stored value when the secret is configured and holds an http(s) `access_url`, otherwise the `-accessUrl` flag |
| `Cmd.Resolve` | cmd/main-modified.go:141-204 | start-up resolution; the only file it can remove is the volatile file; success needs a valid interval and a client built from the resolved URL; without a claim nothing is saved and the store is untouched |
| `Cmd.ParseConfig` | cmd/main-modified.go:141-204 | the step-by-step resolution gives the result, the cluster and the file system that `Resolve` describes |
| `Cmd.MissingCredentialsIsFatal` | cmd/main-modified.go:141-167 | without a token, start-up fails for lack of credentials when the URL is still empty: no file and neither a flag nor a valid cached URL, or a file that parses to the empty URL whatever the flag and cache held; the store is untouched and only the consumed file is gone |
| `Cmd.FlagUsedWithoutValidCache` | cmd/main-modified.go:147-180 | without a volatile file, the `-accessUrl` flag is used when the secret is not configured, holds no access URL, or holds one without an http(s) prefix; nothing is claimed or written |
| `Cmd.FileFailureIsFatal` | cmd/main-modified.go:158-162 | a volatile file that cannot be read, parsed or removed ends start-up with that error and leaves the file system and the store untouched |
| `Cmd.SecretOverridesFlag` | cmd/main-modified.go:147-155 | without a volatile file, a valid cached URL is used whatever the `-accessUrl` flag and the setup token are; nothing is claimed or written |
| `Cmd.VolatileFileOverridesAll` | cmd/main-modified.go:158-163 | a configured volatile file that yields a URL wins over the secret and the flag, and exactly that file is removed |
| `Cmd.TokenClaimedOnlyWithoutUrl` | cmd/main-modified.go:179-184 | the token is claimed only when it is set and the flag, the secret and the volatile file all left the access URL empty |
| `Cmd.ClaimedBodyBecomesAccessUrl` | cmd/main-modified.go:179-199 | with a token set and the flag, cache and file leaving the URL empty, a claim answered with status 200 makes the body the access URL; the body is saved when a secret is configured, and start-up succeeds with that URL whatever the save's outcome |
| `Cmd.FailedClaimIsFatal` | cmd/main-modified.go:179-187 | with a token set and the flag, cache and file leaving the URL empty, a claim that fails (undecodable token, no answer, non-200 status) makes start-up fail with that claim error and leaves the store untouched |
| `Cmd.StoreWrittenOnlyByClaim` | cmd/main-modified.go:189-196 | the cluster changes only when a secret is configured and the claim succeeded, and then as saving the claimed URL describes |
| `Cmd.FailedClaimWritesNothing` | cmd/main-modified.go:184-187 | a start-up that ends in a setup-token failure carries exactly the claim's own error and left the store untouched |
| `Cmd.ClaimedUrlIsStored` | cmd/main-modified.go:184-196 | after a successful claim and save, the secret holds exactly the claimed URL |
| `Cmd.RestartReusesClaimedUrl` | cmd/main-modified.go:141-200 | without a volatile file, a restart with the same flags after a claimed and saved http(s) URL uses the cached URL, claims nothing and writes nothing |
| `Cmd.VolatileFileConsumedOnce` | cmd/main-modified.go:158-163 | after a successful start with a volatile file the file is gone, and a second start fails with a not-exist read error |
| `Cmd.PollOnce` | cmd/main-modified.go:282-290 | a failed fetch leaves the gauges unchanged; a successful one exports the snapshot |

## Left out

- Logging, debug output and `pp.Print`. They have no effect on state.
- Flag parsing and the bind address and port. The flags that take part in resolution are the
  `Flags` datatype.
- `time.ParseDuration`: only whether it succeeds is modelled (`Environment.intervalParses`).
- Building the in-cluster Kubernetes client and the SimpleFin client: only whether each
  succeeds is modelled (`Environment.inCluster`, `Environment.clientAccepts`).
- The HTTP mechanics of the token exchange (request building, transport, body reading).
  They are folded into one `post` outcome: a transport error or a status with a body.
- The `/metrics` server goroutine and the Prometheus registry, which is I/O and concurrency.
  Gauges are plain label-keyed maps.
- The infinite poll loop and `time.Sleep`. Only one iteration (`PollOnce`) is modelled.
- The account-mapping load that `parseConfig` does after resolution (lines 206-213).
  `LoadAccountMappings` models it, but `Resolve` stops once the client is built.
- Float semantics. `strconv.ParseFloat(..., 32)` is an abstract `string -> Option<V>`.
  The `float64` conversion of `BalanceDate` for `last_updated` is kept as the integer
  itself, so precision loss above 2^53 is not modelled.
- JSON decoding, `url.Parse` with `String()`, and standard base64 decoding per section 4 of
  RFC 4648 are abstract partial functions.
- Errors are constructors, not formatted messages. `ClaimRejected` keeps the status and body
  that the message embeds.
- Concurrent writers to the secret. The store is modelled as single-writer.

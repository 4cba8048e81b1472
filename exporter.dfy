/**
 * The metric exporter of pkg/exporter/exporter.go: three label-keyed gauge
 * tables that `Export` updates in place from an account snapshot.
 */
module Exporter {
  import opened Wrappers
  import opened Config

  /** The fields of one account record of a snapshot that the exporter reads. */
  datatype Account = Account(
    id: string,
    name: string,
    domain: string,        // the organization's domain
    currency: string,
    balance: string,       // decimal string, may fail to parse
    availableBalance: string,
    balanceDate: int)      // epoch seconds

  /** Labels of the `balance` and `available_balance` gauges. */
  datatype BalanceLabels = BalanceLabels(domain: string, accountName: string, accountId: string, currency: string)

  /** Labels of the `last_updated` gauge. */
  datatype UpdateLabels = UpdateLabels(domain: string, accountName: string, accountId: string)

  /** The three gauge tables; `V` stands for the parsed balance values. */
  datatype Gauges<V> = Gauges(
    balances: map<BalanceLabels, V>,
    availableBalances: map<BalanceLabels, V>,
    lastUpdated: map<UpdateLabels, int>)

  function NoGauges<V>(): Gauges<V>
  {
    Gauges(map[], map[], map[])
  }

  /** The label set of the balance gauges for `a`, with its mapped display name. */
  function BalanceKey(config: AccountMappingConfig, a: Account): (k: BalanceLabels)
    ensures k.accountId == a.id && k.domain == a.domain && k.currency == a.currency
    ensures forall i | FirstMatch(config.mappings, a.id, i) :: k.accountName == config.mappings[i].customName
    ensures (forall i | 0 <= i < |config.mappings| :: config.mappings[i].accountId != a.id) ==> k.accountName == a.name
    ensures k.accountName == a.name || exists i :: FirstMatch(config.mappings, a.id, i)
  {
    BalanceLabels(a.domain, GetAccountNameMapping(config, a.id, a.name), a.id, a.currency)
  }

  /** The label set of `last_updated` for `a`. */
  function UpdateKey(config: AccountMappingConfig, a: Account): (k: UpdateLabels)
    ensures k.accountId == a.id && k.domain == a.domain
    ensures forall i | FirstMatch(config.mappings, a.id, i) :: k.accountName == config.mappings[i].customName
    ensures (forall i | 0 <= i < |config.mappings| :: config.mappings[i].accountId != a.id) ==> k.accountName == a.name
    ensures k.accountName == a.name || exists i :: FirstMatch(config.mappings, a.id, i)
  {
    UpdateLabels(a.domain, GetAccountNameMapping(config, a.id, a.name), a.id)
  }

  /** `m` and `m'` hold the same entries, except possibly at `key`. */
  ghost predicate AgreeExcept<K(!new), W>(m: map<K, W>, m': map<K, W>, key: K)
  {
    forall k | k != key :: Lookup(m, k) == Lookup(m', k)
  }

  /** A gauge `Set` guarded by its parse: the table is unchanged when the parse failed. */
  function SetIfParsed<K, W>(m: map<K, W>, key: K, parsed: Option<W>): map<K, W>
  {
    match parsed
    case None => m
    case Some(v) => m[key := v]
  }

  lemma SetIfParsedOverlay<K, W>(m: map<K, W>, d: map<K, W>, key: K, parsed: Option<W>)
    ensures SetIfParsed(m + d, key, parsed) == m + SetIfParsed(d, key, parsed)
  {
    if parsed.Some? {
      assert (m + d)[key := parsed.value] == m + d[key := parsed.value];
    }
  }

  /** The effect of one loop iteration of `Export` on the gauges. */
  function ExportAccount<V>(g: Gauges<V>, config: AccountMappingConfig, parseFloat: string -> Option<V>, a: Account)
    : (r: Gauges<V>)
    // an ignored account touches nothing
    ensures IsAccountIgnored(config, a.id) ==> r == g
    // last_updated is always set, whatever the parses gave
    ensures !IsAccountIgnored(config, a.id) ==> Lookup(r.lastUpdated, UpdateKey(config, a)) == Some(a.balanceDate)
    ensures AgreeExcept(g.lastUpdated, r.lastUpdated, UpdateKey(config, a))
    // each balance gauge is set iff its own parse succeeds
    ensures !IsAccountIgnored(config, a.id) && parseFloat(a.balance).Some? ==>
              Lookup(r.balances, BalanceKey(config, a)) == parseFloat(a.balance)
    ensures parseFloat(a.balance).None? ==> r.balances == g.balances
    ensures AgreeExcept(g.balances, r.balances, BalanceKey(config, a))
    ensures !IsAccountIgnored(config, a.id) && parseFloat(a.availableBalance).Some? ==>
              Lookup(r.availableBalances, BalanceKey(config, a)) == parseFloat(a.availableBalance)
    ensures parseFloat(a.availableBalance).None? ==> r.availableBalances == g.availableBalances
    ensures AgreeExcept(g.availableBalances, r.availableBalances, BalanceKey(config, a))
  {
    if IsAccountIgnored(config, a.id) then g
    else
      var key := BalanceKey(config, a);
      Gauges(
        SetIfParsed(g.balances, key, parseFloat(a.balance)),
        SetIfParsed(g.availableBalances, key, parseFloat(a.availableBalance)),
        g.lastUpdated[UpdateKey(config, a) := a.balanceDate])
  }

  /** The gauges after exporting `accounts` in order, starting from `g`. */
  function ExportAll<V>(g: Gauges<V>, config: AccountMappingConfig, parseFloat: string -> Option<V>, accounts: seq<Account>)
    : (r: Gauges<V>)
    // a snapshot of ignored accounts only changes nothing
    ensures (forall i | 0 <= i < |accounts| :: IsAccountIgnored(config, accounts[i].id)) ==> r == g
    decreases |accounts|
  {
    if accounts == [] then g
    else
      var n := |accounts| - 1;
      ExportAccount(ExportAll(g, config, parseFloat, accounts[..n]), config, parseFloat, accounts[n])
  }

  /** The entries of `d` laid over those of `g`. */
  function Overlay<V>(g: Gauges<V>, d: Gauges<V>): Gauges<V>
  {
    Gauges(g.balances + d.balances, g.availableBalances + d.availableBalances, g.lastUpdated + d.lastUpdated)
  }

  lemma ExportAccountOverlay<V>(g: Gauges<V>, d: Gauges<V>, config: AccountMappingConfig,
                                parseFloat: string -> Option<V>, a: Account)
    ensures ExportAccount(Overlay(g, d), config, parseFloat, a) == Overlay(g, ExportAccount(d, config, parseFloat, a))
  {
    if !IsAccountIgnored(config, a.id) {
      var key, ukey := BalanceKey(config, a), UpdateKey(config, a);
      assert (g.lastUpdated + d.lastUpdated)[ukey := a.balanceDate] == g.lastUpdated + d.lastUpdated[ukey := a.balanceDate];
      SetIfParsedOverlay(g.balances, d.balances, key, parseFloat(a.balance));
      SetIfParsedOverlay(g.availableBalances, d.availableBalances, key, parseFloat(a.availableBalance));
    }
  }

  /**
   * Export only sets entries: its result is the starting gauges overlaid with
   * what the same snapshot writes into empty gauges.
   */
  lemma {:induction false} ExportAllOverlay<V>(g: Gauges<V>, config: AccountMappingConfig,
                                               parseFloat: string -> Option<V>, accounts: seq<Account>)
    ensures ExportAll(g, config, parseFloat, accounts) == Overlay(g, ExportAll(NoGauges(), config, parseFloat, accounts))
    decreases |accounts|
  {
    if accounts == [] {
      assert g.balances + map[] == g.balances;
      assert g.availableBalances + map[] == g.availableBalances;
      assert g.lastUpdated + map[] == g.lastUpdated;
    } else {
      var n := |accounts| - 1;
      ExportAllOverlay(g, config, parseFloat, accounts[..n]);
      ExportAccountOverlay(g, ExportAll(NoGauges(), config, parseFloat, accounts[..n]), config, parseFloat, accounts[n]);
    }
  }

  /** Exporting never removes a series. */
  lemma ExportNeverDeletes<V>(g: Gauges<V>, config: AccountMappingConfig,
                              parseFloat: string -> Option<V>, accounts: seq<Account>)
    ensures g.balances.Keys <= ExportAll(g, config, parseFloat, accounts).balances.Keys
    ensures g.availableBalances.Keys <= ExportAll(g, config, parseFloat, accounts).availableBalances.Keys
    ensures g.lastUpdated.Keys <= ExportAll(g, config, parseFloat, accounts).lastUpdated.Keys
  {
    ExportAllOverlay(g, config, parseFloat, accounts);
  }

  /** Exporting the same snapshot twice gives the same gauges as exporting it once. */
  lemma ExportIdempotent<V>(g: Gauges<V>, config: AccountMappingConfig,
                            parseFloat: string -> Option<V>, accounts: seq<Account>)
    ensures ExportAll(ExportAll(g, config, parseFloat, accounts), config, parseFloat, accounts)
         == ExportAll(g, config, parseFloat, accounts)
  {
    var once := ExportAll(g, config, parseFloat, accounts);
    var d := ExportAll(NoGauges(), config, parseFloat, accounts);
    ExportAllOverlay(g, config, parseFloat, accounts);
    ExportAllOverlay(once, config, parseFloat, accounts);
    assert (g.balances + d.balances) + d.balances == g.balances + d.balances;
    assert (g.availableBalances + d.availableBalances) + d.availableBalances == g.availableBalances + d.availableBalances;
    assert (g.lastUpdated + d.lastUpdated) + d.lastUpdated == g.lastUpdated + d.lastUpdated;
  }

  // ---------------------------------------------------------------------------
  // Per-series view: which record of a snapshot writes a given label set

  /** Record `a` writes `last_updated` at `k`. */
  ghost predicate WritesLastUpdated(config: AccountMappingConfig, a: Account, k: UpdateLabels)
  {
    !IsAccountIgnored(config, a.id) && UpdateKey(config, a) == k
  }

  /** Record `a` writes the balance gauge at `k`. */
  ghost predicate WritesBalance<V>(config: AccountMappingConfig, parseFloat: string -> Option<V>, a: Account, k: BalanceLabels)
  {
    !IsAccountIgnored(config, a.id) && parseFloat(a.balance).Some? && BalanceKey(config, a) == k
  }

  /** Record `a` writes the available-balance gauge at `k`. */
  ghost predicate WritesAvailable<V>(config: AccountMappingConfig, parseFloat: string -> Option<V>, a: Account, k: BalanceLabels)
  {
    !IsAccountIgnored(config, a.id) && parseFloat(a.availableBalance).Some? && BalanceKey(config, a) == k
  }

  /** One record's effect on `last_updated` at `k`. */
  lemma LastUpdatedStep<V>(before: Gauges<V>, config: AccountMappingConfig, parseFloat: string -> Option<V>,
                           a: Account, k: UpdateLabels)
    ensures Lookup(ExportAccount(before, config, parseFloat, a).lastUpdated, k)
         == if WritesLastUpdated(config, a, k) then Some(a.balanceDate) else Lookup(before.lastUpdated, k)
  {
  }

  /** One record's effect on the balance gauge at `k`. */
  lemma BalanceStep<V>(before: Gauges<V>, config: AccountMappingConfig, parseFloat: string -> Option<V>,
                       a: Account, k: BalanceLabels)
    ensures Lookup(ExportAccount(before, config, parseFloat, a).balances, k)
         == if WritesBalance(config, parseFloat, a, k) then parseFloat(a.balance) else Lookup(before.balances, k)
  {
  }

  /** One record's effect on the available-balance gauge at `k`. */
  lemma AvailableStep<V>(before: Gauges<V>, config: AccountMappingConfig, parseFloat: string -> Option<V>,
                         a: Account, k: BalanceLabels)
    ensures Lookup(ExportAccount(before, config, parseFloat, a).availableBalances, k)
         == if WritesAvailable(config, parseFloat, a, k) then parseFloat(a.availableBalance)
            else Lookup(before.availableBalances, k)
  {
  }

  /** `last_updated` at `k` holds the timestamp of the last record that writes `k`. */
  lemma {:induction false} LastUpdatedLastWriterWins<V>(g: Gauges<V>, config: AccountMappingConfig,
                                                        parseFloat: string -> Option<V>, accounts: seq<Account>,
                                                        k: UpdateLabels, i: int)
    requires 0 <= i < |accounts| && WritesLastUpdated(config, accounts[i], k)
    requires forall j | i < j < |accounts| :: !WritesLastUpdated(config, accounts[j], k)
    ensures Lookup(ExportAll(g, config, parseFloat, accounts).lastUpdated, k) == Some(accounts[i].balanceDate)
    decreases |accounts|
  {
    var n := |accounts| - 1;
    var prefix := accounts[..n];
    LastUpdatedStep(ExportAll(g, config, parseFloat, prefix), config, parseFloat, accounts[n], k);
    if i < n {
      assert prefix[i] == accounts[i];
      assert forall j | i < j < n :: prefix[j] == accounts[j];
      LastUpdatedLastWriterWins(g, config, parseFloat, prefix, k, i);
    }
  }

  /** When no record writes `k`, `last_updated` at `k` is what it was. */
  lemma {:induction false} LastUpdatedUnwritten<V>(g: Gauges<V>, config: AccountMappingConfig,
                                                   parseFloat: string -> Option<V>, accounts: seq<Account>,
                                                   k: UpdateLabels)
    requires forall i | 0 <= i < |accounts| :: !WritesLastUpdated(config, accounts[i], k)
    ensures Lookup(ExportAll(g, config, parseFloat, accounts).lastUpdated, k) == Lookup(g.lastUpdated, k)
    decreases |accounts|
  {
    if accounts != [] {
      var n := |accounts| - 1;
      LastUpdatedStep(ExportAll(g, config, parseFloat, accounts[..n]), config, parseFloat, accounts[n], k);
      LastUpdatedUnwritten(g, config, parseFloat, accounts[..n], k);
    }
  }

  /** The balance gauge at `k` holds the value of the last record that writes `k`. */
  lemma {:induction false} BalanceLastWriterWins<V>(g: Gauges<V>, config: AccountMappingConfig,
                                                    parseFloat: string -> Option<V>, accounts: seq<Account>,
                                                    k: BalanceLabels, i: int)
    requires 0 <= i < |accounts| && WritesBalance(config, parseFloat, accounts[i], k)
    requires forall j | i < j < |accounts| :: !WritesBalance(config, parseFloat, accounts[j], k)
    ensures Lookup(ExportAll(g, config, parseFloat, accounts).balances, k) == parseFloat(accounts[i].balance)
    decreases |accounts|
  {
    var n := |accounts| - 1;
    var prefix := accounts[..n];
    BalanceStep(ExportAll(g, config, parseFloat, prefix), config, parseFloat, accounts[n], k);
    if i < n {
      assert prefix[i] == accounts[i];
      assert forall j | i < j < n :: prefix[j] == accounts[j];
      BalanceLastWriterWins(g, config, parseFloat, prefix, k, i);
    }
  }

  /** When no record writes `k`, the balance gauge at `k` is what it was. */
  lemma {:induction false} BalanceUnwritten<V>(g: Gauges<V>, config: AccountMappingConfig,
                                               parseFloat: string -> Option<V>, accounts: seq<Account>,
                                               k: BalanceLabels)
    requires forall i | 0 <= i < |accounts| :: !WritesBalance(config, parseFloat, accounts[i], k)
    ensures Lookup(ExportAll(g, config, parseFloat, accounts).balances, k) == Lookup(g.balances, k)
    decreases |accounts|
  {
    if accounts != [] {
      var n := |accounts| - 1;
      BalanceStep(ExportAll(g, config, parseFloat, accounts[..n]), config, parseFloat, accounts[n], k);
      BalanceUnwritten(g, config, parseFloat, accounts[..n], k);
    }
  }

  /** The available-balance gauge at `k` holds the value of the last record that writes `k`. */
  lemma {:induction false} AvailableLastWriterWins<V>(g: Gauges<V>, config: AccountMappingConfig,
                                                      parseFloat: string -> Option<V>, accounts: seq<Account>,
                                                      k: BalanceLabels, i: int)
    requires 0 <= i < |accounts| && WritesAvailable(config, parseFloat, accounts[i], k)
    requires forall j | i < j < |accounts| :: !WritesAvailable(config, parseFloat, accounts[j], k)
    ensures Lookup(ExportAll(g, config, parseFloat, accounts).availableBalances, k)
         == parseFloat(accounts[i].availableBalance)
    decreases |accounts|
  {
    var n := |accounts| - 1;
    var prefix := accounts[..n];
    AvailableStep(ExportAll(g, config, parseFloat, prefix), config, parseFloat, accounts[n], k);
    if i < n {
      assert prefix[i] == accounts[i];
      assert forall j | i < j < n :: prefix[j] == accounts[j];
      AvailableLastWriterWins(g, config, parseFloat, prefix, k, i);
    }
  }

  /** When no record writes `k`, the available-balance gauge at `k` is what it was. */
  lemma {:induction false} AvailableUnwritten<V>(g: Gauges<V>, config: AccountMappingConfig,
                                                 parseFloat: string -> Option<V>, accounts: seq<Account>,
                                                 k: BalanceLabels)
    requires forall i | 0 <= i < |accounts| :: !WritesAvailable(config, parseFloat, accounts[i], k)
    ensures Lookup(ExportAll(g, config, parseFloat, accounts).availableBalances, k) == Lookup(g.availableBalances, k)
    decreases |accounts|
  {
    if accounts != [] {
      var n := |accounts| - 1;
      AvailableStep(ExportAll(g, config, parseFloat, accounts[..n]), config, parseFloat, accounts[n], k);
      AvailableUnwritten(g, config, parseFloat, accounts[..n], k);
    }
  }

  /** No series whose `account_id` is ignored is created or changed by an export. */
  lemma IgnoredAccountsUntouched<V>(g: Gauges<V>, config: AccountMappingConfig,
                                    parseFloat: string -> Option<V>, accounts: seq<Account>,
                                    bk: BalanceLabels, uk: UpdateLabels)
    ensures IsAccountIgnored(config, bk.accountId) ==>
              && Lookup(ExportAll(g, config, parseFloat, accounts).balances, bk) == Lookup(g.balances, bk)
              && Lookup(ExportAll(g, config, parseFloat, accounts).availableBalances, bk) == Lookup(g.availableBalances, bk)
    ensures IsAccountIgnored(config, uk.accountId) ==>
              Lookup(ExportAll(g, config, parseFloat, accounts).lastUpdated, uk) == Lookup(g.lastUpdated, uk)
  {
    if IsAccountIgnored(config, bk.accountId) {
      BalanceUnwritten(g, config, parseFloat, accounts, bk);
      AvailableUnwritten(g, config, parseFloat, accounts, bk);
    }
    if IsAccountIgnored(config, uk.accountId) {
      LastUpdatedUnwritten(g, config, parseFloat, accounts, uk);
    }
  }

  /**
   * The example snapshot: A1 is mapped to "Checking", A2 is ignored; A1's
   * series carry the parsed values and A2 gets no series at all.
   */
  lemma MappedAndIgnoredExample<V>(parseFloat: string -> Option<V>, bal: V, availBal: V, a2: Account)
    requires parseFloat("100.50") == Some(bal) && parseFloat("90.00") == Some(availBal)
    requires a2.id == "A2"
    ensures var config := AccountMappingConfig([AccountMapping("A1", "Checking")], ["A2"]);
            var a1 := Account("A1", "Everyday", "bank.example", "USD", "100.50", "90.00", 1700000000);
            var r := ExportAll(NoGauges(), config, parseFloat, [a1, a2]);
            && r.balances == map[BalanceLabels("bank.example", "Checking", "A1", "USD") := bal]
            && r.availableBalances == map[BalanceLabels("bank.example", "Checking", "A1", "USD") := availBal]
            && r.lastUpdated == map[UpdateLabels("bank.example", "Checking", "A1") := 1700000000]
  {
    var config := AccountMappingConfig([AccountMapping("A1", "Checking")], ["A2"]);
    var a1 := Account("A1", "Everyday", "bank.example", "USD", "100.50", "90.00", 1700000000);
    assert FirstMatch(config.mappings, "A1", 0);
    assert !IsAccountIgnored(config, "A1");
    assert IsAccountIgnored(config, "A2");
    assert [a1, a2][..1] == [a1];
    assert [a1][..0] == [];
    var afterA1 := ExportAccount(NoGauges(), config, parseFloat, a1);
    assert ExportAll(NoGauges(), config, parseFloat, [a1]) == afterA1;
    assert ExportAll(NoGauges(), config, parseFloat, [a1, a2]) == ExportAccount(afterA1, config, parseFloat, a2);
  }

  /** The exporter: the three gauge tables and the mapping policy it consults. */
  class Exporter<V> {
    var balances: map<BalanceLabels, V>
    var availableBalances: map<BalanceLabels, V>
    var lastUpdated: map<UpdateLabels, int>
    const accountMappings: AccountMappingConfig

    function Tables(): Gauges<V>
      reads this
    {
      Gauges(balances, availableBalances, lastUpdated)
    }

    /** A new exporter starts with three empty tables. */
    constructor (accountMappings: AccountMappingConfig)
      ensures this.accountMappings == accountMappings
      ensures Tables() == NoGauges()
    {
      this.accountMappings := accountMappings;
      balances, availableBalances, lastUpdated := map[], map[], map[];
    }

    /** Updates the gauges from every account of the snapshot, in order; never fails. */
    method Export(accounts: seq<Account>, parseFloat: string -> Option<V>) returns (err: Outcome<string>)
      modifies this
      ensures err == Pass
      ensures Tables() == ExportAll(old(Tables()), accountMappings, parseFloat, accounts)
    {
      for i := 0 to |accounts|
        invariant Tables() == ExportAll(old(Tables()), accountMappings, parseFloat, accounts[..i])
      {
        assert accounts[..i + 1][..i] == accounts[..i];
        var accItem := accounts[i];
        if IsAccountIgnored(accountMappings, accItem.id) {
          continue;
        }
        var accountName := GetAccountNameMapping(accountMappings, accItem.id, accItem.name);

        var bal := parseFloat(accItem.balance);
        if bal.Some? {
          balances := balances[BalanceLabels(accItem.domain, accountName, accItem.id, accItem.currency) := bal.value];
        }

        var availBal := parseFloat(accItem.availableBalance);
        if availBal.Some? {
          availableBalances :=
            availableBalances[BalanceLabels(accItem.domain, accountName, accItem.id, accItem.currency) := availBal.value];
        }

        lastUpdated := lastUpdated[UpdateLabels(accItem.domain, accountName, accItem.id) := accItem.balanceDate];
      }
      assert accounts[..|accounts|] == accounts;
      return Pass;
    }
  }
}

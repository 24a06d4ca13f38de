/** `runMigrations` after the tables exist: seeding default settings and adding the price
    columns to `assets`, each step guarded by a check that it has not been done before.
    The statements run one at a time outside a transaction, so a failing one leaves the
    earlier ones' effects in place. */
module Schema {
  import opened Wrappers
  import opened Database

  /** What the migration reads and writes: the settings table and the `assets` column names. */
  datatype Store = Store(settings: map<string, string>, columns: set<string>)

  /** The store after some statements, and the message of the one that threw, if any. */
  datatype Run = Run(store: Store, error: Option<string>)

  const KeyTaken := "UNIQUE constraint failed: settings.key"

  const PriceColumns: set<string> := {"last_price_update", "price_source", "asset_type"}

  /** The settings a first run seeds. */
  const Defaults: map<string, string> := map[
    "currency" := "BRL", "dollar_rate" := "5.08",
    "alpha_vantage_api_key" := "", "price_update_interval" := "15", "auto_update_enabled" := "true"]

  /** `INSERT INTO settings (key, value) VALUES (?, ?)`, whose primary key refuses a key that is there. */
  function Insert(s: Store, key: string, value: string): (r: Run)
    ensures r.error.Some? <==> key in s.settings
    ensures r.error.Some? ==> r == Run(s, Some(KeyTaken))
    ensures r.error.None? ==> r.store == Store(s.settings[key := value], s.columns)
  {
    if key in s.settings then Run(s, Some(KeyTaken)) else Run(Store(s.settings[key := value], s.columns), None)
  }

  /** `ALTER TABLE assets ADD COLUMN name TEXT`, which refuses a column that is there. */
  function AddColumn(s: Store, name: string): (r: Run)
    ensures r.error.Some? <==> name in s.columns
    ensures r.error.Some? ==> r == Run(s, Some("duplicate column name: " + name))
    ensures r.error.None? ==> r.store == Store(s.settings, s.columns + {name})
  {
    if name in s.columns then Run(s, Some("duplicate column name: " + name)) else Run(Store(s.settings, s.columns + {name}), None)
  }

  /** The next statement runs only when none before it threw. */
  function ThenInsert(r: Run, key: string, value: string): Run {
    if r.error.Some? then r else Insert(r.store, key, value)
  }

  function ThenAddColumn(r: Run, name: string): Run {
    if r.error.Some? then r else AddColumn(r.store, name)
  }

  /** Lines 86-90: currency and dollar rate, when there is no currency. */
  function SeedCurrency(s: Store): Run {
    if "currency" in s.settings then Run(s, None)
    else ThenInsert(Insert(s, "currency", "BRL"), "dollar_rate", "5.08")
  }

  /** Lines 93-102: the three price columns, when `last_price_update` is missing. */
  function AddPriceColumns(s: Store): Run {
    if "last_price_update" in s.columns then Run(s, None)
    else ThenAddColumn(ThenAddColumn(AddColumn(s, "last_price_update"), "price_source"), "asset_type")
  }

  /** Lines 105-110: the price-update settings, when there is no interval. */
  function SeedPriceSettings(s: Store): Run {
    if "price_update_interval" in s.settings then Run(s, None)
    else ThenInsert(ThenInsert(Insert(s, "alpha_vantage_api_key", ""), "price_update_interval", "15"), "auto_update_enabled", "true")
  }

  function Migrate(s: Store): Run {
    var a := SeedCurrency(s);
    if a.error.Some? then a
    else
      var b := AddPriceColumns(a.store);
      if b.error.Some? then b else SeedPriceSettings(b.store)
  }

  // ---------------------------------------------------------------------------
  // Properties

  /** What the migration may do to a store: keep every stored value and column, and add only
      default settings and price columns. */
  ghost predicate Extends(before: Store, after: Store) {
    && (forall k :: k in before.settings ==> k in after.settings && after.settings[k] == before.settings[k])
    && before.columns <= after.columns
    && (forall k :: k in after.settings ==> k in before.settings || (k in Defaults && after.settings[k] == Defaults[k]))
    && after.columns <= before.columns + PriceColumns
  }

  lemma ExtendsTransitive(a: Store, b: Store, c: Store)
    requires Extends(a, b) && Extends(b, c)
    ensures Extends(a, c)
  {
  }

  lemma ThenInsertExtends(r: Run, key: string)
    requires key in Defaults
    ensures Extends(r.store, ThenInsert(r, key, Defaults[key]).store)
  {
  }

  lemma ThenAddColumnExtends(r: Run, name: string)
    requires name in PriceColumns
    ensures Extends(r.store, ThenAddColumn(r, name).store)
  {
  }

  lemma SeedCurrencyExtends(s: Store)
    ensures Extends(s, SeedCurrency(s).store)
  {
    if "currency" !in s.settings {
      var a := Insert(s, "currency", "BRL");
      ThenInsertExtends(Run(s, None), "currency");
      ThenInsertExtends(a, "dollar_rate");
      ExtendsTransitive(s, a.store, SeedCurrency(s).store);
    }
  }

  lemma AddPriceColumnsExtends(s: Store)
    ensures Extends(s, AddPriceColumns(s).store)
  {
    if "last_price_update" !in s.columns {
      var a := AddColumn(s, "last_price_update");
      var b := ThenAddColumn(a, "price_source");
      ThenAddColumnExtends(Run(s, None), "last_price_update");
      ThenAddColumnExtends(a, "price_source");
      ThenAddColumnExtends(b, "asset_type");
      ExtendsTransitive(s, a.store, b.store);
      ExtendsTransitive(s, b.store, AddPriceColumns(s).store);
    }
  }

  lemma SeedPriceSettingsExtends(s: Store)
    ensures Extends(s, SeedPriceSettings(s).store)
  {
    if "price_update_interval" !in s.settings {
      var a := Insert(s, "alpha_vantage_api_key", "");
      var b := ThenInsert(a, "price_update_interval", "15");
      ThenInsertExtends(Run(s, None), "alpha_vantage_api_key");
      ThenInsertExtends(a, "price_update_interval");
      ThenInsertExtends(b, "auto_update_enabled");
      ExtendsTransitive(s, a.store, b.store);
      ExtendsTransitive(s, b.store, SeedPriceSettings(s).store);
    }
  }

  /** A value already stored is never changed, no column is dropped, and whatever is written
      is one of the defaults or one of the price columns. */
  lemma MigrateExtends(s: Store)
    ensures Extends(s, Migrate(s).store)
  {
    var a := SeedCurrency(s);
    SeedCurrencyExtends(s);
    if a.error.None? {
      var b := AddPriceColumns(a.store);
      AddPriceColumnsExtends(a.store);
      ExtendsTransitive(s, a.store, b.store);
      if b.error.None? {
        SeedPriceSettingsExtends(b.store);
        ExtendsTransitive(s, b.store, SeedPriceSettings(b.store).store);
      }
    }
  }

  /** A value already stored is never changed, and no column is dropped. */
  lemma MigrateNeverOverwrites(s: Store)
    ensures forall k :: k in s.settings ==> k in Migrate(s).store.settings && Migrate(s).store.settings[k] == s.settings[k]
    ensures s.columns <= Migrate(s).store.columns
  {
    MigrateExtends(s);
  }

  /** Whatever it writes is one of the defaults or one of the price columns. */
  lemma MigrateWritesOnlyDefaults(s: Store)
    ensures forall k :: k in Migrate(s).store.settings ==>
      k in s.settings || (k in Defaults && Migrate(s).store.settings[k] == Defaults[k])
    ensures Migrate(s).store.columns <= s.columns + PriceColumns
  {
    MigrateExtends(s);
  }

  lemma FreshSeedCurrency(s: Store)
    requires "currency" !in s.settings && "dollar_rate" !in s.settings
    ensures SeedCurrency(s) == Run(Store(s.settings["currency" := "BRL"]["dollar_rate" := "5.08"], s.columns), None)
  {
  }

  lemma FreshAddPriceColumns(s: Store)
    requires s.columns !! PriceColumns
    ensures AddPriceColumns(s) == Run(Store(s.settings, s.columns + PriceColumns), None)
  {
    assert s.columns + {"last_price_update"} + {"price_source"} + {"asset_type"} == s.columns + PriceColumns;
  }

  lemma FreshSeedPriceSettings(s: Store)
    requires "alpha_vantage_api_key" !in s.settings && "price_update_interval" !in s.settings
    requires "auto_update_enabled" !in s.settings
    ensures SeedPriceSettings(s) == Run(Store(
      s.settings["alpha_vantage_api_key" := ""]["price_update_interval" := "15"]["auto_update_enabled" := "true"],
      s.columns), None)
  {
  }

  lemma SeededAreDefaults(m: map<string, string>)
    ensures m["currency" := "BRL"]["dollar_rate" := "5.08"]["alpha_vantage_api_key" := ""]
             ["price_update_interval" := "15"]["auto_update_enabled" := "true"] == m + Defaults
  {
  }

  /** A store with none of the seeded keys and none of the price columns gets all of them. */
  lemma FreshStoreGetsDefaults(s: Store)
    requires forall k :: k in Defaults ==> k !in s.settings
    requires s.columns !! PriceColumns
    ensures Migrate(s) == Run(Store(s.settings + Defaults, s.columns + PriceColumns), None)
  {
    assert "currency" in Defaults && "dollar_rate" in Defaults && "alpha_vantage_api_key" in Defaults;
    assert "price_update_interval" in Defaults && "auto_update_enabled" in Defaults;
    FreshSeedCurrency(s);
    var a := Store(s.settings["currency" := "BRL"]["dollar_rate" := "5.08"], s.columns);
    FreshAddPriceColumns(a);
    FreshSeedPriceSettings(Store(a.settings, s.columns + PriceColumns));
    SeededAreDefaults(s.settings);
  }

  /** The database file created on first use is seeded with the defaults. */
  lemma NewDatabaseGetsDefaults()
    ensures Migrate(Store(map[], BaseAssetColumns)) == Run(Store(Defaults, BaseAssetColumns + PriceColumns), None)
  {
    FreshStoreGetsDefaults(Store(map[], BaseAssetColumns));
    assert map[] + Defaults == Defaults;
  }

  /** Each seeding step is skipped when its guard key is present: the keys it would have
      written keep their presence and value. */
  lemma GuardsSkipSeeding(s: Store)
    ensures "currency" in s.settings ==>
      forall k :: k in {"currency", "dollar_rate"} ==>
        (k in Migrate(s).store.settings <==> k in s.settings)
    ensures "price_update_interval" in s.settings && Migrate(s).error.None? ==>
      forall k :: k in {"alpha_vantage_api_key", "price_update_interval", "auto_update_enabled"} ==>
        (k in Migrate(s).store.settings <==> k in s.settings)
    ensures "last_price_update" in s.columns ==> Migrate(s).store.columns == s.columns
  {
  }

  /** A run that succeeded leaves a store on which the next run does nothing. */
  lemma MigrateIdempotent(s: Store)
    requires Migrate(s).error.None?
    ensures Migrate(Migrate(s).store) == Run(Migrate(s).store, None)
  {
    var t := Migrate(s).store;
    assert "currency" in t.settings;
    assert "last_price_update" in t.columns;
    assert "price_update_interval" in t.settings;
  }

  /** A dollar rate without a currency makes the second insert throw, after the currency
      has been stored; nothing later runs. */
  lemma OrphanDollarRateFails(s: Store)
    requires "currency" !in s.settings && "dollar_rate" in s.settings
    ensures Migrate(s) == Run(Store(s.settings["currency" := "BRL"], s.columns), Some(KeyTaken))
  {
  }

  // ---------------------------------------------------------------------------
  // The migration on the database

  method InsertSetting(db: Db, key: string, value: string) returns (error: Option<string>)
    modifies db`settings
    ensures Run(Store(db.settings, db.assetColumns), error) == Insert(old(Store(db.settings, db.assetColumns)), key, value)
  {
    if key in db.settings {
      return Some(KeyTaken);
    }
    db.settings := db.settings[key := value];
    return None;
  }

  method AddAssetColumn(db: Db, name: string) returns (error: Option<string>)
    modifies db`assetColumns
    ensures Run(Store(db.settings, db.assetColumns), error) == AddColumn(old(Store(db.settings, db.assetColumns)), name)
  {
    if name in db.assetColumns {
      return Some("duplicate column name: " + name);
    }
    db.assetColumns := db.assetColumns + {name};
    return None;
  }

  /** `runMigrations`, from the default-settings check on; returns the message of the
      statement that threw, if one did. */
  method RunMigrations(db: Db) returns (error: Option<string>)
    modifies db`settings, db`assetColumns
    ensures Run(Store(db.settings, db.assetColumns), error) == Migrate(old(Store(db.settings, db.assetColumns)))
  {
    ghost var s := Store(db.settings, db.assetColumns);
    if "currency" !in db.settings {
      error := InsertSetting(db, "currency", "BRL");
      if error.Some? { return; }
      error := InsertSetting(db, "dollar_rate", "5.08");
      if error.Some? { return; }
    }
    assert Run(Store(db.settings, db.assetColumns), None) == SeedCurrency(s);
    ghost var a := Store(db.settings, db.assetColumns);
    if "last_price_update" !in db.assetColumns {
      error := AddAssetColumn(db, "last_price_update");
      if error.Some? { return; }
      error := AddAssetColumn(db, "price_source");
      if error.Some? { return; }
      error := AddAssetColumn(db, "asset_type");
      if error.Some? { return; }
    }
    assert Run(Store(db.settings, db.assetColumns), None) == AddPriceColumns(a);
    if "price_update_interval" !in db.settings {
      error := InsertSetting(db, "alpha_vantage_api_key", "");
      if error.Some? { return; }
      error := InsertSetting(db, "price_update_interval", "15");
      if error.Some? { return; }
      error := InsertSetting(db, "auto_update_enabled", "true");
      if error.Some? { return; }
    }
    return None;
  }
}

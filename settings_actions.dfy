/** Changing one setting. */
module SettingsActions {
  import opened Wrappers
  import opened Database

  /** `value ?? ''`: the column is `NOT NULL`, so a missing value is stored as the empty text. */
  function Stored(value: Option<string>): (r: string)
    ensures value.None? ==> r == ""
    ensures value.Some? ==> r == value.value
  {
    value.GetOr("")
  }

  /** `INSERT .. ON CONFLICT(key) DO UPDATE SET value = excluded.value`: the key holds the
      value afterwards, whether or not it was there before, and every other key is as it was. */
  function Upsert(settings: map<string, string>, key: string, value: string): (r: map<string, string>)
    ensures key in r && r[key] == value
    ensures r.Keys == settings.Keys + {key}
    ensures forall k :: k in settings && k != key ==> r[k] == settings[k]
  {
    settings[key := value]
  }

  /** Repeating the same upsert changes nothing more. */
  lemma UpsertIdempotent(settings: map<string, string>, key: string, value: string)
    ensures Upsert(Upsert(settings, key, value), key, value) == Upsert(settings, key, value)
  {
  }

  /** The later of two upserts to one key wins, and upserts to different keys commute. */
  lemma UpsertsCompose(settings: map<string, string>, key: string, other: string, v: string, w: string)
    ensures Upsert(Upsert(settings, key, v), key, w) == Upsert(settings, key, w)
    ensures key != other ==> Upsert(Upsert(settings, key, v), other, w) == Upsert(Upsert(settings, other, w), key, v)
  {
  }

  /** `updateSetting(key, value)` */
  method UpdateSetting(db: Db, key: string, value: Option<string>)
    modifies db`settings
    ensures db.settings == Upsert(old(db.settings), key, Stored(value))
  {
    var safeValue := Stored(value);
    db.settings := db.settings[key := safeValue];
  }
}

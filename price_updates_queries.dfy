/** How fresh the stored prices are: one asset's status against the configured interval, the
    ids of stale assets, and the most recent update time. All timestamps are milliseconds. */
module PriceUpdatesQueries {
  import opened Wrappers
  import opened JsText
  import opened Database

  /** `parseInt(getSetting('price_update_interval') || '15')`; `None` is NaN. */
  function ThresholdMinutes(settings: map<string, string>): Option<int> {
    var stored := GetSetting(settings, "price_update_interval");
    ParseInt(if stored.None? || stored.value == "" then "15" else stored.value)
  }

  /** Without a stored interval (or with an empty one) the threshold is 15 minutes. */
  lemma DefaultThreshold(settings: map<string, string>)
    requires "price_update_interval" !in settings || settings["price_update_interval"] == ""
    ensures ThresholdMinutes(settings) == Some(15)
  {
    assert DigitPrefix("15") == "15" by {
      assert "15"[1..] == "5";
      assert DigitPrefix("5") == "5" by { assert "5"[1..] == ""; }
    }
    assert DigitsValue("15") == 15 by {
      assert "15"[..1] == "1";
      assert "1"[..0] == "";
    }
  }

  datatype PriceUpdateStatus = PriceUpdateStatus(
    needsUpdate: bool,
    lastUpdate: Option<int>,
    minutesSinceUpdate: Option<real>,
    threshold: Option<int>)

  /** `getPriceUpdateStatus(id)` at time `now`. */
  function GetPriceUpdateStatus(assets: seq<AssetRow>, settings: map<string, string>, id: int, now: int)
    : (r: PriceUpdateStatus)
    ensures r.threshold == ThresholdMinutes(settings)
    ensures var row := FindRow(assets, AssetId, id);
      row.None? || row.value.lastPriceUpdate.None? ==>
        r.needsUpdate && r.lastUpdate.None? && r.minutesSinceUpdate.None?
    ensures r.lastUpdate.Some? ==>
      && r.lastUpdate == FindRow(assets, AssetId, id).value.lastPriceUpdate
      && r.minutesSinceUpdate.Some?
      && r.minutesSinceUpdate.value * 60000.0 == (now - r.lastUpdate.value) as real
      && (r.needsUpdate <==>
            ThresholdMinutes(settings).Some? && now - r.lastUpdate.value >= ThresholdMinutes(settings).value * 60000)
  {
    var threshold := ThresholdMinutes(settings);
    match FindRow(assets, AssetId, id)
    case None => PriceUpdateStatus(true, None, None, threshold)
    case Some(row) =>
      if row.lastPriceUpdate.None? then PriceUpdateStatus(true, None, None, threshold)
      else
        var last := row.lastPriceUpdate.value;
        var minutes := (now - last) as real / 60000.0;
        MinutesCompare(now - last, threshold);
        PriceUpdateStatus(threshold.Some? && minutes >= threshold.value as real, Some(last), Some(minutes), threshold)
  }

  /** Comparing elapsed minutes with the threshold is comparing milliseconds with threshold·60000. */
  lemma MinutesCompare(elapsed: int, threshold: Option<int>)
    ensures threshold.Some? ==>
      (elapsed as real / 60000.0 >= threshold.value as real <==> elapsed >= threshold.value * 60000)
  {
  }

  /** The range of a JavaScript `Date`: 8.64e15 ms either side of the epoch. */
  const MaxTimeMs := 8640000000000000

  const InvalidTime := "Invalid time value"

  /** Assets not updated since before `cutoff` (or never), by id in table order. */
  predicate IsStale(row: AssetRow, cutoff: int) {
    row.lastPriceUpdate.None? || row.lastPriceUpdate.value < cutoff
  }

  function StaleIds(assets: seq<AssetRow>, cutoff: int): (ids: seq<int>)
    ensures forall x :: x in ids <==> exists i :: 0 <= i < |assets| && assets[i].id == x && IsStale(assets[i], cutoff)
  {
    if assets == [] then []
    else
      var rest := StaleIds(assets[1..], cutoff);
      assert forall i :: 1 <= i < |assets| ==> assets[i] == assets[1..][i - 1];
      (if IsStale(assets[0], cutoff) then [assets[0].id] else []) + rest
  }

  /** `getStaleAssets()` at time `now`. Building the cut-off date throws a RangeError when the
      threshold is NaN or the cut-off falls outside the range of a `Date`. */
  function GetStaleAssets(assets: seq<AssetRow>, settings: map<string, string>, now: int): (r: Result<seq<int>, string>)
    ensures r.Err? ==> r.error == InvalidTime
    ensures r.Ok? <==> (ThresholdMinutes(settings).Some?
      && -MaxTimeMs <= now - ThresholdMinutes(settings).value * 60000 <= MaxTimeMs)
    ensures r.Ok? ==> forall x :: x in r.value <==>
      exists i :: 0 <= i < |assets| && assets[i].id == x
        && (assets[i].lastPriceUpdate.None? ||
            assets[i].lastPriceUpdate.value < now - ThresholdMinutes(settings).value * 60000)
  {
    var threshold := ThresholdMinutes(settings);
    if threshold.None? then Err(InvalidTime)
    else
      var cutoff := now - threshold.value * 60000;
      if cutoff < -MaxTimeMs || cutoff > MaxTimeMs then Err(InvalidTime)
      else Ok(StaleIds(assets, cutoff))
  }

  /** `getLastGlobalPriceUpdate()`: the latest update time of any asset, or null when no asset
      has one. */
  function GetLastGlobalPriceUpdate(assets: seq<AssetRow>): (r: Option<int>)
    ensures r.None? <==> forall i :: 0 <= i < |assets| ==> assets[i].lastPriceUpdate.None?
    ensures r.Some? ==> exists i :: 0 <= i < |assets| && assets[i].lastPriceUpdate == r
    ensures r.Some? ==> forall i :: 0 <= i < |assets| && assets[i].lastPriceUpdate.Some? ==>
              assets[i].lastPriceUpdate.value <= r.value
  {
    if assets == [] then None
    else
      var rest := GetLastGlobalPriceUpdate(assets[1..]);
      var here := assets[0].lastPriceUpdate;
      assert forall i :: 1 <= i < |assets| ==> assets[i] == assets[1..][i - 1];
      if here.None? then rest
      else if rest.None? || rest.value <= here.value then here
      else rest
  }

  predicate Increasing(ids: seq<int>) {
    forall i, j :: 0 <= i < j < |ids| ==> ids[i] < ids[j]
  }

  lemma PrependIncreasing(x: int, rest: seq<int>)
    requires Increasing(rest) && forall j :: 0 <= j < |rest| ==> x < rest[j]
    ensures Increasing([x] + rest)
  {
    var ids := [x] + rest;
    forall i, j | 0 <= i < j < |ids| ensures ids[i] < ids[j] {
      assert ids[j] == rest[j - 1];
      if i > 0 {
        assert ids[i] == rest[i - 1];
      }
    }
  }

  /** Every stale id after the first row is above the first row's id. */
  lemma StaleIdsAbove(assets: seq<AssetRow>, cutoff: int, counter: int)
    requires IdsIssued(assets, AssetId, counter) && assets != []
    ensures forall j :: 0 <= j < |StaleIds(assets[1..], cutoff)| ==> assets[0].id < StaleIds(assets[1..], cutoff)[j]
  {
    TailIssued(assets, AssetId, counter);
    var rest := StaleIds(assets[1..], cutoff);
    forall j | 0 <= j < |rest| ensures assets[0].id < rest[j] {
      assert rest[j] in rest;
      var k :| 0 <= k < |assets[1..]| && assets[1..][k].id == rest[j] && IsStale(assets[1..][k], cutoff);
      assert assets[1..][k] in assets[1..];
    }
  }

  /** With ids as AUTOINCREMENT issues them, the stale ids come out increasing, hence without repeats. */
  lemma {:induction false} StaleIdsIncreasing(assets: seq<AssetRow>, cutoff: int, counter: int)
    requires IdsIssued(assets, AssetId, counter)
    ensures Increasing(StaleIds(assets, cutoff))
  {
    if assets != [] {
      TailIssued(assets, AssetId, counter);
      StaleIdsIncreasing(assets[1..], cutoff, counter);
      StaleIdsAbove(assets, cutoff, counter);
      var rest := StaleIds(assets[1..], cutoff);
      if IsStale(assets[0], cutoff) {
        assert StaleIds(assets, cutoff) == [assets[0].id] + rest;
        PrependIncreasing(assets[0].id, rest);
      } else {
        assert StaleIds(assets, cutoff) == rest;
      }
    }
  }
}

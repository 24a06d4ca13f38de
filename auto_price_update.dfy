/** The dashboard's one-shot automatic refresh: each time its inputs change the effect runs,
    and it starts the bulk update at most once per mounted hook, only when enabled and when
    the latest update is older than the interval. */
module AutoPriceUpdate {
  import opened Wrappers
  import opened Database
  import opened PriceUpdatesQueries

  /** `shouldUpdate`: never updated, or updated more than `interval` minutes ago. A NaN
      interval (`None`) makes the comparison false. */
  predicate ShouldUpdate(lastGlobal: Option<int>, intervalMinutes: Option<int>, now: int) {
    lastGlobal.None? || (intervalMinutes.Some? && now - lastGlobal.value > intervalMinutes.value * 60000)
  }

  /** The inputs of one run of the effect. */
  datatype Evaluation = Evaluation(enabled: bool, lastGlobal: Option<int>, intervalMinutes: Option<int>, now: int)

  /** One run of the effect from flag `hasRun`: whether it fires, and the flag afterwards. */
  function EffectStep(hasRun: bool, e: Evaluation): (r: (bool, bool))
    ensures r.0 ==> e.enabled && !hasRun
    ensures r.1 <==> hasRun || r.0
  {
    if !e.enabled || hasRun then (false, hasRun)
    else if ShouldUpdate(e.lastGlobal, e.intervalMinutes, e.now) then (true, true)
    else (false, hasRun)
  }

  /** Which runs of a sequence fire, starting from flag `hasRun`. */
  function Fires(evals: seq<Evaluation>, hasRun: bool): (r: seq<bool>)
    ensures |r| == |evals|
  {
    if evals == [] then []
    else
      var step := EffectStep(hasRun, evals[0]);
      [step.0] + Fires(evals[1..], step.1)
  }

  class AutoUpdateHook {
    var hasRun: bool

    /** `useRef(false)` */
    constructor ()
      ensures !hasRun
    {
      hasRun := false;
    }

    /** The effect body; `fire` says whether `updateAllAssetPrices()` is started. */
    method Effect(e: Evaluation) returns (fire: bool)
      modifies this
      ensures (fire, hasRun) == EffectStep(old(hasRun), e)
    {
      if !e.enabled || hasRun {
        return false;
      }
      var shouldUpdate := ShouldUpdate(e.lastGlobal, e.intervalMinutes, e.now);
      fire := false;
      if shouldUpdate {
        hasRun := true;
        fire := true;
      }
    }
  }

  // ---------------------------------------------------------------------------
  // Properties

  /** Once the flag is set, nothing fires again. */
  lemma {:induction false} NothingAfterRun(evals: seq<Evaluation>)
    ensures forall i :: 0 <= i < |evals| ==> !Fires(evals, true)[i]
  {
    if evals != [] {
      NothingAfterRun(evals[1..]);
      assert forall i :: 1 <= i < |evals| ==> Fires(evals, true)[i] == Fires(evals[1..], true)[i - 1];
    }
  }

  /** A hook fires at most once in its lifetime. */
  lemma {:induction false} FiresAtMostOnce(evals: seq<Evaluation>, hasRun: bool)
    ensures forall i, j :: 0 <= i < j < |evals| && Fires(evals, hasRun)[i] ==> !Fires(evals, hasRun)[j]
  {
    if evals != [] {
      var step := EffectStep(hasRun, evals[0]);
      var r := Fires(evals, hasRun);
      FiresAtMostOnce(evals[1..], step.1);
      if step.0 {
        NothingAfterRun(evals[1..]);
      }
      forall i, j | 0 <= i < j < |evals| && r[i] ensures !r[j] {
        assert r[j] == Fires(evals[1..], step.1)[j - 1];
        if i > 0 { assert r[i] == Fires(evals[1..], step.1)[i - 1]; }
      }
    }
  }

  /** A disabled hook never fires. */
  lemma {:induction false} DisabledNeverFires(evals: seq<Evaluation>, hasRun: bool)
    requires forall i :: 0 <= i < |evals| ==> !evals[i].enabled
    ensures forall i :: 0 <= i < |evals| ==> !Fires(evals, hasRun)[i]
  {
    if evals != [] {
      DisabledNeverFires(evals[1..], hasRun);
      assert forall i :: 1 <= i < |evals| ==> Fires(evals, hasRun)[i] == Fires(evals[1..], hasRun)[i - 1];
    }
  }

  /** Runs that do not fire leave the hook armed: the first enabled, stale run after them fires. */
  lemma {:induction false} FirstStaleRunFires(evals: seq<Evaluation>, k: int)
    requires 0 <= k < |evals|
    requires evals[k].enabled && ShouldUpdate(evals[k].lastGlobal, evals[k].intervalMinutes, evals[k].now)
    requires forall i :: 0 <= i < k ==> !evals[i].enabled || !ShouldUpdate(evals[i].lastGlobal, evals[i].intervalMinutes, evals[i].now)
    ensures Fires(evals, false)[k]
  {
    if k > 0 {
      FirstStaleRunFires(evals[1..], k - 1);
      assert Fires(evals, false)[k] == Fires(evals[1..], false)[k - 1];
    }
  }

  /** The trigger's bound is strict: exactly `interval` minutes after the last update it does
      not fire, although the per-asset status already reports that asset as needing one. */
  lemma StrictUnlikeStatus(assets: seq<AssetRow>, settings: map<string, string>, id: int, now: int)
    requires ThresholdMinutes(settings).Some?
    requires FindRow(assets, AssetId, id).Some?
    requires FindRow(assets, AssetId, id).value.lastPriceUpdate == Some(now - ThresholdMinutes(settings).value * 60000)
    ensures GetPriceUpdateStatus(assets, settings, id, now).needsUpdate
    ensures !ShouldUpdate(FindRow(assets, AssetId, id).value.lastPriceUpdate, ThresholdMinutes(settings), now)
  {
  }

  /** When the trigger fires on the latest update, every asset is stale by the interval: the
      bulk update it starts revisits no asset `getStaleAssets` would have left alone. */
  lemma FiringMeansEveryAssetStale(assets: seq<AssetRow>, settings: map<string, string>, now: int, i: int)
    requires ThresholdMinutes(settings).Some?
    requires ShouldUpdate(GetLastGlobalPriceUpdate(assets), ThresholdMinutes(settings), now)
    requires 0 <= i < |assets|
    ensures assets[i].id in StaleIds(assets, now - ThresholdMinutes(settings).value * 60000)
  {
    assert IsStale(assets[i], now - ThresholdMinutes(settings).value * 60000);
  }
}

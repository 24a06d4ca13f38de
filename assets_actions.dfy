/** Writing assets: the create and edit forms, and deletion with its effect on DCA plans. */
module AssetsActions {
  import opened Wrappers
  import opened JsText
  import opened Types
  import opened Database
  import opened Forms

  /** The asset form as the action reads it, numbers already coerced. */
  datatype AssetForm = AssetForm(
    categoryId: int,
    ticker: string,
    name: string,
    quantity: real,
    price: real,
    targetAllocation: real,
    notes: string)

  /** The fields of `assetSchema`. */
  const AssetFields: set<string> := {"categoryId", "ticker", "name", "quantity", "price", "targetAllocation", "notes"}

  /** The rule `assetSchema` applies to one field. */
  predicate Rejects(form: AssetForm, field: string) {
    match field
    case "categoryId" => form.categoryId <= 0
    case "ticker" => !(1 <= |form.ticker| <= 20)
    case "name" => |form.name| > 100
    case "quantity" => form.quantity < 0.0
    case "price" => form.price < 0.0
    case "targetAllocation" => !(0.0 <= form.targetAllocation <= 100.0)
    case "notes" => |form.notes| > 500
    case _ => false
  }

  /** The fields of the form `assetSchema` rejects. */
  function AssetErrors(form: AssetForm): (r: set<string>)
    ensures r <= AssetFields
    ensures "categoryId" in r <==> form.categoryId <= 0
    ensures "ticker" in r <==> !(1 <= |form.ticker| <= 20)
    ensures "name" in r <==> |form.name| > 100
    ensures "quantity" in r <==> form.quantity < 0.0
    ensures "price" in r <==> form.price < 0.0
    ensures "targetAllocation" in r <==> !(0.0 <= form.targetAllocation <= 100.0)
    ensures "notes" in r <==> |form.notes| > 500
  {
    set field | field in AssetFields && Rejects(form, field)
  }

  const TickerTaken := "UNIQUE constraint failed: assets.category_id, assets.ticker"

  /** `UNIQUE(category_id, ticker)`: some row other than `self` already has the pair. */
  predicate PairTaken(assets: seq<AssetRow>, categoryId: int, ticker: string, self: Option<int>) {
    exists i :: 0 <= i < |assets| && assets[i].categoryId == categoryId && assets[i].ticker == ticker
                && Some(assets[i].id) != self
  }

  predicate CategoryMissing(categories: seq<CategoryRow>, categoryId: int) {
    FindRow(categories, CategoryId, categoryId).None?
  }

  /** The row `createAsset` inserts; the price columns start out null. */
  function NewAssetRow(id: int, form: AssetForm): AssetRow {
    AssetRow(id, form.categoryId, ToUpper(form.ticker), OrNull(form.name), form.quantity, form.price,
             form.targetAllocation, OrNull(form.notes), None, None, None)
  }

  /** The columns `updateAsset` sets; the price columns keep their values. */
  function Edited(form: AssetForm): AssetRow -> AssetRow {
    (a: AssetRow) => a.(categoryId := form.categoryId, ticker := ToUpper(form.ticker), name := OrNull(form.name),
                        quantity := form.quantity, price := form.price,
                        targetAllocation := form.targetAllocation, notes := OrNull(form.notes))
  }

  /** What is checked before a write, in SQLite's order: the form, then the unique pair
      (checked as the row is written), then the category (checked at the statement's end). */
  function WriteCheck(categories: seq<CategoryRow>, assets: seq<AssetRow>, form: AssetForm, self: Option<int>): (r: Option<ActionResult<()>>)
    ensures r.None? <==> AssetErrors(form) == {} && !PairTaken(assets, form.categoryId, ToUpper(form.ticker), self)
                          && !CategoryMissing(categories, form.categoryId)
    ensures AssetErrors(form) != {} ==> r == Some(Invalid(AssetErrors(form)))
    ensures AssetErrors(form) == {} && PairTaken(assets, form.categoryId, ToUpper(form.ticker), self) ==>
      r == Some(Thrown(TickerTaken))
    ensures (AssetErrors(form) == {} && !PairTaken(assets, form.categoryId, ToUpper(form.ticker), self)
             && CategoryMissing(categories, form.categoryId)) ==> r == Some(Thrown(ForeignKeyFailed))
  {
    if AssetErrors(form) != {} then Some(Invalid(AssetErrors(form)))
    else if PairTaken(assets, form.categoryId, ToUpper(form.ticker), self) then Some(Thrown(TickerTaken))
    else if CategoryMissing(categories, form.categoryId) then Some(Thrown(ForeignKeyFailed))
    else None
  }

  /** `createAsset` on the assets table and its AUTOINCREMENT counter. */
  function CreateAssetStep(categories: seq<CategoryRow>, assets: seq<AssetRow>, counter: int, form: AssetForm): (r: (ActionResult<()>, seq<AssetRow>, int))
    ensures r.0.Success? <==> WriteCheck(categories, assets, form, None).None?
    ensures r.0.Success? ==> r.1 == assets + [NewAssetRow(counter + 1, form)] && r.2 == counter + 1
    ensures !r.0.Success? ==> r.1 == assets && r.2 == counter
  {
    match WriteCheck(categories, assets, form, None)
    case Some(refusal) => (refusal, assets, counter)
    case None => (Success(()), assets + [NewAssetRow(counter + 1, form)], counter + 1)
  }

  /** `updateAsset(id, ..)`: an invalid form is refused; an id no row has changes nothing and
      still succeeds; otherwise the write throws on a taken (category, ticker) pair or a missing
      category, and else rewrites the row. */
  function UpdateAssetStep(categories: seq<CategoryRow>, assets: seq<AssetRow>, id: int, form: AssetForm): (r: (ActionResult<()>, seq<AssetRow>))
    ensures AssetErrors(form) != {} ==> r == (Invalid(AssetErrors(form)), assets)
    ensures AssetErrors(form) == {} && FindRow(assets, AssetId, id).None? ==> r == (Success(()), assets)
    ensures (AssetErrors(form) == {} && FindRow(assets, AssetId, id).Some?
             && PairTaken(assets, form.categoryId, ToUpper(form.ticker), Some(id))) ==> r == (Thrown(TickerTaken), assets)
    ensures (AssetErrors(form) == {} && FindRow(assets, AssetId, id).Some?
             && !PairTaken(assets, form.categoryId, ToUpper(form.ticker), Some(id))
             && CategoryMissing(categories, form.categoryId)) ==> r == (Thrown(ForeignKeyFailed), assets)
    ensures r.0.Success? <==> (AssetErrors(form) == {}
      && (FindRow(assets, AssetId, id).None? || WriteCheck(categories, assets, form, Some(id)).None?))
    ensures r.0.Success? ==> r.1 == UpdateRows(assets, AssetId, id, Edited(form))
    ensures !r.0.Success? ==> r.1 == assets
  {
    if AssetErrors(form) != {} then (Invalid(AssetErrors(form)), assets)
    else if FindRow(assets, AssetId, id).None? then
      assert UpdateRows(assets, AssetId, id, Edited(form)) == assets;
      (Success(()), assets)
    else match WriteCheck(categories, assets, form, Some(id))
      case Some(refusal) => (refusal, assets)
      case None => (Success(()), UpdateRows(assets, AssetId, id, Edited(form)))
  }

  /** Both writes store the ticker upper-cased, and a new asset's price columns are null. */
  lemma CreateStoresUpperTicker(categories: seq<CategoryRow>, assets: seq<AssetRow>, counter: int, form: AssetForm)
    requires CreateAssetStep(categories, assets, counter, form).0.Success?
    ensures var t := CreateAssetStep(categories, assets, counter, form).1;
      && t[|assets|].ticker == ToUpper(form.ticker)
      && t[|assets|].assetType.None? && t[|assets|].lastPriceUpdate.None? && t[|assets|].priceSource.None?
  {
  }

  /** An edit rewrites only the row with that id, and only the form's columns of it: the
      asset type, price timestamp and price source stay, even when the ticker changes. */
  lemma {:induction false} UpdateTouchesOnlyThatRow(categories: seq<CategoryRow>, assets: seq<AssetRow>, id: int, form: AssetForm, i: int)
    requires UpdateAssetStep(categories, assets, id, form).0.Success? && 0 <= i < |assets|
    ensures var t := UpdateAssetStep(categories, assets, id, form).1;
      && |t| == |assets|
      && (assets[i].id != id ==> t[i] == assets[i])
      && (assets[i].id == id ==>
            && t[i].id == id && t[i].ticker == ToUpper(form.ticker) && t[i].categoryId == form.categoryId
            && t[i].name == OrNull(form.name) && t[i].notes == OrNull(form.notes)
            && t[i].quantity == form.quantity && t[i].price == form.price
            && t[i].targetAllocation == form.targetAllocation
            && t[i].assetType == assets[i].assetType
            && t[i].lastPriceUpdate == assets[i].lastPriceUpdate
            && t[i].priceSource == assets[i].priceSource)
  {
  }

  /** Editing a row to its own (category, ticker) pair is not a conflict. */
  lemma EditKeepingPairSucceeds(categories: seq<CategoryRow>, assets: seq<AssetRow>, counter: int, k: int, form: AssetForm)
    requires IdsIssued(assets, AssetId, counter) && 0 <= k < |assets|
    requires forall i :: 0 <= i < |assets| && i != k ==>
               !(assets[i].categoryId == assets[k].categoryId && assets[i].ticker == assets[k].ticker)
    requires AssetErrors(form) == {} && !CategoryMissing(categories, form.categoryId)
    requires form.categoryId == assets[k].categoryId && ToUpper(form.ticker) == assets[k].ticker
    ensures UpdateAssetStep(categories, assets, assets[k].id, form).0.Success?
  {
    FindRowUnique(assets, AssetId, counter, k);
  }

  function OtherAsset(id: int): AssetRow -> bool { (a: AssetRow) => a.id != id }

  /** `asset_id REFERENCES assets(id) ON DELETE SET NULL` */
  function DetachPlan(id: int, p: DcaPlanRow): DcaPlanRow {
    if p.assetId == Some(id) then p.(assetId := None) else p
  }

  function DetachPlans(plans: seq<DcaPlanRow>, id: int): (r: seq<DcaPlanRow>)
    ensures |r| == |plans|
    ensures forall i :: 0 <= i < |plans| ==> plans[i].assetId == Some(id) ==> r[i] == plans[i].(assetId := None)
    ensures forall i :: 0 <= i < |plans| ==> plans[i].assetId != Some(id) ==> r[i] == plans[i]
  {
    seq(|plans|, i requires 0 <= i < |plans| => DetachPlan(id, plans[i]))
  }

  /** `deleteAsset(id)`: the row goes, and plans that named it keep going without an asset. */
  function DeleteAssetStep(assets: seq<AssetRow>, plans: seq<DcaPlanRow>, id: int): (r: (seq<AssetRow>, seq<DcaPlanRow>))
    ensures FindRow(assets, AssetId, id).None? ==> r == (assets, plans)
  {
    if FindRow(assets, AssetId, id).None? then (assets, plans)
    else (Filter(assets, OtherAsset(id)), DetachPlans(plans, id))
  }

  /** Exactly the other assets remain. The plans that named the deleted asset lose it, and
      every other plan is as it was. */
  lemma DeleteRemovesOnlyIt(assets: seq<AssetRow>, plans: seq<DcaPlanRow>, id: int, a: AssetRow)
    ensures a in DeleteAssetStep(assets, plans, id).0 <==> a in assets && a.id != id
    ensures var p := DeleteAssetStep(assets, plans, id).1;
      && |p| == |plans|
      && (forall i :: 0 <= i < |p| ==> p[i] == plans[i].(assetId := p[i].assetId))
      && (FindRow(assets, AssetId, id).Some? ==> forall i :: 0 <= i < |p| ==> p[i].assetId != Some(id))
      && (FindRow(assets, AssetId, id).Some? ==> forall i :: 0 <= i < |p| ==>
            && (plans[i].assetId == Some(id) ==> p[i] == plans[i].(assetId := None))
            && (plans[i].assetId != Some(id) ==> p[i] == plans[i]))
      && (FindRow(assets, AssetId, id).None? ==> p == plans)
  {
    FilterMembers(assets, OtherAsset(id), a);
    if FindRow(assets, AssetId, id).None? {
      if a in assets {
        var k :| 0 <= k < |assets| && assets[k] == a;
        assert assets[k].id != id;
      }
    }
  }

  lemma DeleteKeepsIds(assets: seq<AssetRow>, plans: seq<DcaPlanRow>, id: int, assetSeq: int, planSeq: int)
    requires IdsIssued(assets, AssetId, assetSeq) && IdsIssued(plans, DcaPlanId, planSeq)
    ensures IdsIssued(DeleteAssetStep(assets, plans, id).0, AssetId, assetSeq)
    ensures IdsIssued(DeleteAssetStep(assets, plans, id).1, DcaPlanId, planSeq)
  {
    FilterKeepsIssuedIds(assets, AssetId, OtherAsset(id), assetSeq);
  }

  lemma EditKeepsIds(assets: seq<AssetRow>, counter: int, id: int, form: AssetForm)
    requires IdsIssued(assets, AssetId, counter)
    ensures IdsIssued(UpdateRows(assets, AssetId, id, Edited(form)), AssetId, counter)
  {
    var t := UpdateRows(assets, AssetId, id, Edited(form));
    assert forall i :: 0 <= i < |t| ==> t[i].id == assets[i].id;
  }

  method CreateAsset(db: Db, form: AssetForm) returns (r: ActionResult<()>)
    requires db.Valid()
    modifies db`assets, db`assetSeq
    ensures db.Valid()
    ensures (r, db.assets, db.assetSeq) == CreateAssetStep(db.categories, old(db.assets), old(db.assetSeq), form)
  {
    var step := CreateAssetStep(db.categories, db.assets, db.assetSeq, form);
    if step.0.Success? {
      AppendKeepsIssuedIds(db.assets, AssetId, db.assetSeq, NewAssetRow(db.assetSeq + 1, form));
    }
    r, db.assets, db.assetSeq := step.0, step.1, step.2;
  }

  method UpdateAsset(db: Db, id: int, form: AssetForm) returns (r: ActionResult<()>)
    requires db.Valid()
    modifies db`assets
    ensures db.Valid()
    ensures (r, db.assets) == UpdateAssetStep(db.categories, old(db.assets), id, form)
  {
    EditKeepsIds(db.assets, db.assetSeq, id, form);
    var step := UpdateAssetStep(db.categories, db.assets, id, form);
    r, db.assets := step.0, step.1;
  }

  method DeleteAsset(db: Db, id: int) returns (r: ActionResult<()>)
    requires db.Valid()
    modifies db`assets, db`dcaPlans
    ensures db.Valid()
    ensures r == Success(()) && (db.assets, db.dcaPlans) == DeleteAssetStep(old(db.assets), old(db.dcaPlans), id)
  {
    DeleteKeepsIds(db.assets, db.dcaPlans, id, db.assetSeq, db.dcaPlanSeq);
    var step := DeleteAssetStep(db.assets, db.dcaPlans, id);
    db.assets, db.dcaPlans := step.0, step.1;
    return Success(());
  }
}

/** Writing categories: the create and edit forms, which store the slug of the name, and
    deletion with the cascade the schema declares. */
module CategoriesActions {
  import opened Wrappers
  import opened Database
  import opened Forms
  import opened Slugs

  /** The category form as the action reads it, numbers already coerced. */
  datatype CategoryForm = CategoryForm(
    name: string,
    icon: string,
    targetAllocation: real,
    sortOrder: int)

  /** The fields of `categorySchema`. */
  const CategoryFields: set<string> := {"name", "icon", "targetAllocation"}

  /** The rule `categorySchema` applies to one field. */
  predicate CategoryRejects(form: CategoryForm, field: string) {
    match field
    case "name" => !(1 <= |form.name| <= 100)
    case "icon" => |form.icon| > 10
    case "targetAllocation" => !(0.0 <= form.targetAllocation <= 100.0)
    case _ => false
  }

  /** The fields of the form `categorySchema` rejects. */
  function CategoryErrors(form: CategoryForm): (r: set<string>)
    ensures r <= CategoryFields
    ensures "name" in r <==> !(1 <= |form.name| <= 100)
    ensures "icon" in r <==> |form.icon| > 10
    ensures "targetAllocation" in r <==> !(0.0 <= form.targetAllocation <= 100.0)
  {
    set field | field in CategoryFields && CategoryRejects(form, field)
  }

  const SlugTaken := "UNIQUE constraint failed: categories.slug"

  /** `slug TEXT NOT NULL UNIQUE`: a row other than `self` already has the slug. */
  predicate SlugInUse(categories: seq<CategoryRow>, slug: string, self: Option<int>) {
    exists i :: 0 <= i < |categories| && categories[i].slug == slug && Some(categories[i].id) != self
  }

  /** What the UNIQUE constraint keeps true of the table. */
  ghost predicate DistinctSlugs(categories: seq<CategoryRow>) {
    forall i, j :: 0 <= i < j < |categories| ==> categories[i].slug != categories[j].slug
  }

  function NewCategoryRow(id: int, form: CategoryForm): CategoryRow {
    CategoryRow(id, form.name, Slugify(form.name), OrNull(form.icon), form.targetAllocation, form.sortOrder)
  }

  function Edited(form: CategoryForm): CategoryRow -> CategoryRow {
    (c: CategoryRow) => c.(name := form.name, slug := Slugify(form.name), icon := OrNull(form.icon),
                           targetAllocation := form.targetAllocation, sortOrder := form.sortOrder)
  }

  /** `createCategory` on the categories table and its AUTOINCREMENT counter. */
  function CreateCategoryStep(categories: seq<CategoryRow>, counter: int, form: CategoryForm): (r: (ActionResult<()>, seq<CategoryRow>, int))
    ensures CategoryErrors(form) != {} ==> r == (Invalid(CategoryErrors(form)), categories, counter)
    ensures CategoryErrors(form) == {} && SlugInUse(categories, Slugify(form.name), None) ==>
      r == (Thrown(SlugTaken), categories, counter)
    ensures r.0.Success? <==> CategoryErrors(form) == {} && !SlugInUse(categories, Slugify(form.name), None)
    ensures r.0.Success? ==> r.1 == categories + [NewCategoryRow(counter + 1, form)] && r.2 == counter + 1
  {
    if CategoryErrors(form) != {} then (Invalid(CategoryErrors(form)), categories, counter)
    else if SlugInUse(categories, Slugify(form.name), None) then (Thrown(SlugTaken), categories, counter)
    else (Success(()), categories + [NewCategoryRow(counter + 1, form)], counter + 1)
  }

  /** `updateCategory(id, ..)`: an invalid form is refused; an id no row has changes nothing and
      still succeeds; otherwise the write throws when another row has the new slug, and else
      rewrites the row. */
  function UpdateCategoryStep(categories: seq<CategoryRow>, id: int, form: CategoryForm): (r: (ActionResult<()>, seq<CategoryRow>))
    ensures CategoryErrors(form) != {} ==> r == (Invalid(CategoryErrors(form)), categories)
    ensures CategoryErrors(form) == {} && FindRow(categories, CategoryId, id).None? ==> r == (Success(()), categories)
    ensures r.0.Thrown? <==> (CategoryErrors(form) == {} && FindRow(categories, CategoryId, id).Some?
      && SlugInUse(categories, Slugify(form.name), Some(id)))
    ensures r.0.Thrown? ==> r.0.message == SlugTaken
    ensures r.0.Success? ==> r.1 == UpdateRows(categories, CategoryId, id, Edited(form))
    ensures !r.0.Success? ==> r.1 == categories
  {
    if CategoryErrors(form) != {} then (Invalid(CategoryErrors(form)), categories)
    else if FindRow(categories, CategoryId, id).None? then
      assert UpdateRows(categories, CategoryId, id, Edited(form)) == categories;
      (Success(()), categories)
    else if SlugInUse(categories, Slugify(form.name), Some(id)) then (Thrown(SlugTaken), categories)
    else (Success(()), UpdateRows(categories, CategoryId, id, Edited(form)))
  }

  /** A created category's slug is the slug of its name. */
  lemma CreateStoresSlug(categories: seq<CategoryRow>, counter: int, form: CategoryForm)
    requires CreateCategoryStep(categories, counter, form).0.Success?
    ensures var t := CreateCategoryStep(categories, counter, form).1;
      t[|categories|].slug == Slugify(form.name) && IsSlug(t[|categories|].slug)
  {
    SlugifyMakesSlug(form.name);
  }

  /** An edited category's slug is the slug of its new name; other rows stay as they were. */
  lemma UpdateStoresSlug(categories: seq<CategoryRow>, id: int, form: CategoryForm, i: int)
    requires UpdateCategoryStep(categories, id, form).0.Success? && 0 <= i < |categories|
    ensures var t := UpdateCategoryStep(categories, id, form).1;
      && |t| == |categories|
      && (categories[i].id == id ==>
            && t[i].id == id && t[i].name == form.name && t[i].slug == Slugify(form.name)
            && t[i].icon == OrNull(form.icon) && t[i].targetAllocation == form.targetAllocation
            && t[i].sortOrder == form.sortOrder)
      && (categories[i].id != id ==> t[i] == categories[i])
  {
  }

  /** Creating keeps slugs distinct. */
  lemma CreateKeepsSlugsDistinct(categories: seq<CategoryRow>, counter: int, form: CategoryForm)
    requires DistinctSlugs(categories)
    ensures DistinctSlugs(CreateCategoryStep(categories, counter, form).1)
  {
    var t := CreateCategoryStep(categories, counter, form).1;
    if t != categories {
      forall i, j | 0 <= i < j < |t| ensures t[i].slug != t[j].slug {
        assert t[i] == categories[i];
        if j < |categories| { assert t[j] == categories[j]; }
      }
    }
  }

  /** Editing keeps slugs distinct. */
  lemma UpdateKeepsSlugsDistinct(categories: seq<CategoryRow>, counter: int, id: int, form: CategoryForm)
    requires IdsIssued(categories, CategoryId, counter) && DistinctSlugs(categories)
    ensures DistinctSlugs(UpdateCategoryStep(categories, id, form).1)
  {
    var r := UpdateCategoryStep(categories, id, form);
    if r.1 != categories {
      var t := r.1;
      assert !SlugInUse(categories, Slugify(form.name), Some(id));
      forall i, j | 0 <= i < j < |t| ensures t[i].slug != t[j].slug {
        assert categories[i].id < categories[j].id;
        if categories[i].id == id {
          assert t[i].slug == Slugify(form.name) && t[j] == categories[j];
          assert categories[j].slug != Slugify(form.name);
        } else if categories[j].id == id {
          assert t[j].slug == Slugify(form.name) && t[i] == categories[i];
          assert categories[i].slug != Slugify(form.name);
        } else {
          assert t[i] == categories[i] && t[j] == categories[j];
        }
      }
    }
  }

  lemma EditKeepsIds(categories: seq<CategoryRow>, counter: int, id: int, form: CategoryForm)
    requires IdsIssued(categories, CategoryId, counter)
    ensures IdsIssued(UpdateCategoryStep(categories, id, form).1, CategoryId, counter)
  {
    var t := UpdateRows(categories, CategoryId, id, Edited(form));
    assert forall i :: 0 <= i < |t| ==> CategoryId(t[i]) == CategoryId(categories[i]);
    SameIdsKeepIssued(categories, t, CategoryId, counter);
  }

  method CreateCategory(db: Db, form: CategoryForm) returns (r: ActionResult<()>)
    requires db.Valid()
    modifies db`categories, db`categorySeq
    ensures db.Valid()
    ensures (r, db.categories, db.categorySeq) == CreateCategoryStep(old(db.categories), old(db.categorySeq), form)
  {
    var step := CreateCategoryStep(db.categories, db.categorySeq, form);
    if step.0.Success? {
      AppendKeepsIssuedIds(db.categories, CategoryId, db.categorySeq, NewCategoryRow(db.categorySeq + 1, form));
    }
    r, db.categories, db.categorySeq := step.0, step.1, step.2;
  }

  method UpdateCategory(db: Db, id: int, form: CategoryForm) returns (r: ActionResult<()>)
    requires db.Valid()
    modifies db`categories
    ensures db.Valid()
    ensures (r, db.categories) == UpdateCategoryStep(old(db.categories), id, form)
  {
    EditKeepsIds(db.categories, db.categorySeq, id, form);
    var step := UpdateCategoryStep(db.categories, id, form);
    r, db.categories := step.0, step.1;
  }

  /** A breakdown row of some snapshot still names the category. */
  predicate InSomeSnapshot(snapshotCategories: seq<SnapshotCategoryRow>, id: int) {
    exists i :: 0 <= i < |snapshotCategories| && snapshotCategories[i].categoryId == id
  }

  function OtherCategory(id: int): CategoryRow -> bool { (c: CategoryRow) => c.id != id }
  function OutsideCategory(id: int): AssetRow -> bool { (a: AssetRow) => a.categoryId != id }

  /** The ids of the category's assets, which the cascade deletes. */
  function AssetsIn(assets: seq<AssetRow>, id: int): set<int> {
    set i | 0 <= i < |assets| && assets[i].categoryId == id :: assets[i].id
  }

  function DetachFrom(removed: set<int>, p: DcaPlanRow): DcaPlanRow {
    if p.assetId.Some? && p.assetId.value in removed then p.(assetId := None) else p
  }

  function DetachAll(plans: seq<DcaPlanRow>, removed: set<int>): (r: seq<DcaPlanRow>)
    ensures |r| == |plans|
    ensures forall i :: 0 <= i < |plans| ==>
      (plans[i].assetId.Some? && plans[i].assetId.value in removed) ==> r[i] == plans[i].(assetId := None)
    ensures forall i :: 0 <= i < |plans| ==>
      !(plans[i].assetId.Some? && plans[i].assetId.value in removed) ==> r[i] == plans[i]
  {
    seq(|plans|, i requires 0 <= i < |plans| => DetachFrom(removed, plans[i]))
  }

  datatype CatalogTables = CatalogTables(
    categories: seq<CategoryRow>,
    assets: seq<AssetRow>,
    plans: seq<DcaPlanRow>)

  /** `deleteCategory(id)`. Its assets go with it (`ON DELETE CASCADE`), plans that named
      one of them lose their asset (`ON DELETE SET NULL`), and a category that a snapshot's
      breakdown names cannot go at all (`snapshot_categories.category_id` has no ON DELETE
      action), so the statement fails and nothing changes. */
  function DeleteCategoryStep(t: CatalogTables, snapshotCategories: seq<SnapshotCategoryRow>, id: int): (r: (ActionResult<()>, CatalogTables))
    ensures r.0.Thrown? <==> FindRow(t.categories, CategoryId, id).Some? && InSomeSnapshot(snapshotCategories, id)
    ensures r.0.Thrown? ==> r.0.message == ForeignKeyFailed
    ensures r.0.Success? || r.0.Thrown?
    ensures FindRow(t.categories, CategoryId, id).None? ==> r == (Success(()), t)
    ensures !r.0.Success? ==> r.1 == t
  {
    if FindRow(t.categories, CategoryId, id).None? then (Success(()), t)
    else if InSomeSnapshot(snapshotCategories, id) then (Thrown(ForeignKeyFailed), t)
    else
      var removed := AssetsIn(t.assets, id);
      (Success(()), CatalogTables(
        Filter(t.categories, OtherCategory(id)),
        Filter(t.assets, OutsideCategory(id)),
        DetachAll(t.plans, removed)))
  }

  /** After a delete that goes through, the category and all of its assets are gone, every
      other row stays, and no plan names a deleted asset. */
  lemma DeleteCascades(t: CatalogTables, snapshotCategories: seq<SnapshotCategoryRow>, id: int, c: CategoryRow, a: AssetRow)
    requires FindRow(t.categories, CategoryId, id).Some?
    requires DeleteCategoryStep(t, snapshotCategories, id).0.Success?
    ensures var after := DeleteCategoryStep(t, snapshotCategories, id).1;
      && (c in after.categories <==> c in t.categories && c.id != id)
      && (a in after.assets <==> a in t.assets && a.categoryId != id)
      && |after.plans| == |t.plans|
      && forall i :: 0 <= i < |t.plans| ==>
           && after.plans[i] == t.plans[i].(assetId := after.plans[i].assetId)
           && (after.plans[i].assetId.Some? ==> after.plans[i].assetId.value !in AssetsIn(t.assets, id))
           && ((t.plans[i].assetId.Some? && t.plans[i].assetId.value in AssetsIn(t.assets, id)) ==>
                 after.plans[i] == t.plans[i].(assetId := None))
           && (!(t.plans[i].assetId.Some? && t.plans[i].assetId.value in AssetsIn(t.assets, id)) ==>
                 after.plans[i] == t.plans[i])
  {
    FilterMembers(t.categories, OtherCategory(id), c);
    FilterMembers(t.assets, OutsideCategory(id), a);
  }

  /** The delete keeps the ids of every table it rewrites as AUTOINCREMENT issued them. */
  lemma DeleteKeepsIds(t: CatalogTables, snapshotCategories: seq<SnapshotCategoryRow>, id: int,
                       categorySeq: int, assetSeq: int, planSeq: int)
    requires IdsIssued(t.categories, CategoryId, categorySeq)
    requires IdsIssued(t.assets, AssetId, assetSeq)
    requires IdsIssued(t.plans, DcaPlanId, planSeq)
    ensures var after := DeleteCategoryStep(t, snapshotCategories, id).1;
      && IdsIssued(after.categories, CategoryId, categorySeq)
      && IdsIssued(after.assets, AssetId, assetSeq)
      && IdsIssued(after.plans, DcaPlanId, planSeq)
  {
    var after := DeleteCategoryStep(t, snapshotCategories, id).1;
    if after != t {
      FilterKeepsIssuedIds(t.categories, CategoryId, OtherCategory(id), categorySeq);
      FilterKeepsIssuedIds(t.assets, AssetId, OutsideCategory(id), assetSeq);
      var plans := DetachAll(t.plans, AssetsIn(t.assets, id));
      assert forall i :: 0 <= i < |t.plans| ==> DcaPlanId(plans[i]) == DcaPlanId(t.plans[i]);
      SameIdsKeepIssued(t.plans, plans, DcaPlanId, planSeq);
    }
  }

  method DeleteCategory(db: Db, id: int) returns (r: ActionResult<()>)
    requires db.Valid()
    modifies db`categories, db`assets, db`dcaPlans
    ensures db.Valid()
    ensures (r, CatalogTables(db.categories, db.assets, db.dcaPlans))
         == DeleteCategoryStep(CatalogTables(old(db.categories), old(db.assets), old(db.dcaPlans)), db.snapshotCategories, id)
  {
    var tables := CatalogTables(db.categories, db.assets, db.dcaPlans);
    DeleteKeepsIds(tables, db.snapshotCategories, id, db.categorySeq, db.assetSeq, db.dcaPlanSeq);
    var step := DeleteCategoryStep(tables, db.snapshotCategories, id);
    r, db.categories, db.assets, db.dcaPlans := step.0, step.1.categories, step.1.assets, step.1.plans;
    assert CatalogTables(db.categories, db.assets, db.dcaPlans) == step.1;
  }
}

/** Dollar-cost-averaging plans: the schedule of entries a plan generates, creating a plan
    with its entries, marking an entry done or not done, and deleting a plan. */
module DcaPlans {
  import opened Wrappers
  import opened Calendar
  import opened Database
  import opened Forms

  /** The loop never produces more entries than this. */
  const MaxEntries: nat := 200
  /** How many entries a plan without an end date gets. */
  const DefaultEntries: nat := 52

  /** One step of the schedule: a week or a calendar month later. */
  function Next(d: CalendarDate, frequency: Frequency): (r: CalendarDate)
    ensures Before(d, r)
  {
    match frequency
    case Weekly => AddWeek(d)
    case Monthly => AddMonth(d)
  }

  /** The day the `i`-th step of the loop has reached. */
  function Nth(start: CalendarDate, frequency: Frequency, i: nat): CalendarDate {
    if i == 0 then start else Next(Nth(start, frequency, i - 1), frequency)
  }

  /** Later steps are later days. */
  lemma {:induction false} NthIncreasing(start: CalendarDate, frequency: Frequency, i: nat, j: nat)
    requires i < j
    ensures Before(Nth(start, frequency, i), Nth(start, frequency, j))
  {
    if i < j - 1 {
      NthIncreasing(start, frequency, i, j - 1);
      BeforeTransitive(Nth(start, frequency, i), Nth(start, frequency, j - 1), Nth(start, frequency, j));
    }
  }

  datatype Entry = Entry(date: CalendarDate, amount: real)

  /** The two `break`s of the loop, at step `count` on day `current`: past a readable end
      date, or 52 entries when there is no end date. An end date `new Date` cannot read is
      truthy but compares false with every day, so it never stops the loop. */
  predicate Stops(end: DateText, count: nat, current: CalendarDate) {
    match end
    case Iso(e) => Before(e, current)
    case Blank => count >= DefaultEntries
    case Unparseable => false
  }

  /** What `generateEntries` returns: the days the steps reach, each with the plan amount,
      up to the first step that stops the loop or 200 entries, whichever comes first. */
  ghost predicate IsSchedule(entries: seq<Entry>, start: CalendarDate, end: DateText, frequency: Frequency, amount: real) {
    && |entries| <= MaxEntries
    && (forall i :: 0 <= i < |entries| ==> entries[i] == Entry(Nth(start, frequency, i), amount))
    && (forall i :: 0 <= i < |entries| ==> !Stops(end, i, Nth(start, frequency, i)))
    && (|entries| < MaxEntries ==> Stops(end, |entries|, Nth(start, frequency, |entries|)))
  }

  /** `generateEntries` */
  method GenerateEntries(start: CalendarDate, end: DateText, frequency: Frequency, amount: real)
    returns (entries: seq<Entry>)
    ensures IsSchedule(entries, start, end, frequency, amount)
  {
    entries := [];
    var current := start;
    var count := 0;
    while count < MaxEntries
      invariant count <= MaxEntries && |entries| == count
      invariant current == Nth(start, frequency, count)
      invariant forall i :: 0 <= i < count ==> entries[i] == Entry(Nth(start, frequency, i), amount)
      invariant forall i :: 0 <= i < count ==> !Stops(end, i, Nth(start, frequency, i))
    {
      if end.Iso? && Before(end.date, current) {
        break;
      }
      if end.Blank? && count >= DefaultEntries {
        break;
      }
      entries := entries + [Entry(current, amount)];
      current := Next(current, frequency);
      count := count + 1;
    }
  }

  /** The schedule is a function of its inputs: two lists that both meet it are equal. */
  lemma ScheduleUnique(a: seq<Entry>, b: seq<Entry>, start: CalendarDate, end: DateText, frequency: Frequency, amount: real)
    requires IsSchedule(a, start, end, frequency, amount)
    requires IsSchedule(b, start, end, frequency, amount)
    ensures a == b
  {
  }

  /** Without an end date the plan gets exactly 52 entries. */
  lemma NoEndGivesDefault(entries: seq<Entry>, start: CalendarDate, frequency: Frequency, amount: real)
    requires IsSchedule(entries, start, Blank, frequency, amount)
    ensures |entries| == DefaultEntries
  {
    assert |entries| > DefaultEntries ==> !Stops(Blank, DefaultEntries, Nth(start, frequency, DefaultEntries));
  }

  /** An end date `new Date` cannot read never stops the loop: the cap of 200 does. */
  lemma UnreadableEndGivesCap(entries: seq<Entry>, start: CalendarDate, frequency: Frequency, amount: real)
    requires IsSchedule(entries, start, Unparseable, frequency, amount)
    ensures |entries| == MaxEntries
  {
  }

  /** With an end date every entry is on or before it, and the day after the last entry
      (unless the cap was reached) is past it; a start after the end gives no entries. */
  lemma EndDateBoundsEntries(entries: seq<Entry>, start: CalendarDate, end: CalendarDate, frequency: Frequency, amount: real)
    requires IsSchedule(entries, start, Iso(end), frequency, amount)
    ensures forall i :: 0 <= i < |entries| ==> !Before(end, entries[i].date)
    ensures |entries| < MaxEntries ==> Before(end, Nth(start, frequency, |entries|))
    ensures Before(end, start) <==> entries == []
  {
    if entries != [] {
      assert !Stops(Iso(end), 0, Nth(start, frequency, 0));
    }
  }

  /** The first entry is the start day, and there is one unless the start is past the end. */
  lemma FirstEntryIsStart(entries: seq<Entry>, start: CalendarDate, end: DateText, frequency: Frequency, amount: real)
    requires IsSchedule(entries, start, end, frequency, amount)
    requires !(end.Iso? && Before(end.date, start))
    ensures entries != [] && entries[0] == Entry(start, amount)
  {
    assert !Stops(end, 0, Nth(start, frequency, 0));
  }

  /** Entry days strictly increase, each one step after the one before. */
  lemma EntriesIncrease(entries: seq<Entry>, start: CalendarDate, end: DateText, frequency: Frequency, amount: real)
    requires IsSchedule(entries, start, end, frequency, amount)
    ensures forall i, j :: 0 <= i < j < |entries| ==> Before(entries[i].date, entries[j].date)
    ensures forall i :: 0 <= i < |entries| - 1 ==> entries[i + 1].date == Next(entries[i].date, frequency)
  {
    forall i, j | 0 <= i < j < |entries| ensures Before(entries[i].date, entries[j].date) {
      NthIncreasing(start, frequency, i, j);
    }
    forall i | 0 <= i < |entries| - 1 ensures entries[i + 1].date == Next(entries[i].date, frequency) {
      assert entries[i + 1].date == Nth(start, frequency, i + 1);
    }
  }

  /** The plan form as the action reads it. A date field is `Blank` when empty or missing. */
  datatype DcaPlanForm = DcaPlanForm(
    name: string,
    assetId: Option<int>,
    frequency: Frequency,
    amount: real,
    startDate: DateText,
    endDate: DateText,
    notes: string)

  /** The fields of `dcaPlanSchema`. */
  const PlanFields: set<string> := {"name", "assetId", "amount", "startDate", "notes"}

  /** The rule `dcaPlanSchema` applies to one field. */
  predicate PlanRejects(form: DcaPlanForm, field: string) {
    match field
    case "name" => !(1 <= |form.name| <= 100)
    case "assetId" => form.assetId.Some? && form.assetId.value <= 0
    case "amount" => form.amount <= 0.0
    case "startDate" => form.startDate.Blank?
    case "notes" => |form.notes| > 500
    case _ => false
  }

  /** The fields of the form `dcaPlanSchema` rejects (its `fieldErrors` keys). */
  function PlanErrors(form: DcaPlanForm): (r: set<string>)
    ensures r <= PlanFields
    ensures "name" in r <==> !(1 <= |form.name| <= 100)
    ensures "assetId" in r <==> (form.assetId.Some? && form.assetId.value <= 0)
    ensures "amount" in r <==> form.amount <= 0.0
    ensures "startDate" in r <==> form.startDate.Blank?
    ensures "notes" in r <==> |form.notes| > 500
  {
    set field | field in PlanFields && PlanRejects(form, field)
  }

  /** The `dca_plans` row the insert writes. */
  function PlanRow(id: int, form: DcaPlanForm): DcaPlanRow {
    DcaPlanRow(id, form.name, form.assetId, form.frequency, form.amount,
               form.startDate, form.endDate, OrNull(form.notes))
  }

  /** `asset_id REFERENCES assets(id)`: a plan may name no asset, but not a missing one. */
  predicate AssetMissing(assets: seq<AssetRow>, assetId: Option<int>) {
    assetId.Some? && FindRow(assets, AssetId, assetId.value).None?
  }

  /** The `dca_entries` rows inserted for a schedule, with ids from `firstId` on. */
  function EntryRows(firstId: int, planId: int, entries: seq<Entry>): (r: seq<DcaEntryRow>)
    ensures |r| == |entries|
    ensures forall i :: 0 <= i < |r| ==> r[i] == DcaEntryRow(firstId + i, planId, entries[i].date, entries[i].amount, 0, None, None)
  {
    seq(|entries|, i requires 0 <= i < |entries| =>
      DcaEntryRow(firstId + i, planId, entries[i].date, entries[i].amount, 0, None, None))
  }

  /** The schedule the new entry rows carry. */
  function Scheduled(rows: seq<DcaEntryRow>): (r: seq<Entry>)
    ensures |r| == |rows|
    ensures forall i :: 0 <= i < |r| ==> r[i] == Entry(rows[i].scheduledDate, rows[i].amount)
  {
    seq(|rows|, i requires 0 <= i < |rows| => Entry(rows[i].scheduledDate, rows[i].amount))
  }

  lemma AppendEntryRowsKeepsIds(rows: seq<DcaEntryRow>, counter: int, planId: int, entries: seq<Entry>)
    requires IdsIssued(rows, DcaEntryId, counter)
    ensures IdsIssued(rows + EntryRows(counter + 1, planId, entries), DcaEntryId, counter + |entries|)
  {
    var r := rows + EntryRows(counter + 1, planId, entries);
    forall i | 0 <= i < |r| ensures 0 < DcaEntryId(r[i]) <= counter + |entries| {
      if i < |rows| { assert r[i] == rows[i]; }
    }
    forall i, j | 0 <= i < j < |r| ensures DcaEntryId(r[i]) < DcaEntryId(r[j]) {
      if j < |rows| { assert r[i] == rows[i] && r[j] == rows[j]; }
      else if i < |rows| { assert r[i] == rows[i]; }
    }
  }

  /** The insert loop of `createDcaPlan`, inside one transaction: one row per entry, with
      the next AUTOINCREMENT ids. */
  method InsertEntries(db: Db, planId: int, entries: seq<Entry>)
    requires IdsIssued(db.dcaEntries, DcaEntryId, db.dcaEntrySeq)
    modifies db`dcaEntries, db`dcaEntrySeq
    ensures IdsIssued(db.dcaEntries, DcaEntryId, db.dcaEntrySeq)
    ensures db.dcaEntries == old(db.dcaEntries) + EntryRows(old(db.dcaEntrySeq) + 1, planId, entries)
    ensures db.dcaEntrySeq == old(db.dcaEntrySeq) + |entries|
  {
    var rows := EntryRows(db.dcaEntrySeq + 1, planId, entries);
    AppendEntryRowsKeepsIds(db.dcaEntries, db.dcaEntrySeq, planId, entries);
    ghost var before := db.dcaEntries;
    ghost var counter := db.dcaEntrySeq;
    var k := 0;
    while k < |entries|
      invariant 0 <= k <= |entries|
      invariant db.dcaEntries == before + rows[..k] && db.dcaEntrySeq == counter + k
    {
      db.dcaEntries := db.dcaEntries + [DcaEntryRow(db.dcaEntrySeq + 1, planId, entries[k].date, entries[k].amount, 0, None, None)];
      db.dcaEntrySeq := db.dcaEntrySeq + 1;
      assert rows[..k + 1] == rows[..k] + [rows[k]];
      k := k + 1;
    }
    assert rows[..k] == rows;
  }

  /** `INSERT INTO dca_plans`: the plan row with the next id. */
  method InsertPlan(db: Db, form: DcaPlanForm) returns (planId: int)
    requires IdsIssued(db.dcaPlans, DcaPlanId, db.dcaPlanSeq)
    modifies db`dcaPlans, db`dcaPlanSeq
    ensures IdsIssued(db.dcaPlans, DcaPlanId, db.dcaPlanSeq)
    ensures planId == db.dcaPlanSeq == old(db.dcaPlanSeq) + 1
    ensures db.dcaPlans == old(db.dcaPlans) + [PlanRow(planId, form)]
  {
    AppendKeepsIssuedIds(db.dcaPlans, DcaPlanId, db.dcaPlanSeq, PlanRow(db.dcaPlanSeq + 1, form));
    db.dcaPlanSeq := db.dcaPlanSeq + 1;
    planId := db.dcaPlanSeq;
    db.dcaPlans := db.dcaPlans + [PlanRow(planId, form)];
  }

  /** The entry table went from `before` to `after` by appending the schedule of plan
      `planId`, with the ids after `counter`. */
  ghost predicate ScheduleStored(before: seq<DcaEntryRow>, counter: int, after: seq<DcaEntryRow>, afterCounter: int,
                                 planId: int, start: CalendarDate, end: DateText, frequency: Frequency, amount: real) {
    exists entries ::
      && IsSchedule(entries, start, end, frequency, amount)
      && after == before + EntryRows(counter + 1, planId, entries)
      && afterCounter == counter + |entries|
  }

  /** `generateEntries` and the insert loop after it: the plan's schedule, stored. */
  method InsertSchedule(db: Db, planId: int, start: CalendarDate, end: DateText, frequency: Frequency, amount: real)
    requires IdsIssued(db.dcaEntries, DcaEntryId, db.dcaEntrySeq)
    modifies db`dcaEntries, db`dcaEntrySeq
    ensures IdsIssued(db.dcaEntries, DcaEntryId, db.dcaEntrySeq)
    ensures ScheduleStored(old(db.dcaEntries), old(db.dcaEntrySeq), db.dcaEntries, db.dcaEntrySeq, planId, start, end, frequency, amount)
  {
    var entries := GenerateEntries(start, end, frequency, amount);
    InsertEntries(db, planId, entries);
  }

  /** The inserts of `createDcaPlan`, once the form has passed validation and the asset
      exists. The plan insert and the entry inserts are separate statements, so a start
      date `new Date` cannot read leaves the plan in place when `toISOString` throws. */
  method StorePlan(db: Db, form: DcaPlanForm) returns (r: ActionResult<int>)
    requires db.Valid() && !form.startDate.Blank?
    modifies db`dcaPlans, db`dcaPlanSeq, db`dcaEntries, db`dcaEntrySeq
    ensures db.Valid()
    ensures db.dcaPlanSeq == old(db.dcaPlanSeq) + 1
    ensures db.dcaPlans == old(db.dcaPlans) + [PlanRow(db.dcaPlanSeq, form)]
    ensures form.startDate.Unparseable? ==>
      r == Thrown("Invalid time value") && db.dcaEntries == old(db.dcaEntries) && db.dcaEntrySeq == old(db.dcaEntrySeq)
    ensures form.startDate.Iso? ==>
      && r == Success(db.dcaPlanSeq)
      && ScheduleStored(old(db.dcaEntries), old(db.dcaEntrySeq), db.dcaEntries, db.dcaEntrySeq, db.dcaPlanSeq,
                        form.startDate.date, form.endDate, form.frequency, form.amount)
  {
    var planId := InsertPlan(db, form);
    match form.startDate {
      case Unparseable =>
        return Thrown("Invalid time value");
      case Iso(start) =>
        InsertSchedule(db, planId, start, form.endDate, form.frequency, form.amount);
        return Success(planId);
    }
  }

  /** `createDcaPlan`: validate, then insert the plan and its schedule. */
  method CreateDcaPlan(db: Db, form: DcaPlanForm) returns (r: ActionResult<int>)
    requires db.Valid()
    modifies db`dcaPlans, db`dcaPlanSeq, db`dcaEntries, db`dcaEntrySeq
    ensures db.Valid()
    ensures PlanErrors(form) != {} ==> r == Invalid(PlanErrors(form)) && unchanged(db)
    ensures PlanErrors(form) == {} && AssetMissing(db.assets, form.assetId) ==>
      r == Thrown(ForeignKeyFailed) && unchanged(db)
    ensures PlanErrors(form) == {} && !AssetMissing(db.assets, form.assetId) ==>
      && db.dcaPlanSeq == old(db.dcaPlanSeq) + 1
      && db.dcaPlans == old(db.dcaPlans) + [PlanRow(db.dcaPlanSeq, form)]
    ensures PlanErrors(form) == {} && !AssetMissing(db.assets, form.assetId) && form.startDate.Unparseable? ==>
      r == Thrown("Invalid time value") && db.dcaEntries == old(db.dcaEntries) && db.dcaEntrySeq == old(db.dcaEntrySeq)
    ensures PlanErrors(form) == {} && !AssetMissing(db.assets, form.assetId) && form.startDate.Iso? ==>
      && r == Success(db.dcaPlanSeq)
      && ScheduleStored(old(db.dcaEntries), old(db.dcaEntrySeq), db.dcaEntries, db.dcaEntrySeq, db.dcaPlanSeq,
                        form.startDate.date, form.endDate, form.frequency, form.amount)
  {
    var errors := PlanErrors(form);
    if errors != {} {
      return Invalid(errors);
    }
    if AssetMissing(db.assets, form.assetId) {
      return Thrown(ForeignKeyFailed);
    }
    r := StorePlan(db, form);
  }

  /** `entry.completed === 1 ? 0 : 1` */
  function Flip(completed: int): (r: int)
    ensures r == 0 || r == 1
    ensures r == 1 <==> completed != 1
  {
    if completed == 1 then 0 else 1
  }

  /** Flipping twice gives the value back exactly when it was 0 or 1. */
  lemma FlipTwice(completed: int)
    ensures Flip(Flip(completed)) == completed <==> completed == 0 || completed == 1
  {
  }

  /** The `UPDATE`'s effect on a row, from the `completed` value the `SELECT` read, at `now`
      (milliseconds): the flipped flag, stamped only when it is now 1. */
  function Toggled(read: int, now: int): DcaEntryRow -> DcaEntryRow {
    (e: DcaEntryRow) =>
      e.(completed := Flip(read), completedAt := if Flip(read) == 1 then Some(now) else None)
  }

  /** `toggleDcaEntry` on the entries table. */
  function ToggleStep(entries: seq<DcaEntryRow>, id: int, now: int): (r: Result<seq<DcaEntryRow>, string>)
    ensures r.Err? <==> forall i :: 0 <= i < |entries| ==> entries[i].id != id
    ensures r.Err? ==> r.error == "Entry not found"
    ensures r.Ok? ==> |r.value| == |entries|
  {
    match FindRow(entries, DcaEntryId, id)
    case None => Err("Entry not found")
    case Some(entry) => Ok(UpdateRows(entries, DcaEntryId, id, Toggled(entry.completed, now)))
  }

  /** The toggled entry flips and is stamped exactly when it becomes 1; every other row,
      and every other field of that row, stays as it was. */
  lemma ToggleFlipsOneEntry(entries: seq<DcaEntryRow>, counter: int, k: int, now: int)
    requires IdsIssued(entries, DcaEntryId, counter) && 0 <= k < |entries|
    ensures ToggleStep(entries, entries[k].id, now).Ok?
    ensures var t := ToggleStep(entries, entries[k].id, now).value;
      && t[k] == entries[k].(completed := t[k].completed, completedAt := t[k].completedAt)
      && t[k].completed == Flip(entries[k].completed)
      && (t[k].completedAt.Some? <==> t[k].completed == 1)
      && (t[k].completedAt.Some? ==> t[k].completedAt.value == now)
      && forall i :: 0 <= i < |entries| && i != k ==> t[i] == entries[i]
  {
    FindRowUnique(entries, DcaEntryId, counter, k);
  }

  /** Toggling keeps every id, so the ids stay issued. */
  lemma ToggleKeepsIds(entries: seq<DcaEntryRow>, counter: int, id: int, now: int)
    requires IdsIssued(entries, DcaEntryId, counter) && ToggleStep(entries, id, now).Ok?
    ensures IdsIssued(ToggleStep(entries, id, now).value, DcaEntryId, counter)
  {
    var t := ToggleStep(entries, id, now).value;
    assert forall i :: 0 <= i < |t| ==> t[i].id == entries[i].id;
  }

  /** Toggling an entry twice restores its `completed` value when that was 0 or 1. */
  lemma ToggleTwiceRestores(entries: seq<DcaEntryRow>, counter: int, k: int, now1: int, now2: int)
    requires IdsIssued(entries, DcaEntryId, counter) && 0 <= k < |entries|
    requires entries[k].completed == 0 || entries[k].completed == 1
    ensures ToggleStep(entries, entries[k].id, now1).Ok?
    ensures var once := ToggleStep(entries, entries[k].id, now1).value;
      && ToggleStep(once, entries[k].id, now2).Ok?
      && ToggleStep(once, entries[k].id, now2).value[k].completed == entries[k].completed
  {
    ToggleFlipsOneEntry(entries, counter, k, now1);
    var once := ToggleStep(entries, entries[k].id, now1).value;
    ToggleKeepsIds(entries, counter, entries[k].id, now1);
    ToggleFlipsOneEntry(once, counter, k, now2);
  }

  /** `toggleDcaEntry`, at `now` (milliseconds, the `new Date()` of the call). */
  method ToggleDcaEntry(db: Db, id: int, now: int) returns (r: ActionResult<()>)
    requires db.Valid()
    modifies db`dcaEntries
    ensures db.Valid()
    ensures match ToggleStep(old(db.dcaEntries), id, now)
      case Err(e) => r == Refused(e) && db.dcaEntries == old(db.dcaEntries)
      case Ok(t) => r == Success(()) && db.dcaEntries == t
  {
    var step := ToggleStep(db.dcaEntries, id, now);
    match step {
      case Err(e) =>
        return Refused(e);
      case Ok(t) =>
        ToggleKeepsIds(db.dcaEntries, db.dcaEntrySeq, id, now);
        db.dcaEntries := t;
        return Success(());
    }
  }

  function OtherPlan(id: int): DcaPlanRow -> bool { (p: DcaPlanRow) => p.id != id }
  function OtherPlansEntry(id: int): DcaEntryRow -> bool { (e: DcaEntryRow) => e.planId != id }

  /** `deleteDcaPlan`: the plan goes, and `ON DELETE CASCADE` takes its entries with it. */
  function DeletePlanStep(plans: seq<DcaPlanRow>, entries: seq<DcaEntryRow>, id: int): (seq<DcaPlanRow>, seq<DcaEntryRow>) {
    (Filter(plans, OtherPlan(id)), Filter(entries, OtherPlansEntry(id)))
  }

  /** After the delete exactly the other plans and the other plans' entries remain. */
  lemma DeletePlanRemovesOnlyIt(plans: seq<DcaPlanRow>, entries: seq<DcaEntryRow>, id: int, p: DcaPlanRow, e: DcaEntryRow)
    ensures p in DeletePlanStep(plans, entries, id).0 <==> p in plans && p.id != id
    ensures e in DeletePlanStep(plans, entries, id).1 <==> e in entries && e.planId != id
  {
    FilterMembers(plans, OtherPlan(id), p);
    FilterMembers(entries, OtherPlansEntry(id), e);
  }

  method DeleteDcaPlan(db: Db, id: int) returns (r: ActionResult<()>)
    requires db.Valid()
    modifies db`dcaPlans, db`dcaEntries
    ensures db.Valid()
    ensures r == Success(()) && (db.dcaPlans, db.dcaEntries) == DeletePlanStep(old(db.dcaPlans), old(db.dcaEntries), id)
  {
    FilterKeepsIssuedIds(db.dcaPlans, DcaPlanId, OtherPlan(id), db.dcaPlanSeq);
    FilterKeepsIssuedIds(db.dcaEntries, DcaEntryId, OtherPlansEntry(id), db.dcaEntrySeq);
    db.dcaPlans, db.dcaEntries := Filter(db.dcaPlans, OtherPlan(id)), Filter(db.dcaEntries, OtherPlansEntry(id));
    return Success(());
  }
}

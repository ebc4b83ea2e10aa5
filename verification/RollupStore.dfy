/** The rollup tables and the jobs that overwrite them: upserts, the daily job and the backfill. */
module RollupStore {
  import opened Rollups
  import opened Attribution
  import opened RollupDays

  // ------------------------------------------------------------ upserts in general

  /** INSERT ... ON CONFLICT DO UPDATE of every row. */
  function Upsert<K, R>(table: map<K, R>, rows: map<K, R>): map<K, R> { table + rows }

  /** Every key of the rows carries this date. */
  predicate Dated<K, R>(rows: map<K, R>, dateOf: K -> int, day: int) {
    forall k :: k in rows ==> dateOf(k) == day
  }

  /** One upsert per listed day, in that order. */
  function Backfilled<K, R>(table: map<K, R>, days: seq<int>, rowsOf: int -> map<K, R>): map<K, R> {
    if days == [] then table else Upsert(Backfilled(table, days[..|days| - 1], rowsOf), rowsOf(days[|days| - 1]))
  }

  ghost predicate AllDated<K, R>(rowsOf: int -> map<K, R>, dateOf: K -> int) {
    forall day :: Dated(rowsOf(day), dateOf, day)
  }

  /** What a backfill leaves under a key: the key's own day's row if that day was run and has one, else the old row. */
  lemma {:induction false} BackfillAt<K, R>(
      table: map<K, R>, days: seq<int>, rowsOf: int -> map<K, R>, dateOf: K -> int, k: K)
    requires AllDated(rowsOf, dateOf)
    ensures var after := Backfilled(table, days, rowsOf);
            if dateOf(k) in days && k in rowsOf(dateOf(k)) then k in after && after[k] == rowsOf(dateOf(k))[k]
            else (k in after <==> k in table) && (k in table ==> after[k] == table[k])
  {
    if days != [] {
      var n := |days| - 1;
      BackfillAt(table, days[..n], rowsOf, dateOf, k);
      assert Dated(rowsOf(days[n]), dateOf, days[n]);
      assert days == days[..n] + [days[n]];
    }
  }

  /** A backfill depends only on which days it ran: any order and any repetition leave the same table. */
  lemma BackfillOrderIrrelevant<K(!new), R>(
      table: map<K, R>, days: seq<int>, again: seq<int>, rowsOf: int -> map<K, R>, dateOf: K -> int)
    requires AllDated(rowsOf, dateOf)
    requires forall d :: d in days <==> d in again
    ensures Backfilled(table, days, rowsOf) == Backfilled(table, again, rowsOf)
  {
    var x, y := Backfilled(table, days, rowsOf), Backfilled(table, again, rowsOf);
    forall k | k in x || k in y ensures k in x && k in y && x[k] == y[k] {
      BackfillAt(table, days, rowsOf, dateOf, k);
      BackfillAt(table, again, rowsOf, dateOf, k);
      var d := dateOf(k);
      assert d in days <==> d in again;
    }
  }

  /** Running a day again changes nothing, whatever was run before. */
  lemma BackfillIdempotent<K(!new), R>(table: map<K, R>, days: seq<int>, day: int, rowsOf: int -> map<K, R>, dateOf: K -> int)
    requires AllDated(rowsOf, dateOf) && day in days
    ensures Upsert(Backfilled(table, days, rowsOf), rowsOf(day)) == Backfilled(table, days, rowsOf)
  {
    BackfillOrderIrrelevant(table, days, days + [day], rowsOf, dateOf);
    assert (days + [day])[..|days|] == days;
  }

  /** The rows a table holds for a day. */
  function Section<K, R>(table: map<K, R>, dateOf: K -> int, day: int): map<K, R> {
    map k | k in table && dateOf(k) == day :: table[k]
  }

  /** After a run the day's rows are exactly the freshly computed ones if and only if every key the table already had
      for the day is computed again: rows whose source has gone stay behind. */
  lemma FreshIffNoStaleKeys<K, R>(table: map<K, R>, rows: map<K, R>, dateOf: K -> int, day: int)
    requires Dated(rows, dateOf, day)
    ensures Section(Upsert(table, rows), dateOf, day) == rows <==> Section(table, dateOf, day).Keys <= rows.Keys
  {
  }

  // ------------------------------------------------------------ the four upserts

  function DateOfKey(): CampaignKey -> int { (k: CampaignKey) => k.1 }
  function DateOfHour(): HourKey -> int { (k: HourKey) => k.0 }
  function DateOfDay(): int -> int { (day: int) => day }

  function GlobalRows(t: Tables): int -> map<int, GlobalRow> { (day: int) => GlobalRowsOn(t, day) }
  function HourlyRows(t: Tables): int -> map<HourKey, HourlyRow> { (day: int) => HourlyRowsOn(t, day) }
  function TemplateRows(t: Tables): int -> map<CampaignKey, TemplateRow> { (day: int) => TemplateRowsOn(t, day) }

  lemma RowsAreDated(t: Tables)
    ensures AllDated(GlobalRows(t), DateOfDay()) && AllDated(HourlyRows(t), DateOfHour())
    ensures AllDated(TemplateRows(t), DateOfKey())
    ensures forall day, touch :: Dated(CampaignRows(t, day, touch), DateOfKey(), day)
  {
  }

  /** With no tied touches the campaign rows are a function of the source tables, so the backfill laws apply. */
  lemma CampaignRowsDetermined(t: Tables, day: int, window: nat, x: Touches, y: Touches)
    requires NoTies(t, day)
    requires IsLastTouch(t.recipients, day, window, x) && IsLastTouch(t.recipients, day, window, y)
    ensures CampaignRows(t, day, x) == CampaignRows(t, day, y)
  {
    forall c | c in ActiveCampaigns(t, day) ensures Revenue(t, day, x, c) == Revenue(t, day, y, c) {
      SameRevenue(t, day, window, x, y, c);
    }
  }

  /** The day's campaign rows under some valid choice of last touches. */
  ghost predicate ChosenRows(t: Tables, day: int, rows: map<CampaignKey, CampaignRow>) {
    exists touch :: IsLastTouch(t.recipients, day, ATTRIBUTION_WINDOW_DAYS, touch) && rows == CampaignRows(t, day, touch)
  }

  /** Upserts of row sets one after the other. */
  function Replay<K, R>(table: map<K, R>, runs: seq<map<K, R>>): map<K, R> {
    if runs == [] then table else Upsert(Replay(table, runs[..|runs| - 1]), runs[|runs| - 1])
  }

  /** Every run's rows are acceptable for its day. */
  predicate RunsFit<R>(ok: (int, R) -> bool, start: int, runs: seq<R>) {
    forall i :: 0 <= i < |runs| ==> ok(start + i, runs[i])
  }

  /** A table is another one after count daily runs, each with acceptable rows. */
  ghost predicate RunFrom<K(!new), R(!new)>(ok: (int, map<K, R>) -> bool, before: map<K, R>, after: map<K, R>, start: int, count: nat) {
    exists runs :: |runs| == count && RunsFit(ok, start, runs) && after == Replay(before, runs)
  }

  lemma RunExtends<K(!new), R(!new)>(ok: (int, map<K, R>) -> bool, before: map<K, R>, middle: map<K, R>, rows: map<K, R>,
                         start: int, count: nat)
    requires RunFrom(ok, before, middle, start, count) && ok(start + count, rows)
    ensures RunFrom(ok, before, Upsert(middle, rows), start, count + 1)
  {
    var runs :| |runs| == count && RunsFit(ok, start, runs) && middle == Replay(before, runs);
    assert (runs + [rows])[..|runs|] == runs;
    assert RunsFit(ok, start, runs + [rows]);
  }

  lemma NoRun<K(!new), R(!new)>(ok: (int, map<K, R>) -> bool, table: map<K, R>, start: int)
    ensures RunFrom(ok, table, table, start, 0)
  {
  }

  /** The choices the database may make for the campaign table. */
  ghost function AnyChoice(t: Tables): (int, map<CampaignKey, CampaignRow>) -> bool {
    (day: int, rows: map<CampaignKey, CampaignRow>) => ChosenRows(t, day, rows)
  }

  /** One upsert per day, for count days from start on. */
  function Ranged<K, R>(table: map<K, R>, start: int, count: nat, rowsOf: int -> map<K, R>): map<K, R> {
    if count == 0 then table else Upsert(Ranged(table, start, count - 1, rowsOf), rowsOf(start + count - 1))
  }

  function Days(start: int, count: nat): seq<int> {
    if count == 0 then [] else Days(start, count - 1) + [start + count - 1]
  }

  /** A range is a backfill of its list of days. */
  lemma {:induction false} RangedIsBackfilled<K, R>(table: map<K, R>, start: int, count: nat, rowsOf: int -> map<K, R>)
    ensures Ranged(table, start, count, rowsOf) == Backfilled(table, Days(start, count), rowsOf)
  {
    if count > 0 {
      RangedIsBackfilled(table, start, count - 1, rowsOf);
      var earlier := Days(start, count - 1);
      assert (earlier + [start + count - 1])[..|earlier|] == earlier;
    }
  }

  lemma {:induction false} ReplayIsRanged<K, R>(table: map<K, R>, start: int, runs: seq<map<K, R>>, rowsOf: int -> map<K, R>)
    requires forall i :: 0 <= i < |runs| ==> runs[i] == rowsOf(start + i)
    ensures Replay(table, runs) == Ranged(table, start, |runs|, rowsOf)
  {
    if runs != [] {
      ReplayIsRanged(table, start, runs[..|runs| - 1], rowsOf);
    }
  }

  /** One fixed choice of campaign rows per day. */
  function CampaignRowsOn(t: Tables): int -> map<CampaignKey, CampaignRow> {
    (day: int) => CampaignRows(t, day, Latest(t.recipients, day, ATTRIBUTION_WINDOW_DAYS))
  }

  lemma ChoiceIsFixed(t: Tables, day: int, rows: map<CampaignKey, CampaignRow>)
    requires NoTies(t, day) && ChosenRows(t, day, rows)
    ensures rows == CampaignRowsOn(t)(day)
  {
    var touch :| IsLastTouch(t.recipients, day, ATTRIBUTION_WINDOW_DAYS, touch) && rows == CampaignRows(t, day, touch);
    LatestIsLastTouch(t.recipients, day, ATTRIBUTION_WINDOW_DAYS);
    CampaignRowsDetermined(t, day, ATTRIBUTION_WINDOW_DAYS, touch, Latest(t.recipients, day, ATTRIBUTION_WINDOW_DAYS));
  }

  /** Without ties a backfill of the campaign table depends on no choice, so the general laws apply to it as well. */
  lemma CampaignRunDetermined(before: map<CampaignKey, CampaignRow>, after: map<CampaignKey, CampaignRow>,
                              t: Tables, start: int, count: nat)
    requires RunFrom(AnyChoice(t), before, after, start, count)
    requires forall d :: start <= d < start + count ==> NoTies(t, d)
    ensures after == Ranged(before, start, count, CampaignRowsOn(t))
  {
    var runs :| |runs| == count && RunsFit(AnyChoice(t), start, runs) && after == Replay(before, runs);
    forall i | 0 <= i < |runs| ensures runs[i] == CampaignRowsOn(t)(start + i) {
      ChoiceIsFixed(t, start + i, runs[i]);
    }
    ReplayIsRanged(before, start, runs, CampaignRowsOn(t));
  }

  /** Rows of dates outside the range survive, ties or not. */
  lemma {:induction false} OtherDatesKept(
      table: map<CampaignKey, CampaignRow>, t: Tables, start: int, runs: seq<map<CampaignKey, CampaignRow>>, k: CampaignKey)
    requires RunsFit(AnyChoice(t), start, runs) && !(start <= k.1 < start + |runs|)
    ensures var after := Replay(table, runs);
            (k in after <==> k in table) && (k in table ==> after[k] == table[k])
  {
    if runs != [] {
      var n := |runs| - 1;
      OtherDatesKept(table, t, start, runs[..n], k);
      assert AnyChoice(t)(start + n, runs[n]);
    }
  }

  /** A run's row for one of its days stays, since no other day writes under that date. */
  lemma {:induction false} ReplayAt<K, R>(table: map<K, R>, start: int, runs: seq<map<K, R>>, dateOf: K -> int, k: K)
    requires forall i :: 0 <= i < |runs| ==> Dated(runs[i], dateOf, start + i)
    requires start <= dateOf(k) < start + |runs| && k in runs[dateOf(k) - start]
    ensures var after := Replay(table, runs); k in after && after[k] == runs[dateOf(k) - start][k]
    decreases |runs|
  {
    var n := |runs| - 1;
    if dateOf(k) < start + n {
      ReplayAt(table, start, runs[..n], dateOf, k);
      assert Dated(runs[n], dateOf, start + n);
    }
  }

  lemma {:induction false} DaysListed(start: int, count: nat, d: int)
    ensures d in Days(start, count) <==> start <= d < start + count
  {
    if count > 0 { DaysListed(start, count - 1, d); }
  }

  /** A range leaves under each key of its days that day's own row. */
  lemma RangedAt<K, R>(table: map<K, R>, start: int, count: nat, rowsOf: int -> map<K, R>, dateOf: K -> int, k: K)
    requires AllDated(rowsOf, dateOf) && start <= dateOf(k) < start + count && k in rowsOf(dateOf(k))
    ensures var after := Ranged(table, start, count, rowsOf); k in after && after[k] == rowsOf(dateOf(k))[k]
  {
    RangedIsBackfilled(table, start, count, rowsOf);
    DaysListed(start, count, dateOf(k));
    BackfillAt(table, Days(start, count), rowsOf, dateOf, k);
  }

  // ------------------------------------------------------------ the tables

  /** The four rollup tables by value. */
  datatype Contents = Contents(
    daily: map<int, GlobalRow>,
    campaigns: map<CampaignKey, CampaignRow>,
    templates: map<CampaignKey, TemplateRow>,
    hourly: map<HourKey, HourlyRow>)

  /** What the four upserts insert on a day; the campaign rows only up to the choice of last touches. */
  datatype Source = Source(
    daily: int -> map<int, GlobalRow>,
    campaigns: (int, map<CampaignKey, CampaignRow>) -> bool,
    templates: int -> map<CampaignKey, TemplateRow>,
    hourly: int -> map<HourKey, HourlyRow>)

  ghost function SourceOf(t: Tables): Source { Source(GlobalRows(t), AnyChoice(t), TemplateRows(t), HourlyRows(t)) }

  /** One run of a day: each table gets that day's rows. */
  ghost predicate DayRun(before: Contents, after: Contents, src: Source, day: int) {
    exists rows :: src.campaigns(day, rows) && after == Contents(
      Upsert(before.daily, src.daily(day)),
      Upsert(before.campaigns, rows),
      Upsert(before.templates, src.templates(day)),
      Upsert(before.hourly, src.hourly(day)))
  }

  /** One run per day, for count days from start on. */
  ghost predicate RangeRun(before: Contents, after: Contents, src: Source, start: int, count: nat) {
    exists campaigns :: RunFrom(src.campaigns, before.campaigns, campaigns, start, count) && after == Contents(
      Ranged(before.daily, start, count, src.daily),
      campaigns,
      Ranged(before.templates, start, count, src.templates),
      Ranged(before.hourly, start, count, src.hourly))
  }

  lemma DayIsRun(before: Contents, t: Tables, day: int, rows: map<CampaignKey, CampaignRow>)
    requires ChosenRows(t, day, rows)
    ensures DayRun(
              before,
              Contents(Upsert(before.daily, GlobalRowsOn(t, day)), Upsert(before.campaigns, rows),
                       Upsert(before.templates, TemplateRowsOn(t, day)), Upsert(before.hourly, HourlyRowsOn(t, day))),
              SourceOf(t), day)
  {
  }

  lemma EmptyRange(before: Contents, src: Source, start: int)
    ensures RangeRun(before, before, src, start, 0)
  {
    NoRun(src.campaigns, before.campaigns, start);
  }

  lemma RangeExtends(before: Contents, middle: Contents, after: Contents, src: Source, start: int, count: nat)
    requires RangeRun(before, middle, src, start, count) && DayRun(middle, after, src, start + count)
    ensures RangeRun(before, after, src, start, count + 1)
  {
    var rows :| src.campaigns(start + count, rows) && after == Contents(
      Upsert(middle.daily, src.daily(start + count)),
      Upsert(middle.campaigns, rows),
      Upsert(middle.templates, src.templates(start + count)),
      Upsert(middle.hourly, src.hourly(start + count)));
    RunExtends(src.campaigns, before.campaigns, middle.campaigns, rows, start, count);
  }

  /** All four tables hold the day's rows, column by column, under some valid choice of last touches. */
  ghost predicate DayHolds(t: Tables, day: int, c: Contents) {
    && GlobalHolds(t, day, c.daily) && HoursHold(t, day, c.hourly) && TemplatesHold(t, day, c.templates)
    && exists touch :: IsLastTouch(t.recipients, day, ATTRIBUTION_WINDOW_DAYS, touch) && CampaignsHold(t, day, touch, c.campaigns)
  }

  /** After the daily job the tables hold the day's rows. */
  lemma DayRunHolds(before: Contents, after: Contents, t: Tables, day: int)
    requires DayRun(before, after, SourceOf(t), day)
    ensures DayHolds(t, day, after)
  {
    var src := SourceOf(t);
    var rows :| src.campaigns(day, rows) && after == Contents(
      Upsert(before.daily, src.daily(day)),
      Upsert(before.campaigns, rows),
      Upsert(before.templates, src.templates(day)),
      Upsert(before.hourly, src.hourly(day)));
    UpsertedHolds(before, after, t, day, rows);
  }

  lemma UpsertedHolds(before: Contents, after: Contents, t: Tables, day: int, rows: map<CampaignKey, CampaignRow>)
    requires ChosenRows(t, day, rows) && after.campaigns == Upsert(before.campaigns, rows)
    requires after.daily == Upsert(before.daily, GlobalRowsOn(t, day))
    requires after.templates == Upsert(before.templates, TemplateRowsOn(t, day))
    requires after.hourly == Upsert(before.hourly, HourlyRowsOn(t, day))
    ensures DayHolds(t, day, after)
  {
    GlobalStored(t, day, after.daily);
    HoursStored(t, day, after.hourly);
    TemplatesStored(t, day, after.templates);
    var touch := ChosenTouches(t, day, rows);
    CampaignsStored(t, day, touch, after.campaigns);
  }

  lemma ChosenTouches(t: Tables, day: int, rows: map<CampaignKey, CampaignRow>) returns (touch: Touches)
    requires ChosenRows(t, day, rows)
    ensures IsLastTouch(t.recipients, day, ATTRIBUTION_WINDOW_DAYS, touch) && rows == CampaignRows(t, day, touch)
  {
    touch :| IsLastTouch(t.recipients, day, ATTRIBUTION_WINDOW_DAYS, touch) && rows == CampaignRows(t, day, touch);
  }

  lemma RunAt(before: map<CampaignKey, CampaignRow>, after: map<CampaignKey, CampaignRow>, t: Tables,
              start: int, count: nat, day: int) returns (rows: map<CampaignKey, CampaignRow>)
    requires RunFrom(AnyChoice(t), before, after, start, count) && start <= day < start + count
    ensures ChosenRows(t, day, rows) && Extends(rows, after)
  {
    var runs := RunsOf(AnyChoice(t), before, after, start, count, day - start);
    rows := runs[day - start];
    RunStays(before, t, start, runs, day - start);
  }

  lemma RunsOf<K(!new), R(!new)>(ok: (int, map<K, R>) -> bool, before: map<K, R>, after: map<K, R>, start: int, count: nat, i: nat)
    returns (runs: seq<map<K, R>>)
    requires RunFrom(ok, before, after, start, count) && i < count
    ensures |runs| == count && RunsFit(ok, start, runs) && after == Replay(before, runs) && ok(start + i, runs[i])
  {
    runs :| |runs| == count && RunsFit(ok, start, runs) && after == Replay(before, runs);
  }

  lemma RunStays(before: map<CampaignKey, CampaignRow>, t: Tables, start: int, runs: seq<map<CampaignKey, CampaignRow>>, i: nat)
    requires RunsFit(AnyChoice(t), start, runs) && i < |runs|
    ensures Extends(runs[i], Replay(before, runs))
  {
    forall n | 0 <= n < |runs| ensures Dated(runs[n], DateOfKey(), start + n) {
      ChosenAreDated(t, start + n, runs[n]);
    }
    forall k | k in runs[i] ensures k in Replay(before, runs) && Replay(before, runs)[k] == runs[i][k] {
      assert Dated(runs[i], DateOfKey(), start + i);
      ReplayAt(before, start, runs, DateOfKey(), k);
    }
  }

  lemma ChosenAreDated(t: Tables, day: int, rows: map<CampaignKey, CampaignRow>)
    requires AnyChoice(t)(day, rows)
    ensures Dated(rows, DateOfKey(), day)
  {
  }

  lemma RangeHasDay<K, R>(table: map<K, R>, start: int, count: nat, rowsOf: int -> map<K, R>, dateOf: K -> int, day: int)
    requires AllDated(rowsOf, dateOf) && start <= day < start + count
    ensures Extends(rowsOf(day), Ranged(table, start, count, rowsOf))
  {
    forall k | k in rowsOf(day)
      ensures k in Ranged(table, start, count, rowsOf) && Ranged(table, start, count, rowsOf)[k] == rowsOf(day)[k]
    {
      assert Dated(rowsOf(day), dateOf, day);
      RangedAt(table, start, count, rowsOf, dateOf, k);
    }
  }

  /** After a backfill the tables hold the rows of every day of the range. */
  lemma RangeRunHolds(before: Contents, after: Contents, t: Tables, start: int, count: nat, day: int)
    requires RangeRun(before, after, SourceOf(t), start, count) && start <= day < start + count
    ensures DayHolds(t, day, after)
  {
    RowsAreDated(t);
    RangeHasDay(before.daily, start, count, GlobalRows(t), DateOfDay(), day);
    RangeHasDay(before.hourly, start, count, HourlyRows(t), DateOfHour(), day);
    RangeHasDay(before.templates, start, count, TemplateRows(t), DateOfKey(), day);
    GlobalStored(t, day, after.daily);
    HoursStored(t, day, after.hourly);
    TemplatesStored(t, day, after.templates);
    var rows := RunAt(before.campaigns, after.campaigns, t, start, count, day);
    var touch := ChosenTouches(t, day, rows);
    CampaignsStored(t, day, touch, after.campaigns);
  }

  class RollupTables {
    var daily: map<int, GlobalRow>
    var campaigns: map<CampaignKey, CampaignRow>
    var templates: map<CampaignKey, TemplateRow>
    var hourly: map<HourKey, HourlyRow>

    function Rows(): Contents
      reads this
    {
      Contents(daily, campaigns, templates, hourly)
    }

    constructor ()
      ensures Rows() == Contents(map[], map[], map[], map[])
    {
      daily, campaigns, templates, hourly := map[], map[], map[], map[];
    }

    method UpsertGlobalDaily(t: Tables, day: int)
      modifies this`daily
      ensures Rows() == old(Rows()).(daily := Upsert(old(daily), GlobalRowsOn(t, day)))
      ensures GlobalHolds(t, day, daily)
    {
      daily := daily + GlobalRowsOn(t, day);
      GlobalStored(t, day, daily);
    }

    method UpsertCampaignDaily(t: Tables, day: int) returns (touched: nat)
      modifies this`campaigns
      ensures exists rows :: ChosenRows(t, day, rows) && Rows() == old(Rows()).(campaigns := Upsert(old(campaigns), rows))
      ensures touched == |ActiveCampaigns(t, day)|
      ensures exists touch ::
                IsLastTouch(t.recipients, day, ATTRIBUTION_WINDOW_DAYS, touch) && CampaignsHold(t, day, touch, campaigns)
    {
      var touch := PickLastTouch(t.recipients, day, ATTRIBUTION_WINDOW_DAYS);
      var rows := CampaignRows(t, day, touch);
      assert ChosenRows(t, day, rows);
      campaigns := campaigns + rows;
      CampaignsStored(t, day, touch, campaigns);
      touched := |ActiveCampaigns(t, day)|;
    }

    method UpsertTemplateDaily(t: Tables, day: int) returns (touched: nat)
      modifies this`templates
      ensures Rows() == old(Rows()).(templates := Upsert(old(templates), TemplateRowsOn(t, day)))
      ensures touched == |TemplateRowsOn(t, day)| && TemplatesHold(t, day, templates)
    {
      var rows := TemplateRowsOn(t, day);
      templates := templates + rows;
      TemplatesStored(t, day, templates);
      touched := |rows|;
    }

    method UpsertHourlyMetrics(t: Tables, day: int) returns (touched: nat)
      modifies this`hourly
      ensures Rows() == old(Rows()).(hourly := Upsert(old(hourly), HourlyRowsOn(t, day)))
      ensures touched == |HourlyRowsOn(t, day)| && HoursHold(t, day, hourly)
    {
      var rows := HourlyRowsOn(t, day);
      hourly := hourly + rows;
      HoursStored(t, day, hourly);
      touched := |rows|;
    }

    /** The nightly job: the four upserts of one day in one transaction. */
    method AggregateDay(t: Tables, day: int)
      modifies this
      ensures DayRun(old(Rows()), Rows(), SourceOf(t), day)
    {
      ghost var before := Rows();
      UpsertGlobalDaily(t, day);
      ghost var middle := Rows();
      var campaignRows := UpsertCampaignDaily(t, day);
      ghost var rows :| ChosenRows(t, day, rows) && Rows() == middle.(campaigns := Upsert(before.campaigns, rows));
      var templateRows := UpsertTemplateDaily(t, day);
      var hourRows := UpsertHourlyMetrics(t, day);
      DayIsRun(before, t, day, rows);
    }

    /** One more day of a range. */
    method AggregateNext(t: Tables, start: int, count: nat, ghost before: Contents)
      requires RangeRun(before, Rows(), SourceOf(t), start, count)
      modifies this
      ensures RangeRun(before, Rows(), SourceOf(t), start, count + 1)
    {
      ghost var middle := Rows();
      AggregateDay(t, start + count);
      RangeExtends(before, middle, Rows(), SourceOf(t), start, count);
    }

    /** Re-aggregates every day from start to end inclusive; an empty range is an error and changes nothing. */
    method Backfill(t: Tables, start: int, end: int) returns (ok: bool, processed: nat)
      modifies this
      ensures ok <==> start <= end
      ensures processed == if ok then end - start + 1 else 0
      ensures if ok then RangeRun(old(Rows()), Rows(), SourceOf(t), start, processed) else Rows() == old(Rows())
      ensures forall day :: start <= day <= end ==> DayHolds(t, day, Rows())
    {
      processed := 0;
      if end < start { return false, 0; }
      ok := true;
      ghost var before := Rows();
      EmptyRange(before, SourceOf(t), start);
      while start + processed <= end
        invariant start + processed <= end + 1
        invariant RangeRun(before, Rows(), SourceOf(t), start, processed)
      {
        AggregateNext(t, start, processed, before);
        processed := processed + 1;
      }
      forall day | start <= day <= end ensures DayHolds(t, day, Rows()) {
        RangeRunHolds(before, Rows(), t, start, processed, day);
      }
    }
  }

  /** With no tied touches two backfills of the same range from the same tables end the same. */
  lemma BackfillsAgree(before: Contents, x: Contents, y: Contents, t: Tables, start: int, count: nat)
    requires RangeRun(before, x, SourceOf(t), start, count) && RangeRun(before, y, SourceOf(t), start, count)
    requires forall d :: start <= d < start + count ==> NoTies(t, d)
    ensures x == y
  {
    CampaignRunDetermined(before.campaigns, x.campaigns, t, start, count);
    CampaignRunDetermined(before.campaigns, y.campaigns, t, start, count);
  }

  /** A second backfill of the same days leaves every table as the first left it. */
  lemma SecondBackfillChangesNothing(before: Contents, x: Contents, y: Contents, t: Tables, start: int, count: nat)
    requires RangeRun(before, x, SourceOf(t), start, count) && RangeRun(x, y, SourceOf(t), start, count)
    requires forall d :: start <= d < start + count ==> NoTies(t, d)
    ensures x == y
  {
    CampaignRunDetermined(before.campaigns, x.campaigns, t, start, count);
    CampaignRunDetermined(x.campaigns, y.campaigns, t, start, count);
    RowsAreDated(t);
    CampaignRowsOnDated(t);
    TwiceIsOnce(before.daily, start, count, GlobalRows(t), DateOfDay());
    TwiceIsOnce(before.campaigns, start, count, CampaignRowsOn(t), DateOfKey());
    TwiceIsOnce(before.templates, start, count, TemplateRows(t), DateOfKey());
    TwiceIsOnce(before.hourly, start, count, HourlyRows(t), DateOfHour());
  }

  lemma CampaignRowsOnDated(t: Tables)
    ensures AllDated(CampaignRowsOn(t), DateOfKey())
  {
  }

  lemma TwiceIsOnce<K(!new), R>(table: map<K, R>, start: int, count: nat, rowsOf: int -> map<K, R>, dateOf: K -> int)
    requires AllDated(rowsOf, dateOf)
    ensures Ranged(Ranged(table, start, count, rowsOf), start, count, rowsOf) == Ranged(table, start, count, rowsOf)
  {
    var days := Days(start, count);
    RangedIsBackfilled(table, start, count, rowsOf);
    RangedIsBackfilled(Backfilled(table, days, rowsOf), start, count, rowsOf);
    BackfillAppend(table, days, days, rowsOf);
    BackfillOrderIrrelevant(table, days + days, days, rowsOf, dateOf);
  }

  lemma {:induction false} BackfillAppend<K, R>(table: map<K, R>, first: seq<int>, second: seq<int>, rowsOf: int -> map<K, R>)
    ensures Backfilled(Backfilled(table, first, rowsOf), second, rowsOf) == Backfilled(table, first + second, rowsOf)
  {
    if second == [] {
      assert first + second == first;
    } else {
      var n := |second| - 1;
      BackfillAppend(table, first, second[..n], rowsOf);
      assert (first + second)[..|first + second| - 1] == first + second[..n];
    }
  }
}

/** The demo ledger's closing check: trial balance and balance sheet over posted journal lines. */
module Ledger {
  import opened Grouping
  import opened Wrappers

  datatype EntryStatus = Draft | Posted | Reversed

  datatype AccountType = Asset | Liability | Equity | Revenue | Cogs | Opex

  /** A journal line: base-currency debit and credit, in units of 10^-4. */
  datatype Line = Line(entry: nat, account: nat, dr: int, cr: int)

  datatype Entry = Entry(status: EntryStatus, sourceType: string, sourceId: Option<nat>)

  datatype Book = Book(lines: seq<Line>, entries: map<nat, Entry>, accounts: map<nat, AccountType>)

  /** The tables' foreign keys: every line names an existing entry and account. */
  predicate ForeignKeys(b: Book) {
    forall i :: 0 <= i < |b.lines| ==> b.lines[i].entry in b.entries && b.lines[i].account in b.accounts
  }

  function DebitLessCredit(): Line -> int { (l: Line) => l.dr - l.cr }
  function EntryOf(): Line -> nat { (l: Line) => l.entry }
  function Any(): Line -> bool { (l: Line) => true }

  function IsPosted(b: Book): Line -> bool {
    (l: Line) => l.entry in b.entries && b.entries[l.entry].status.Posted?
  }

  /** The account's type, reading the inner join's missing account as an arbitrary one. */
  function TypeOf(b: Book): Line -> AccountType {
    (l: Line) => if l.account in b.accounts then b.accounts[l.account] else Asset
  }

  /** Rows of the balance-sheet query: posted lines whose account exists. */
  function IsReported(b: Book): Line -> bool {
    (l: Line) => IsPosted(b)(l) && l.account in b.accounts
  }

  function EntryNet(b: Book, e: nat): int {
    GroupSum(b.lines, EntryOf(), e, Any(), DebitLessCredit())
  }

  function TrialBalance(b: Book): int {
    SumIf(b.lines, IsPosted(b), DebitLessCredit())
  }

  function Net(b: Book, t: AccountType): int {
    GroupSum(b.lines, TypeOf(b), t, IsReported(b), DebitLessCredit())
  }

  function Earnings(b: Book): int {
    -Net(b, Revenue) - Net(b, Cogs) - Net(b, Opex)
  }

  function LiabilitiesAndEquity(b: Book): int {
    -Net(b, Liability) - Net(b, Equity) + Earnings(b)
  }

  function EntryIds(b: Book): set<nat> {
    set l | l in b.lines :: l.entry
  }

  function UnbalancedEntries(b: Book): set<nat> {
    set e | e in EntryIds(b) && EntryNet(b, e) != 0
  }

  // ------------------------------------------------------------ the identities

  function PostedIds(b: Book): set<nat> {
    set e | e in EntryIds(b) && e in b.entries && b.entries[e].status.Posted?
  }

  /** Balanced posted entries make a zero trial balance. */
  lemma BalancedEntriesMakeZeroTrialBalance(b: Book)
    requires forall e :: e in PostedIds(b) ==> EntryNet(b, e) == 0
    ensures TrialBalance(b) == 0
  {
    var ks := Listing(PostedIds(b));
    forall i | 0 <= i < |b.lines| && IsPosted(b)(b.lines[i]) ensures EntryOf()(b.lines[i]) in ks {
      assert b.lines[i] in b.lines;
    }
    GroupsCoverAll(b.lines, EntryOf(), ks, IsPosted(b), DebitLessCredit());
    PostedGroups(b, ks);
  }

  lemma {:induction false} PostedGroups(b: Book, ks: seq<nat>)
    requires forall e :: e in ks ==> e in b.entries && b.entries[e].status.Posted? && EntryNet(b, e) == 0
    ensures GroupSums(b.lines, EntryOf(), ks, IsPosted(b), DebitLessCredit()) == 0
  {
    if ks != [] {
      assert ks[0] in ks;
      PostedGroup(b, b.lines, ks[0]);
      assert forall e :: e in ks[1..] ==> e in ks;
      PostedGroups(b, ks[1..]);
    }
  }

  /** Within one posted entry the status filter keeps every line. */
  lemma {:induction false} PostedGroup(b: Book, lines: seq<Line>, e: nat)
    requires e in b.entries && b.entries[e].status.Posted?
    ensures GroupSum(lines, EntryOf(), e, IsPosted(b), DebitLessCredit())
         == GroupSum(lines, EntryOf(), e, Any(), DebitLessCredit())
  {
    if lines != [] { PostedGroup(b, lines[1..], e); }
  }

  /** The sheet is out by exactly the trial balance, for any lines over the six account types. */
  lemma BalanceSheetGap(b: Book)
    requires ForeignKeys(b)
    ensures Net(b, Asset) - LiabilitiesAndEquity(b) == TrialBalance(b)
  {
    var ks := [Asset, Liability, Equity, Revenue, Cogs, Opex];
    forall i | 0 <= i < |b.lines| ensures TypeOf(b)(b.lines[i]) in ks {
      match TypeOf(b)(b.lines[i])
      case Asset => assert ks[0] == Asset;
      case Liability => assert ks[1] == Liability;
      case Equity => assert ks[2] == Equity;
      case Revenue => assert ks[3] == Revenue;
      case Cogs => assert ks[4] == Cogs;
      case Opex => assert ks[5] == Opex;
    }
    GroupsCoverAll(b.lines, TypeOf(b), ks, IsReported(b), DebitLessCredit());
    SumAgree(b.lines, IsReported(b), DebitLessCredit(), IsPosted(b), DebitLessCredit());
    SixGroups(b);
  }

  lemma SixGroups(b: Book)
    ensures GroupSums(b.lines, TypeOf(b), [Asset, Liability, Equity, Revenue, Cogs, Opex], IsReported(b), DebitLessCredit())
         == Net(b, Asset) + Net(b, Liability) + Net(b, Equity) + Net(b, Revenue) + Net(b, Cogs) + Net(b, Opex)
  {
    var k, r, v := TypeOf(b), IsReported(b), DebitLessCredit();
    GroupSumsCons(b.lines, k, Opex, [], r, v);
    GroupSumsCons(b.lines, k, Cogs, [Opex], r, v);
    GroupSumsCons(b.lines, k, Revenue, [Cogs, Opex], r, v);
    GroupSumsCons(b.lines, k, Equity, [Revenue, Cogs, Opex], r, v);
    GroupSumsCons(b.lines, k, Liability, [Equity, Revenue, Cogs, Opex], r, v);
    GroupSumsCons(b.lines, k, Asset, [Liability, Equity, Revenue, Cogs, Opex], r, v);
    assert [Asset] + [Liability, Equity, Revenue, Cogs, Opex] == [Asset, Liability, Equity, Revenue, Cogs, Opex];
    assert [Liability] + [Equity, Revenue, Cogs, Opex] == [Liability, Equity, Revenue, Cogs, Opex];
    assert [Equity] + [Revenue, Cogs, Opex] == [Equity, Revenue, Cogs, Opex];
    assert [Revenue] + [Cogs, Opex] == [Revenue, Cogs, Opex];
    assert [Cogs] + [Opex] == [Cogs, Opex];
    assert [Opex] + [] == [Opex];
  }

  /** Assets equal liabilities plus equity plus derived earnings, with no closing entry. */
  lemma AccountingIdentity(b: Book)
    requires ForeignKeys(b)
    requires forall e :: e in PostedIds(b) ==> EntryNet(b, e) == 0
    ensures Net(b, Asset) == LiabilitiesAndEquity(b)
  {
    BalancedEntriesMakeZeroTrialBalance(b);
    BalanceSheetGap(b);
  }

  // ------------------------------------------------------------ verify

  /** A count that must be zero. */
  datatype Check = Check(name: string, got: nat)

  datatype Row = Row(name: string, failed: bool)

  class Report {
    var rows: seq<Row>
    var failed: bool

    constructor ()
      ensures rows == [] && !failed
    {
      rows, failed := [], false;
    }

    method Add(name: string)
      modifies this
      ensures rows == old(rows) + [Row(name, false)] && failed == old(failed)
    {
      rows := rows + [Row(name, false)];
    }

    method Fail(name: string)
      modifies this
      ensures rows == old(rows) + [Row(name, true)] && failed
    {
      failed := true;
      rows := rows + [Row(name, true)];
    }
  }

  function Debit(): Line -> int { (l: Line) => l.dr }

  function ZeroValueEntries(b: Book): set<nat> {
    set e | e in EntryIds(b) && GroupSum(b.lines, EntryOf(), e, Any(), Debit()) == 0
  }

  predicate ShareSource(b: Book, e: nat, f: nat)
    requires e in b.entries && f in b.entries
  {
    && e != f && b.entries[e].sourceId.Some? && b.entries[f].sourceId == b.entries[e].sourceId
    && b.entries[f].sourceType == b.entries[e].sourceType
  }

  function DuplicateSources(b: Book): set<(string, nat)> {
    set e, f | e in b.entries && f in b.entries && ShareSource(b, e, f) :: (b.entries[e].sourceType, b.entries[e].sourceId.value)
  }

  /** The lines of one entry, in debits and in credits. */
  function DebitOf(e: nat): Line -> int { (l: Line) => if l.entry == e then l.dr else 0 }
  function CreditOf(e: nat): Line -> int { (l: Line) => if l.entry == e then l.cr else 0 }

  predicate HasLines(b: Book, e: nat) { exists i :: 0 <= i < |b.lines| && b.lines[i].entry == e }

  lemma {:induction false} NetIsDebitsLessCredits(lines: seq<Line>, e: nat)
    ensures GroupSum(lines, EntryOf(), e, Any(), DebitLessCredit()) == SumOver(lines, DebitOf(e)) - SumOver(lines, CreditOf(e))
  {
    if lines != [] { NetIsDebitsLessCredits(lines[1..], e); }
  }

  /** An entry with lines is unbalanced when its debits and credits differ, and zero-valued when its debits add up to
      nothing. */
  lemma EntryChecksExactly(b: Book, e: nat)
    ensures e in UnbalancedEntries(b) <==>
              HasLines(b, e) && SumOver(b.lines, DebitOf(e)) != SumOver(b.lines, CreditOf(e))
    ensures e in ZeroValueEntries(b) <==> HasLines(b, e) && SumOver(b.lines, DebitOf(e)) == 0
  {
    NetIsDebitsLessCredits(b.lines, e);
    GroupSumIsSum(b.lines, EntryOf(), e, Any(), Debit(), DebitOf(e));
    if e in EntryIds(b) {
      var l :| l in b.lines && l.entry == e;
      var i :| 0 <= i < |b.lines| && b.lines[i] == l;
      assert HasLines(b, e);
    }
    if HasLines(b, e) {
      var i :| 0 <= i < |b.lines| && b.lines[i].entry == e;
      assert b.lines[i] in b.lines;
    }
  }

  /** The entries posted from one source. */
  function EntriesFrom(b: Book, source: (string, nat)): set<nat> {
    set e | e in b.entries && b.entries[e].sourceType == source.0 && b.entries[e].sourceId == Some(source.1)
  }

  /** A source is a duplicate exactly when more than one entry has it. */
  lemma DuplicatesExactly(b: Book, source: (string, nat))
    ensures source in DuplicateSources(b) <==> |EntriesFrom(b, source)| > 1
  {
    if source in DuplicateSources(b) {
      var e, f :| e in b.entries && f in b.entries && ShareSource(b, e, f)
                  && source == (b.entries[e].sourceType, b.entries[e].sourceId.value);
      TwoElements(EntriesFrom(b, source), e, f);
    }
    if |EntriesFrom(b, source)| > 1 {
      var e, f := OtherElement(EntriesFrom(b, source));
      assert ShareSource(b, e, f);
    }
  }

  lemma TwoElements(s: set<nat>, e: nat, f: nat)
    requires e in s && f in s && e != f
    ensures |s| > 1
  {
    assert s == {e} + (s - {e}) && f in s - {e};
  }

  lemma OtherElement(s: set<nat>) returns (e: nat, f: nat)
    requires |s| > 1
    ensures e in s && f in s && e != f
  {
    e :| e in s;
    assert |s - {e}| > 0;
    f :| f in s - {e};
  }

  /** Counts read from tables outside this model. */
  datatype Elsewhere = Elsewhere(campaignsDue: nat, sweepable: nat, coldFollowups: nat, sendable: nat)

  function Checks(b: Book, others: Elsewhere): seq<Check> {
    [Check("unbalanced entries", |UnbalancedEntries(b)|),
     Check("zero-value entries", |ZeroValueEntries(b)|),
     Check("duplicate source posts", |DuplicateSources(b)|),
     Check("campaigns due now", others.campaignsDue),
     Check("sweepable convs", others.sweepable),
     Check("cold-followup recips", others.coldFollowups),
     Check("sendable messages", others.sendable)]
  }

  function CheckRows(checks: seq<Check>): seq<Row> {
    if checks == [] then [] else CheckRows(checks[..|checks| - 1]) + [CheckRow(checks[|checks| - 1])]
  }

  function CheckRow(c: Check): Row { Row("check " + c.name, c.got != 0) }

  /** What verify reports: a sheet that is out is only noted, never failed. */
  function VerifyRows(b: Book, others: Elsewhere): seq<Row> {
    CheckRows(Checks(b, others)) + SheetRows(b) + CountRows(CLOSING_COUNTS)
  }

  // Reported at the end for information.
  const CLOSING_COUNTS: seq<string> := [
    "daily rollups", "hourly buckets", "conv states", "active market leads", "posted journals", "stock units",
    "unpaid invoices"]

  function CountRows(labels: seq<string>): seq<Row> {
    seq(|labels|, i requires 0 <= i < |labels| => Row("count " + labels[i], false))
  }

  function SheetRows(b: Book): seq<Row> {
    [Row("check trial balance", TrialBalance(b) != 0),
     Row("check balance sheet", false),
     Row("check P&L", !(-Net(b, Revenue) > 0 && Net(b, Cogs) > 0))]
  }

  predicate AnyFailed(rows: seq<Row>) {
    exists i :: 0 <= i < |rows| && rows[i].failed
  }

  method Verify(rep: Report, b: Book, others: Elsewhere)
    modifies rep
    ensures rep.rows == old(rep.rows) + VerifyRows(b, others)
    ensures rep.failed == (old(rep.failed) || AnyFailed(VerifyRows(b, others)))
  {
    var checks := Checks(b, others);
    for i := 0 to |checks|
      invariant rep.rows == old(rep.rows) + CheckRows(checks[..i])
      invariant rep.failed == (old(rep.failed) || AnyFailed(CheckRows(checks[..i])))
    {
      assert checks[..i + 1][..i] == checks[..i];
      ghost var before := CheckRows(checks[..i]);
      FailedGrows(before, CheckRow(checks[i]));
      if checks[i].got != 0 {
        rep.Fail("check " + checks[i].name);
      } else {
        rep.Add("check " + checks[i].name);
      }
    }
    assert checks[..|checks|] == checks;
    ghost var r0 := CheckRows(checks);
    VerifySheets(rep, b);
    FailedJoins(r0, SheetRows(b));
    ReportCounts(rep, CLOSING_COUNTS);
    FailedJoins(r0 + SheetRows(b), CountRows(CLOSING_COUNTS));
  }

  method ReportCounts(rep: Report, labels: seq<string>)
    modifies rep
    ensures rep.rows == old(rep.rows) + CountRows(labels)
    ensures rep.failed == old(rep.failed) && !AnyFailed(CountRows(labels))
  {
    for i := 0 to |labels|
      invariant rep.rows == old(rep.rows) + CountRows(labels[..i]) && rep.failed == old(rep.failed)
    {
      rep.Add("count " + labels[i]);
      assert CountRows(labels[..i + 1]) == CountRows(labels[..i]) + [Row("count " + labels[i], false)];
    }
    assert labels[..|labels|] == labels;
  }

  method VerifySheets(rep: Report, b: Book)
    modifies rep
    ensures rep.rows == old(rep.rows) + SheetRows(b)
    ensures rep.failed == (old(rep.failed) || AnyFailed(SheetRows(b)))
  {
    var tb := Row("check trial balance", TrialBalance(b) != 0);
    if tb.failed { rep.Fail(tb.name); } else { rep.Add(tb.name); }
    rep.Add("check balance sheet");
    var pl := Row("check P&L", !(-Net(b, Revenue) > 0 && Net(b, Cogs) > 0));
    if pl.failed { rep.Fail(pl.name); } else { rep.Add(pl.name); }
    assert SheetRows(b)[0] == tb && SheetRows(b)[2] == pl;
  }

  lemma FailedJoins(a: seq<Row>, b: seq<Row>)
    ensures AnyFailed(a + b) <==> AnyFailed(a) || AnyFailed(b)
  {
    if AnyFailed(a) {
      var i :| 0 <= i < |a| && a[i].failed;
      assert (a + b)[i].failed;
    }
    if AnyFailed(b) {
      var i :| 0 <= i < |b| && b[i].failed;
      assert (a + b)[|a| + i].failed;
    }
  }

  lemma FailedGrows(rows: seq<Row>, r: Row)
    ensures AnyFailed(rows + [r]) <==> AnyFailed(rows) || r.failed
  {
    if AnyFailed(rows) {
      var i :| 0 <= i < |rows| && rows[i].failed;
      assert (rows + [r])[i].failed;
    }
    if r.failed {
      assert (rows + [r])[|rows|].failed;
    }
  }

  /** A clean report guarantees a balanced ledger and a sheet that ties, although no row fails on the sheet. */
  lemma CleanReportTies(b: Book, others: Elsewhere)
    requires ForeignKeys(b) && !AnyFailed(VerifyRows(b, others))
    ensures forall e :: e in EntryIds(b) ==> EntryNet(b, e) == 0
    ensures TrialBalance(b) == 0
    ensures Net(b, Asset) == LiabilitiesAndEquity(b)
    ensures Net(b, Revenue) < 0 < Net(b, Cogs)
  {
    var rows := VerifyRows(b, others);
    var n := |CheckRows(Checks(b, others))|;
    assert rows[n] == Row("check trial balance", TrialBalance(b) != 0);
    assert rows[n + 2] == Row("check P&L", !(-Net(b, Revenue) > 0 && Net(b, Cogs) > 0));
    BalanceSheetGap(b);
    RowOfCheck(Checks(b, others), 0);
    assert rows[0] == CheckRow(Checks(b, others)[0]);
    assert UnbalancedEntries(b) == {};
    forall e | e in EntryIds(b) ensures EntryNet(b, e) == 0 {
      assert e !in UnbalancedEntries(b);
    }
  }

  /** The report is clean exactly when every entry with lines balances and has a value, no two entries share a source, none
      of the other four counts is positive, posted debits and credits are equal, and there is revenue and cost of sales. */
  lemma CleanReportIff(b: Book, others: Elsewhere)
    ensures !AnyFailed(VerifyRows(b, others)) <==>
              && (forall e :: HasLines(b, e) ==>
                    SumOver(b.lines, DebitOf(e)) == SumOver(b.lines, CreditOf(e)) && SumOver(b.lines, DebitOf(e)) != 0)
              && (forall source :: |EntriesFrom(b, source)| <= 1)
              && others == Elsewhere(0, 0, 0, 0)
              && SumIf(b.lines, IsPosted(b), Debit()) == SumIf(b.lines, IsPosted(b), Credit())
              && Net(b, Revenue) < 0 < Net(b, Cogs)
  {
    var checks := Checks(b, others);
    FailedJoins(CheckRows(checks) + SheetRows(b), CountRows(CLOSING_COUNTS));
    FailedJoins(CheckRows(checks), SheetRows(b));
    SheetsFail(b);
    ChecksFail(checks);
    NetIsDifference(b.lines, IsPosted(b));
    CleanChecks(b, others);
  }

  function Credit(): Line -> int { (l: Line) => l.cr }

  lemma {:induction false} NetIsDifference(lines: seq<Line>, keep: Line -> bool)
    ensures SumIf(lines, keep, DebitLessCredit()) == SumIf(lines, keep, Debit()) - SumIf(lines, keep, Credit())
  {
    if lines != [] { NetIsDifference(lines[1..], keep); }
  }

  lemma SheetsFail(b: Book)
    ensures AnyFailed(SheetRows(b)) <==> TrialBalance(b) != 0 || !(Net(b, Revenue) < 0 < Net(b, Cogs))
    ensures !AnyFailed(CountRows(CLOSING_COUNTS))
  {
    var rows := SheetRows(b);
    assert rows[0].failed <==> TrialBalance(b) != 0;
    assert rows[2].failed <==> !(Net(b, Revenue) < 0 < Net(b, Cogs));
    assert !rows[1].failed;
  }

  lemma ChecksFail(checks: seq<Check>)
    ensures AnyFailed(CheckRows(checks)) <==> exists i :: 0 <= i < |checks| && checks[i].got != 0
  {
    forall i | 0 <= i < |checks|
      ensures |CheckRows(checks)| == |checks| && CheckRows(checks)[i] == CheckRow(checks[i])
    {
      RowOfCheck(checks, i);
    }
    if checks != [] { RowOfCheck(checks, 0); }
    if i :| 0 <= i < |checks| && checks[i].got != 0 { assert CheckRows(checks)[i].failed; }
  }

  lemma CleanChecks(b: Book, others: Elsewhere)
    ensures (forall i :: 0 <= i < |Checks(b, others)| ==> Checks(b, others)[i].got == 0) <==>
              && (forall e :: HasLines(b, e) ==>
                    SumOver(b.lines, DebitOf(e)) == SumOver(b.lines, CreditOf(e)) && SumOver(b.lines, DebitOf(e)) != 0)
              && (forall source :: |EntriesFrom(b, source)| <= 1)
              && others == Elsewhere(0, 0, 0, 0)
  {
    var checks := Checks(b, others);
    assert (forall i :: 0 <= i < |checks| ==> checks[i].got == 0) <==>
             && checks[0].got == 0 && checks[1].got == 0 && checks[2].got == 0
             && checks[3].got == 0 && checks[4].got == 0 && checks[5].got == 0 && checks[6].got == 0;
    EmptyEntryChecks(b);
    NoDuplicates(b);
  }

  lemma EmptyEntryChecks(b: Book)
    ensures (UnbalancedEntries(b) == {} && ZeroValueEntries(b) == {}) <==>
              forall e :: HasLines(b, e) ==>
                SumOver(b.lines, DebitOf(e)) == SumOver(b.lines, CreditOf(e)) && SumOver(b.lines, DebitOf(e)) != 0
  {
    forall e: nat
      ensures e !in UnbalancedEntries(b) && e !in ZeroValueEntries(b) <==>
                (HasLines(b, e) ==>
                   SumOver(b.lines, DebitOf(e)) == SumOver(b.lines, CreditOf(e)) && SumOver(b.lines, DebitOf(e)) != 0)
    {
      EntryChecksExactly(b, e);
    }
  }

  lemma NoDuplicates(b: Book)
    ensures DuplicateSources(b) == {} <==> forall source :: |EntriesFrom(b, source)| <= 1
  {
    forall source: (string, nat) ensures source in DuplicateSources(b) <==> |EntriesFrom(b, source)| > 1 {
      DuplicatesExactly(b, source);
    }
  }

  lemma {:induction false} RowOfCheck(checks: seq<Check>, i: nat)
    requires i < |checks|
    ensures |CheckRows(checks)| == |checks| && CheckRows(checks)[i] == CheckRow(checks[i])
  {
    var front := checks[..|checks| - 1];
    if i < |front| {
      RowOfCheck(front, i);
    } else if front != [] {
      RowOfCheck(front, 0);
    }
  }

  // ------------------------------------------------------------ reversal

  function Mirrored(lines: seq<Line>, e: nat, mirror: nat): seq<Line>
  {
    if lines == [] then [] else
    var head := if lines[0].entry == e then [Line(mirror, lines[0].account, lines[0].cr, lines[0].dr)] else [];
    head + Mirrored(lines[1..], e, mirror)
  }

  /** Reversing posts the swapped lines under a new entry and takes the original out of 'posted'. */
  function Reverse(b: Book, e: nat, mirror: nat): Book
    requires e in b.entries && b.entries[e].status.Posted? && mirror !in b.entries
  {
    Book(b.lines + Mirrored(b.lines, e, mirror),
         b.entries[e := b.entries[e].(status := Reversed)][mirror := Entry(Posted, "journal_entry", Some(e))],
         b.accounts)
  }

  function ReportedOf(b: Book, e: nat): Line -> bool {
    (l: Line) => IsReported(b)(l) && l.entry == e
  }

  /** One entry's contribution to the net of a type. */
  function EntryTypeNet(b: Book, e: nat, t: AccountType): int {
    GroupSum(b.lines, TypeOf(b), t, ReportedOf(b, e), DebitLessCredit())
  }

  /** The posted-only view after a reversal: the original is gone and its mirror stays, so each type
      moves by twice the entry's contribution instead of once. */
  lemma ReversalShiftsTwice(b: Book, e: nat, mirror: nat, t: AccountType)
    requires ForeignKeys(b) && e in b.entries && b.entries[e].status.Posted? && mirror !in b.entries
    ensures Net(Reverse(b, e, mirror), t) == Net(b, t) - 2 * EntryTypeNet(b, e, t)
  {
    var a := Reverse(b, e, mirror);
    GroupSumAppend(b.lines, Mirrored(b.lines, e, mirror), TypeOf(a), t, IsReported(a), DebitLessCredit());
    OldLinesAfterReversal(b, e, mirror, t, b.lines);
    MirrorLines(b, e, mirror, t, b.lines);
  }

  lemma {:induction false} OldLinesAfterReversal(b: Book, e: nat, mirror: nat, t: AccountType, lines: seq<Line>)
    requires e in b.entries && b.entries[e].status.Posted? && mirror !in b.entries
    requires forall i :: 0 <= i < |lines| ==> lines[i].entry in b.entries && lines[i].account in b.accounts
    ensures var a := Reverse(b, e, mirror);
            GroupSum(lines, TypeOf(a), t, IsReported(a), DebitLessCredit()) ==
            GroupSum(lines, TypeOf(b), t, IsReported(b), DebitLessCredit())
            - GroupSum(lines, TypeOf(b), t, ReportedOf(b, e), DebitLessCredit())
  {
    if lines != [] {
      assert lines[0].entry in b.entries;
      OldLinesAfterReversal(b, e, mirror, t, lines[1..]);
      var a := Reverse(b, e, mirror);
      var l := lines[0];
      assert IsPosted(a)(l) <==> IsPosted(b)(l) && l.entry != e;
      assert IsReported(a)(l) <==> IsReported(b)(l) && l.entry != e;
      assert TypeOf(a)(l) == TypeOf(b)(l);
    }
  }

  lemma {:induction false} MirrorLines(b: Book, e: nat, mirror: nat, t: AccountType, lines: seq<Line>)
    requires e in b.entries && b.entries[e].status.Posted? && mirror !in b.entries
    requires forall i :: 0 <= i < |lines| ==> lines[i].entry in b.entries && lines[i].account in b.accounts
    ensures var a := Reverse(b, e, mirror);
            GroupSum(Mirrored(lines, e, mirror), TypeOf(a), t, IsReported(a), DebitLessCredit()) ==
            -GroupSum(lines, TypeOf(b), t, ReportedOf(b, e), DebitLessCredit())
  {
    if lines != [] {
      assert lines[0].entry in b.entries;
      MirrorLines(b, e, mirror, t, lines[1..]);
      var rest := Mirrored(lines[1..], e, mirror);
      if lines[0].entry == e {
        var m := Line(mirror, lines[0].account, lines[0].cr, lines[0].dr);
        var a := Reverse(b, e, mirror);
        assert IsPosted(a)(m) && IsReported(a)(m) && TypeOf(a)(m) == TypeOf(b)(lines[0]);
        assert IsPosted(b)(lines[0]) && IsReported(b)(lines[0]);
        assert Mirrored(lines, e, mirror) == [m] + rest;
        assert ([m] + rest)[1..] == rest;
      } else {
        assert [] + rest == rest;
      }
    }
  }

  /** A reversal brings every type back to its level without the entry only if the entry nets to zero on it. */
  lemma ReversalCancelsOnlyNothing(b: Book, e: nat, mirror: nat, t: AccountType)
    requires ForeignKeys(b) && e in b.entries && b.entries[e].status.Posted? && mirror !in b.entries
    ensures Net(Reverse(b, e, mirror), t) == Net(b, t) - EntryTypeNet(b, e, t) <==> EntryTypeNet(b, e, t) == 0
  {
    ReversalShiftsTwice(b, e, mirror, t);
  }
}

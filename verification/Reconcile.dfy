/** The per-day, per-account comparison shared by `compare` and `sync`:
    entries are grouped by day and by invoice account (null read as ""),
    summed, and each side is shown as a two-decimal value, blank when zero. */
module Reconcile {
  import opened Wrappers
  import opened Domain
  import opened Grouping
  import opened Text

  /** The entry's `InvoiceAccount`, null when missing. */
  function AccountKey(e: Entry): Option<string> {
    IdOrNull(e, "InvoiceAccount")
  }

  /** The dictionary key of the entry's account group: `g.Key ?? ""`. */
  function AccountOf(e: Entry): string {
    AccountKey(e).GetOr("")
  }

  /** Both a null-account group and a `""`-account group exist, so building
      the per-day dictionary meets the key `""` twice. */
  predicate HasNullAndEmpty(dayEntries: seq<Entry>) {
    (exists e :: e in dayEntries && AccountKey(e) == None) &&
    (exists e :: e in dayEntries && AccountKey(e) == Some(""))
  }

  /** `group.ToDictionary(g => g.Key ?? "", g => g.Sum(e => e.TimeUsed))` for
      one day: the accounts present that day with their hours, or a
      duplicate-key error. */
  function DayHours(es: seq<Entry>, day: int): (r: Result<map<string, real>>)
    ensures r.Err? <==> HasNullAndEmpty(EntriesOn(es, day))
    ensures r.Err? ==> r.error == DuplicateKey("")
    ensures r.Ok? ==> forall a :: a in r.value <==> exists e :: e in es && e.day == day && AccountOf(e) == a
    ensures r.Ok? ==> forall a :: a in r.value ==> r.value[a] == GroupHours(EntriesOn(es, day), AccountOf, a)
  {
    var dayEntries := EntriesOn(es, day);
    if HasNullAndEmpty(dayEntries) then Err(DuplicateKey(""))
    else
      var names := GroupKeys(dayEntries, AccountOf);
      Ok(map a | a in names :: GroupHours(dayEntries, AccountOf, a))
  }

  /** `TryGetValue`: an absent account has zero hours. */
  function HoursOf(hours: map<string, real>, account: string): real {
    if account in hours then hours[account] else 0.0
  }

  /** The union of both sides' accounts for a day, each once, ascending. */
  function DayAccounts(tempo: seq<Entry>, toolkit: seq<Entry>, day: int): (r: seq<string>)
    ensures StrictlySorted(r)
    ensures forall a :: a in r <==>
      exists e :: (e in tempo || e in toolkit) && e.day == day && AccountOf(e) == a
  {
    SortDistinct(GroupKeys(EntriesOn(tempo, day), AccountOf) + GroupKeys(EntriesOn(toolkit, day), AccountOf))
  }

  // ---- The displayed value ----

  /** A `"F2"` rendering: sign and hundredths, or the empty string. */
  datatype Display = Blank | Shown(negative: bool, cents: nat)

  function Distance(a: real, b: real): real {
    if a <= b then b - a else a - b
  }

  /** Hundredths, rounded half away from zero. */
  function RoundCents(x: real): nat
    requires x >= 0.0
  {
    (x * 100.0 + 0.5).Floor
  }

  /** The rounded hundredths are within half a hundredth of the value. */
  lemma RoundCentsClose(x: real)
    requires x >= 0.0
    ensures Distance(RoundCents(x) as real / 100.0, x) <= 0.005
  {
  }

  /** `Math.Abs(x) < Double.Epsilon ? "" : x.ToString("F2")`. Blank exactly
      when the sum is zero: the only double below `Double.Epsilon` in
      magnitude is zero. */
  function Render(x: real): (d: Display)
    ensures d == Blank <==> x == 0.0
    ensures d.Shown? ==> d.negative == (x < 0.0)
  {
    if x == 0.0 then Blank
    else if x < 0.0 then Shown(true, RoundCents(-x))
    else Shown(false, RoundCents(x))
  }

  /** A shown value is the magnitude to the nearest hundredth. */
  lemma RenderClose(x: real)
    ensures Render(x).Shown? ==> Distance(Render(x).cents as real / 100.0, if x < 0.0 then -x else x) <= 0.005
  {
    if x < 0.0 {
      RoundCentsClose(-x);
    } else if x > 0.0 {
      RoundCentsClose(x);
    }
  }

  // ---- The rows of `compare` ----

  datatype Row = Row(day: int, account: string, tempo: Display, toolkit: Display, matches: bool)

  function MakeRow(day: int, account: string, tempoHours: map<string, real>, toolkitHours: map<string, real>): Row {
    var t := Render(HoursOf(tempoHours, account));
    var k := Render(HoursOf(toolkitHours, account));
    Row(day, account, t, k, t == k)
  }

  function DayRows(day: int, accounts: seq<string>, tempoHours: map<string, real>, toolkitHours: map<string, real>): (rows: seq<Row>)
    ensures |rows| == |accounts|
    ensures forall i :: 0 <= i < |accounts| ==> rows[i] == MakeRow(day, accounts[i], tempoHours, toolkitHours)
  {
    seq(|accounts|, i requires 0 <= i < |accounts| => MakeRow(day, accounts[i], tempoHours, toolkitHours))
  }

  /** Rows sorted by day, then by account; so no (day, account) pair twice. */
  predicate RowsOrdered(rows: seq<Row>) {
    forall i, j :: 0 <= i < j < |rows| ==>
      rows[i].day < rows[j].day || (rows[i].day == rows[j].day && LexLess(rows[i].account, rows[j].account))
  }

  /** Some day in `[from, last]` has a null and a `""` account on one side. */
  predicate DuplicateDay(tempo: seq<Entry>, toolkit: seq<Entry>, from: int, last: int) {
    exists d :: from <= d <= last && Unreadable(tempo, toolkit, d)
  }

  /** One side's entries of day `d` cannot be put into a dictionary. */
  predicate Unreadable(tempo: seq<Entry>, toolkit: seq<Entry>, d: int) {
    DayHours(tempo, d).Err? || DayHours(toolkit, d).Err?
  }

  /** The row for one (day, account) pair, as the table shows it. */
  predicate RowFor(tempo: seq<Entry>, toolkit: seq<Entry>, row: Row) {
    DayHours(tempo, row.day).Ok? && DayHours(toolkit, row.day).Ok? &&
    row == MakeRow(row.day, row.account, DayHours(tempo, row.day).value, DayHours(toolkit, row.day).value)
  }

  /** The table has a row for this day and account, showing these values. */
  predicate Listed(tempo: seq<Entry>, toolkit: seq<Entry>, row: Row) {
    row.account in DayAccounts(tempo, toolkit, row.day) && RowFor(tempo, toolkit, row)
  }

  /** The table of `compare` for the days `from` to `last`: one row per day
      and account present on either side, in day then account order, each
      showing both sides' hours and whether they match; or the duplicate-key
      error of the first day that has one. */
  function CompareRows(tempo: seq<Entry>, toolkit: seq<Entry>, from: int, last: int): (r: Result<seq<Row>>)
    ensures r.Err? <==> DuplicateDay(tempo, toolkit, from, last)
    ensures r.Err? ==> r.error == DuplicateKey("")
    ensures r.Ok? ==> RowsOrdered(r.value)
    ensures r.Ok? ==> forall row :: row in r.value <==> from <= row.day <= last && Listed(tempo, toolkit, row)
    decreases last - from
  {
    if last < from then Ok([])
    else
      var earlier := CompareRows(tempo, toolkit, from, last - 1);
      var tempoHours := DayHours(tempo, last);
      var toolkitHours := DayHours(toolkit, last);
      DuplicateDayStep(tempo, toolkit, from, last);
      if earlier.Err? then earlier
      else if tempoHours.Err? then Err(tempoHours.error)
      else if toolkitHours.Err? then Err(toolkitHours.error)
      else
        var accounts := DayAccounts(tempo, toolkit, last);
        var rows := DayRows(last, accounts, tempoHours.value, toolkitHours.value);
        AppendDayOrdered(earlier.value, rows, last, accounts, tempoHours.value, toolkitHours.value);
        DayRowsMembers(tempo, toolkit, last, rows);
        AppendDayMembers(row => Listed(tempo, toolkit, row), from, last, earlier.value, rows);
        Ok(earlier.value + rows)
  }

  lemma DuplicateDayStep(tempo: seq<Entry>, toolkit: seq<Entry>, from: int, last: int)
    requires from <= last
    ensures DuplicateDay(tempo, toolkit, from, last) <==>
      DuplicateDay(tempo, toolkit, from, last - 1) || DayHours(tempo, last).Err? || DayHours(toolkit, last).Err?
  {
    if DuplicateDay(tempo, toolkit, from, last) {
      var d :| from <= d <= last && Unreadable(tempo, toolkit, d);
      if d < last {
        assert from <= d <= last - 1 && Unreadable(tempo, toolkit, d);
      }
    }
    if DuplicateDay(tempo, toolkit, from, last - 1) {
      var d :| from <= d <= last - 1 && Unreadable(tempo, toolkit, d);
      assert from <= d <= last && Unreadable(tempo, toolkit, d);
    }
    if Unreadable(tempo, toolkit, last) {
      assert from <= last <= last;
    }
  }

  lemma AppendDayMembers(listed: Row -> bool, from: int, last: int, earlier: seq<Row>, rows: seq<Row>)
    requires from <= last
    requires forall row :: row in earlier <==> from <= row.day <= last - 1 && listed(row)
    requires forall row :: row in rows <==> row.day == last && listed(row)
    ensures forall row :: row in earlier + rows <==> from <= row.day <= last && listed(row)
  {
    forall row ensures row in earlier + rows <==> from <= row.day <= last && listed(row) {
      assert row in earlier + rows <==> row in earlier || row in rows;
    }
  }

  lemma DayRowsMembers(tempo: seq<Entry>, toolkit: seq<Entry>, day: int, rows: seq<Row>)
    requires DayHours(tempo, day).Ok? && DayHours(toolkit, day).Ok?
    requires rows == DayRows(day, DayAccounts(tempo, toolkit, day), DayHours(tempo, day).value, DayHours(toolkit, day).value)
    ensures forall row :: row in rows <==> row.day == day && Listed(tempo, toolkit, row)
  {
    var accounts := DayAccounts(tempo, toolkit, day);
    forall row: Row | row.day == day && Listed(tempo, toolkit, row)
      ensures row in rows
    {
      var i :| 0 <= i < |accounts| && accounts[i] == row.account;
      assert rows[i] == row;
    }
  }

  lemma AppendDayOrdered(earlier: seq<Row>, rows: seq<Row>, day: int, accounts: seq<string>,
                         tempoHours: map<string, real>, toolkitHours: map<string, real>)
    requires RowsOrdered(earlier) && forall row :: row in earlier ==> row.day < day
    requires StrictlySorted(accounts)
    requires rows == DayRows(day, accounts, tempoHours, toolkitHours)
    ensures RowsOrdered(earlier + rows)
  {
    var all := earlier + rows;
    forall i, j | 0 <= i < j < |all|
      ensures all[i].day < all[j].day || (all[i].day == all[j].day && LexLess(all[i].account, all[j].account))
    {
      if j < |earlier| {
      } else if i < |earlier| {
        assert all[i] in earlier;
      } else {
        assert all[i] == rows[i - |earlier|] && all[j] == rows[j - |earlier|];
      }
    }
  }
}

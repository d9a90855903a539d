/** What `sync` reports before copying hours from Tempo to Toolkit: for each
    day and account, whether the two sides agree, Toolkit lacks the hours, or
    the two differ; the week strings that head the report; and the
    week/day/account tree from which the operator picks the hours to copy. */
module SyncReport {
  import opened Wrappers
  import opened Domain
  import opened Grouping
  import opened Text
  import opened DateUtil
  import opened Reconcile

  // ---- Week strings ----

  /** `$"{week.Year}, week {week.Week}"`. */
  function WeekString(w: YearWeek): string {
    IntString(w.year) + ", week " + IntString(w.week)
  }

  predicate NotComma(c: char) { c != ',' }

  lemma {:induction false} RunLengthBeforeComma(p: string, rest: string)
    requires ',' !in p && rest != [] && rest[0] == ','
    ensures RunLength(p + rest, NotComma) == |p|
  {
    if p != [] {
      assert (p + rest)[1..] == p[1..] + rest;
      RunLengthBeforeComma(p[1..], rest);
    }
  }

  /** Different weeks have different week strings, so grouping days by their
      week string groups them by (year, week). */
  lemma WeekStringInjective(a: YearWeek, b: YearWeek)
    requires WeekString(a) == WeekString(b)
    ensures a == b
  {
    var sep := ", week ";
    var s := WeekString(a);
    var ya, yb := IntString(a.year), IntString(b.year);
    assert s == ya + (sep + IntString(a.week)) == yb + (sep + IntString(b.week));
    RunLengthBeforeComma(ya, sep + IntString(a.week));
    RunLengthBeforeComma(yb, sep + IntString(b.week));
    assert ya == s[..|ya|] == yb;
    assert IntString(a.week) == s[|ya| + |sep|..] == IntString(b.week);
    IntStringInjective(a.year, b.year);
    IntStringInjective(a.week, b.week);
  }

  /** `GetWeekString(date)`. */
  function GetWeekString(date: Date): string {
    WeekString(GetWeekNumber(date.year, date.month, date.day))
  }

  /** Two dates share a week string exactly when `GetWeekNumber` gives them
      the same year and week. */
  lemma SameWeekString(a: Date, b: Date)
    ensures GetWeekString(a) == GetWeekString(b) <==>
            GetWeekNumber(a.year, a.month, a.day) == GetWeekNumber(b.year, b.month, b.day)
  {
    if GetWeekString(a) == GetWeekString(b) {
      WeekStringInjective(GetWeekNumber(a.year, a.month, a.day), GetWeekNumber(b.year, b.month, b.day));
    }
  }

  // ---- Classifying one day and account ----

  /** A record of the report: an account and an amount of hours. */
  datatype Finding = Finding(account: string, hours: real)

  datatype Verdict = Agrees | Missing | Differs

  /** Equal displayed values agree; a blank Toolkit value means the hours are
      missing there; anything else is a difference. */
  function Classify(tempo: real, toolkit: real): (v: Verdict)
    ensures v == Agrees <==> Render(tempo) == Render(toolkit)
    ensures v == Missing <==> toolkit == 0.0 && tempo != 0.0
    ensures v == Differs <==> Render(tempo) != Render(toolkit) && toolkit != 0.0
  {
    var t := Render(tempo);
    var k := Render(toolkit);
    if t == k then Agrees else if k == Blank then Missing else Differs
  }

  /** The day's missing registrations: each account Toolkit lacks, with
      Tempo's hours. */
  function MissingOf(accounts: seq<string>, tempoHours: map<string, real>, toolkitHours: map<string, real>): (fs: seq<Finding>)
    ensures forall f :: f in fs <==>
      f.account in accounts &&
      Classify(HoursOf(tempoHours, f.account), HoursOf(toolkitHours, f.account)) == Missing &&
      f.hours == HoursOf(tempoHours, f.account)
  {
    if accounts == [] then []
    else
      var a := accounts[|accounts| - 1];
      assert forall x :: x in accounts <==> x in accounts[..|accounts| - 1] || x == a;
      MissingOf(accounts[..|accounts| - 1], tempoHours, toolkitHours) +
      (if Classify(HoursOf(tempoHours, a), HoursOf(toolkitHours, a)) == Missing
       then [Finding(a, HoursOf(tempoHours, a))] else [])
  }

  /** The day's differences: each account both sides have but display
      differently, with Toolkit's hours minus Tempo's. */
  function DiffsOf(accounts: seq<string>, tempoHours: map<string, real>, toolkitHours: map<string, real>): (fs: seq<Finding>)
    ensures forall f :: f in fs <==>
      f.account in accounts &&
      Classify(HoursOf(tempoHours, f.account), HoursOf(toolkitHours, f.account)) == Differs &&
      f.hours == HoursOf(toolkitHours, f.account) - HoursOf(tempoHours, f.account)
  {
    if accounts == [] then []
    else
      var a := accounts[|accounts| - 1];
      assert forall x :: x in accounts <==> x in accounts[..|accounts| - 1] || x == a;
      DiffsOf(accounts[..|accounts| - 1], tempoHours, toolkitHours) +
      (if Classify(HoursOf(tempoHours, a), HoursOf(toolkitHours, a)) == Differs
       then [Finding(a, HoursOf(toolkitHours, a) - HoursOf(tempoHours, a))] else [])
  }

  predicate DayReadable(tempo: seq<Entry>, toolkit: seq<Entry>, d: int) {
    DayHours(tempo, d).Ok? && DayHours(toolkit, d).Ok?
  }

  function DayMissing(tempo: seq<Entry>, toolkit: seq<Entry>, d: int): seq<Finding>
    requires DayReadable(tempo, toolkit, d)
  {
    MissingOf(DayAccounts(tempo, toolkit, d), DayHours(tempo, d).value, DayHours(toolkit, d).value)
  }

  function DayDiffs(tempo: seq<Entry>, toolkit: seq<Entry>, d: int): seq<Finding>
    requires DayReadable(tempo, toolkit, d)
  {
    DiffsOf(DayAccounts(tempo, toolkit, d), DayHours(tempo, d).value, DayHours(toolkit, d).value)
  }

  /** `dateDiffs` and `dateMissingRegistrations`: only days with at least one
      record have an entry. */
  datatype Findings = Findings(diffs: map<int, seq<Finding>>, missing: map<int, seq<Finding>>)

  /** The report over the days `from` to `last`, or the duplicate-key error
      of a day whose dictionary cannot be built. */
  function FindingsOver(tempo: seq<Entry>, toolkit: seq<Entry>, from: int, last: int): Result<Findings> {
    if DuplicateDay(tempo, toolkit, from, last) then Err(DuplicateKey(""))
    else Ok(Findings(DiffsMap(tempo, toolkit, from, last), MissingMap(tempo, toolkit, from, last)))
  }

  /** The days of `from` to `last` that have records, with their records. */
  function DaysWith<V>(from: int, last: int, records: int -> seq<V>): map<int, seq<V>> {
    map d | from <= d <= last && records(d) != [] :: records(d)
  }

  /** Extending the range by one day adds that day when it has records. */
  lemma DaysWithStep<V>(from: int, d: int, records: int -> seq<V>)
    requires from <= d
    ensures DaysWith(from, d, records) ==
      if records(d) != [] then DaysWith(from, d - 1, records)[d := records(d)]
      else DaysWith(from, d - 1, records)
  {
    var a := DaysWith(from, d, records);
    var prev := DaysWith(from, d - 1, records);
    var b := if records(d) != [] then prev[d := records(d)] else prev;
    forall k ensures k in a <==> k in b {
      assert k in a <==> from <= k <= d && records(k) != [];
      assert k in prev <==> from <= k <= d - 1 && records(k) != [];
    }
    forall k | k in a ensures a[k] == b[k] {
    }
  }

  /** An empty range has no days with records. */
  lemma DaysWithEmpty<V>(from: int, last: int, records: int -> seq<V>)
    requires last < from
    ensures DaysWith(from, last, records) == map[]
  {
    assert DaysWith(from, last, records).Keys == {};
  }

  /** The differences of a day, none when the day cannot be read. */
  function DiffsOn(tempo: seq<Entry>, toolkit: seq<Entry>, d: int): seq<Finding> {
    if DayReadable(tempo, toolkit, d) then DayDiffs(tempo, toolkit, d) else []
  }

  /** The missing registrations of a day, none when the day cannot be read. */
  function MissingOn(tempo: seq<Entry>, toolkit: seq<Entry>, d: int): seq<Finding> {
    if DayReadable(tempo, toolkit, d) then DayMissing(tempo, toolkit, d) else []
  }

  /** The days of the range with differences, and their records. */
  function DiffsMap(tempo: seq<Entry>, toolkit: seq<Entry>, from: int, last: int): map<int, seq<Finding>> {
    DaysWith(from, last, d => DiffsOn(tempo, toolkit, d))
  }

  /** The days of the range with missing registrations, and their records. */
  function MissingMap(tempo: seq<Entry>, toolkit: seq<Entry>, from: int, last: int): map<int, seq<Finding>> {
    DaysWith(from, last, d => MissingOn(tempo, toolkit, d))
  }

  /** A day of the range is readable on both sides, and its lists in the
      report are the day's records when there are any. */
  lemma FindingsAt(tempo: seq<Entry>, toolkit: seq<Entry>, from: int, last: int, d: int)
    requires FindingsOver(tempo, toolkit, from, last).Ok? && from <= d <= last
    ensures DayReadable(tempo, toolkit, d)
    ensures var r := FindingsOver(tempo, toolkit, from, last).value;
      (d in r.missing <==> DayMissing(tempo, toolkit, d) != []) &&
      (d in r.missing ==> r.missing[d] == DayMissing(tempo, toolkit, d)) &&
      (d in r.diffs <==> DayDiffs(tempo, toolkit, d) != []) &&
      (d in r.diffs ==> r.diffs[d] == DayDiffs(tempo, toolkit, d))
  {
    assert !Unreadable(tempo, toolkit, d);
    DaysWithAt(from, last, e => MissingOn(tempo, toolkit, e), d);
    DaysWithAt(from, last, e => DiffsOn(tempo, toolkit, e), d);
  }

  lemma DaysWithAt<V>(from: int, last: int, records: int -> seq<V>, d: int)
    requires from <= d <= last
    ensures d in DaysWith(from, last, records) <==> records(d) != []
    ensures d in DaysWith(from, last, records) ==> DaysWith(from, last, records)[d] == records(d)
  {
  }

  lemma MissingOfAccount(accounts: seq<string>, tempoHours: map<string, real>, toolkitHours: map<string, real>, a: string)
    ensures var t := HoursOf(tempoHours, a);
      var k := HoursOf(toolkitHours, a);
      var fs := MissingOf(accounts, tempoHours, toolkitHours);
      forall f :: f in fs && f.account == a <==> a in accounts && k == 0.0 && t != 0.0 && f == Finding(a, t)
  {
  }

  lemma DiffsOfAccount(accounts: seq<string>, tempoHours: map<string, real>, toolkitHours: map<string, real>, a: string)
    ensures var t := HoursOf(tempoHours, a);
      var k := HoursOf(toolkitHours, a);
      var fs := DiffsOf(accounts, tempoHours, toolkitHours);
      forall f :: f in fs && f.account == a <==>
        a in accounts && Classify(t, k) == Differs && f == Finding(a, k - t)
  {
  }

  /** An account of a day in the range has a missing record exactly when
      Toolkit's side is zero and Tempo's is not, and the record carries
      Tempo's hours. */
  lemma MissingClassified(tempo: seq<Entry>, toolkit: seq<Entry>, from: int, last: int, d: int, a: string)
    requires FindingsOver(tempo, toolkit, from, last).Ok? && from <= d <= last
    ensures DayReadable(tempo, toolkit, d)
    ensures var r := FindingsOver(tempo, toolkit, from, last).value;
      var t := HoursOf(DayHours(tempo, d).value, a);
      var k := HoursOf(DayHours(toolkit, d).value, a);
      forall f :: d in r.missing && f in r.missing[d] && f.account == a <==>
        a in DayAccounts(tempo, toolkit, d) && k == 0.0 && t != 0.0 && f == Finding(a, t)
  {
    FindingsAt(tempo, toolkit, from, last, d);
    MissingOfAccount(DayAccounts(tempo, toolkit, d), DayHours(tempo, d).value, DayHours(toolkit, d).value, a);
  }

  /** An account of a day in the range has a difference record exactly when
      its hours classify as a difference (the displayed values differ and
      Toolkit's side is not zero), and the record carries Toolkit's hours
      minus Tempo's. */
  lemma DiffsClassified(tempo: seq<Entry>, toolkit: seq<Entry>, from: int, last: int, d: int, a: string)
    requires FindingsOver(tempo, toolkit, from, last).Ok? && from <= d <= last
    ensures DayReadable(tempo, toolkit, d)
    ensures var r := FindingsOver(tempo, toolkit, from, last).value;
      var t := HoursOf(DayHours(tempo, d).value, a);
      var k := HoursOf(DayHours(toolkit, d).value, a);
      forall f :: d in r.diffs && f in r.diffs[d] && f.account == a <==>
        a in DayAccounts(tempo, toolkit, d) && Classify(t, k) == Differs && f == Finding(a, k - t)
  {
    FindingsAt(tempo, toolkit, from, last, d);
    DiffsOfDay(FindingsOver(tempo, toolkit, from, last).value.diffs, d, DayAccounts(tempo, toolkit, d),
               DayHours(tempo, d).value, DayHours(toolkit, d).value, a);
  }

  /** A day's difference records, as stored in a findings map that keeps
      only days with records. */
  lemma DiffsOfDay(m: map<int, seq<Finding>>, d: int, accounts: seq<string>,
                   tempoHours: map<string, real>, toolkitHours: map<string, real>, a: string)
    requires var fs := DiffsOf(accounts, tempoHours, toolkitHours);
      (d in m <==> fs != []) && (d in m ==> m[d] == fs)
    ensures var t := HoursOf(tempoHours, a);
      var k := HoursOf(toolkitHours, a);
      forall f :: d in m && f in m[d] && f.account == a <==>
        a in accounts && Classify(t, k) == Differs && f == Finding(a, k - t)
  {
    DiffsOfAccount(accounts, tempoHours, toolkitHours, a);
  }

  /** The days with a record are days of the range, and a day with a record
      has a non-empty list. */
  lemma FindingsDays(tempo: seq<Entry>, toolkit: seq<Entry>, from: int, last: int)
    requires FindingsOver(tempo, toolkit, from, last).Ok?
    ensures var r := FindingsOver(tempo, toolkit, from, last).value;
      (forall d :: d in r.diffs ==> from <= d <= last && r.diffs[d] != []) &&
      (forall d :: d in r.missing ==> from <= d <= last && r.missing[d] != [])
  {
  }

  // ---- The selection tree ----

  function FindingHours(f: Finding): real { f.hours }

  /** A day's missing hours, summed over its accounts. */
  function DayTotal(missing: map<int, seq<Finding>>, d: int): real {
    if d in missing then SumOf(missing[d], FindingHours) else 0.0
  }

  function DayWeight(missing: map<int, seq<Finding>>): int -> real {
    d => DayTotal(missing, d)
  }

  /** A day of the tree: its hours and its accounts. */
  datatype DayNode = DayNode(day: int, hours: real, accounts: seq<Finding>)

  /** A week of the tree: its week string, its hours and its days. */
  datatype WeekNode = WeekNode(week: string, hours: real, days: seq<DayNode>)

  function DayNodeHours(n: DayNode): real { n.hours }

  function WeekNodeHours(n: WeekNode): real { n.hours }

  function DayNodeOf(missing: map<int, seq<Finding>>, d: int): DayNode {
    DayNode(d, DayTotal(missing, d), if d in missing then missing[d] else [])
  }

  function WeekNodeOf(missing: map<int, seq<Finding>>, days: seq<int>, weekOf: int -> string, w: string): WeekNode {
    var ds := Members(days, weekOf, w);
    WeekNode(w, SumOf(ds, DayWeight(missing)), Map(ds, (d: int) => DayNodeOf(missing, d)))
  }

  /** `dateMissingRegistrations.GroupBy(kvp => GetWeekString(kvp.Key))`: the
      weeks in order of their first day, each with its days in order. */
  function Tree(missing: map<int, seq<Finding>>, days: seq<int>, weekOf: int -> string): seq<WeekNode> {
    Map(GroupKeys(days, weekOf), w => WeekNodeOf(missing, days, weekOf, w))
  }

  /** The days of the missing-registration dictionary, in the ascending order
      in which the day loop added them. */
  function MissingDays(missing: map<int, seq<Finding>>, from: int, last: int): (days: seq<int>)
    ensures forall d :: d in days <==> from <= d <= last && d in missing
    ensures forall i, j :: 0 <= i < j < |days| ==> days[i] < days[j]
    decreases last - from
  {
    if last < from then []
    else
      var earlier := MissingDays(missing, from, last - 1);
      assert forall i :: 0 <= i < |earlier| ==> earlier[i] in earlier;
      earlier + (if last in missing then [last] else [])
  }

  /** In the tree a week's hours are the sum of its days' hours, and a day's
      hours the sum of its accounts' hours. */
  lemma TreeSums(missing: map<int, seq<Finding>>, days: seq<int>, weekOf: int -> string)
    ensures forall n :: n in Tree(missing, days, weekOf) ==>
      n.hours == SumOf(n.days, DayNodeHours) &&
      forall m :: m in n.days ==> m.hours == SumOf(m.accounts, FindingHours)
  {
    forall n | n in Tree(missing, days, weekOf)
      ensures n.hours == SumOf(n.days, DayNodeHours)
    {
      var ks := GroupKeys(days, weekOf);
      var i :| 0 <= i < |ks| && Tree(missing, days, weekOf)[i] == n;
      var ds := Members(days, weekOf, ks[i]);
      SumOfMap(ds, (d: int) => DayNodeOf(missing, d), DayNodeHours, DayWeight(missing));
    }
  }

  /** The weeks' hours add up to all the missing hours of the listed days. */
  lemma TreeHoursConserved(missing: map<int, seq<Finding>>, days: seq<int>, weekOf: int -> string)
    ensures SumOf(Tree(missing, days, weekOf), WeekNodeHours) == SumOf(days, DayWeight(missing))
  {
    var ks := GroupKeys(days, weekOf);
    var w := DayWeight(missing);
    SumOfMap(ks, k => WeekNodeOf(missing, days, weekOf, k), WeekNodeHours, k => GroupSum(days, weekOf, w, k));
    SumOverGroupsAsSumOf(days, weekOf, w, ks, k => GroupSum(days, weekOf, w, k));
    SumConserved(days, weekOf, w);
  }

  /** Since the days are listed in ascending order, the weeks come out in
      order of their first day, so ordering them by first day keeps them as
      they are. */
  lemma WeeksByFirstDay(days: seq<int>, weekOf: int -> string)
    requires forall i, j :: 0 <= i < j < |days| ==> days[i] < days[j]
    ensures var ks := GroupKeys(days, weekOf);
      forall i, j :: 0 <= i < j < |ks| ==>
        days[FirstIndex(days, weekOf, ks[i])] < days[FirstIndex(days, weekOf, ks[j])]
  {
    GroupKeysFirstAppearance(days, weekOf);
  }

  // ---- The leaves the operator picks from ----

  /** A selectable leaf: one account's missing hours on one day. */
  datatype Leaf = Leaf(day: int, account: string, hours: real)

  function DayLeaves(n: DayNode): seq<Leaf> {
    Map(n.accounts, (f: Finding) => Leaf(n.day, f.account, f.hours))
  }

  function WeekLeaves(n: WeekNode): seq<Leaf> {
    SelectMany(n.days, DayLeaves)
  }

  /** The leaves of the tree, in the order the prompt lists them. */
  function Leaves(tree: seq<WeekNode>): seq<Leaf> {
    SelectMany(tree, WeekLeaves)
  }

  /** The leaves of one day are its missing registrations. */
  lemma DayLeavesOf(missing: map<int, seq<Finding>>, d: int, leaf: Leaf)
    ensures leaf in DayLeaves(DayNodeOf(missing, d)) <==>
      leaf.day == d && d in missing && Finding(leaf.account, leaf.hours) in missing[d]
  {
    var m := DayNodeOf(missing, d);
    if leaf in DayLeaves(m) {
      var l :| 0 <= l < |m.accounts| && DayLeaves(m)[l] == leaf;
      assert m.accounts[l] == Finding(leaf.account, leaf.hours);
    }
    if leaf.day == d && d in missing && Finding(leaf.account, leaf.hours) in missing[d] {
      var l :| 0 <= l < |missing[d]| && missing[d][l] == Finding(leaf.account, leaf.hours);
      assert DayLeaves(m)[l] == leaf;
    }
  }

  /** Every day node of the tree is the node of a listed day. */
  lemma TreeDayListed(missing: map<int, seq<Finding>>, days: seq<int>, weekOf: int -> string, n: WeekNode, m: DayNode)
    requires n in Tree(missing, days, weekOf) && m in n.days
    ensures m == DayNodeOf(missing, m.day) && m.day in days
  {
    var ks := GroupKeys(days, weekOf);
    var i :| 0 <= i < |ks| && Tree(missing, days, weekOf)[i] == n;
    var ds := Members(days, weekOf, ks[i]);
    var j :| 0 <= j < |ds| && Map(ds, (x: int) => DayNodeOf(missing, x))[j] == m;
    MembersMembership(days, weekOf, ks[i], ds[j]);
  }

  /** Every listed day has its node in the week of its week string. */
  lemma TreeDayCovered(missing: map<int, seq<Finding>>, days: seq<int>, weekOf: int -> string, d: int)
    returns (n: WeekNode)
    requires d in days
    ensures n in Tree(missing, days, weekOf) && DayNodeOf(missing, d) in n.days
  {
    var ks := GroupKeys(days, weekOf);
    var w := weekOf(d);
    assert w in ks;
    var i :| 0 <= i < |ks| && ks[i] == w;
    var ds := Members(days, weekOf, w);
    MembersMembership(days, weekOf, w, d);
    var j :| 0 <= j < |ds| && ds[j] == d;
    n := Tree(missing, days, weekOf)[i];
    assert n.days[j] == DayNodeOf(missing, d);
  }

  /** The leaves of the tree are exactly the missing registrations of the
      listed days. */
  lemma LeavesAreMissing(missing: map<int, seq<Finding>>, days: seq<int>, weekOf: int -> string, leaf: Leaf)
    ensures leaf in Leaves(Tree(missing, days, weekOf)) <==>
      leaf.day in days && leaf.day in missing && Finding(leaf.account, leaf.hours) in missing[leaf.day]
  {
    var tree := Tree(missing, days, weekOf);
    var d := leaf.day;
    if leaf in Leaves(tree) {
      var n :| n in tree && leaf in WeekLeaves(n);
      var m :| m in n.days && leaf in DayLeaves(m);
      TreeDayListed(missing, days, weekOf, n, m);
      DayLeavesOf(missing, m.day, leaf);
    }
    if d in days && d in missing && Finding(leaf.account, leaf.hours) in missing[d] {
      var n := TreeDayCovered(missing, days, weekOf, d);
      DayLeavesOf(missing, d, leaf);
      assert leaf in WeekLeaves(n);
    }
  }
}

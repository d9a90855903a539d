/** The `transfer-from-toggl` command: picks one day of Toggl entries, sums
    them per Jira issue, rounds each issue to quarter hours with the
    largest-remainder allocation, lets the operator override values, creates
    Tempo entries and advances the last-transfer date. */
module TransferFromToggl {
  import opened Wrappers
  import opened Domain
  import opened Grouping
  import opened Allocation
  import opened CacheUtil

  const LastTransferKey := "LastTogglTransferDate"

  /** The Jira issue an entry is grouped under; `""` when it has none. The
      Toggl provider sets `JiraIssueKey` only on entries whose description
      starts with a Jira key, so entries without one are grouped under `""`:
      their hours count toward the day's rounded total, but no entry is ever
      created for them (`Creates` refuses the empty key). */
  function IssueKey(e: Entry): string {
    IdOrNull(e, "JiraIssueKey").GetOr("")
  }

  // ---- Window and day selection ----

  /** The first day to fetch: the day after the last transfer, or four days
      before today when nothing was transferred yet. */
  function TransferStart(last: Option<int>, today: int): (start: int)
    ensures last.Some? ==> start == last.value + 1
    ensures last.None? ==> start == today - 4
  {
    match last
    case Some(d) => d + 1
    case None => today - 4
  }

  /** The day that is transferred: the earliest entry day when resuming after
      a previous transfer, otherwise the latest. */
  function ProcessedDay(entries: seq<Entry>, resuming: bool): (day: int)
    requires entries != []
    ensures exists i :: 0 <= i < |entries| && entries[i].day == day
    ensures forall i :: 0 <= i < |entries| ==> if resuming then day <= entries[i].day else entries[i].day <= day
  {
    if |entries| == 1 then entries[0].day
    else
      var rest := ProcessedDay(entries[1..], resuming);
      assert forall i :: 1 <= i < |entries| ==> entries[i] == entries[1..][i - 1];
      if resuming then (if entries[0].day <= rest then entries[0].day else rest)
      else (if entries[0].day >= rest then entries[0].day else rest)
  }

  // ---- Quarter sums per issue ----

  function QuartersOf(es: seq<Entry>, ks: seq<string>): (r: seq<IssueQuarters>)
    ensures |r| == |ks|
    ensures forall i :: 0 <= i < |ks| ==> r[i].key == ks[i]
  {
    seq(|ks|, i requires 0 <= i < |ks| => IssueQuarters(ks[i], GroupHours(es, IssueKey, ks[i]) * 4.0))
  }

  /** The `quarterSums` dictionary in insertion order: one entry per issue of
      the day, in order of first appearance, holding four times its hours. */
  function DayQuarters(es: seq<Entry>): (r: seq<IssueQuarters>)
    ensures DistinctKeys(r)
  {
    QuartersOf(es, GroupKeys(es, IssueKey))
  }

  lemma QuartersOfAppend(es: seq<Entry>, ks: seq<string>, k: string)
    ensures QuartersOf(es, ks + [k]) == QuartersOf(es, ks) + [IssueQuarters(k, GroupHours(es, IssueKey, k) * 4.0)]
  {
  }

  lemma QuartersOfPrefix(es: seq<Entry>, ks: seq<string>, i: int)
    requires 0 <= i < |ks|
    ensures QuartersOf(es, ks[..i + 1]) == QuartersOf(es, ks[..i]) + [IssueQuarters(ks[i], GroupHours(es, IssueKey, ks[i]) * 4.0)]
  {
    assert ks[..i + 1] == ks[..i] + [ks[i]];
    QuartersOfAppend(es, ks[..i], ks[i]);
  }

  lemma {:induction false} QuartersTotal(es: seq<Entry>, ks: seq<string>)
    ensures SumQuarters(QuartersOf(es, ks)) == SumOverGroups(es, IssueKey, TimeUsed, ks) * 4.0
  {
    if ks != [] {
      var init := ks[..|ks| - 1];
      var last := ks[|ks| - 1];
      QuartersTotal(es, init);
      assert ks == init + [last];
      QuartersOfAppend(es, init, last);
      SumsAppend(QuartersOf(es, init), IssueQuarters(last, GroupHours(es, IssueKey, last) * 4.0));
    }
  }

  /** The issues' quarter sums add up to four times the day's hours. */
  lemma DayQuartersTotal(es: seq<Entry>)
    ensures SumQuarters(DayQuarters(es)) == TotalHours(es) * 4.0
  {
    QuartersTotal(es, GroupKeys(es, IssueKey));
    HoursConserved(es, IssueKey);
  }

  /** The order in which issues are rounded and then created. */
  function Schedule(es: seq<Entry>): seq<IssueQuarters> {
    OrderByFraction(DayQuarters(es))
  }

  /** Day-total preservation: the quarter units allocated over the issues add
      up to the day's exact quarter hours rounded half-to-even, and each issue
      is within one quarter of its exact value. */
  lemma DayTotalPreserved(es: seq<Entry>)
    ensures SumUnits(Allotted(Schedule(es), Deficit(Schedule(es)))) == RoundHalfEven(TotalHours(es) * 4.0)
  {
    DayQuartersTotal(es);
    OrderByFractionSums(DayQuarters(es));
    RoundedTotal(Schedule(es), TotalHours(es) * 4.0);
  }

  lemma RoundedTotal(s: seq<IssueQuarters>, x: real)
    requires Descending(s) && SumQuarters(s) == x
    ensures SumUnits(Allotted(s, Deficit(s))) == RoundHalfEven(x)
  {
    AllottedTotal(s);
  }

  /** The first loop (lines 53-67): fills `quarterSums` in group order and
      adds up the exact and the floored quarter sums. */
  method SumQuarterHours(dayEntries: seq<Entry>)
    returns (quarterSums: seq<IssueQuarters>, quarterSum: real, quarterFloorSum: int)
    ensures quarterSums == DayQuarters(dayEntries)
    ensures quarterSum == SumQuarters(quarterSums) == TotalHours(dayEntries) * 4.0
    ensures quarterFloorSum == SumFloors(quarterSums)
  {
    var keys := GroupKeys(dayEntries, IssueKey);
    quarterFloorSum := 0;
    quarterSum := 0.0;
    quarterSums := [];
    var i := 0;
    while i < |keys|
      invariant 0 <= i <= |keys|
      invariant quarterSums == QuartersOf(dayEntries, keys[..i])
      invariant quarterSum == SumQuarters(quarterSums)
      invariant quarterFloorSum == SumFloors(quarterSums)
    {
      var issueQuarterSum := GroupHours(dayEntries, IssueKey, keys[i]) * 4.0;
      var entry := IssueQuarters(keys[i], issueQuarterSum);
      quarterSum := quarterSum + issueQuarterSum;
      quarterFloorSum := quarterFloorSum + issueQuarterSum.Floor;
      SumsAppend(quarterSums, entry);
      quarterSums := quarterSums + [entry];
      QuartersOfPrefix(dayEntries, keys, i);
      i := i + 1;
    }
    assert keys[..i] == keys;
    DayQuartersTotal(dayEntries);
  }

  /** The first `p` issues of `sorted` have been rounded: `order` lists their
      keys and `rounded` maps each to its allotted quarters in hours. */
  ghost predicate RoundedUpTo(sorted: seq<IssueQuarters>, units: seq<int>, p: int, order: seq<string>, rounded: map<string, real>)
    requires 0 <= p <= |sorted| == |units|
  {
    |order| == p &&
    (forall r :: 0 <= r < p ==> order[r] == sorted[r].key) &&
    (forall k :: k in rounded <==> k in order) &&
    (forall r :: 0 <= r < p ==> rounded[order[r]] == units[r] as real / 4.0) &&
    rounded == UnitsMap(sorted[..p], units[..p])
  }

  /** The second loop (lines 69-77): walks `sorted`, giving the ceiling while
      `toCeil` is positive and the floor afterwards. */
  method RoundIssues(sorted: seq<IssueQuarters>, toCeil: int) returns (order: seq<string>, rounded: map<string, real>)
    requires DistinctKeys(sorted)
    ensures |order| == |sorted|
    ensures forall p :: 0 <= p < |sorted| ==> order[p] == sorted[p].key
    ensures forall k :: k in rounded <==> k in order
    ensures forall p :: 0 <= p < |sorted| ==> rounded[order[p]] == Allotted(sorted, toCeil)[p] as real / 4.0
    ensures order == IssueOrder(sorted) && rounded == UnitsMap(sorted, Allotted(sorted, toCeil))
  {
    ghost var units := Allotted(sorted, toCeil);
    var remaining := toCeil;
    order := [];
    rounded := map[];
    var p := 0;
    while p < |sorted|
      invariant 0 <= p <= |sorted|
      invariant remaining == toCeil - p
      invariant RoundedUpTo(sorted, units, p, order, rounded)
    {
      var q := sorted[p];
      var roundedTime := if remaining > 0 then Ceiling(q.quarters) else q.quarters.Floor;
      AllottedAt(sorted, toCeil, p);
      var hours := roundedTime as real / 4.0;
      RoundedStep(sorted, units, p, order, rounded, hours);
      rounded := rounded[q.key := hours];
      order := order + [q.key];
      remaining := remaining - 1;
      p := p + 1;
    }
    RoundedDone(sorted, units, order, rounded);
  }

  /** The keys of `s`, in order. */
  function IssueOrder(s: seq<IssueQuarters>): (ks: seq<string>)
    ensures |ks| == |s| && forall i :: 0 <= i < |s| ==> ks[i] == s[i].key
  {
    seq(|s|, i requires 0 <= i < |s| => s[i].key)
  }

  /** `issueRoundedTimes` after rounding the issues of `s` to `units`
      quarters: each issue's key is inserted in `s`'s order with its units
      in hours. */
  function UnitsMap(s: seq<IssueQuarters>, units: seq<int>): map<string, real>
    requires |s| == |units|
  {
    if s == [] then map[]
    else
      var n := |s| - 1;
      UnitsMap(s[..n], units[..n])[s[n].key := units[n] as real / 4.0]
  }

  /** The map holds exactly the issues of `s`. */
  lemma {:induction false} UnitsMapKeys(s: seq<IssueQuarters>, units: seq<int>)
    requires |s| == |units|
    ensures forall k :: k in UnitsMap(s, units) <==> k in IssueOrder(s)
  {
    if s != [] {
      var n := |s| - 1;
      UnitsMapKeys(s[..n], units[..n]);
      forall k ensures k in IssueOrder(s) <==> k in IssueOrder(s[..n]) || k == s[n].key {
        if k in IssueOrder(s) {
          var i :| 0 <= i < |s| && IssueOrder(s)[i] == k;
          if i < n { assert IssueOrder(s[..n])[i] == k; }
        }
        if k in IssueOrder(s[..n]) {
          var i :| 0 <= i < n && IssueOrder(s[..n])[i] == k;
          assert IssueOrder(s)[i] == k;
        }
        if k == s[n].key { assert IssueOrder(s)[n] == k; }
      }
    }
  }

  lemma UnitsMapStep(s: seq<IssueQuarters>, units: seq<int>, p: int)
    requires 0 <= p < |s| == |units|
    ensures UnitsMap(s[..p + 1], units[..p + 1]) == UnitsMap(s[..p], units[..p])[s[p].key := units[p] as real / 4.0]
  {
    assert s[..p + 1][..p] == s[..p] && units[..p + 1][..p] == units[..p];
  }

  /** With distinct keys, each issue of `s` maps to its own units in hours. */
  lemma {:induction false} UnitsMapAt(s: seq<IssueQuarters>, units: seq<int>, p: int)
    requires DistinctKeys(s) && |s| == |units| && 0 <= p < |s|
    ensures s[p].key in UnitsMap(s, units) && UnitsMap(s, units)[s[p].key] == units[p] as real / 4.0
  {
    var n := |s| - 1;
    if p < n {
      assert DistinctKeys(s[..n]);
      assert s[..n][p] == s[p] && units[..n][p] == units[p];
      UnitsMapAt(s[..n], units[..n], p);
    }
  }

  /** The rounded hours of a day's issues, as the allocation leaves them. */
  function RoundedTimes(es: seq<Entry>): (m: map<string, real>)
    ensures forall k :: k in m <==> k in IssueOrder(Schedule(es))
  {
    var s := Schedule(es);
    UnitsMapKeys(s, Allotted(s, Deficit(s)));
    UnitsMap(s, Allotted(s, Deficit(s)))
  }

  /** Every issue of the day is rounded to its allotted quarters. */
  lemma RoundedTimesAt(es: seq<Entry>, p: int)
    requires 0 <= p < |Schedule(es)|
    ensures var s := Schedule(es);
      RoundedTimes(es)[s[p].key] == Allotted(s, Deficit(s))[p] as real / 4.0
  {
    var s := Schedule(es);
    OrderByFractionDistinct(DayQuarters(es));
    UnitsMapAt(s, Allotted(s, Deficit(s)), p);
  }

  lemma RoundedStep(sorted: seq<IssueQuarters>, units: seq<int>, p: int, order: seq<string>, rounded: map<string, real>, hours: real)
    requires DistinctKeys(sorted) && 0 <= p < |sorted| == |units|
    requires RoundedUpTo(sorted, units, p, order, rounded)
    requires hours == units[p] as real / 4.0
    ensures RoundedUpTo(sorted, units, p + 1, order + [sorted[p].key], rounded[sorted[p].key := hours])
  {
    var key := sorted[p].key;
    var order' := order + [key];
    var rounded' := rounded[key := hours];
    forall r | 0 <= r < p + 1 ensures rounded'[order'[r]] == units[r] as real / 4.0 {
      if r < p {
        assert order'[r] == order[r] != key;
      }
    }
    UnitsMapStep(sorted, units, p);
  }

  lemma RoundedDone(sorted: seq<IssueQuarters>, units: seq<int>, order: seq<string>, rounded: map<string, real>)
    requires |sorted| == |units|
    requires RoundedUpTo(sorted, units, |sorted|, order, rounded)
    ensures order == IssueOrder(sorted) && rounded == UnitsMap(sorted, units)
  {
    assert sorted[..|sorted|] == sorted && units[..|units|] == units;
  }

  /** Lines 53-77: `order` is the key order of `issueRoundedTimes`, which is
      the schedule's order, and each issue gets its allotted quarters. */
  method AllocateQuarters(dayEntries: seq<Entry>) returns (order: seq<string>, rounded: map<string, real>)
    ensures var s := Schedule(dayEntries);
      |order| == |s| &&
      (forall p :: 0 <= p < |s| ==> order[p] == s[p].key) &&
      (forall k :: k in rounded <==> k in order) &&
      (forall p :: 0 <= p < |s| ==> rounded[order[p]] == Allotted(s, Deficit(s))[p] as real / 4.0)
    ensures order == IssueOrder(Schedule(dayEntries)) && rounded == RoundedTimes(dayEntries)
  {
    var quarterSums, quarterSum, quarterFloorSum := SumQuarterHours(dayEntries);
    var bestQuarterSum := RoundHalfEven(quarterSum);
    var toCeil := bestQuarterSum - quarterFloorSum;
    var sorted := OrderByFraction(quarterSums);
    OrderByFractionSums(quarterSums);
    OrderByFractionDistinct(quarterSums);
    assert toCeil == Deficit(sorted);
    order, rounded := RoundIssues(sorted, toCeil);
  }

  lemma {:induction false} AllottedAt(s: seq<IssueQuarters>, toCeil: int, p: int)
    requires 0 <= p < |s|
    ensures Allotted(s, toCeil)[p] == if p < toCeil then Ceiling(s[p].quarters) else s[p].quarters.Floor
  {
    if p > 0 {
      AllottedAt(s[1..], toCeil - 1, p - 1);
    }
  }

  // ---- The operator's overrides (lines 81-107) ----

  /** One answer to the "Edit entries" prompt. */
  datatype Answer = NoEdits | NoTransfer | Edit(issue: string, hours: real)

  /** The operator eventually stops editing. */
  predicate Stops(answers: seq<Answer>) {
    exists i :: 0 <= i < |answers| && !answers[i].Edit?
  }

  lemma StopsTail(answers: seq<Answer>)
    requires Stops(answers) && answers[0].Edit?
    ensures Stops(answers[1..])
  {
    var i :| 0 <= i < |answers| && !answers[i].Edit?;
    assert answers[1..][i - 1] == answers[i];
  }

  /** The answer that ends the prompt loop. */
  function StopAnswer(answers: seq<Answer>): (a: Answer)
    requires Stops(answers)
    ensures !a.Edit?
    decreases |answers|
  {
    if answers[0].Edit? then StopsTail(answers); StopAnswer(answers[1..]) else answers[0]
  }

  /** Every edit before the stop names one of the listed issues. */
  predicate EditsListed(answers: seq<Answer>, issues: set<string>)
    requires Stops(answers)
    decreases |answers|
  {
    answers[0].Edit? ==> answers[0].issue in issues && (StopsTail(answers); EditsListed(answers[1..], issues))
  }

  /** The value the last edit of `issue` before the stop gave it, if any. */
  function LastEdit(answers: seq<Answer>, issue: string): Option<real>
    requires Stops(answers)
    decreases |answers|
  {
    if !answers[0].Edit? then None
    else
      StopsTail(answers);
      var later := LastEdit(answers[1..], issue);
      if later.Some? then later
      else if answers[0].issue == issue then Some(answers[0].hours)
      else None
  }

  /** The override loop: `None` when the operator chose not to transfer,
      otherwise the edited values. An edit replaces one issue's value and
      nothing else; no other value is rescaled. */
  function Review(rounded: map<string, real>, answers: seq<Answer>): (r: Result<Option<map<string, real>>>)
    requires Stops(answers)
    ensures r.Ok? <==> EditsListed(answers, rounded.Keys)
    ensures r.Ok? ==> (r.value.None? <==> StopAnswer(answers) == NoTransfer)
    ensures r.Ok? && r.value.Some? ==> r.value.value.Keys == rounded.Keys
    ensures r.Ok? && r.value.Some? ==>
      forall k :: k in rounded ==> r.value.value[k] == LastEdit(answers, k).GetOr(rounded[k])
    decreases |answers|
  {
    match answers[0]
    case NoTransfer => Ok(None)
    case NoEdits => Ok(Some(rounded))
    case Edit(issue, hours) =>
      StopsTail(answers);
      if issue !in rounded then Err(KeyNotFound(issue))
      else
        assert rounded[issue := hours].Keys == rounded.Keys;
        Review(rounded[issue := hours], answers[1..])
  }

  /** The `while (true)` prompt loop editing `issueRoundedTimes` in place. */
  method ReviewAllocation(rounded: map<string, real>, answers: seq<Answer>)
    returns (r: Result<Option<map<string, real>>>)
    requires Stops(answers)
    ensures r == Review(rounded, answers)
  {
    var times := rounded;
    var i := 0;
    while true
      invariant 0 <= i < |answers| && Stops(answers[i..])
      invariant Review(times, answers[i..]) == Review(rounded, answers)
      decreases |answers| - i
    {
      var chosen := answers[i];
      if chosen == NoTransfer {
        return Ok(None);
      }
      if chosen == NoEdits {
        return Ok(Some(times));
      }
      if chosen.issue !in times {
        return Err(KeyNotFound(chosen.issue));
      }
      StopsTail(answers[i..]);
      assert answers[i..][1..] == answers[i + 1..];
      times := times[chosen.issue := chosen.hours];
      i := i + 1;
    }
  }

  // ---- Creation (lines 114-129) ----

  /** Whether an issue gets an entry: not the empty key and not zero hours
      (no double other than zero lies strictly between ±`double.Epsilon`). */
  predicate Creates(issue: string, hours: real) {
    issue != "" && hours != 0.0
  }

  /** The issues that get an entry, in the dictionary's key order. */
  function CreatedIssues(order: seq<string>, times: map<string, real>): (r: seq<string>)
    requires forall k :: k in order ==> k in times
    ensures forall i :: 0 <= i < |r| ==> r[i] in times
  {
    if order == [] then []
    else
      (if Creates(order[0], times[order[0]]) then [order[0]] else []) + CreatedIssues(order[1..], times)
  }

  /** An issue gets an entry exactly when it is listed and not skipped. */
  lemma {:induction false} CreatedIssuesMembers(order: seq<string>, times: map<string, real>)
    requires forall k :: k in order ==> k in times
    ensures forall k :: k in CreatedIssues(order, times) <==> k in order && Creates(k, times[k])
  {
    if order != [] {
      CreatedIssuesMembers(order[1..], times);
      assert forall k :: k in order <==> k == order[0] || k in order[1..];
    }
  }

  function NewEntry(registrant: Registrant, day: int, issue: string, hours: real): Entry {
    Entry(registrant, hours, day, None, map["JiraIssueKey" := Some(issue)])
  }

  /** The Tempo entries the creation loop submits, in order: one per issue
      that is not skipped, dated on the processed day with the issue's hours. */
  function Planned(registrant: Registrant, day: int, order: seq<string>, times: map<string, real>): seq<Entry>
    requires forall k :: k in order ==> k in times
  {
    var issues := CreatedIssues(order, times);
    seq(|issues|, i requires 0 <= i < |issues| => NewEntry(registrant, day, issues[i], times[issues[i]]))
  }

  /** Every planned entry is the registrant's, on the processed day, for an
      issue that is not skipped, with that issue's reviewed hours. */
  lemma PlannedEntries(registrant: Registrant, day: int, order: seq<string>, times: map<string, real>)
    requires forall k :: k in order ==> k in times
    ensures forall e :: e in Planned(registrant, day, order, times) ==>
      e.registrant == registrant && e.day == day && IssueKey(e) in order &&
      Creates(IssueKey(e), e.timeUsed) && e.timeUsed == times[IssueKey(e)]
  {
    var planned := Planned(registrant, day, order, times);
    var issues := CreatedIssues(order, times);
    CreatedIssuesMembers(order, times);
    forall e | e in planned
      ensures e.registrant == registrant && e.day == day && IssueKey(e) in order &&
        Creates(IssueKey(e), e.timeUsed) && e.timeUsed == times[IssueKey(e)]
    {
      var j :| 0 <= j < |planned| && planned[j] == e;
      assert issues[j] in issues;
    }
  }

  lemma {:induction false} CreatedIssuesAppend(order: seq<string>, more: seq<string>, times: map<string, real>)
    requires forall k :: k in order ==> k in times
    requires forall k :: k in more ==> k in times
    ensures CreatedIssues(order + more, times) == CreatedIssues(order, times) + CreatedIssues(more, times)
  {
    if order == [] {
      assert order + more == more;
    } else {
      assert (order + more)[0] == order[0];
      assert (order + more)[1..] == order[1..] + more;
      CreatedIssuesAppend(order[1..], more, times);
    }
  }

  lemma PlannedAppend(registrant: Registrant, day: int, order: seq<string>, more: seq<string>, times: map<string, real>)
    requires forall k :: k in order ==> k in times
    requires forall k :: k in more ==> k in times
    ensures Planned(registrant, day, order + more, times)
            == Planned(registrant, day, order, times) + Planned(registrant, day, more, times)
  {
    CreatedIssuesAppend(order, more, times);
  }

  /** Splitting the issues around position `i`. */
  lemma PlannedAround(registrant: Registrant, day: int, order: seq<string>, times: map<string, real>, i: int)
    requires forall k :: k in order ==> k in times
    requires 0 <= i < |order|
    ensures Planned(registrant, day, order[..i + 1], times)
            == Planned(registrant, day, order[..i], times) + Planned(registrant, day, [order[i]], times)
    ensures Planned(registrant, day, order, times)
            == Planned(registrant, day, order[..i + 1], times) + Planned(registrant, day, order[i + 1..], times)
    ensures Planned(registrant, day, [order[i]], times)
            == if Creates(order[i], times[order[i]]) then [NewEntry(registrant, day, order[i], times[order[i]])] else []
  {
    assert order[..i + 1] == order[..i] + [order[i]];
    assert order == order[..i + 1] + order[i + 1..];
    PlannedAppend(registrant, day, order[..i], [order[i]], times);
    PlannedAppend(registrant, day, order[..i + 1], order[i + 1..], times);
    assert [order[i]][1..] == [];
    assert CreatedIssues([order[i]], times) == if Creates(order[i], times[order[i]]) then [order[i]] else [];
  }

  /** The creation loop: the planned entries are submitted in order until
      Tempo rejects one (`rejects` says which, and with what exception); the
      exception then ends the command. */
  method SubmitEntries(registrant: Registrant, day: int, order: seq<string>, times: map<string, real>,
                       rejects: Entry -> Option<Error>)
    returns (created: seq<Entry>, failure: Option<Error>)
    requires forall k :: k in order ==> k in times
    ensures var planned := Planned(registrant, day, order, times);
      var n := FirstRejected(planned, rejects);
      created == planned[..n] && failure == (if n < |planned| then rejects(planned[n]) else None)
  {
    created := [];
    var i := 0;
    while i < |order|
      invariant 0 <= i <= |order|
      invariant created == Planned(registrant, day, order[..i], times)
      invariant forall j :: 0 <= j < |created| ==> rejects(created[j]).None?
    {
      var issue := order[i];
      PlannedAround(registrant, day, order, times, i);
      i := i + 1;
      if !Creates(issue, times[issue]) {
        continue;
      }
      var entry := NewEntry(registrant, day, issue, times[issue]);
      if rejects(entry).Some? {
        ghost var planned := Planned(registrant, day, order, times);
        assert planned == created + [entry] + Planned(registrant, day, order[i..], times);
        FirstRejectedAt(planned, rejects, |created|);
        assert created == planned[..|created|];
        return created, rejects(entry);
      }
      created := created + [entry];
    }
    assert order[..i] == order;
    FirstRejectedAt(created, rejects, |created|);
    assert created[..|created|] == created;
    failure := None;
  }

  // ---- The command ----

  datatype TransferOutcome =
    | NothingToTransfer
    | Declined
    | Transferred(day: int)

  /** The registrant the command builds from the two logged-in identities. */
  function TransferRegistrant(togglIdentity: map<string, string>, atlassianIdentity: map<string, string>): Registrant
    requires "TogglWorkspace" in togglIdentity && "AtlassianID" in atlassianIdentity
  {
    Registrant(None, map["TogglWorkspace" := togglIdentity["TogglWorkspace"],
                         "AtlassianID" := atlassianIdentity["AtlassianID"]])
  }

  /** `Execute`. The providers' logged-in identities, Toggl's entries for a
      day range, the operator's answers and the entries Tempo rejects are
      inputs; `created` are the Tempo entries created, in order. The last
      transfer date is stored only when every entry was created. */
  method Execute(cache: Cache, today: int, togglIdentity: map<string, string>,
                 atlassianIdentity: map<string, string>, fetch: (int, int) -> seq<Entry>,
                 answers: seq<Answer>, rejects: Entry -> Option<Error>)
    returns (r: Result<TransferOutcome>, created: seq<Entry>)
    requires cache.Valid() && Stops(answers)
    modifies cache
    ensures cache.Valid()
    ensures r.Ok? && r.value.Transferred? ==>
      cache.Contents() == Store(old(cache.Contents()), LastTransferKey, Some(DateValue(r.value.day)))
    ensures !(r.Ok? && r.value.Transferred?) ==> cache.Contents() == old(cache.Contents())
    ensures "TogglWorkspace" !in togglIdentity ==> r == Err(KeyNotFound("TogglWorkspace")) && created == []
    ensures "TogglWorkspace" in togglIdentity && "AtlassianID" !in atlassianIdentity ==>
      r == Err(KeyNotFound("AtlassianID")) && created == []
    ensures "TogglWorkspace" in togglIdentity && "AtlassianID" in atlassianIdentity ==>
      var last := AsDay(Lookup(old(cache.Contents()), LastTransferKey));
      var start := TransferStart(last, today);
      if start > today || fetch(start, today) == [] then
        r == Ok(NothingToTransfer) && created == []
      else
        var day := ProcessedDay(fetch(start, today), last.Some?);
        var es := EntriesOn(fetch(start, today), day);
        var reviewed := Review(RoundedTimes(es), answers);
        if reviewed.Err? then r == Err(reviewed.error) && created == []
        else if reviewed.value.None? then r == Ok(Declined) && created == []
        else
          var planned := Planned(TransferRegistrant(togglIdentity, atlassianIdentity), day,
                                 IssueOrder(Schedule(es)), reviewed.value.value);
          var n := FirstRejected(planned, rejects);
          created == planned[..n] &&
          (n == |planned| ==> r == Ok(Transferred(day))) &&
          (n < |planned| ==> r == Err(rejects(planned[n]).value))
  {
    created := [];
    if "TogglWorkspace" !in togglIdentity {
      return Err(KeyNotFound("TogglWorkspace")), created;
    }
    if "AtlassianID" !in atlassianIdentity {
      return Err(KeyNotFound("AtlassianID")), created;
    }
    var registrant := TransferRegistrant(togglIdentity, atlassianIdentity);

    var cached := cache.Get(LastTransferKey);
    var lastTransfer := AsDay(cached);
    var from := TransferStart(lastTransfer, today);
    if from > today {
      return Ok(NothingToTransfer), created;
    }

    var entries := fetch(from, today);
    if |entries| == 0 {
      return Ok(NothingToTransfer), created;
    }

    var regDate := ProcessedDay(entries, lastTransfer.Some?);
    var lastDayRegs := EntriesOn(entries, regDate);

    var order, rounded := AllocateQuarters(lastDayRegs);
    var reviewed := ReviewAllocation(rounded, answers);
    if reviewed.Err? {
      return Err(reviewed.error), created;
    }
    if reviewed.value.None? {
      return Ok(Declined), created;
    }
    var times := reviewed.value.value;

    var failure;
    created, failure := SubmitEntries(registrant, regDate, order, times, rejects);
    if failure.Some? {
      return Err(failure.value), created;
    }

    cache.Set(LastTransferKey, Some(DateValue(regDate)));
    return Ok(Transferred(regDate)), created;
  }
}

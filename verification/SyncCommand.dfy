/** The `sync` command: it reads Tempo's registrations (insisting that each
    has an invoice account), compares them with Toolkit's day by day, stops
    when the operator does not accept existing differences, and copies the
    missing hours the operator picks to Toolkit. */
module SyncCommand {
  import opened Wrappers
  import opened Domain
  import opened Grouping
  import opened DateUtil
  import opened Reconcile
  import opened SyncReport

  // ---- Account titles and missing accounts ----

  function DayOf(e: Entry): int { e.day }

  /** The first entry (`g.First()`) of the account group `k` of a day. */
  function GroupHead(dayEntries: seq<Entry>, k: Option<string>): (h: Entry)
    requires k in GroupKeys(dayEntries, AccountKey)
    ensures h in dayEntries && AccountKey(h) == k
  {
    dayEntries[FirstIndex(dayEntries, AccountKey, k)]
  }

  /** The first entry of each account group of day `d`, in group order. */
  function DayHeads(es: seq<Entry>, d: int): (hs: seq<Entry>)
    ensures forall h :: h in hs ==> h in es && h.day == d
  {
    var dayEntries := EntriesOn(es, d);
    var ks := GroupKeys(dayEntries, AccountKey);
    seq(|ks|, i requires 0 <= i < |ks| => GroupHead(dayEntries, ks[i]))
  }

  /** The group heads of the days `days`, day by day. */
  function Heads(es: seq<Entry>, days: seq<int>): seq<Entry> {
    if days == [] then []
    else Heads(es, days[..|days| - 1]) + DayHeads(es, days[|days| - 1])
  }

  /** The groups `GetTempoRegistrations` walks, as their first entries: day
      groups in order of first appearance, account groups within each. */
  function AllHeads(es: seq<Entry>): seq<Entry> {
    Heads(es, GroupKeys(es, DayOf))
  }

  const MissingAccountPrefix := "Missing/closed account on issue "

  /** The message for a group whose account is null; a null issue key
      interpolates as the empty string. */
  function MissingAccountMessage(h: Entry): string {
    MissingAccountPrefix + IdOrNull(h, "JiraIssueKey").GetOr("")
  }

  /** The state of the walk: the titles recorded so far, the messages of the
      groups without an account, and the exception that stopped the walk. */
  datatype TitleScan = TitleScan(titles: map<string, Option<string>>, errors: seq<string>, failure: Option<Error>)

  const Fresh := TitleScan(map[], [], None)

  /** The identification a group head needs: the issue key for a group
      without an account, the account text otherwise. */
  function Needed(h: Entry): string {
    if AccountKey(h).None? then "JiraIssueKey" else "InvoiceAccountText"
  }

  /** One account group: without an account its issue is reported, with one
      its title is recorded (a later group of the same account overwrites
      it); a missing identification throws. */
  function Note(st: TitleScan, h: Entry): TitleScan {
    if st.failure.Some? then st
    else if Needed(h) !in h.accountIds then st.(failure := Some(KeyNotFound(Needed(h))))
    else if AccountKey(h).None? then st.(errors := st.errors + [MissingAccountMessage(h)])
    else st.(titles := st.titles[AccountKey(h).value := h.accountIds["InvoiceAccountText"]])
  }

  function ScanHeads(st: TitleScan, hs: seq<Entry>): TitleScan {
    if hs == [] then st else Note(ScanHeads(st, hs[..|hs| - 1]), hs[|hs| - 1])
  }

  /** The walk of `GetTempoRegistrations` over one attempt's entries. */
  function Scan(es: seq<Entry>): TitleScan {
    ScanHeads(Fresh, AllHeads(es))
  }

  lemma {:induction false} ScanHeadsAppend(st: TitleScan, a: seq<Entry>, b: seq<Entry>)
    ensures ScanHeads(st, a + b) == ScanHeads(ScanHeads(st, a), b)
  {
    if b != [] {
      assert (a + b)[..|a + b| - 1] == a + b[..|b| - 1];
      ScanHeadsAppend(st, a, b[..|b| - 1]);
    } else {
      assert a + b == a;
    }
  }

  lemma {:induction false} ScanHeadsFailed(st: TitleScan, hs: seq<Entry>)
    requires st.failure.Some?
    ensures ScanHeads(st, hs) == st
  {
    if hs != [] {
      ScanHeadsFailed(st, hs[..|hs| - 1]);
    }
  }

  /** The walk throws exactly when some group head lacks the identification
      it needs. */
  lemma {:induction false} ScanFailure(hs: seq<Entry>)
    ensures ScanHeads(Fresh, hs).failure.Some? <==> exists h :: h in hs && Needed(h) !in h.accountIds
  {
    if hs != [] {
      var init := hs[..|hs| - 1];
      ScanFailure(init);
      assert forall h :: h in hs <==> h in init || h == hs[|hs| - 1];
    }
  }

  /** Without an exception, a message is reported exactly for the groups
      without an account, naming their issue. */
  lemma {:induction false} ScanErrors(hs: seq<Entry>)
    requires ScanHeads(Fresh, hs).failure.None?
    ensures var st := ScanHeads(Fresh, hs);
      (st.errors == [] <==> forall h :: h in hs ==> AccountKey(h).Some?) &&
      (forall m :: m in st.errors ==> exists h :: h in hs && AccountKey(h).None? && m == MissingAccountMessage(h))
  {
    if hs != [] {
      var init := hs[..|hs| - 1];
      var h := hs[|hs| - 1];
      assert ScanHeads(Fresh, init).failure.None?;
      ScanErrors(init);
      assert forall x :: x in hs <==> x in init || x == h;
    }
  }

  /** One step of the walk that does not throw: an account group records
      its title, a group without an account adds a message. */
  lemma NoteStep(st: TitleScan, h: Entry)
    requires st.failure.None? && Note(st, h).failure.None?
    ensures Needed(h) in h.accountIds
    ensures AccountKey(h).None? ==> Note(st, h) == st.(errors := st.errors + [MissingAccountMessage(h)])
    ensures AccountKey(h).Some? ==>
      Note(st, h) == st.(titles := st.titles[AccountKey(h).value := h.accountIds["InvoiceAccountText"]])
  {
  }

  /** The title of `a` comes from group head `i`, the last head of that
      account. */
  predicate TitleFrom(hs: seq<Entry>, a: string, title: Option<string>, i: int) {
    0 <= i < |hs| && AccountKey(hs[i]) == Some(a) &&
    "InvoiceAccountText" in hs[i].accountIds && title == hs[i].accountIds["InvoiceAccountText"] &&
    forall j :: i < j < |hs| ==> AccountKey(hs[j]) != Some(a)
  }

  /** Without an exception, a title is recorded exactly for the accounts of
      the groups. */
  lemma {:induction false} ScanTitleKeys(hs: seq<Entry>, a: string)
    requires ScanHeads(Fresh, hs).failure.None?
    ensures a in ScanHeads(Fresh, hs).titles <==> exists i :: 0 <= i < |hs| && AccountKey(hs[i]) == Some(a)
  {
    if hs != [] {
      var init := hs[..|hs| - 1];
      var h := hs[|hs| - 1];
      var st0 := ScanHeads(Fresh, init);
      assert st0.failure.None?;
      NoteStep(st0, h);
      ScanTitleKeys(init, a);
      if a in st0.titles {
        var i :| 0 <= i < |init| && AccountKey(init[i]) == Some(a);
        assert hs[i] == init[i];
      }
      if i :| 0 <= i < |hs| && AccountKey(hs[i]) == Some(a) {
        if i < |init| {
          assert init[i] == hs[i];
        }
      }
    }
  }

  /** Without an exception, the title recorded for an account is the account
      text of the last group of that account. */
  lemma {:induction false} ScanTitleSource(hs: seq<Entry>, a: string) returns (i: int)
    requires ScanHeads(Fresh, hs).failure.None? && a in ScanHeads(Fresh, hs).titles
    ensures TitleFrom(hs, a, ScanHeads(Fresh, hs).titles[a], i)
  {
    var init := hs[..|hs| - 1];
    var h := hs[|hs| - 1];
    var st0 := ScanHeads(Fresh, init);
    assert st0.failure.None?;
    NoteStep(st0, h);
    if AccountKey(h) == Some(a) {
      i := |hs| - 1;
    } else {
      i := ScanTitleSource(init, a);
      assert hs[i] == init[i];
      forall j | i < j < |hs| ensures AccountKey(hs[j]) != Some(a) {
        if j < |init| { assert hs[j] == init[j]; }
      }
    }
  }

  /** Every entry has a group head with its day and its account key. */
  lemma HeadOf(es: seq<Entry>, e: Entry) returns (h: Entry)
    requires e in es
    ensures h in AllHeads(es) && h.day == e.day && AccountKey(h) == AccountKey(e)
  {
    var days := GroupKeys(es, DayOf);
    assert DayOf(e) in days;
    var i :| 0 <= i < |days| && days[i] == e.day;
    HeadsOfDay(es, days, i);
    var dayEntries := EntriesOn(es, e.day);
    var ks := GroupKeys(dayEntries, AccountKey);
    assert AccountKey(e) in ks;
    var j :| 0 <= j < |ks| && ks[j] == AccountKey(e);
    h := DayHeads(es, e.day)[j];
    assert h in DayHeads(es, e.day);
  }

  lemma {:induction false} HeadsOfDay(es: seq<Entry>, days: seq<int>, i: nat)
    requires i < |days|
    ensures forall h :: h in DayHeads(es, days[i]) ==> h in Heads(es, days)
  {
    var init := days[..|days| - 1];
    if i < |days| - 1 {
      assert init[i] == days[i];
      HeadsOfDay(es, init, i);
    }
  }

  /** Group heads are entries. */
  lemma {:induction false} HeadsAreEntries(es: seq<Entry>, days: seq<int>, h: Entry)
    requires h in Heads(es, days)
    ensures h in es
  {
    var init := days[..|days| - 1];
    if h !in DayHeads(es, days[|days| - 1]) {
      HeadsAreEntries(es, init, h);
    }
  }

  /** The attempt goes through without messages exactly when every entry has
      an account. */
  lemma NoErrorsIffAccounts(es: seq<Entry>)
    requires Scan(es).failure.None?
    ensures Scan(es).errors == [] <==> forall e :: e in es ==> AccountKey(e).Some?
  {
    var hs := AllHeads(es);
    assert Scan(es) == ScanHeads(Fresh, hs);
    ScanErrors(hs);
    if Scan(es).errors == [] {
      forall e | e in es ensures AccountKey(e).Some? {
        var h := HeadOf(es, e);
      }
    } else {
      var h :| h in hs && AccountKey(h).None?;
      HeadsAreEntries(es, GroupKeys(es, DayOf), h);
    }
  }

  /** After a clean attempt, the accounts with a title are exactly the
      accounts of the entries. */
  lemma TitlesCoverAccounts(es: seq<Entry>, a: string)
    requires Scan(es).failure.None?
    ensures a in Scan(es).titles <==> exists e :: e in es && AccountKey(e) == Some(a)
  {
    var hs := AllHeads(es);
    assert Scan(es) == ScanHeads(Fresh, hs);
    ScanTitleKeys(hs, a);
    if e :| e in es && AccountKey(e) == Some(a) {
      var h := HeadOf(es, e);
      var i :| 0 <= i < |hs| && hs[i] == h;
    }
    if a in Scan(es).titles {
      var i :| 0 <= i < |hs| && AccountKey(hs[i]) == Some(a);
      HeadsAreEntries(es, GroupKeys(es, DayOf), hs[i]);
    }
  }

  /** `answer?.ToLowerInvariant() == "y"`. */
  predicate IsYes(answer: string) { answer == "y" || answer == "Y" }

  /** The operator's `i`-th answer; the prompt's default "n" once they run out. */
  function Answer(answers: seq<string>, i: nat): string {
    if i < |answers| then answers[i] else "n"
  }

  /** An attempt that reported missing accounts and that the operator chose
      to retry. */
  predicate Retried(es: seq<Entry>, answer: string) {
    Scan(es).failure.None? && Scan(es).errors != [] && IsYes(answer)
  }

  /** Every attempt from `first` up to (not including) `last` was retried. */
  predicate RetriedFrom(fetch: nat -> seq<Entry>, answers: seq<string>, first: nat, last: nat)
    decreases last - first
  {
    first < last ==> Retried(fetch(first), Answer(answers, first)) && RetriedFrom(fetch, answers, first + 1, last)
  }

  /** Each attempt before the returned one reported missing accounts and was
      retried on the operator's yes. */
  lemma {:induction false} RetriedEach(fetch: nat -> seq<Entry>, answers: seq<string>, first: nat, last: nat, i: nat)
    requires RetriedFrom(fetch, answers, first, last) && first <= i < last
    ensures Retried(fetch(i), Answer(answers, i))
    decreases last - first
  {
    assert RetriedFrom(fetch, answers, first + 1, last);
    if first < i {
      RetriedEach(fetch, answers, first + 1, last, i);
    }
  }

  /** The attempt `GetTempoRegistrations` returns from when it starts at
      `first`: the first attempt that is not retried. Each retry consumes one
      of the operator's answers, and the default "n" stops the retries. */
  function LastAttempt(fetch: nat -> seq<Entry>, answers: seq<string>, first: nat): (n: nat)
    ensures first <= n && RetriedFrom(fetch, answers, first, n)
    ensures !Retried(fetch(n), Answer(answers, n))
    decreases |answers| - first
  {
    if Retried(fetch(first), Answer(answers, first)) then
      assert first < |answers|;
      LastAttempt(fetch, answers, first + 1)
    else first
  }

  /** An attempt that is not retried is the last one. */
  lemma LastAttemptHere(fetch: nat -> seq<Entry>, answers: seq<string>, first: nat)
    requires !Retried(fetch(first), Answer(answers, first))
    ensures LastAttempt(fetch, answers, first) == first && RetriedFrom(fetch, answers, first, first)
  {
  }

  /** A retried attempt hands over to the next one. */
  lemma LastAttemptNext(fetch: nat -> seq<Entry>, answers: seq<string>, first: nat)
    requires Retried(fetch(first), Answer(answers, first))
    ensures LastAttempt(fetch, answers, first) == LastAttempt(fetch, answers, first + 1)
  {
  }

  /** The retries stop no later than one attempt past the operator's last
      answer. */
  lemma {:induction false} LastAttemptBound(fetch: nat -> seq<Entry>, answers: seq<string>, first: nat)
    requires first <= |answers|
    ensures LastAttempt(fetch, answers, first) <= |answers|
    decreases |answers| - first
  {
    if Retried(fetch(first), Answer(answers, first)) {
      LastAttemptBound(fetch, answers, first + 1);
    }
  }

  const NoAccountMessage := "Cannot transfer time registration entries without an account."

  /** The registrant of the copied entries, from the two logged-in
      identities. */
  function SyncRegistrant(toolkitIdentity: map<string, string>, atlassianIdentity: map<string, string>): (r: Result<Registrant>)
    ensures r.Ok? <==> "FullName" in toolkitIdentity && "AtlassianID" in atlassianIdentity
    ensures "FullName" !in toolkitIdentity ==> r == Err(KeyNotFound("FullName"))
    ensures "FullName" in toolkitIdentity && "AtlassianID" !in atlassianIdentity ==> r == Err(KeyNotFound("AtlassianID"))
    ensures r.Ok? ==> (r.value.name == Some(toolkitIdentity["FullName"]) &&
      r.value.identifications == map["FullName" := toolkitIdentity["FullName"], "AtlassianID" := atlassianIdentity["AtlassianID"]])
  {
    if "FullName" !in toolkitIdentity then Err(KeyNotFound("FullName"))
    else if "AtlassianID" !in atlassianIdentity then Err(KeyNotFound("AtlassianID"))
    else
      var name := toolkitIdentity["FullName"];
      Ok(Registrant(Some(name), map["FullName" := name, "AtlassianID" := atlassianIdentity["AtlassianID"]]))
  }

  /** The leaf stands for a missing registration of the report. */
  predicate IsMissing(missing: map<int, seq<Finding>>, leaf: Leaf) {
    leaf.day in missing && Finding(leaf.account, leaf.hours) in missing[leaf.day]
  }

  /** The Toolkit entry for a picked leaf. */
  function ToolkitEntry(registrant: Registrant, leaf: Leaf, title: Option<string>): Entry {
    Entry(registrant, leaf.hours, leaf.day, None,
          map["InvoiceAccount" := Some(leaf.account), "InvoiceAccountText" := title])
  }

  /** `GetAccountTitle` over a recorded title map: the recorded title, or
      the account itself when none is recorded. */
  function TitleOr(titles: map<string, Option<string>>, account: string): (t: Option<string>)
    ensures account in titles ==> t == titles[account]
    ensures account !in titles ==> t == Some(account)
  {
    if account in titles then titles[account] else Some(account)
  }

  /** The Toolkit entries the creation loop submits for the picked leaves,
      in the order they were picked. */
  function PickedEntries(registrant: Registrant, picked: seq<Leaf>, titles: map<string, Option<string>>): seq<Entry> {
    seq(|picked|, i requires 0 <= i < |picked| => ToolkitEntry(registrant, picked[i], TitleOr(titles, picked[i].account)))
  }

  /** The grouping of the picker: the week string of each day's date. */
  function WeekOfDay(dateOf: int -> Date): int -> string {
    d => GetWeekString(dateOf(d))
  }

  /** How the command ended: the operator stopped it over differences,
      nothing was missing, or the picked entries were created. */
  datatype SyncOutcome =
    | Stopped(report: Findings)
    | NothingMissing(report: Findings)
    | Synced(report: Findings, picked: seq<Leaf>)

  class Sync {
    /** `_accountTitles`: account key to account text, as last read from
        Tempo. */
    var accountTitles: map<string, Option<string>>

    constructor()
      ensures accountTitles == map[]
    {
      accountTitles := map[];
    }

    /** The recorded title of an account, or the account itself when none is
        recorded. */
    function GetAccountTitle(account: string): (t: Option<string>)
      reads this
      ensures account in accountTitles ==> t == accountTitles[account]
      ensures account !in accountTitles ==> t == Some(account)
    {
      TitleOr(accountTitles, account)
    }

    /** The walk over one attempt's groups: titles are recorded in the field
        as they are met; the walk stops at the first missing identification. */
    method CollectTitles(es: seq<Entry>) returns (errors: seq<string>, failure: Option<Error>)
      modifies this
      ensures TitleScan(accountTitles, errors, failure) == Scan(es)
    {
      accountTitles := map[];
      errors := [];
      failure := None;
      var days := GroupKeys(es, DayOf);
      var i := 0;
      while i < |days|
        invariant 0 <= i <= |days|
        invariant failure.None?
        invariant TitleScan(accountTitles, errors, failure) == ScanHeads(Fresh, Heads(es, days[..i]))
      {
        ScanStep(es, days, i);
        errors, failure := CollectDay(DayHeads(es, days[i]), errors);
        if failure.Some? {
          ScanStopped(es, days, i + 1);
          return;
        }
        i := i + 1;
      }
      assert days[..i] == days;
    }

    /** The account groups of one day, each through its first entry. */
    method CollectDay(heads: seq<Entry>, errors0: seq<string>) returns (errors: seq<string>, failure: Option<Error>)
      modifies this
      ensures TitleScan(accountTitles, errors, failure) == ScanHeads(TitleScan(old(accountTitles), errors0, None), heads)
    {
      ghost var start := TitleScan(accountTitles, errors0, None);
      errors := errors0;
      failure := None;
      var j := 0;
      while j < |heads|
        invariant 0 <= j <= |heads|
        invariant failure.None?
        invariant TitleScan(accountTitles, errors, failure) == ScanHeads(start, heads[..j])
      {
        var head := heads[j];
        if Needed(head) !in head.accountIds {
          failure := Some(KeyNotFound(Needed(head)));
          ScanThrows(start, heads, j);
          return;
        }
        ScanNext(start, heads, j);
        var k := AccountKey(head);
        if k.None? {
          errors := errors + [MissingAccountMessage(head)];
        } else {
          accountTitles := accountTitles[k.value := head.accountIds["InvoiceAccountText"]];
        }
        j := j + 1;
      }
      assert heads[..j] == heads;
    }

    /** `GetTempoRegistrations`: attempt `attempt` reads `fetch(attempt)`; if
        some group has no account the operator is asked whether to clear the
        account cache and try again, and a refusal throws. `last` is the
        attempt whose outcome is returned. */
    method GetTempoRegistrations(fetch: nat -> seq<Entry>, answers: seq<string>, attempt: nat)
      returns (r: Result<seq<Entry>>, last: nat)
      modifies this
      decreases |answers| - attempt
      ensures last == LastAttempt(fetch, answers, attempt)
      ensures attempt <= last
      ensures RetriedFrom(fetch, answers, attempt, last)
      ensures accountTitles == Scan(fetch(last)).titles
      ensures Scan(fetch(last)).failure.Some? ==> r == Err(Scan(fetch(last)).failure.value)
      ensures Scan(fetch(last)).failure.None? && Scan(fetch(last)).errors != [] ==>
        !IsYes(Answer(answers, last)) && r == Err(InvalidOperation(NoAccountMessage))
      ensures Scan(fetch(last)).failure.None? && Scan(fetch(last)).errors == [] ==> r == Ok(fetch(last))
    {
      var es := fetch(attempt);
      var errors, failure := CollectTitles(es);
      if failure.None? && |errors| > 0 && IsYes(Answer(answers, attempt)) {
        assert Retried(es, Answer(answers, attempt));
        LastAttemptNext(fetch, answers, attempt);
        r, last := GetTempoRegistrations(fetch, answers, attempt + 1);
      } else {
        LastAttemptHere(fetch, answers, attempt);
        last := attempt;
        if failure.Some? {
          r := Err(failure.value);
        } else if |errors| > 0 {
          r := Err(InvalidOperation(NoAccountMessage));
        } else {
          r := Ok(es);
        }
      }
    }

    /** The day loop: every day from `from` to `last` is compared, and days
        with records get an entry in the difference or the missing
        dictionary. */
    method CompareDays(tempo: seq<Entry>, toolkit: seq<Entry>, from: int, last: int) returns (r: Result<Findings>)
      ensures r == FindingsOver(tempo, toolkit, from, last)
    {
      var diffs: map<int, seq<Finding>> := map[];
      var missing: map<int, seq<Finding>> := map[];
      var d := from;
      ghost var end := if last < from then from else last + 1;
      WalkStart(tempo, toolkit, from);
      while d <= last
        invariant from <= d <= end
        invariant Walked(tempo, toolkit, from, d, diffs, missing)
        decreases last - d
      {
        var next := RecordDay(tempo, toolkit, from, d, diffs, missing);
        if next.Err? {
          FindingsGrow(tempo, toolkit, from, d, last);
          return Err(next.error);
        }
        diffs, missing := next.value.0, next.value.1;
        d := d + 1;
      }
      if d == last + 1 {
        WalkDone(tempo, toolkit, from, last, diffs, missing);
      } else {
        WalkNone(tempo, toolkit, from, last, diffs, missing);
      }
      r := Ok(Findings(diffs, missing));
    }

    /** The body of the day loop: compares day `d` and records its
        differences and missing registrations when there are any. */
    method RecordDay(tempo: seq<Entry>, toolkit: seq<Entry>, from: int, d: int,
                     diffs: map<int, seq<Finding>>, missing: map<int, seq<Finding>>)
      returns (r: Result<(map<int, seq<Finding>>, map<int, seq<Finding>>)>)
      requires from <= d && Walked(tempo, toolkit, from, d, diffs, missing)
      ensures r.Err? <==> !DayReadable(tempo, toolkit, d)
      ensures r.Err? ==> r.error == DuplicateKey("")
      ensures r.Ok? ==> Walked(tempo, toolkit, from, d + 1, r.value.0, r.value.1)
    {
      var day := CompareDay(tempo, toolkit, d);
      if day.Err? {
        return Err(day.error);
      }
      var (dayDiffs, dayMissing) := day.value;
      WalkStep(tempo, toolkit, from, d, diffs, missing);
      var nextDiffs, nextMissing := diffs, missing;
      if dayMissing != [] {
        nextMissing := nextMissing[d := dayMissing];
      }
      if dayDiffs != [] {
        nextDiffs := nextDiffs[d := dayDiffs];
      }
      return Ok((nextDiffs, nextMissing));
    }

    /** One day of the loop: both sides' per-account dictionaries, then the
        differences and the missing registrations of the day. */
    method CompareDay(tempo: seq<Entry>, toolkit: seq<Entry>, d: int) returns (r: Result<(seq<Finding>, seq<Finding>)>)
      ensures r.Err? <==> !DayReadable(tempo, toolkit, d)
      ensures r.Err? ==> r.error == DuplicateKey("")
      ensures r.Ok? ==> r.value == (DiffsOn(tempo, toolkit, d), MissingOn(tempo, toolkit, d))
    {
      var tempoHours := DayHours(tempo, d);
      var toolkitHours := DayHours(toolkit, d);
      if tempoHours.Err? {
        return Err(tempoHours.error);
      }
      if toolkitHours.Err? {
        return Err(toolkitHours.error);
      }
      var accounts := DayAccounts(tempo, toolkit, d);
      var dayDiffs, dayMissing := CompareAccounts(accounts, tempoHours.value, toolkitHours.value);
      return Ok((dayDiffs, dayMissing));
    }

    /** The account loop of one day. */
    method CompareAccounts(accounts: seq<string>, tempoHours: map<string, real>, toolkitHours: map<string, real>)
      returns (diffs: seq<Finding>, missing: seq<Finding>)
      ensures diffs == DiffsOf(accounts, tempoHours, toolkitHours)
      ensures missing == MissingOf(accounts, tempoHours, toolkitHours)
    {
      diffs, missing := [], [];
      var i := 0;
      while i < |accounts|
        invariant 0 <= i <= |accounts|
        invariant Compared(accounts, i, tempoHours, toolkitHours, diffs, missing)
      {
        var diff, miss := CompareAccount(accounts[i], tempoHours, toolkitHours);
        AccountStep(accounts, i, tempoHours, toolkitHours, diffs, missing, diff, miss);
        diffs, missing := diffs + diff, missing + miss;
        i := i + 1;
      }
      ComparedAll(accounts, tempoHours, toolkitHours, diffs, missing);
    }

    /** The body of the account loop: a missing registration when Toolkit
        has no hours, otherwise a difference when the rendered hours differ. */
    method CompareAccount(account: string, tempoHours: map<string, real>, toolkitHours: map<string, real>)
      returns (diff: seq<Finding>, miss: seq<Finding>)
      ensures var t := HoursOf(tempoHours, account);
        var k := HoursOf(toolkitHours, account);
        miss == (if Classify(t, k) == Missing then [Finding(account, t)] else []) &&
        diff == (if Classify(t, k) == Differs then [Finding(account, k - t)] else [])
      ensures |miss| + |diff| <= 1
    {
      var tempoAccHours := HoursOf(tempoHours, account);
      var toolkitAccHours := HoursOf(toolkitHours, account);
      var verdict := Classify(tempoAccHours, toolkitAccHours);
      diff, miss := [], [];
      if verdict == Missing {
        miss := [Finding(account, tempoAccHours)];
      } else if verdict == Differs {
        diff := [Finding(account, toolkitAccHours - tempoAccHours)];
      }
    }

    /** The creation loop: one Toolkit entry per picked leaf, in order,
        titled by the recorded account title, until Toolkit rejects one
        (`rejects` says which, and with what exception); the exception then
        ends the command. */
    method CreatePicked(registrant: Registrant, picked: seq<Leaf>, rejects: Entry -> Option<Error>)
      returns (created: seq<Entry>, failure: Option<Error>)
      ensures var planned := PickedEntries(registrant, picked, accountTitles);
        var n := FirstRejected(planned, rejects);
        created == planned[..n] && failure == (if n < |planned| then rejects(planned[n]) else None)
    {
      ghost var planned := PickedEntries(registrant, picked, accountTitles);
      created := [];
      for i := 0 to |picked|
        invariant created == planned[..i]
        invariant forall j :: 0 <= j < i ==> rejects(planned[j]).None?
      {
        var leaf := picked[i];
        var entry := ToolkitEntry(registrant, leaf, GetAccountTitle(leaf.account));
        assert entry == planned[i];
        if rejects(entry).Some? {
          FirstRejectedAt(planned, rejects, i);
          return created, rejects(entry);
        }
        created := created + [entry];
      }
      FirstRejectedAt(planned, rejects, |planned|);
      assert planned[..|planned|] == planned;
      failure := None;
    }

    /** `Execute`. The Tempo and Toolkit entries of the window `from` to
        `last`, the operator's answers and picks, the calendar date of each
        day and the entries Toolkit rejects are parameters; `created` are the
        Toolkit entries created, in order. */
    method Execute(toolkitIdentity: map<string, string>, atlassianIdentity: map<string, string>,
                   fetchTempo: nat -> seq<Entry>, retryAnswers: seq<string>, toolkit: seq<Entry>,
                   from: int, last: int, continueAnswer: string, dateOf: int -> Date, pick: Leaf -> bool,
                   rejects: Entry -> Option<Error>)
      returns (r: Result<SyncOutcome>, created: seq<Entry>)
      modifies this
      ensures SyncRegistrant(toolkitIdentity, atlassianIdentity).Err? ==>
        r == Err(SyncRegistrant(toolkitIdentity, atlassianIdentity).error) && created == [] &&
        accountTitles == old(accountTitles)
      ensures SyncRegistrant(toolkitIdentity, atlassianIdentity).Ok? ==>
        var n := LastAttempt(fetchTempo, retryAnswers, 0);
        var scan := Scan(fetchTempo(n));
        accountTitles == scan.titles &&
        if scan.failure.Some? then r == Err(scan.failure.value) && created == []
        else if scan.errors != [] then r == Err(InvalidOperation(NoAccountMessage)) && created == []
        else
          var report := FindingsOver(fetchTempo(n), toolkit, from, last);
          if report.Err? then r == Err(report.error) && created == []
          else if report.value.diffs != map[] && !IsYes(continueAnswer) then
            r == Ok(Stopped(report.value)) && created == []
          else if report.value.missing == map[] then r == Ok(NothingMissing(report.value)) && created == []
          else
            var missing := report.value.missing;
            var picked := Where(Leaves(Tree(missing, MissingDays(missing, from, last), WeekOfDay(dateOf))), pick);
            var planned := PickedEntries(SyncRegistrant(toolkitIdentity, atlassianIdentity).value, picked, scan.titles);
            var k := FirstRejected(planned, rejects);
            created == planned[..k] &&
            (k == |planned| ==> r == Ok(Synced(report.value, picked))) &&
            (k < |planned| ==> r == Err(rejects(planned[k]).value))
      ensures r.Ok? && r.value.Synced? ==>
        forall leaf :: leaf in r.value.picked ==> pick(leaf) && IsMissing(r.value.report.missing, leaf)
    {
      created := [];
      var registrant := SyncRegistrant(toolkitIdentity, atlassianIdentity);
      if registrant.Err? {
        return Err(registrant.error), created;
      }

      var tempo, attempt := GetTempoRegistrations(fetchTempo, retryAnswers, 0);
      if tempo.Err? {
        return Err(tempo.error), created;
      }

      var report := CompareDays(tempo.value, toolkit, from, last);
      if report.Err? {
        return Err(report.error), created;
      }

      if report.value.diffs != map[] && !IsYes(continueAnswer) {
        return Ok(Stopped(report.value)), created;
      }

      var missing := report.value.missing;
      if missing == map[] {
        return Ok(NothingMissing(report.value)), created;
      }

      var days := MissingDays(missing, from, last);
      var tree := Tree(missing, days, WeekOfDay(dateOf));
      var picked := Where(Leaves(tree), pick);
      var failure;
      created, failure := CreatePicked(registrant.value, picked, rejects);
      if failure.Some? {
        return Err(failure.value), created;
      }
      forall leaf | leaf in picked
        ensures IsMissing(missing, leaf)
      {
        LeavesAreMissing(missing, days, WeekOfDay(dateOf), leaf);
      }
      return Ok(Synced(report.value, picked)), created;
    }
  }

  /** The account loop has handled the first `i` accounts. */
  predicate Compared(accounts: seq<string>, i: nat, tempoHours: map<string, real>, toolkitHours: map<string, real>,
                     diffs: seq<Finding>, missing: seq<Finding>)
    requires i <= |accounts|
  {
    diffs == DiffsOf(accounts[..i], tempoHours, toolkitHours) &&
    missing == MissingOf(accounts[..i], tempoHours, toolkitHours)
  }

  lemma AccountStep(accounts: seq<string>, i: nat, tempoHours: map<string, real>, toolkitHours: map<string, real>,
                    diffs: seq<Finding>, missing: seq<Finding>, diff: seq<Finding>, miss: seq<Finding>)
    requires i < |accounts| && Compared(accounts, i, tempoHours, toolkitHours, diffs, missing)
    requires var t := HoursOf(tempoHours, accounts[i]);
      var k := HoursOf(toolkitHours, accounts[i]);
      miss == (if Classify(t, k) == Missing then [Finding(accounts[i], t)] else []) &&
      diff == (if Classify(t, k) == Differs then [Finding(accounts[i], k - t)] else [])
    ensures Compared(accounts, i + 1, tempoHours, toolkitHours, diffs + diff, missing + miss)
  {
    assert accounts[..i + 1][..i] == accounts[..i];
  }

  lemma ComparedAll(accounts: seq<string>, tempoHours: map<string, real>, toolkitHours: map<string, real>,
                    diffs: seq<Finding>, missing: seq<Finding>)
    requires Compared(accounts, |accounts|, tempoHours, toolkitHours, diffs, missing)
    ensures diffs == DiffsOf(accounts, tempoHours, toolkitHours)
    ensures missing == MissingOf(accounts, tempoHours, toolkitHours)
  {
    assert accounts[..|accounts|] == accounts;
  }


  /** The walk over a prefix, one head further. */
  lemma ScanNext(st: TitleScan, hs: seq<Entry>, j: nat)
    requires j < |hs|
    ensures ScanHeads(st, hs[..j + 1]) == Note(ScanHeads(st, hs[..j]), hs[j])
  {
    assert hs[..j + 1][..j] == hs[..j];
  }

  /** A head lacking its identification throws, and the walk ends there. */
  lemma ScanThrows(st: TitleScan, hs: seq<Entry>, j: nat)
    requires j < |hs| && ScanHeads(st, hs[..j]).failure.None? && Needed(hs[j]) !in hs[j].accountIds
    ensures ScanHeads(st, hs) == ScanHeads(st, hs[..j]).(failure := Some(KeyNotFound(Needed(hs[j]))))
  {
    ScanNext(st, hs, j);
    assert hs == hs[..j + 1] + hs[j + 1..];
    ScanPrefixFailed(st, hs[..j + 1], hs[j + 1..]);
  }

  /** Walking one more day continues the walk over that day's groups. */
  lemma ScanStep(es: seq<Entry>, days: seq<int>, i: nat)
    requires i < |days|
    ensures ScanHeads(Fresh, Heads(es, days[..i + 1])) ==
            ScanHeads(ScanHeads(Fresh, Heads(es, days[..i])), DayHeads(es, days[i]))
  {
    assert days[..i + 1][..i] == days[..i];
    ScanHeadsAppend(Fresh, Heads(es, days[..i]), DayHeads(es, days[i]));
  }

  /** Once the walk has thrown, the remaining days change nothing. */
  lemma ScanStopped(es: seq<Entry>, days: seq<int>, n: nat)
    requires n <= |days|
    requires ScanHeads(Fresh, Heads(es, days[..n])).failure.Some?
    ensures ScanHeads(Fresh, Heads(es, days)) == ScanHeads(Fresh, Heads(es, days[..n]))
  {
    var p, q := days[..n], days[n..];
    assert days == p + q;
    HeadsAppendDays(es, p, q);
    ScanPrefixFailed(Fresh, Heads(es, p), Heads(es, q));
  }

  lemma ScanPrefixFailed(st: TitleScan, a: seq<Entry>, b: seq<Entry>)
    requires ScanHeads(st, a).failure.Some?
    ensures ScanHeads(st, a + b) == ScanHeads(st, a)
  {
    ScanHeadsAppend(st, a, b);
    ScanHeadsFailed(ScanHeads(st, a), b);
  }

  lemma {:induction false} HeadsAppendDays(es: seq<Entry>, a: seq<int>, b: seq<int>)
    ensures Heads(es, a + b) == Heads(es, a) + Heads(es, b)
  {
    if b != [] {
      assert (a + b)[..|a + b| - 1] == a + b[..|b| - 1];
      HeadsAppendDays(es, a, b[..|b| - 1]);
    } else {
      assert a + b == a;
    }
  }

  /** The day loop has compared the days `from` to `d - 1`: none of them
      has a duplicate key, and the dictionaries hold their records. */
  predicate Walked(tempo: seq<Entry>, toolkit: seq<Entry>, from: int, d: int,
                   diffs: map<int, seq<Finding>>, missing: map<int, seq<Finding>>) {
    !DuplicateDay(tempo, toolkit, from, d - 1) &&
    diffs == DiffsMap(tempo, toolkit, from, d - 1) &&
    missing == MissingMap(tempo, toolkit, from, d - 1)
  }

  /** `dict[d] = records` when there are any. */
  function AddDay(m: map<int, seq<Finding>>, d: int, records: seq<Finding>): map<int, seq<Finding>> {
    if records != [] then m[d := records] else m
  }

  lemma WalkStart(tempo: seq<Entry>, toolkit: seq<Entry>, from: int)
    ensures Walked(tempo, toolkit, from, from, map[], map[])
  {
    DaysWithEmpty(from, from - 1, d => DiffsOn(tempo, toolkit, d));
    DaysWithEmpty(from, from - 1, d => MissingOn(tempo, toolkit, d));
  }

  /** Comparing one more readable day extends the walk by its records. */
  lemma WalkStep(tempo: seq<Entry>, toolkit: seq<Entry>, from: int, d: int,
                 diffs: map<int, seq<Finding>>, missing: map<int, seq<Finding>>)
    requires from <= d && Walked(tempo, toolkit, from, d, diffs, missing) && DayReadable(tempo, toolkit, d)
    ensures Walked(tempo, toolkit, from, d + 1,
      AddDay(diffs, d, DiffsOn(tempo, toolkit, d)), AddDay(missing, d, MissingOn(tempo, toolkit, d)))
  {
    ReadableDay(tempo, toolkit, from, d);
    DaysWithStep(from, d, d => DiffsOn(tempo, toolkit, d));
    DaysWithStep(from, d, d => MissingOn(tempo, toolkit, d));
  }

  /** A finished walk is the report of the range. */
  lemma WalkDone(tempo: seq<Entry>, toolkit: seq<Entry>, from: int, last: int,
                 diffs: map<int, seq<Finding>>, missing: map<int, seq<Finding>>)
    requires Walked(tempo, toolkit, from, last + 1, diffs, missing)
    ensures FindingsOver(tempo, toolkit, from, last) == Ok(Findings(diffs, missing))
  {
  }

  /** Before the first day the dictionaries are empty. */
  lemma EmptyWalk(tempo: seq<Entry>, toolkit: seq<Entry>, from: int,
                  diffs: map<int, seq<Finding>>, missing: map<int, seq<Finding>>)
    requires Walked(tempo, toolkit, from, from, diffs, missing)
    ensures diffs == map[] && missing == map[]
  {
    DaysWithEmpty(from, from - 1, d => DiffsOn(tempo, toolkit, d));
    DaysWithEmpty(from, from - 1, d => MissingOn(tempo, toolkit, d));
  }

  /** A loop that never ran leaves the empty report of an empty range. */
  lemma WalkNone(tempo: seq<Entry>, toolkit: seq<Entry>, from: int, last: int,
                 diffs: map<int, seq<Finding>>, missing: map<int, seq<Finding>>)
    requires last < from && Walked(tempo, toolkit, from, from, diffs, missing)
    ensures FindingsOver(tempo, toolkit, from, last) == Ok(Findings(diffs, missing))
  {
    EmptyRange(tempo, toolkit, from, last);
    EmptyWalk(tempo, toolkit, from, diffs, missing);
  }

  /** An empty range reports nothing. */
  lemma EmptyRange(tempo: seq<Entry>, toolkit: seq<Entry>, from: int, last: int)
    requires last < from
    ensures FindingsOver(tempo, toolkit, from, last) == Ok(Findings(map[], map[]))
  {
    DaysWithEmpty(from, last, d => DiffsOn(tempo, toolkit, d));
    DaysWithEmpty(from, last, d => MissingOn(tempo, toolkit, d));
  }

  /** A day of the range that cannot be read makes the whole range fail. */
  lemma FindingsGrow(tempo: seq<Entry>, toolkit: seq<Entry>, from: int, d: int, last: int)
    requires from <= d <= last && !DayReadable(tempo, toolkit, d)
    ensures FindingsOver(tempo, toolkit, from, last) == Err(DuplicateKey(""))
  {
    assert Unreadable(tempo, toolkit, d);
  }

  /** A readable day keeps a range without duplicate keys so. */
  lemma ReadableDay(tempo: seq<Entry>, toolkit: seq<Entry>, from: int, d: int)
    requires from <= d && !DuplicateDay(tempo, toolkit, from, d - 1) && DayReadable(tempo, toolkit, d)
    ensures !DuplicateDay(tempo, toolkit, from, d)
  {
    DuplicateDayStep(tempo, toolkit, from, d);
  }
}

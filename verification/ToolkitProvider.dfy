/** The Toolkit provider: time registrations in a SharePoint list, with the
    cases and work packages they are booked on. SharePoint itself is not
    modelled: what a list query returns, the id a new item gets and the
    signed-in user arrive as parameters. What is modelled is the state-code
    filter, the cached case and work-package dictionaries, the default field
    values, and the order in which a registration finds or creates the case
    and work package for its invoice account. */
module ToolkitProvider {
  import opened Wrappers
  import opened Domain
  import opened Text
  import opened CacheUtil

  const CasesKey := "ToolkitCasesCache"
  const DefaultsKey := "ToolkitDefaultsCache"

  /** The cache key of the work packages assigned to `regName`. */
  function WorkPackagesKey(regName: string): string {
    "ToolkitWPCache_" + regName
  }

  /** The prefix of a lookup default whose id the user picks from a list. */
  const PromptPrefix := "PromptFromList:"

  const NotInitialized := "Initialize the provider before using it"
  const NotAuthenticatedCall := "Authentication failed. Authentication must be established prior to calling this method"
  const NotAuthenticatedEntries := "Authentication failed. Authentication must be established prior to retrieving time entries"
  const NoFullNameEntries := "The registrant must have FullName identification"
  const NoInvoiceAccount := "AccountIdentifications must contain an InvoiceAccount"
  const NoInvoiceAccountText := "AccountIdentifications must contain an InvoiceAccountText"
  const NoRegistrantName := "Registrant must contain a FullName identification"
  const NotCurrentUser := "Only time registrations for the current user can be created"
  const UnknownFieldType := "Unknown FieldType '"

  /** The provider can write registrations and needs no setup step. */
  const CanCreate := true
  const NeedsSetup := false

  /** One `<default>` of the configured case or work-package defaults. */
  datatype DefaultMapping = DefaultMapping(field: string, fieldType: string, value: string)

  /** The `toolkitSettings` section, as far as the modelled code reads it. */
  datatype Settings = Settings(
    caseActiveStateCodes: string,
    workPackageActiveStateCodes: string,
    caseDefaults: seq<DefaultMapping>,
    workPackageDefaults: seq<DefaultMapping>)

  /** A case or work-package item as a list query returns it. */
  datatype ListRow = ListRow(id: int, title: Option<string>, invoiceAccount: Option<string>, status: Option<string>)

  /** A time-registration item as the registration query returns it. */
  datatype RegistrationRow = RegistrationRow(hours: real, day: int, caseTitle: Option<string>, account: Option<string>)

  /** A value written into a field of a new list item. */
  datatype FieldValue =
    | TextField(text: Option<string>)
    | LookupField(id: int)
    | NumberField(number: real)
    | UserField(user: string)

  /** The registration item `CreateTimeRegistration` adds. */
  datatype Registration = Registration(caseId: int, workPackage: int, hours: real, day: int, doneBy: string)

  // ---- Building a dictionary in a loop

  /** A `foreach` that assigns `dict[key] = value`: each element contributes a
      pair, is skipped (None) or throws, and a later pair overwrites an
      earlier one with the same key. */
  function Collect<T, K, V>(xs: seq<T>, step: T -> Result<Option<(K, V)>>): Result<map<K, V>>
  {
    if xs == [] then Ok(map[])
    else
      match Collect(xs[..|xs| - 1], step)
      case Err(e) => Err(e)
      case Ok(m) =>
        match step(xs[|xs| - 1])
        case Err(e) => Err(e)
        case Ok(p) => Ok(if p.Some? then m[p.value.0 := p.value.1] else m)
  }

  predicate Contributes<K(==), V>(r: Result<Option<(K, V)>>, k: K) {
    r.Ok? && r.value.Some? && r.value.value.0 == k
  }

  /** The loop succeeds exactly when no element throws. */
  lemma {:induction false} CollectOk<T, K, V>(xs: seq<T>, step: T -> Result<Option<(K, V)>>)
    ensures Collect(xs, step).Ok? <==> forall i :: 0 <= i < |xs| ==> step(xs[i]).Ok?
  {
    if xs != [] {
      var init := xs[..|xs| - 1];
      CollectOk(init, step);
      assert forall i :: 0 <= i < |init| ==> init[i] == xs[i];
    }
  }

  /** Every key an element contributes ends up in the dictionary. */
  lemma {:induction false} CollectKeys<T, K, V>(xs: seq<T>, step: T -> Result<Option<(K, V)>>)
    requires Collect(xs, step).Ok?
    ensures forall i :: 0 <= i < |xs| && step(xs[i]).Ok? && step(xs[i]).value.Some? ==>
      step(xs[i]).value.value.0 in Collect(xs, step).value
  {
    if xs != [] {
      var init := xs[..|xs| - 1];
      CollectKeys(init, step);
      assert forall i :: 0 <= i < |init| ==> init[i] == xs[i];
    }
  }

  /** Every key in the dictionary holds the value of the last element that
      contributed that key. */
  lemma {:induction false} CollectLastWins<T, K, V>(xs: seq<T>, step: T -> Result<Option<(K, V)>>)
    requires Collect(xs, step).Ok?
    ensures forall k :: k in Collect(xs, step).value ==>
      exists i :: 0 <= i < |xs| && step(xs[i]) == Ok(Some((k, Collect(xs, step).value[k]))) &&
        forall j :: i < j < |xs| ==> !Contributes(step(xs[j]), k)
  {
    if xs != [] {
      var init := xs[..|xs| - 1];
      var n := |xs| - 1;
      CollectLastWins(init, step);
      var r := Collect(xs, step);
      var m := Collect(init, step).value;
      var p := step(xs[n]).value;
      forall k | k in r.value
        ensures exists i :: (0 <= i < |xs| && step(xs[i]) == Ok(Some((k, r.value[k]))) &&
          forall j :: i < j < |xs| ==> !Contributes(step(xs[j]), k))
      {
        if p.Some? && p.value.0 == k {
          assert step(xs[n]) == Ok(Some((k, r.value[k])));
        } else {
          assert k in m && r.value[k] == m[k];
          var i :| 0 <= i < n && step(init[i]) == Ok(Some((k, m[k]))) &&
            forall j :: i < j < n ==> !Contributes(step(init[j]), k);
          assert init[i] == xs[i];
          assert forall j :: i < j < n ==> init[j] == xs[j];
        }
      }
    }
  }

  /** Once an element has thrown, the rest of the loop does not matter. */
  lemma {:induction false} CollectStops<T, K, V>(xs: seq<T>, k: nat, step: T -> Result<Option<(K, V)>>)
    requires k <= |xs| && Collect(xs[..k], step).Err?
    ensures Collect(xs, step) == Collect(xs[..k], step)
    decreases |xs|
  {
    if k < |xs| {
      var init := xs[..|xs| - 1];
      assert init[..k] == xs[..k];
      CollectStops(init, k, step);
    } else {
      assert xs[..k] == xs;
    }
  }

  // ---- State codes

  /** The status begins with a numeric code followed by white space:
      `^[0-9]+(?=\s)`. */
  predicate HasStateCode(state: string) {
    exists n :: 0 < n < |state| && AllChars(state[..n], IsDigit) && IsRegexSpace(state[n])
  }

  /** The code at the start of a status, read with `int.Parse` (which throws
      on a code beyond 32 bits); None when there is no code. */
  function StateCode(state: string): (r: Option<Result<int>>)
    ensures r.Some? <==> HasStateCode(state)
    ensures r.Some? ==>
      exists n :: 0 < n < |state| && AllChars(state[..n], IsDigit) && IsRegexSpace(state[n]) &&
        r.value == ParseInt32(state[..n])
  {
    var n := RunLength(state, IsDigit);
    if HasStateCode(state) then
      var k :| 0 < k < |state| && AllChars(state[..k], IsDigit) && IsRegexSpace(state[k]);
      assert !IsDigit(state[k]);
      assert k == n;
      Some(ParseInt32(state[..n]))
    else
      None
  }

  /** One configured state: "<n" admits codes below n, ">n" codes above n,
      anything else the code n itself; a spec that is not a number throws. */
  function SpecHolds(code: int, spec: string): Result<bool> {
    if StartsWith(spec, "<") then
      match ParseInt32(spec[1..])
      case Err(e) => Err(e)
      case Ok(bound) => Ok(code < bound)
    else if StartsWith(spec, ">") then
      match ParseInt32(spec[1..])
      case Err(e) => Err(e)
      case Ok(bound) => Ok(code > bound)
    else
      match ParseInt32(spec)
      case Err(e) => Err(e)
      case Ok(v) => Ok(code == v)
  }

  /** A number written out is not a "<" or ">" spec. */
  lemma PlainNumber(n: int)
    ensures !StartsWith(IntString(n), "<") && !StartsWith(IntString(n), ">")
  {
    var s := IntString(n);
    if n >= 0 {
      assert s == NatDigits(n);
      assert IsDigit(s[0]);
    }
  }

  /** "<n" admits exactly the codes below a 32-bit `n`. */
  lemma SpecBelow(code: int, n: int)
    requires Int32Min <= n <= Int32Max
    ensures SpecHolds(code, "<" + IntString(n)) == Ok(code < n)
  {
    ParseIntString(n);
    assert ("<" + IntString(n))[1..] == IntString(n);
  }

  /** ">n" admits exactly the codes above a 32-bit `n`. */
  lemma SpecAbove(code: int, n: int)
    requires Int32Min <= n <= Int32Max
    ensures SpecHolds(code, ">" + IntString(n)) == Ok(code > n)
  {
    ParseIntString(n);
    assert (">" + IntString(n))[1..] == IntString(n);
  }

  /** A plain number admits exactly that code. */
  lemma SpecEquals(code: int, n: int)
    requires Int32Min <= n <= Int32Max
    ensures SpecHolds(code, IntString(n)) == Ok(code == n)
  {
    ParseIntString(n);
    PlainNumber(n);
  }

  /** `foreach (var x in xs) if (test(x)) return true; return false;` where a
      test may throw. */
  function FirstTrue<T>(xs: seq<T>, test: T -> Result<bool>): Result<bool> {
    if xs == [] then Ok(false)
    else
      match test(xs[0])
      case Err(e) => Err(e)
      case Ok(b) => if b then Ok(true) else FirstTrue(xs[1..], test)
  }

  /** The search answers true exactly when some test holds and every test
      before it ran and failed. */
  lemma {:induction false} FirstTrueFound<T>(xs: seq<T>, test: T -> Result<bool>)
    ensures FirstTrue(xs, test) == Ok(true) <==>
      exists i :: 0 <= i < |xs| && test(xs[i]) == Ok(true) && forall j :: 0 <= j < i ==> test(xs[j]) == Ok(false)
  {
    if xs != [] {
      var tail := xs[1..];
      FirstTrueFound(tail, test);
      if test(xs[0]) == Ok(false) {
        if FirstTrue(xs, test) == Ok(true) {
          var i :| 0 <= i < |tail| && test(tail[i]) == Ok(true) && forall j :: 0 <= j < i ==> test(tail[j]) == Ok(false);
          assert tail[i] == xs[i + 1];
          forall j | 0 <= j < i + 1 ensures test(xs[j]) == Ok(false) {
            if j > 0 { assert xs[j] == tail[j - 1]; }
          }
        }
        if exists i :: (0 <= i < |xs| && test(xs[i]) == Ok(true) && forall j :: 0 <= j < i ==> test(xs[j]) == Ok(false)) {
          var i :| 0 <= i < |xs| && test(xs[i]) == Ok(true) && forall j :: 0 <= j < i ==> test(xs[j]) == Ok(false);
          assert tail[i - 1] == xs[i];
          forall j | 0 <= j < i - 1 ensures test(tail[j]) == Ok(false) {
            assert tail[j] == xs[j + 1];
          }
        }
      } else if test(xs[0]) == Ok(true) {
        assert test(xs[0]) == Ok(true);
      }
    }
  }

  /** The search answers false exactly when every test runs and fails. */
  lemma {:induction false} FirstTrueNone<T>(xs: seq<T>, test: T -> Result<bool>)
    ensures FirstTrue(xs, test) == Ok(false) <==> forall i :: 0 <= i < |xs| ==> test(xs[i]) == Ok(false)
  {
    if xs != [] {
      var tail := xs[1..];
      FirstTrueNone(tail, test);
      assert forall i :: 0 <= i < |tail| ==> tail[i] == xs[i + 1];
      if test(xs[0]) == Ok(false) {
        if forall i :: 0 <= i < |tail| ==> test(tail[i]) == Ok(false) {
          forall i | 0 <= i < |xs| ensures test(xs[i]) == Ok(false) {
            if i > 0 { assert xs[i] == tail[i - 1]; }
          }
        }
      }
    }
  }

  function SpecTest(code: int): string -> Result<bool> {
    spec => SpecHolds(code, spec)
  }

  /** The specs tried in order: the first that holds answers true, the first
      that cannot be parsed throws. */
  function FirstMatch(code: int, specs: seq<string>): Result<bool> {
    FirstTrue(specs, SpecTest(code))
  }

  /** A code is valid exactly when some spec holds and every spec before it
      parses and does not; it is invalid exactly when every spec parses and
      none holds. */
  lemma FirstMatchMeaning(code: int, specs: seq<string>)
    ensures FirstMatch(code, specs) == Ok(true) <==>
      exists i :: 0 <= i < |specs| && SpecHolds(code, specs[i]) == Ok(true) &&
        forall j :: 0 <= j < i ==> SpecHolds(code, specs[j]) == Ok(false)
    ensures FirstMatch(code, specs) == Ok(false) <==>
      forall i :: 0 <= i < |specs| ==> SpecHolds(code, specs[i]) == Ok(false)
  {
    FirstTrueFound(specs, SpecTest(code));
    FirstTrueNone(specs, SpecTest(code));
    assert forall i :: 0 <= i < |specs| ==> SpecTest(code)(specs[i]) == SpecHolds(code, specs[i]);
  }

  /** `IsValidState` as a value: no status or no leading code is invalid,
      otherwise the code is tried against the specs. */
  function StateValid(state: Option<string>, specs: seq<string>): Result<bool> {
    if state.None? then Ok(false)
    else
      match StateCode(state.value)
      case None => Ok(false)
      case Some(Err(e)) => Err(e)
      case Some(Ok(code)) => FirstMatch(code, specs)
  }

  /** `IsValidState`: the leading code of the status, then the specs in order,
      returning at the first that holds. */
  method IsValidState(state: Option<string>, validStates: seq<string>) returns (r: Result<bool>)
    ensures r == StateValid(state, validStates)
    ensures state.None? || !HasStateCode(state.value) ==> r == Ok(false)
  {
    if state.None? {
      return Ok(false);
    }
    var found := StateCode(state.value);
    if found.None? {
      return Ok(false);
    }
    if found.value.Err? {
      return Err(found.value.error);
    }
    var code := found.value.value;
    for i := 0 to |validStates|
      invariant FirstMatch(code, validStates[i..]) == FirstMatch(code, validStates)
    {
      assert validStates[i..][1..] == validStates[i + 1..];
      var holds := SpecHolds(code, validStates[i]);
      if holds.Err? {
        return Err(holds.error);
      }
      if holds.value {
        return Ok(true);
      }
    }
    return Ok(false);
  }

  // ---- Refreshing the case and work-package dictionaries

  function EntryOf(row: ListRow): ListEntry {
    ListEntry(row.title, row.invoiceAccount)
  }

  /** What one row contributes to a refreshed dictionary. */
  function RowPair(specs: seq<string>, row: ListRow): Result<Option<(int, ListEntry)>> {
    match StateValid(row.status, specs)
    case Err(e) => Err(e)
    case Ok(valid) => Ok(if valid then Some((row.id, EntryOf(row))) else None)
  }

  function RowStep(specs: seq<string>): ListRow -> Result<Option<(int, ListEntry)>> {
    row => RowPair(specs, row)
  }

  /** The dictionary a refresh rebuilds from the rows of the list. */
  function ValidItems(rows: seq<ListRow>, specs: seq<string>): Result<map<int, ListEntry>> {
    Collect(rows, RowStep(specs))
  }

  /** What a row contributes, in terms of its state. */
  lemma RowPairMeaning(specs: seq<string>, row: ListRow)
    ensures RowStep(specs)(row) == RowPair(specs, row)
    ensures RowPair(specs, row).Ok? <==> StateValid(row.status, specs).Ok?
    ensures Contributes(RowPair(specs, row), row.id) <==> StateValid(row.status, specs) == Ok(true)
    ensures RowPair(specs, row).Ok? && RowPair(specs, row).value.Some? ==>
      RowPair(specs, row).value.value == (row.id, EntryOf(row))
  {
  }

  /** A refresh throws exactly when some row's state cannot be read. */
  lemma RefreshFails(rows: seq<ListRow>, specs: seq<string>)
    ensures ValidItems(rows, specs).Ok? <==> forall i :: 0 <= i < |rows| ==> StateValid(rows[i].status, specs).Ok?
  {
    CollectOk(rows, RowStep(specs));
    assert forall i :: 0 <= i < |rows| ==> RowStep(specs)(rows[i]).Ok? == StateValid(rows[i].status, specs).Ok?;
  }

  /** A refresh keeps every row whose state is valid. */
  lemma RefreshKeepsValid(rows: seq<ListRow>, specs: seq<string>)
    requires ValidItems(rows, specs).Ok?
    ensures forall i :: 0 <= i < |rows| && StateValid(rows[i].status, specs) == Ok(true) ==>
      rows[i].id in ValidItems(rows, specs).value
  {
    CollectKeys(rows, RowStep(specs));
    forall i | 0 <= i < |rows| && StateValid(rows[i].status, specs) == Ok(true)
      ensures rows[i].id in ValidItems(rows, specs).value
    {
      assert RowStep(specs)(rows[i]) == Ok(Some((rows[i].id, EntryOf(rows[i]))));
    }
  }

  /** Each id a refresh keeps carries the entry of the last row with that id,
      and that row's state is valid while no later row with the id is. */
  lemma RefreshOnlyValid(rows: seq<ListRow>, specs: seq<string>)
    requires ValidItems(rows, specs).Ok?
    ensures forall id :: id in ValidItems(rows, specs).value ==>
      exists i :: 0 <= i < |rows| && rows[i].id == id && StateValid(rows[i].status, specs) == Ok(true) &&
        ValidItems(rows, specs).value[id] == EntryOf(rows[i]) &&
        forall j :: i < j < |rows| && rows[j].id == id ==> StateValid(rows[j].status, specs) == Ok(false)
  {
    var step := RowStep(specs);
    CollectLastWins(rows, step);
    RefreshFails(rows, specs);
    var r := ValidItems(rows, specs).value;
    forall id | id in r
      ensures exists i :: (0 <= i < |rows| && rows[i].id == id && StateValid(rows[i].status, specs) == Ok(true) &&
        r[id] == EntryOf(rows[i]) &&
        forall j :: i < j < |rows| && rows[j].id == id ==> StateValid(rows[j].status, specs) == Ok(false))
    {
      var i :| 0 <= i < |rows| && step(rows[i]) == Ok(Some((id, r[id]))) &&
        forall j :: i < j < |rows| ==> !Contributes(step(rows[j]), id);
      RowWinner(rows, specs, id, r[id], i);
    }
  }

  /** The row that put `id` into a refreshed dictionary last. */
  lemma RowWinner(rows: seq<ListRow>, specs: seq<string>, id: int, e: ListEntry, i: nat)
    requires i < |rows| && RowStep(specs)(rows[i]) == Ok(Some((id, e)))
    requires forall j :: i < j < |rows| ==> !Contributes(RowStep(specs)(rows[j]), id)
    requires forall j :: 0 <= j < |rows| ==> StateValid(rows[j].status, specs).Ok?
    ensures rows[i].id == id && StateValid(rows[i].status, specs) == Ok(true) && e == EntryOf(rows[i])
    ensures forall j :: i < j < |rows| && rows[j].id == id ==> StateValid(rows[j].status, specs) == Ok(false)
  {
    RowPairMeaning(specs, rows[i]);
    forall j | i < j < |rows| && rows[j].id == id
      ensures StateValid(rows[j].status, specs) == Ok(false)
    {
      RowPairMeaning(specs, rows[j]);
    }
  }


  /** The refresh loop of `GetCases` and `GetWorkPackages`. */
  method CollectValid(rows: seq<ListRow>, specs: seq<string>) returns (r: Result<map<int, ListEntry>>)
    ensures r == ValidItems(rows, specs)
  {
    var items: map<int, ListEntry> := map[];
    for i := 0 to |rows|
      invariant Collect(rows[..i], RowStep(specs)) == Ok(items)
    {
      assert rows[..i + 1][..i] == rows[..i];
      var valid := IsValidState(rows[i].status, specs);
      if valid.Err? {
        CollectStops(rows, i + 1, RowStep(specs));
        return Err(valid.error);
      }
      if valid.value {
        items := items[rows[i].id := EntryOf(rows[i])];
      }
    }
    assert rows[..|rows|] == rows;
    return Ok(items);
  }

  /** Some item in the dictionary is booked on `account`. */
  predicate HasAccount(items: map<int, ListEntry>, account: Option<string>) {
    exists id :: id in items && items[id].invoiceAccount == account
  }

  /** The dictionary cached under `key` in `doc`, as a typed read gives it. */
  function Items(doc: Document, key: string): Option<map<int, ListEntry>> {
    AsListEntries(Lookup(doc, key))
  }

  /** The cached list choices of prompted defaults. */
  function Choices(doc: Document): Option<map<string, int>> {
    AsDefaultIds(Lookup(doc, DefaultsKey))
  }

  /** How the three steps of finding an item for `account` end: done when the
      cached dictionary (`cached`) holds one; else as the forced refresh
      (`refreshed`) throws; else done when the refreshed list holds one; else
      as creating the item ends (`creating`). */
  function FindOutcome(cached: Option<map<int, ListEntry>>, refreshed: Result<map<int, ListEntry>>,
                       account: Option<string>, creating: Outcome): (r: Outcome)
    ensures r.Done? <==> ((cached.Some? && HasAccount(cached.value, account)) ||
      (refreshed.Ok? && (HasAccount(refreshed.value, account) || creating.Done?)))
    ensures r.Failed? ==> r.error == (if refreshed.Err? then refreshed.error else creating.error)
  {
    if cached.Some? && HasAccount(cached.value, account) then Done
    else if refreshed.Err? then Failed(refreshed.error)
    else if HasAccount(refreshed.value, account) then Done
    else creating
  }

  /** The three steps of finding an item for `account` under `key` in the
      cache document `doc`: the dictionary the item is picked from, or the
      error thrown, and the document afterwards. A refresh that reads the list
      (`refreshed`) stores it; when the list has no item for the account,
      `creating` says how creating `item` under `newId` ends, and on success
      the item joins the stored list. */
  function Find(doc: Document, key: string, refreshed: Result<map<int, ListEntry>>, account: Option<string>,
                creating: Outcome, item: ListEntry, newId: int): (r: (Result<map<int, ListEntry>>, Document))
    requires item.invoiceAccount == account
    ensures r.0.Ok? <==> FindOutcome(Items(doc, key), refreshed, account, creating).Done?
    ensures r.0.Err? ==> r.0.error == FindOutcome(Items(doc, key), refreshed, account, creating).error
    ensures r.0.Ok? ==> HasAccount(r.0.value, account) && Items(r.1, key) == Some(r.0.value)
    ensures SameOutside(r.1, doc, key)
  {
    var cached := Items(doc, key);
    if cached.Some? && HasAccount(cached.value, account) then (Ok(cached.value), doc)
    else if refreshed.Err? then (Err(refreshed.error), doc)
    else
      var stored := Store(doc, key, Some(ListEntriesValue(refreshed.value)));
      if HasAccount(refreshed.value, account) then (Ok(refreshed.value), stored)
      else if creating.Failed? then (Err(creating.error), stored)
      else
        var added := refreshed.value[newId := item];
        assert added[newId].invoiceAccount == account;
        (Ok(added), Store(doc, key, Some(ListEntriesValue(added))))
  }

  /** `Find` step by step: a cache hit changes nothing; a failing refresh
      throws its error and changes nothing; a refreshed list with an item for
      the account is stored and picked from; otherwise the refreshed list is
      stored and the created item joins it under `newId`, or the creation's
      error is thrown. */
  lemma FindSteps(doc: Document, key: string, refreshed: Result<map<int, ListEntry>>, account: Option<string>,
                  creating: Outcome, item: ListEntry, newId: int)
    requires item.invoiceAccount == account
    ensures var (found, after) := Find(doc, key, refreshed, account, creating, item, newId);
      (CachedHas(doc, key, account) ==> found == Ok(Items(doc, key).value) && after == doc) &&
      (!CachedHas(doc, key, account) && refreshed.Err? ==> found == Err(refreshed.error) && after == doc) &&
      (!CachedHas(doc, key, account) && refreshed.Ok? && HasAccount(refreshed.value, account) ==>
        found == refreshed && after == Store(doc, key, Some(ListEntriesValue(refreshed.value)))) &&
      (!CachedHas(doc, key, account) && refreshed.Ok? && !HasAccount(refreshed.value, account) && creating.Failed? ==>
        found == Err(creating.error) && after == Store(doc, key, Some(ListEntriesValue(refreshed.value)))) &&
      (!CachedHas(doc, key, account) && refreshed.Ok? && !HasAccount(refreshed.value, account) && creating.Done? ==>
        found == Ok(refreshed.value[newId := item]) && after == Store(doc, key, Some(ListEntriesValue(refreshed.value[newId := item]))) &&
        forall id :: id in found.value && found.value[id].invoiceAccount == account ==> id == newId)
  {
    if !CachedHas(doc, key, account) && refreshed.Ok? && !HasAccount(refreshed.value, account) && creating.Done? {
      OnlyNewHasAccount(refreshed.value, refreshed.value[newId := item], newId, account);
    }
  }

  /** The dictionary cached under `key` in `doc` holds an item booked on
      `account`. */
  predicate CachedHas(doc: Document, key: string, account: Option<string>) {
    Items(doc, key).Some? && HasAccount(Items(doc, key).value, account)
  }

  /** After an item for `account` is added to a dictionary that had none,
      the added item is the only one for the account. */
  lemma OnlyNewHasAccount(before: map<int, ListEntry>, after: map<int, ListEntry>, newId: int, account: Option<string>)
    requires !HasAccount(before, account)
    requires newId in after && after[newId].invoiceAccount == account && after == before[newId := after[newId]]
    ensures HasAccount(after, account)
    ensures forall id :: id in after && after[id].invoiceAccount == account ==> id == newId
  {
  }

  // ---- Default field values

  /** `StartsWith("PromptFromList:", CurrentCultureIgnoreCase)`. */
  predicate IsPromptValue(value: string) {
    StartsWithIgnoreCase(value, PromptPrefix)
  }

  /** The list a prompted default refers to: the text after the prefix. */
  function PromptList(value: string): string
    requires IsPromptValue(value)
  {
    value[|PromptPrefix|..]
  }

  predicate IsKnownFieldType(t: string) {
    t == "Choice" || t == "Lookup" || t == "Number" || t == "Text"
  }

  /** The value `SetDefaultValues` writes for one default, given the cached
      list choices (None when nothing is cached). */
  function DefaultValue(d: DefaultMapping, chosen: Option<map<string, int>>): (r: Result<FieldValue>)
    ensures !IsKnownFieldType(d.fieldType) ==> r.Err? && r.error.InvalidOperation?
    ensures (d.fieldType == "Choice" || d.fieldType == "Text") ==> r == Ok(TextField(Some(d.value)))
    ensures d.fieldType == "Lookup" && IsPromptValue(d.value) ==>
      (r.Ok? <==> chosen.Some? && PromptList(d.value) in chosen.value) &&
      (r.Ok? ==> r.value == LookupField(chosen.value[PromptList(d.value)]))
    ensures r.Ok? ==> IsKnownFieldType(d.fieldType)
  {
    if d.fieldType == "Choice" then Ok(TextField(Some(d.value)))
    else if d.fieldType == "Lookup" then
      if IsPromptValue(d.value) then
        var listName := PromptList(d.value);
        if chosen.None? then Err(NullReference)
        else if listName !in chosen.value then Err(KeyNotFound(listName))
        else Ok(LookupField(chosen.value[listName]))
      else
        match ParseInt32(d.value)
        case Err(e) => Err(e)
        case Ok(id) => Ok(LookupField(id))
    else if d.fieldType == "Number" then
      match ParseDecimal(d.value)
      case Err(e) => Err(e)
      case Ok(x) => Ok(NumberField(x))
    else if d.fieldType == "Text" then Ok(TextField(Some(d.value)))
    else Err(InvalidOperation(UnknownFieldType + d.fieldType + "'"))
  }

  /** A lookup default written as a 32-bit number is that item id. */
  lemma LookupByNumber(field: string, n: int, chosen: Option<map<string, int>>)
    requires Int32Min <= n <= Int32Max
    ensures DefaultValue(DefaultMapping(field, "Lookup", IntString(n)), chosen) == Ok(LookupField(n))
  {
    ParseIntString(n);
    var s := IntString(n);
    if n >= 0 {
      assert s == NatDigits(n);
      assert IsDigit(s[0]);
    }
    assert ToUpperAscii(s[0]) != ToUpperAscii(PromptPrefix[0]);
  }

  /** A prompted lookup, whatever the case of its prefix, reads the id chosen
      for the list named after the prefix. */
  lemma LookupByPrompt(field: string, prefix: string, listName: string, chosen: map<string, int>)
    requires |prefix| == |PromptPrefix| && StartsWithIgnoreCase(prefix, PromptPrefix)
    requires listName in chosen
    ensures DefaultValue(DefaultMapping(field, "Lookup", prefix + listName), Some(chosen)) == Ok(LookupField(chosen[listName]))
  {
    var v := prefix + listName;
    assert forall i :: 0 <= i < |prefix| ==> v[i] == prefix[i];
    assert IsPromptValue(v);
    assert PromptList(v) == listName;
  }

  function DefaultPair(chosen: Option<map<string, int>>, d: DefaultMapping): Result<Option<(string, FieldValue)>> {
    match DefaultValue(d, chosen)
    case Err(e) => Err(e)
    case Ok(v) => Ok(Some((d.field, v)))
  }

  function DefaultStep(chosen: Option<map<string, int>>): DefaultMapping -> Result<Option<(string, FieldValue)>> {
    d => DefaultPair(chosen, d)
  }

  /** The fields `SetDefaultValues` writes into a new item. */
  function DefaultFields(defaults: seq<DefaultMapping>, chosen: Option<map<string, int>>): Result<map<string, FieldValue>> {
    Collect(defaults, DefaultStep(chosen))
  }

  /** Setting the defaults throws exactly when one of them cannot be
      resolved. */
  lemma DefaultsFail(defaults: seq<DefaultMapping>, chosen: Option<map<string, int>>)
    ensures DefaultFields(defaults, chosen).Ok? <==> forall i :: 0 <= i < |defaults| ==> DefaultValue(defaults[i], chosen).Ok?
  {
    CollectOk(defaults, DefaultStep(chosen));
    assert forall i :: 0 <= i < |defaults| ==> DefaultStep(chosen)(defaults[i]).Ok? == DefaultValue(defaults[i], chosen).Ok?;
  }

  /** Otherwise the configured fields are exactly the fields written. */
  lemma DefaultsCoverFields(defaults: seq<DefaultMapping>, chosen: Option<map<string, int>>)
    requires DefaultFields(defaults, chosen).Ok?
    ensures forall f :: f in DefaultFields(defaults, chosen).value <==> exists i :: 0 <= i < |defaults| && defaults[i].field == f
  {
    var step := DefaultStep(chosen);
    var r := DefaultFields(defaults, chosen).value;
    CollectKeys(defaults, step);
    CollectLastWins(defaults, step);
    DefaultsFail(defaults, chosen);
    forall f | exists i :: 0 <= i < |defaults| && defaults[i].field == f
      ensures f in r
    {
      var i :| 0 <= i < |defaults| && defaults[i].field == f;
      assert step(defaults[i]).Ok?;
    }
  }

  /** Each written field holds the value of the last default naming it. */
  lemma DefaultsLastWins(defaults: seq<DefaultMapping>, chosen: Option<map<string, int>>)
    requires DefaultFields(defaults, chosen).Ok?
    ensures forall f :: f in DefaultFields(defaults, chosen).value ==>
      exists i :: 0 <= i < |defaults| && defaults[i].field == f && DefaultValue(defaults[i], chosen).Ok? &&
        DefaultFields(defaults, chosen).value[f] == DefaultValue(defaults[i], chosen).value &&
        forall j :: i < j < |defaults| ==> defaults[j].field != f
  {
    var step := DefaultStep(chosen);
    var r := DefaultFields(defaults, chosen).value;
    CollectLastWins(defaults, step);
    DefaultsFail(defaults, chosen);
    forall f | f in r
      ensures exists i :: (0 <= i < |defaults| && defaults[i].field == f && DefaultValue(defaults[i], chosen).Ok? &&
        r[f] == DefaultValue(defaults[i], chosen).value &&
        forall j :: i < j < |defaults| ==> defaults[j].field != f)
    {
      var i :| 0 <= i < |defaults| && step(defaults[i]) == Ok(Some((f, r[f]))) &&
        forall j :: i < j < |defaults| ==> !Contributes(step(defaults[j]), f);
      DefaultWinner(defaults, chosen, f, r[f], i);
    }
  }

  /** The default that contributed a field last names it, gives its value,
      and no later default names the same field. */
  lemma DefaultWinner(defaults: seq<DefaultMapping>, chosen: Option<map<string, int>>, f: string, v: FieldValue, i: nat)
    requires i < |defaults| && DefaultStep(chosen)(defaults[i]) == Ok(Some((f, v)))
    requires forall j :: i < j < |defaults| ==> !Contributes(DefaultStep(chosen)(defaults[j]), f)
    requires forall j :: 0 <= j < |defaults| ==> DefaultValue(defaults[j], chosen).Ok?
    ensures defaults[i].field == f && DefaultValue(defaults[i], chosen) == Ok(v)
    ensures forall j :: i < j < |defaults| ==> defaults[j].field != f
  {
    assert DefaultStep(chosen)(defaults[i]) == DefaultPair(chosen, defaults[i]);
    forall j | i < j < |defaults|
      ensures defaults[j].field != f
    {
      assert DefaultStep(chosen)(defaults[j]) == DefaultPair(chosen, defaults[j]);
    }
  }

  /** The loop of `SetDefaultValues` over the configured defaults. */
  method AssignDefaults(defaults: seq<DefaultMapping>, chosen: Option<map<string, int>>) returns (r: Result<map<string, FieldValue>>)
    ensures r == DefaultFields(defaults, chosen)
  {
    var fields: map<string, FieldValue> := map[];
    for i := 0 to |defaults|
      invariant Collect(defaults[..i], DefaultStep(chosen)) == Ok(fields)
    {
      assert defaults[..i + 1][..i] == defaults[..i];
      var v := DefaultValue(defaults[i], chosen);
      if v.Err? {
        CollectStops(defaults, i + 1, DefaultStep(chosen));
        return Err(v.error);
      }
      fields := fields[defaults[i].field := v.value];
    }
    assert defaults[..|defaults|] == defaults;
    return Ok(fields);
  }

  // ---- Prompting for default list choices

  /** A lookup default whose item the user picks from a list. */
  predicate IsPromptDefault(d: DefaultMapping) {
    d.fieldType == "Lookup" && IsPromptValue(d.value)
  }

  /** The loop of `PromptDefaultValues` over the defaults so far: the cached
      choices and whether anything was added. A list already cached is
      skipped when only missing choices are asked for; `pick` is the user's
      answer for a list. */
  function Prompted(defaults: seq<DefaultMapping>, onlyMissing: bool, pick: string -> int, start: map<string, int>): (map<string, int>, bool)
  {
    if defaults == [] then (start, false)
    else
      var (m, added) := Prompted(defaults[..|defaults| - 1], onlyMissing, pick, start);
      var d := defaults[|defaults| - 1];
      if !IsPromptDefault(d) then (m, added)
      else
        var listName := PromptList(d.value);
        if listName in m && onlyMissing then (m, added)
        else (m[listName := pick(listName)], true)
  }

  /** After the prompts every prompted list has a choice, and nothing else is
      added. */
  lemma {:induction false} PromptedKeys(defaults: seq<DefaultMapping>, onlyMissing: bool, pick: string -> int, start: map<string, int>)
    ensures forall k :: k in Prompted(defaults, onlyMissing, pick, start).0 <==>
      k in start || exists i :: 0 <= i < |defaults| && IsPromptDefault(defaults[i]) && PromptList(defaults[i].value) == k
  {
    if defaults != [] {
      var init := defaults[..|defaults| - 1];
      PromptedKeys(init, onlyMissing, pick, start);
      assert forall i :: 0 <= i < |init| ==> init[i] == defaults[i];
    }
  }

  /** With `onlyMissing` no cached choice changes; a list that is asked about
      gets the user's answer. */
  lemma {:induction false} PromptedValues(defaults: seq<DefaultMapping>, onlyMissing: bool, pick: string -> int, start: map<string, int>)
    ensures onlyMissing ==> forall k :: k in start ==> k in Prompted(defaults, onlyMissing, pick, start).0 && Prompted(defaults, onlyMissing, pick, start).0[k] == start[k]
    ensures forall k :: (k in Prompted(defaults, onlyMissing, pick, start).0 && (k !in start || !onlyMissing) &&
      exists i :: 0 <= i < |defaults| && IsPromptDefault(defaults[i]) && PromptList(defaults[i].value) == k) ==>
        Prompted(defaults, onlyMissing, pick, start).0[k] == pick(k)
  {
    if defaults != [] {
      var init := defaults[..|defaults| - 1];
      PromptedValues(init, onlyMissing, pick, start);
      PromptedKeys(init, onlyMissing, pick, start);
      assert forall i :: 0 <= i < |init| ==> init[i] == defaults[i];
    }
  }

  /** Something is added exactly when some prompted list is asked about: any
      prompted list at all, or with `onlyMissing` one not cached before. */
  lemma {:induction false} PromptedAdds(defaults: seq<DefaultMapping>, onlyMissing: bool, pick: string -> int, start: map<string, int>)
    ensures Prompted(defaults, onlyMissing, pick, start).1 <==>
      exists i :: 0 <= i < |defaults| && IsPromptDefault(defaults[i]) && (!onlyMissing || PromptList(defaults[i].value) !in start)
  {
    if defaults != [] {
      var init := defaults[..|defaults| - 1];
      var n := |defaults| - 1;
      PromptedAdds(init, onlyMissing, pick, start);
      PromptedKeys(init, onlyMissing, pick, start);
      assert forall i :: 0 <= i < n ==> init[i] == defaults[i];
      var (m, added) := Prompted(init, onlyMissing, pick, start);
      var d := defaults[n];
      if IsPromptDefault(d) && !(PromptList(d.value) in m && onlyMissing) {
        assert Prompted(defaults, onlyMissing, pick, start).1;
      }
    }
  }

  /** The loop of `PromptDefaultValues`: asks for every prompted list, in
      order, starting from the cached choices `start`. */
  method AskDefaults(defaults: seq<DefaultMapping>, onlyMissing: bool, pick: string -> int, start: map<string, int>)
    returns (choices: map<string, int>, added: bool)
    ensures (choices, added) == Prompted(defaults, onlyMissing, pick, start)
  {
    choices := start;
    added := false;
    for i := 0 to |defaults|
      invariant (choices, added) == Prompted(defaults[..i], onlyMissing, pick, start)
    {
      assert defaults[..i + 1][..i] == defaults[..i];
      var d := defaults[i];
      if d.fieldType == "Lookup" && IsPromptValue(d.value) {
        var listName := PromptList(d.value);
        if !(listName in choices && onlyMissing) {
          choices := choices[listName := pick(listName)];
          added := true;
        }
      }
    }
    assert defaults[..|defaults|] == defaults;
  }

  // ---- The provider

  class Toolkit {
    /** `_initialized`. */
    var initialized: bool
    /** `_list != null`: the registration list was found when last loaded. */
    var listLoaded: bool
    /** `_currentUser`: the title of the signed-in user, once asked for. */
    var currentUser: Option<string>
    const settings: Settings
    const cache: Cache

    ghost predicate Valid()
      reads this, cache
    {
      cache.Valid() && (listLoaded ==> initialized)
    }


    /** How `CreateCase` ends once the cases are cached: a null account text
        throws, then a default that cannot be resolved. */
    function CaseCreation(accountText: Option<string>, choices: Option<map<string, int>>): Outcome {
      if accountText.None? then Failed(NullReference)
      else match DefaultFields(settings.caseDefaults, choices)
        case Err(e) => Failed(e)
        case Ok(_) => Done
    }

    /** How `CreateWorkPackage` ends once the work packages are cached. */
    function WorkPackageCreation(choices: Option<map<string, int>>): Outcome {
      match DefaultFields(settings.workPackageDefaults, choices)
      case Err(e) => Failed(e)
      case Ok(_) => Done
    }

    /** The case `CreateCase` would add for the account. */
    function NewCase(account: Option<string>, accountText: Option<string>): (e: ListEntry)
      ensures e.invoiceAccount == account
      ensures accountText.Some? ==> e.title == Some(CaseTitle(account, accountText).value)
    {
      match CaseTitle(account, accountText)
      case Ok(title) => ListEntry(Some(title), account)
      case Err(_) => ListEntry(None, account)
    }

    /** `Find` for the case of `account`, with `rows` the items of the case
        list. */
    function CaseFound(doc: Document, rows: seq<ListRow>, account: Option<string>, accountText: Option<string>, newId: int)
      : (Result<map<int, ListEntry>>, Document)
    {
      Find(doc, CasesKey, ValidItems(rows, Split(settings.caseActiveStateCodes, ';')), account,
        CaseCreation(accountText, Choices(doc)), NewCase(account, accountText), newId)
    }

    /** `Find` for `regName`'s work package for `account`, created on the case
        titled `caseTitle`. */
    function WorkPackageFound(doc: Document, regName: string, rows: seq<ListRow>, account: Option<string>, caseTitle: Option<string>, newId: int)
      : (Result<map<int, ListEntry>>, Document)
    {
      Find(doc, WorkPackagesKey(regName), ValidItems(rows, Split(settings.workPackageActiveStateCodes, ';')), account,
        WorkPackageCreation(Choices(doc)), ListEntry(caseTitle, account), newId)
    }

    /** How finding the case for `account` ends from the cache document
        `doc`, with `rows` the items of the case list. */
    function CaseOutcome(doc: Document, rows: seq<ListRow>, account: Option<string>, accountText: Option<string>): Outcome {
      FindOutcome(Items(doc, CasesKey), ValidItems(rows, Split(settings.caseActiveStateCodes, ';')), account,
        CaseCreation(accountText, Choices(doc)))
    }

    /** How finding `regName`'s work package for `account` ends from the
        cache document `doc`. */
    function WorkPackageOutcome(doc: Document, regName: string, rows: seq<ListRow>, account: Option<string>): Outcome {
      FindOutcome(Items(doc, WorkPackagesKey(regName)), ValidItems(rows, Split(settings.workPackageActiveStateCodes, ';')), account,
        WorkPackageCreation(Choices(doc)))
    }

    constructor (settings: Settings, cache: Cache)
      requires cache.Valid()
      ensures Valid() && !initialized && !listLoaded && currentUser.None?
      ensures this.settings == settings && this.cache == cache
    {
      initialized := false;
      listLoaded := false;
      currentUser := None;
      this.settings := settings;
      this.cache := cache;
    }

    /** `Initialize`: the sign-in and list loading happen outside the model;
        `listFound` says whether the registration list could be loaded. */
    method Initialize(listFound: bool)
      requires Valid()
      modifies this`initialized, this`listLoaded
      ensures Valid() && initialized && listLoaded == listFound
    {
      listLoaded := listFound;
      initialized := true;
    }

    method IsAuthenticated() returns (r: Result<bool>)
      ensures !initialized ==> r == Err(InvalidOperation(NotInitialized))
      ensures initialized ==> r == Ok(listLoaded)
    {
      if !initialized {
        return Err(InvalidOperation(NotInitialized));
      }
      return Ok(listLoaded);
    }

    /** `AskUserForCredentials`: signs in again and reloads the list; it never
        returns credentials to store. */
    method AskUserForCredentials(listFound: bool) returns (r: Result<Option<Credentials>>)
      requires Valid()
      modifies this`listLoaded
      ensures Valid()
      ensures !initialized ==> r == Err(InvalidOperation(NotInitialized)) && listLoaded == old(listLoaded)
      ensures initialized ==> r == Ok(None) && listLoaded == listFound
    {
      if !initialized {
        return Err(InvalidOperation(NotInitialized));
      }
      listLoaded := listFound;
      return Ok(None);
    }

    /** `GetCurrentUser`: asks the server (`serverUser`) only the first time. */
    method CurrentUser(serverUser: string) returns (title: string)
      modifies this`currentUser
      ensures title == old(currentUser).GetOr(serverUser)
      ensures currentUser == Some(title)
    {
      if currentUser.None? {
        currentUser := Some(serverUser);
      }
      title := currentUser.value;
    }

    method GetLoggedInIdentity(serverUser: string) returns (r: Result<map<string, string>>)
      modifies this`currentUser
      ensures !initialized ==> r == Err(InvalidOperation(NotInitialized)) && currentUser == old(currentUser)
      ensures initialized && !listLoaded ==> r == Err(InvalidOperation(NotAuthenticatedCall)) && currentUser == old(currentUser)
      ensures initialized && listLoaded ==>
        r == Ok(map["FullName" := old(currentUser).GetOr(serverUser)]) && currentUser.Some?
    {
      if !initialized {
        return Err(InvalidOperation(NotInitialized));
      }
      if !listLoaded {
        return Err(InvalidOperation(NotAuthenticatedCall));
      }
      var title := CurrentUser(serverUser);
      return Ok(map["FullName" := title]);
    }

    /** `GetTimeRegistrationEntries`: the registrant's rows in the period,
        which the list query selects, each becoming one entry. */
    method GetTimeRegistrationEntries(registrant: Registrant, rows: seq<RegistrationRow>) returns (r: Result<seq<Entry>>)
      ensures !initialized ==> r == Err(InvalidOperation(NotInitialized))
      ensures initialized && !listLoaded ==> r == Err(InvalidOperation(NotAuthenticatedEntries))
      ensures initialized && listLoaded && "FullName" !in registrant.identifications ==>
        r == Err(InvalidOperation(NoFullNameEntries))
      ensures r.Ok? <==> initialized && listLoaded && "FullName" in registrant.identifications
      ensures r.Ok? ==> |r.value| == |rows| && forall i :: 0 <= i < |rows| ==> r.value[i] == RowEntry(registrant, rows[i])
    {
      if !initialized {
        return Err(InvalidOperation(NotInitialized));
      }
      if !listLoaded {
        return Err(InvalidOperation(NotAuthenticatedEntries));
      }
      if "FullName" !in registrant.identifications {
        return Err(InvalidOperation(NoFullNameEntries));
      }
      return Ok(seq(|rows|, i requires 0 <= i < |rows| => RowEntry(registrant, rows[i])));
    }

    /** The shared body of `GetCases` and `GetWorkPackages`: the cached
        dictionary unless there is none or a refresh is forced; a refresh keeps
        the rows with a valid state and writes the result back. */
    method GetItems(key: string, forceRefresh: bool, rows: seq<ListRow>, codes: string) returns (r: Result<map<int, ListEntry>>)
      requires Valid()
      modifies cache
      ensures Valid()
      ensures Items(old(cache.Contents()), key).Some? && !forceRefresh ==>
        r == Ok(Items(old(cache.Contents()), key).value) && cache.Contents() == old(cache.Contents())
      ensures Items(old(cache.Contents()), key).None? || forceRefresh ==>
        r == ValidItems(rows, Split(codes, ';')) &&
        cache.Contents() == (if r.Ok? then Store(old(cache.Contents()), key, Some(ListEntriesValue(r.value))) else old(cache.Contents()))
    {
      var stored := cache.Get(key);
      var cached := AsListEntries(stored);
      if cached.Some? && !forceRefresh {
        return Ok(cached.value);
      }
      r := CollectValid(rows, Split(codes, ';'));
      if r.Ok? {
        cache.Set(key, Some(ListEntriesValue(r.value)));
      }
    }

    /** `GetCases`: `rows` are the items of the case list. */
    method GetCases(forceRefresh: bool, rows: seq<ListRow>) returns (r: Result<map<int, ListEntry>>)
      requires Valid()
      modifies cache
      ensures Valid()
      ensures Items(old(cache.Contents()), CasesKey).Some? && !forceRefresh ==>
        r == Ok(Items(old(cache.Contents()), CasesKey).value) && cache.Contents() == old(cache.Contents())
      ensures Items(old(cache.Contents()), CasesKey).None? || forceRefresh ==>
        r == ValidItems(rows, Split(settings.caseActiveStateCodes, ';')) &&
        cache.Contents() == (if r.Ok? then Store(old(cache.Contents()), CasesKey, Some(ListEntriesValue(r.value))) else old(cache.Contents()))
    {
      r := GetItems(CasesKey, forceRefresh, rows, settings.caseActiveStateCodes);
    }

    /** `GetWorkPackages`: `rows` are the work packages assigned to `regName`. */
    method GetWorkPackages(regName: string, forceRefresh: bool, rows: seq<ListRow>) returns (r: Result<map<int, ListEntry>>)
      requires Valid()
      modifies cache
      ensures Valid()
      ensures Items(old(cache.Contents()), WorkPackagesKey(regName)).Some? && !forceRefresh ==>
        r == Ok(Items(old(cache.Contents()), WorkPackagesKey(regName)).value) && cache.Contents() == old(cache.Contents())
      ensures Items(old(cache.Contents()), WorkPackagesKey(regName)).None? || forceRefresh ==>
        r == ValidItems(rows, Split(settings.workPackageActiveStateCodes, ';')) &&
        cache.Contents() == (if r.Ok? then Store(old(cache.Contents()), WorkPackagesKey(regName), Some(ListEntriesValue(r.value))) else old(cache.Contents()))
    {
      r := GetItems(WorkPackagesKey(regName), forceRefresh, rows, settings.workPackageActiveStateCodes);
    }

    /** `SetDefaultValues`: reads the cached list choices and assigns every
        configured default. */
    method SetDefaultValues(defaults: seq<DefaultMapping>) returns (r: Result<map<string, FieldValue>>)
      requires Valid()
      modifies cache
      ensures Valid() && cache.Contents() == old(cache.Contents())
      ensures r == DefaultFields(defaults, Choices(old(cache.Contents())))
    {
      var stored := cache.Get(DefaultsKey);
      r := AssignDefaults(defaults, AsDefaultIds(stored));
    }

    /** `PromptDefaultValues`: asks for the item of every prompted lookup among
        the case and work-package defaults (`pick` is the user's choice) and
        caches the choices if any were added. */
    method PromptDefaultValues(onlyMissing: bool, pick: string -> int)
      requires Valid()
      modifies cache
      ensures Valid()
      ensures var start := Choices(old(cache.Contents())).GetOr(map[]);
        var (m, added) := Prompted(settings.caseDefaults + settings.workPackageDefaults, onlyMissing, pick, start);
        cache.Contents() == (if added then Store(old(cache.Contents()), DefaultsKey, Some(DefaultIdsValue(m))) else old(cache.Contents()))
      ensures forall d :: d in settings.caseDefaults + settings.workPackageDefaults && IsPromptDefault(d) ==>
        Choices(cache.Contents()).Some? && PromptList(d.value) in Choices(cache.Contents()).value
    {
      var stored := cache.Get(DefaultsKey);
      var start := AsDefaultIds(stored).GetOr(map[]);
      var defaults := settings.caseDefaults + settings.workPackageDefaults;
      var choices, added := AskDefaults(defaults, onlyMissing, pick, start);
      PromptedKeys(defaults, onlyMissing, pick, start);
      PromptedAdds(defaults, onlyMissing, pick, start);
      if added {
        cache.Set(DefaultsKey, Some(DefaultIdsValue(choices)));
      }
    }

    /** `CreateCase`: a new case item for the account, with the configured
        defaults, its title and the account as PO number, added to the cached
        cases under the id the server gives it (`newId`). Returns the fields
        written. */
    method CreateCase(account: Option<string>, accountText: Option<string>, rows: seq<ListRow>, newId: int)
      returns (r: Result<map<string, FieldValue>>)
      requires Valid()
      modifies cache
      ensures Valid()
      ensures accountText.None? ==> r == Err(NullReference)
      ensures r.Err? ==> cache.Contents() == old(cache.Contents())
      ensures r.Ok? <==> (CaseCreation(accountText, Choices(old(cache.Contents()))).Done? &&
        (Items(old(cache.Contents()), CasesKey).Some? || ValidItems(rows, Split(settings.caseActiveStateCodes, ';')).Ok?))
      ensures r.Ok? ==>
        var title := CaseTitle(account, accountText).value;
        var before := if Items(old(cache.Contents()), CasesKey).Some? then Items(old(cache.Contents()), CasesKey).value
          else ValidItems(rows, Split(settings.caseActiveStateCodes, ';')).value;
        r.value == DefaultFields(settings.caseDefaults, Choices(old(cache.Contents()))).value["Title" := TextField(Some(title))]["PONumber" := TextField(account)] &&
        cache.Contents() == Store(old(cache.Contents()), CasesKey, Some(ListEntriesValue(before[newId := ListEntry(Some(title), account)])))
      ensures CaseCreation(accountText, Choices(old(cache.Contents()))).Failed? ==> r == Err(CaseCreation(accountText, Choices(old(cache.Contents()))).error)
      ensures CaseCreation(accountText, Choices(old(cache.Contents()))).Done? && r.Err? ==> r == Err(ValidItems(rows, Split(settings.caseActiveStateCodes, ';')).error)
    {
      var made :- CaseFields(account, accountText);
      assert made.0 == CaseTitle(account, accountText).value;
      var added :- AddToCases(ListEntry(Some(made.0), account), rows, newId);
      return Ok(made.1);
    }

    /** The last steps of `CreateCase`: read the cases (from the cache when
        they are there) and cache them with `item` added under `newId`. */
    method AddToCases(item: ListEntry, rows: seq<ListRow>, newId: int) returns (r: Result<map<int, ListEntry>>)
      requires Valid()
      modifies cache
      ensures Valid()
      ensures r.Ok? <==> (Items(old(cache.Contents()), CasesKey).Some? || ValidItems(rows, Split(settings.caseActiveStateCodes, ';')).Ok?)
      ensures r.Err? ==> r == Err(ValidItems(rows, Split(settings.caseActiveStateCodes, ';')).error) && cache.Contents() == old(cache.Contents())
      ensures r.Ok? ==>
        var before := if Items(old(cache.Contents()), CasesKey).Some? then Items(old(cache.Contents()), CasesKey).value
          else ValidItems(rows, Split(settings.caseActiveStateCodes, ';')).value;
        r.value == before[newId := item] && cache.Contents() == Store(old(cache.Contents()), CasesKey, Some(ListEntriesValue(r.value)))
    {
      var cached :- GetCases(false, rows);
      r := Ok(cached[newId := item]);
      cache.Set(CasesKey, Some(ListEntriesValue(r.value)));
    }

    /** The first steps of `CreateCase`: the title, then the defaults with the
        title and the account as PO number. */
    method CaseFields(account: Option<string>, accountText: Option<string>) returns (r: Result<(string, map<string, FieldValue>)>)
      requires Valid()
      modifies cache
      ensures Valid() && cache.Contents() == old(cache.Contents())
      ensures r.Err? <==> CaseCreation(accountText, Choices(old(cache.Contents()))).Failed?
      ensures r.Err? ==> r.error == CaseCreation(accountText, Choices(old(cache.Contents()))).error
      ensures r.Ok? ==> r.value == (CaseTitle(account, accountText).value,
        DefaultFields(settings.caseDefaults, Choices(old(cache.Contents()))).value["Title" := TextField(Some(CaseTitle(account, accountText).value))]["PONumber" := TextField(account)])
    {
      var title :- CaseTitle(account, accountText);
      var fields :- SetDefaultValues(settings.caseDefaults);
      return Ok((title, fields["Title" := TextField(Some(title))]["PONumber" := TextField(account)]));
    }

    /** `CreateWorkPackage`: a new work package for `regName` on the case,
        titled like the case, added to that user's cached work packages. The
        start and due dates it also writes are not modelled. */
    method CreateWorkPackage(regName: string, caseId: int, caseTitle: Option<string>, account: Option<string>, rows: seq<ListRow>, newId: int)
      returns (r: Result<map<string, FieldValue>>)
      requires Valid()
      modifies cache
      ensures Valid()
      ensures r.Err? ==> cache.Contents() == old(cache.Contents())
      ensures r.Ok? <==> (WorkPackageCreation(Choices(old(cache.Contents()))).Done? &&
        (Items(old(cache.Contents()), WorkPackagesKey(regName)).Some? || ValidItems(rows, Split(settings.workPackageActiveStateCodes, ';')).Ok?))
      ensures r.Ok? ==>
        var before := if Items(old(cache.Contents()), WorkPackagesKey(regName)).Some? then Items(old(cache.Contents()), WorkPackagesKey(regName)).value
          else ValidItems(rows, Split(settings.workPackageActiveStateCodes, ';')).value;
        r.value == DefaultFields(settings.workPackageDefaults, Choices(old(cache.Contents()))).value
          ["Title" := TextField(caseTitle)]["AssignedTo" := UserField(regName)]["RelatedCase" := LookupField(caseId)] &&
        cache.Contents() == Store(old(cache.Contents()), WorkPackagesKey(regName), Some(ListEntriesValue(before[newId := ListEntry(caseTitle, account)])))
      ensures WorkPackageCreation(Choices(old(cache.Contents()))).Failed? ==> r == Err(WorkPackageCreation(Choices(old(cache.Contents()))).error)
      ensures WorkPackageCreation(Choices(old(cache.Contents()))).Done? && r.Err? ==> r == Err(ValidItems(rows, Split(settings.workPackageActiveStateCodes, ';')).error)
    {
      var fields :- SetDefaultValues(settings.workPackageDefaults);
      fields := fields["Title" := TextField(caseTitle)]["AssignedTo" := UserField(regName)]["RelatedCase" := LookupField(caseId)];
      var cached :- GetWorkPackages(regName, false, rows);
      cache.Set(WorkPackagesKey(regName), Some(ListEntriesValue(cached[newId := ListEntry(caseTitle, account)])));
      return Ok(fields);
    }

    /** The first two steps of finding an item for an account: the cached
        dictionary, then a forced refresh. Returns the dictionary last read. */
    method LookupAccount(key: string, codes: string, rows: seq<ListRow>, account: Option<string>)
      returns (r: Result<map<int, ListEntry>>)
      requires Valid()
      modifies cache
      ensures Valid()
      ensures var before := Items(old(cache.Contents()), key);
        before.Some? && HasAccount(before.value, account) ==>
          r == Ok(before.value) && cache.Contents() == old(cache.Contents())
      ensures var before := Items(old(cache.Contents()), key);
        !(before.Some? && HasAccount(before.value, account)) ==>
          r == ValidItems(rows, Split(codes, ';')) &&
          cache.Contents() == (if r.Ok? then Store(old(cache.Contents()), key, Some(ListEntriesValue(r.value))) else old(cache.Contents()))
      ensures SameOutside(cache.Contents(), old(cache.Contents()), key)
    {
      r := GetItems(key, false, rows, codes);
      if r.Ok? && !HasAccount(r.value, account) {
        r := GetItems(key, true, rows, codes);
      }
    }

    /** Finds the case for `account`: from the cache, else after a forced
        refresh, else by creating one (id `newId`) and reading the cache
        again. The chosen case is booked on the account, and a case is created
        only when neither the cache nor the list has one. */
    method FindCase(account: Option<string>, accountText: Option<string>, rows: seq<ListRow>, newId: int)
      returns (r: Result<(int, ListEntry)>)
      requires Valid()
      modifies cache
      ensures Valid()
      ensures var (found, after) := CaseFound(old(cache.Contents()), rows, account, accountText, newId);
        cache.Contents() == after && (r.Ok? <==> found.Ok?) && (r.Err? ==> r.error == found.error) &&
        (r.Ok? ==> r.value.0 in found.value && found.value[r.value.0] == r.value.1 && r.value.1.invoiceAccount == account)
    {
      ghost var start := cache.Contents();
      ghost var refreshed := ValidItems(rows, Split(settings.caseActiveStateCodes, ';'));
      FindSteps(start, CasesKey, refreshed, account, CaseCreation(accountText, Choices(start)), NewCase(account, accountText), newId);
      var looked := LookupAccount(CasesKey, settings.caseActiveStateCodes, rows, account);
      if looked.Err? {
        assert !CachedHas(start, CasesKey, account) && looked == refreshed;
        r := Err(looked.error);
      } else if HasAccount(looked.value, account) {
        var id :| id in looked.value && looked.value[id].invoiceAccount == account;
        r := Ok((id, looked.value[id]));
      } else {
        assert !CachedHas(start, CasesKey, account) && looked == refreshed;
        r := AddMissingCase(start, account, accountText, rows, looked.value, newId);
      }
    }

    /** The last step of `FindCase`, once the refreshed case list `listed`,
        stored over `start`, has no case for the account: add one. */
    method AddMissingCase(ghost start: Document, account: Option<string>, accountText: Option<string>, rows: seq<ListRow>, listed: map<int, ListEntry>, newId: int)
      returns (r: Result<(int, ListEntry)>)
      requires Valid() && ValidItems(rows, Split(settings.caseActiveStateCodes, ';')) == Ok(listed)
      requires !CachedHas(start, CasesKey, account) && !HasAccount(listed, account)
      requires cache.Contents() == Store(start, CasesKey, Some(ListEntriesValue(listed)))
      modifies cache
      ensures Valid()
      ensures var (found, after) := CaseFound(start, rows, account, accountText, newId);
        cache.Contents() == after && (r.Ok? <==> found.Ok?) && (r.Err? ==> r.error == found.error) &&
        (r.Ok? ==> r.value.0 in found.value && found.value[r.value.0] == r.value.1 && r.value.1.invoiceAccount == account)
    {
      ghost var creating := CaseCreation(accountText, Choices(start));
      FindSteps(start, CasesKey, Ok(listed), account, creating, NewCase(account, accountText), newId);
      assert DefaultsKey[7] != CasesKey[7];
      assert Choices(cache.Contents()) == Choices(start);
      ghost var mid := cache.Contents();
      var added := AddCase(account, accountText, rows, newId);
      if added.Err? {
        r := Err(added.error);
      } else {
        assert added.value == listed[newId := NewCase(account, accountText)];
        StoreOverwrites(start, CasesKey, Some(ListEntriesValue(listed)), Some(ListEntriesValue(added.value)));
        r := Ok((newId, added.value[newId]));
      }
    }

    /** The third step of `FindCase`: create the case, then read the cases
        again, which now come from the cache. */
    method AddCase(account: Option<string>, accountText: Option<string>, rows: seq<ListRow>, newId: int)
      returns (r: Result<map<int, ListEntry>>)
      requires Valid() && Items(cache.Contents(), CasesKey).Some?
      modifies cache
      ensures Valid()
      ensures r.Err? ==> cache.Contents() == old(cache.Contents())
      ensures r.Ok? ==> (accountText.Some? && Items(cache.Contents(), CasesKey) == Some(r.value) &&
        r.value == Items(old(cache.Contents()), CasesKey).value[newId := NewCase(account, accountText)])
      ensures r.Ok? ==> cache.Contents() == Store(old(cache.Contents()), CasesKey, Some(ListEntriesValue(r.value)))
      ensures r.Err? <==> CaseCreation(accountText, Choices(old(cache.Contents()))).Failed?
      ensures r.Err? ==> r.error == CaseCreation(accountText, Choices(old(cache.Contents()))).error
      ensures SameOutside(cache.Contents(), old(cache.Contents()), CasesKey)
    {
      var fields :- CreateCase(account, accountText, rows, newId);
      var reread := GetCases(false, rows);
      return Ok(reread.value);
    }

    /** Finds `regName`'s work package for `account` in the same three steps,
        creating one on the case (`caseId`, `caseTitle`) when needed. */
    method FindWorkPackage(regName: string, account: Option<string>, caseId: int, caseTitle: Option<string>, rows: seq<ListRow>, newId: int)
      returns (r: Result<(int, ListEntry)>)
      requires Valid()
      modifies cache
      ensures Valid()
      ensures var (found, after) := WorkPackageFound(old(cache.Contents()), regName, rows, account, caseTitle, newId);
        cache.Contents() == after && (r.Ok? <==> found.Ok?) && (r.Err? ==> r.error == found.error) &&
        (r.Ok? ==> r.value.0 in found.value && found.value[r.value.0] == r.value.1 && r.value.1.invoiceAccount == account)
    {
      ghost var start := cache.Contents();
      ghost var refreshed := ValidItems(rows, Split(settings.workPackageActiveStateCodes, ';'));
      FindSteps(start, WorkPackagesKey(regName), refreshed, account, WorkPackageCreation(Choices(start)), ListEntry(caseTitle, account), newId);
      var looked := LookupAccount(WorkPackagesKey(regName), settings.workPackageActiveStateCodes, rows, account);
      if looked.Err? {
        assert !CachedHas(start, WorkPackagesKey(regName), account) && looked == refreshed;
        r := Err(looked.error);
      } else if HasAccount(looked.value, account) {
        var id :| id in looked.value && looked.value[id].invoiceAccount == account;
        r := Ok((id, looked.value[id]));
      } else {
        assert !CachedHas(start, WorkPackagesKey(regName), account) && looked == refreshed;
        r := AddMissingWorkPackage(start, regName, account, caseId, caseTitle, rows, looked.value, newId);
      }
    }

    /** The last step of `FindWorkPackage`, once the refreshed list `listed`,
        stored over `start`, has no work package for the account: add one. */
    method AddMissingWorkPackage(ghost start: Document, regName: string, account: Option<string>, caseId: int, caseTitle: Option<string>, rows: seq<ListRow>, listed: map<int, ListEntry>, newId: int)
      returns (r: Result<(int, ListEntry)>)
      requires Valid() && ValidItems(rows, Split(settings.workPackageActiveStateCodes, ';')) == Ok(listed)
      requires !CachedHas(start, WorkPackagesKey(regName), account) && !HasAccount(listed, account)
      requires cache.Contents() == Store(start, WorkPackagesKey(regName), Some(ListEntriesValue(listed)))
      modifies cache
      ensures Valid()
      ensures var (found, after) := WorkPackageFound(start, regName, rows, account, caseTitle, newId);
        cache.Contents() == after && (r.Ok? <==> found.Ok?) && (r.Err? ==> r.error == found.error) &&
        (r.Ok? ==> r.value.0 in found.value && found.value[r.value.0] == r.value.1 && r.value.1.invoiceAccount == account)
    {
      ghost var creating := WorkPackageCreation(Choices(start));
      FindSteps(start, WorkPackagesKey(regName), Ok(listed), account, creating, ListEntry(caseTitle, account), newId);
      assert DefaultsKey[7] != WorkPackagesKey(regName)[7];
      assert Choices(cache.Contents()) == Choices(start);
      ghost var mid := cache.Contents();
      var added := AddWorkPackage(regName, account, caseId, caseTitle, rows, newId);
      if added.Err? {
        r := Err(added.error);
      } else {
        assert added.value == listed[newId := ListEntry(caseTitle, account)];
        StoreOverwrites(start, WorkPackagesKey(regName), Some(ListEntriesValue(listed)), Some(ListEntriesValue(added.value)));
        r := Ok((newId, added.value[newId]));
      }
    }

    /** The third step of `FindWorkPackage`: create the work package, then
        read the work packages again, which now come from the cache. */
    method AddWorkPackage(regName: string, account: Option<string>, caseId: int, caseTitle: Option<string>, rows: seq<ListRow>, newId: int)
      returns (r: Result<map<int, ListEntry>>)
      requires Valid() && Items(cache.Contents(), WorkPackagesKey(regName)).Some?
      modifies cache
      ensures Valid()
      ensures r.Err? ==> cache.Contents() == old(cache.Contents())
      ensures r.Ok? ==> (Items(cache.Contents(), WorkPackagesKey(regName)) == Some(r.value) &&
        r.value == Items(old(cache.Contents()), WorkPackagesKey(regName)).value[newId := ListEntry(caseTitle, account)])
      ensures r.Ok? ==> cache.Contents() == Store(old(cache.Contents()), WorkPackagesKey(regName), Some(ListEntriesValue(r.value)))
      ensures r.Err? <==> WorkPackageCreation(Choices(old(cache.Contents()))).Failed?
      ensures r.Err? ==> r.error == WorkPackageCreation(Choices(old(cache.Contents()))).error
      ensures SameOutside(cache.Contents(), old(cache.Contents()), WorkPackagesKey(regName))
    {
      var fields :- CreateWorkPackage(regName, caseId, caseTitle, account, rows, newId);
      var reread := GetWorkPackages(regName, false, rows);
      return Ok(reread.value);
    }

    /** `CreateTimeRegistrationEntry`: checks the entry, then finds or creates
        the case and work package for its invoice account and writes the
        registration. `serverUser` is the signed-in user, `caseRows` and
        `workPackageRows` what the lists hold, `newCaseId` and
        `newWorkPackageId` the ids new items would get. */
    method CreateTimeRegistrationEntry(entry: Option<Entry>, serverUser: string,
                                       caseRows: seq<ListRow>, workPackageRows: seq<ListRow>,
                                       newCaseId: int, newWorkPackageId: int)
      returns (r: Result<Registration>)
      requires Valid()
      modifies this`currentUser, cache
      ensures Valid()
      ensures EntryTargets(entry).Err? ==> r == Err(EntryTargets(entry).error) && unchanged(this) && cache.Contents() == old(cache.Contents())
      ensures EntryTargets(entry).Ok? && EntryTargets(entry).value.2 != old(currentUser).GetOr(serverUser) ==>
        r == Err(InvalidOperation(NotCurrentUser)) && cache.Contents() == old(cache.Contents())
      ensures r.Ok? ==>
        var (account, _, regName) := EntryTargets(entry).value;
        regName == old(currentUser).GetOr(serverUser) && currentUser == Some(regName) &&
        r.value.hours == entry.value.timeUsed && r.value.day == entry.value.day && r.value.doneBy == regName &&
        Items(cache.Contents(), CasesKey).Some? && r.value.caseId in Items(cache.Contents(), CasesKey).value &&
        Items(cache.Contents(), CasesKey).value[r.value.caseId].invoiceAccount == account &&
        Items(cache.Contents(), WorkPackagesKey(regName)).Some? && r.value.workPackage in Items(cache.Contents(), WorkPackagesKey(regName)).value &&
        Items(cache.Contents(), WorkPackagesKey(regName)).value[r.value.workPackage].invoiceAccount == account
      ensures EntryTargets(entry).Ok? ==> forall k :: k != CasesKey && k != WorkPackagesKey(EntryTargets(entry).value.2) ==>
        Lookup(cache.Contents(), k) == Lookup(old(cache.Contents()), k)
      ensures (EntryTargets(entry).Ok? && EntryTargets(entry).value.2 == old(currentUser).GetOr(serverUser)) ==>
        var (account, accountText, regName) := EntryTargets(entry).value;
        var found := CaseOutcome(old(cache.Contents()), caseRows, account, accountText);
        var wp := WorkPackageOutcome(old(cache.Contents()), regName, workPackageRows, account);
        (r.Ok? <==> found.Done? && wp.Done?) &&
        (r.Err? ==> r.error == (if found.Failed? then found.error else wp.error))
      ensures (EntryTargets(entry).Ok? && EntryTargets(entry).value.2 == old(currentUser).GetOr(serverUser) &&
        CachedHas(old(cache.Contents()), CasesKey, EntryTargets(entry).value.0) &&
        CachedHas(old(cache.Contents()), WorkPackagesKey(EntryTargets(entry).value.2), EntryTargets(entry).value.0)) ==>
          r.Ok? && cache.Contents() == old(cache.Contents())
    {
      var targets := EntryTargets(entry);
      if targets.Err? {
        return Err(targets.error);
      }
      var (account, accountText, regName) := targets.value;
      var user := CurrentUser(serverUser);
      if regName != user {
        return Err(InvalidOperation(NotCurrentUser));
      }
      var accountCase :- FindCase(account, accountText, caseRows, newCaseId);
      assert WorkPackagesKey(regName)[7] != CasesKey[7] && DefaultsKey[7] != CasesKey[7];
      assert WorkPackageOutcome(cache.Contents(), regName, workPackageRows, account) == WorkPackageOutcome(old(cache.Contents()), regName, workPackageRows, account);
      var accountWp :- FindWorkPackage(regName, account, accountCase.0, accountCase.1.title, workPackageRows, newWorkPackageId);
      return Ok(Registration(accountCase.0, accountWp.0, entry.value.timeUsed, entry.value.day, user));
    }
  }

  /** The title of a new case: the account text when it already starts with
      the account and a space, otherwise "account - text". A null account
      prints as nothing; a null text throws. */
  function CaseTitle(account: Option<string>, accountText: Option<string>): (r: Result<string>)
    ensures r.Err? <==> accountText.None?
    ensures r.Err? ==> r.error == NullReference
    ensures r.Ok? ==> StartsWith(r.value, account.GetOr("") + " ") && EndsWith(r.value, accountText.value)
    ensures r.Ok? && StartsWith(accountText.value, account.GetOr("") + " ") ==> r.value == accountText.value
    ensures r.Ok? && !StartsWith(accountText.value, account.GetOr("") + " ") ==> r.value == account.GetOr("") + " - " + accountText.value
  {
    if accountText.None? then Err(NullReference)
    else
      var prefix := account.GetOr("") + " ";
      var text := accountText.value;
      if StartsWith(text, prefix) then Ok(text)
      else
        var title := account.GetOr("") + " - " + text;
        assert title[..|prefix|] == prefix;
        assert title[|title| - |text|..] == text;
        Ok(title)
  }

  predicate EndsWith(s: string, suffix: string) {
    |suffix| <= |s| && s[|s| - |suffix|..] == suffix
  }

  /** The checks `CreateTimeRegistrationEntry` makes before touching the
      lists, in order, and what they extract: the invoice account, its text
      and the registrant's full name. */
  function EntryTargets(entry: Option<Entry>): (r: Result<(Option<string>, Option<string>, string)>)
    ensures entry.None? ==> r == Err(ArgumentNull("entry"))
    ensures entry.Some? && "InvoiceAccount" !in entry.value.accountIds ==> r == Err(InvalidOperation(NoInvoiceAccount))
    ensures entry.Some? && "InvoiceAccount" in entry.value.accountIds && "InvoiceAccountText" !in entry.value.accountIds ==>
      r == Err(InvalidOperation(NoInvoiceAccountText))
    ensures r.Ok? <==> (entry.Some? && "InvoiceAccount" in entry.value.accountIds && "InvoiceAccountText" in entry.value.accountIds &&
      "FullName" in entry.value.registrant.identifications)
    ensures r.Ok? ==> r.value == (entry.value.accountIds["InvoiceAccount"], entry.value.accountIds["InvoiceAccountText"],
      entry.value.registrant.identifications["FullName"])
  {
    if entry.None? then Err(ArgumentNull("entry"))
    else if "InvoiceAccount" !in entry.value.accountIds then Err(InvalidOperation(NoInvoiceAccount))
    else if "InvoiceAccountText" !in entry.value.accountIds then Err(InvalidOperation(NoInvoiceAccountText))
    else if "FullName" !in entry.value.registrant.identifications then Err(InvalidOperation(NoRegistrantName))
    else Ok((entry.value.accountIds["InvoiceAccount"], entry.value.accountIds["InvoiceAccountText"],
      entry.value.registrant.identifications["FullName"]))
  }

  /** The entry a registration row becomes: its hours and day, and the case
      title and invoice account as account identifications. */
  function RowEntry(registrant: Registrant, row: RegistrationRow): (e: Entry)
    ensures e.registrant == registrant && e.timeUsed == row.hours && e.day == row.day
    ensures e.accountIds.Keys == {"ToolkitCaseTitle", "InvoiceAccount"}
    ensures e.accountIds["ToolkitCaseTitle"] == row.caseTitle && e.accountIds["InvoiceAccount"] == row.account
  {
    Entry(registrant, row.hours, row.day, None, map["ToolkitCaseTitle" := row.caseTitle, "InvoiceAccount" := row.account])
  }
}

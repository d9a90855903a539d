/** The Toggl Track provider: the access-token check, the authentication memo
    and setup flag, and the paged fetch of time entries with the Jira issue
    key read from each description. Every REST response is an input value. */
module TogglProvider {
  import opened Wrappers
  import opened Domain
  import opened Grouping
  import opened Text
  import opened CacheUtil
  import opened JiraIssueKey

  const SetupKey := "TogglProviderIsSetup"

  // Exception messages.
  const NotInitialized := "Initialize the provider before using it"
  const NoApiUrl := "config must contain TogglApiUrl"
  const InvalidSecret := "Invalid credentials.Secret"
  const InvalidToken := "Invalid access token"
  const NotAuthenticatedCall := "Authentication failed. Authentication must be established prior to calling this method"
  const NotAuthenticatedEntries := "Authentication failed. Authentication must be established prior to retrieving time entries"
  const NoWorkspace := "The registrant must have TogglWorkspace identification"
  const RequestFailed := "Request failed"

  /** `CanCreateTimeRegistrationEntries`: Toggl is only read from. */
  const CanCreate := false

  /** `^[a-zA-Z0-9]+$` */
  predicate IsTogglToken(s: string) { s != [] && AllChars(s, IsAsciiLetterOrDigit) }

  // ---- Durations ----

  /** `(double)dur / 60000 / 60`: milliseconds to hours. */
  function EntryHours(ms: int): real {
    ms as real / 3600000.0
  }

  /** Hours add up like the milliseconds they come from. */
  lemma HoursAdd(a: int, b: int)
    ensures EntryHours(a + b) == EntryHours(a) + EntryHours(b)
  {
  }

  /** `xs.Sum()` over integers. */
  function SumInts(xs: seq<int>): int {
    if xs == [] then 0 else SumInts(xs[..|xs| - 1]) + xs[|xs| - 1]
  }

  /** Summing the hours of several durations is taking the hours of their
      total: a day's hours are exact in milliseconds. */
  lemma {:induction false} SumOfHours(ms: seq<int>)
    ensures SumOf(ms, EntryHours) == EntryHours(SumInts(ms))
  {
    if ms != [] {
      SumOfHours(ms[..|ms| - 1]);
      HoursAdd(SumInts(ms[..|ms| - 1]), ms[|ms| - 1]);
    }
  }

  /** Quarter-hour units of a duration: the whole units are `ms / 900000` and
      the fraction is `(ms % 900000) / 900000`. */
  lemma QuarterUnits(ms: int)
    ensures (EntryHours(ms) * 4.0).Floor == ms / 900000
    ensures EntryHours(ms) * 4.0 == (ms / 900000) as real + (ms % 900000) as real / 900000.0
  {
    var q := ms / 900000;
    var x := EntryHours(ms) * 4.0;
    assert x == ms as real / 900000.0;
    assert ms == q * 900000 + ms % 900000;
    assert x == q as real + (ms % 900000) as real / 900000.0;
    assert q as real <= x < q as real + 1.0;
  }

  // ---- Entries as the report returns them ----

  /** One row of a report page: description (possibly null), start day,
      duration in milliseconds. */
  datatype RawEntry = RawEntry(description: Option<string>, day: int, ms: int)

  datatype Page = Page(data: seq<RawEntry>, totalCount: int)

  /** The entry built for one row: its hours, its day, the description under
      TogglDescription and, when it starts with one, the Jira issue key. */
  function TogglEntry(registrant: Registrant, desc: string, day: int, ms: int): (e: Entry)
    ensures e.registrant == registrant && e.day == day && e.timeUsed == EntryHours(ms)
    ensures "TogglDescription" in e.accountIds && e.accountIds["TogglDescription"] == Some(desc)
    ensures "JiraIssueKey" in e.accountIds <==> JiraKeyOf(desc).Some?
    ensures "JiraIssueKey" in e.accountIds ==> e.accountIds["JiraIssueKey"] == JiraKeyOf(desc)
    ensures e.accountIds.Keys <= {"TogglDescription", "JiraIssueKey"}
  {
    var ids := map["TogglDescription" := Some(desc)];
    var key := JiraKeyOf(desc);
    Entry(registrant, EntryHours(ms), day, None, if key.Some? then ids["JiraIssueKey" := key] else ids)
  }

  /** The rows of a page converted in order; a null description makes the
      regular-expression match throw. */
  function ConvertAll(registrant: Registrant, rows: seq<RawEntry>): Result<seq<Entry>> {
    if rows == [] then Ok([])
    else
      var done := ConvertAll(registrant, rows[..|rows| - 1]);
      var last := rows[|rows| - 1];
      if done.Err? then done
      else if last.description.None? then Err(ArgumentNull("input"))
      else Ok(done.value + [TogglEntry(registrant, last.description.value, last.day, last.ms)])
  }

  /** Converting succeeds exactly when every row has a description, fails
      with the null-argument error otherwise, and converts row by row. */
  lemma {:induction false} ConvertAllMeaning(registrant: Registrant, rows: seq<RawEntry>)
    ensures ConvertAll(registrant, rows).Ok? <==> forall i :: 0 <= i < |rows| ==> rows[i].description.Some?
    ensures ConvertAll(registrant, rows).Err? ==> ConvertAll(registrant, rows).error == ArgumentNull("input")
    ensures var r := ConvertAll(registrant, rows);
      r.Ok? ==> |r.value| == |rows| && forall i :: 0 <= i < |rows| ==>
        r.value[i] == TogglEntry(registrant, rows[i].description.value, rows[i].day, rows[i].ms)
  {
    if rows != [] {
      var init := rows[..|rows| - 1];
      ConvertAllMeaning(registrant, init);
      assert forall i :: 0 <= i < |init| ==> init[i] == rows[i];
    }
  }

  /** Converting two runs of rows one after the other converts their
      concatenation. */
  lemma ConvertAllAppend(registrant: Registrant, a: seq<RawEntry>, b: seq<RawEntry>)
    requires ConvertAll(registrant, a).Ok?
    ensures ConvertAll(registrant, a + b).Ok? <==> ConvertAll(registrant, b).Ok?
    ensures ConvertAll(registrant, b).Ok? ==>
      ConvertAll(registrant, a + b).value == ConvertAll(registrant, a).value + ConvertAll(registrant, b).value
  {
    var ab := a + b;
    ConvertAllMeaning(registrant, a);
    ConvertAllMeaning(registrant, b);
    ConvertAllMeaning(registrant, ab);
    assert forall i :: 0 <= i < |b| ==> ab[|a| + i] == b[i];
    assert forall i :: 0 <= i < |a| ==> ab[i] == a[i];
    if ConvertAll(registrant, b).Ok? {
      assert forall i :: 0 <= i < |ab| ==> ab[i].description.Some? by {
        forall i | 0 <= i < |ab| ensures ab[i].description.Some? {
          if i >= |a| { assert ab[i] == b[i - |a|]; }
        }
      }
    } else {
      var i :| 0 <= i < |b| && b[i].description.None?;
      assert ab[|a| + i] == b[i];
    }
  }

  /** The rows of pages 1 to `n`, in order (a failed page adds none). */
  ghost function RowsUpTo(pages: nat -> Option<Page>, n: nat): seq<RawEntry> {
    if n == 0 then [] else RowsUpTo(pages, n - 1) + (if pages(n).Some? then pages(n).value.data else [])
  }

  /** Page `p` arrived, its rows converted and its total count fits an `int`. */
  ghost predicate PageOk(registrant: Registrant, pages: nat -> Option<Page>, p: nat) {
    pages(p).Some? && ConvertAll(registrant, pages(p).value.data).Ok?
    && Int32Min <= pages(p).value.totalCount <= Int32Max
  }

  /** `morePages` after page `p`: fewer rows collected than the total count,
      and page `p` was not empty. */
  ghost predicate MorePages(pages: nat -> Option<Page>, p: nat) {
    pages(p).Some? && |RowsUpTo(pages, p)| < pages(p).value.totalCount && pages(p).value.data != []
  }

  /** The state of the page loop before requesting page `page`: the earlier
      pages all arrived and converted, each but the last asked for more, and
      `entries` holds their rows converted. */
  ghost predicate Fetched(registrant: Registrant, pages: nat -> Option<Page>, page: nat, entries: seq<Entry>, more: bool) {
    page >= 1
    && (forall p :: 1 <= p < page ==> PageOk(registrant, pages, p))
    && (forall p :: 1 <= p < page - 1 ==> MorePages(pages, p))
    && (more <==> page == 1 || MorePages(pages, page - 1))
    && ConvertAll(registrant, RowsUpTo(pages, page - 1)) == Ok(entries)
  }

  /** The fetch failed at page `last`, after every earlier page arrived and
      asked for more. */
  ghost predicate FailedAt(registrant: Registrant, pages: nat -> Option<Page>, last: nat) {
    last >= 1
    && (forall p :: 1 <= p < last ==> PageOk(registrant, pages, p) && MorePages(pages, p))
    && !PageOk(registrant, pages, last)
  }

  lemma FetchStep(registrant: Registrant, pages: nat -> Option<Page>, page: nat, entries: seq<Entry>)
    requires Fetched(registrant, pages, page, entries, true) && PageOk(registrant, pages, page)
    ensures var data := pages(page).value.data;
      var next := entries + ConvertAll(registrant, data).value;
      Fetched(registrant, pages, page + 1, next, MorePages(pages, page))
      && (MorePages(pages, page) <==> pages(page).value.totalCount > |next| && |data| > 0)
  {
    StepRows(registrant, pages, page, entries);
    StepPages(registrant, pages, page, entries);
    ConvertAllMeaning(registrant, RowsUpTo(pages, page));
  }

  /** The rows of one more page, converted, extend the entries. */
  lemma StepRows(registrant: Registrant, pages: nat -> Option<Page>, page: nat, entries: seq<Entry>)
    requires page >= 1 && ConvertAll(registrant, RowsUpTo(pages, page - 1)) == Ok(entries)
    requires PageOk(registrant, pages, page)
    ensures ConvertAll(registrant, RowsUpTo(pages, page))
            == Ok(entries + ConvertAll(registrant, pages(page).value.data).value)
  {
    var data := pages(page).value.data;
    assert RowsUpTo(pages, page) == RowsUpTo(pages, page - 1) + data;
    ConvertAllAppend(registrant, RowsUpTo(pages, page - 1), data);
  }

  lemma StepPages(registrant: Registrant, pages: nat -> Option<Page>, page: nat, entries: seq<Entry>)
    requires Fetched(registrant, pages, page, entries, true) && PageOk(registrant, pages, page)
    ensures forall p :: 1 <= p < page + 1 ==> PageOk(registrant, pages, p)
    ensures forall p :: 1 <= p < page ==> MorePages(pages, p)
  {
  }

  lemma FetchFails(registrant: Registrant, pages: nat -> Option<Page>, page: nat, entries: seq<Entry>)
    requires Fetched(registrant, pages, page, entries, true) && !PageOk(registrant, pages, page)
    ensures FailedAt(registrant, pages, page)
  {
  }

  /** The fetch ended normally with page `last`: every page up to it arrived
      and converted, each before it asked for more, `last` did not, and
      `entries` are the rows of pages 1 to `last` converted. */
  ghost predicate Completed(registrant: Registrant, pages: nat -> Option<Page>, last: nat, entries: seq<Entry>) {
    last >= 1
    && (forall p :: 1 <= p <= last ==> PageOk(registrant, pages, p))
    && (forall p :: 1 <= p < last ==> MorePages(pages, p))
    && !MorePages(pages, last)
    && ConvertAll(registrant, RowsUpTo(pages, last)) == Ok(entries)
  }

  lemma FetchDone(registrant: Registrant, pages: nat -> Option<Page>, page: nat, entries: seq<Entry>)
    requires Fetched(registrant, pages, page, entries, false)
    ensures page >= 2 && Completed(registrant, pages, page - 1, entries)
  {
  }

  class Toggl {
    var initialized: bool
    var email: Option<string>
    var token: Option<string>
    var apiUrl: Option<string>
    /** `_authenticated`: only ever set to true. */
    var authenticated: Option<bool>
    const cache: Cache

    ghost predicate Valid()
      reads this, cache
    {
      cache.Valid() && (authenticated.Some? ==> authenticated == Some(true) && initialized)
    }

    constructor (cache: Cache)
      requires cache.Valid()
      ensures Valid() && this.cache == cache
      ensures !initialized && email.None? && token.None? && apiUrl.None? && authenticated.None?
    {
      this.cache := cache;
      initialized := false;
      email := None;
      token := None;
      apiUrl := None;
      authenticated := None;
    }

    /** `Initialize`: needs a TogglApiUrl; a secret, when credentials are
        given, must be a non-empty ASCII letter-or-digit token. */
    method Initialize(credentials: Option<Credentials>, config: map<string, string>) returns (o: Outcome)
      requires Valid()
      modifies this`initialized, this`email, this`token, this`apiUrl
      ensures Valid()
      ensures o.Failed? <==> ("TogglApiUrl" !in config
        || (credentials.Some? && !(credentials.value.secret.Some? && IsTogglToken(credentials.value.secret.value))))
      ensures o.Failed? ==> o.error.InvalidOperation?
      ensures initialized == (o.Done? || old(initialized))
      ensures apiUrl == if "TogglApiUrl" in config then Some(config["TogglApiUrl"]) else None
      ensures email == if "TogglApiUrl" in config && credentials.Some? then credentials.value.username else old(email)
      ensures token == if o.Done? && credentials.Some? then credentials.value.secret else old(token)
    {
      if "TogglApiUrl" !in config {
        apiUrl := None;
        return Failed(InvalidOperation(NoApiUrl));
      }
      apiUrl := Some(config["TogglApiUrl"]);
      if credentials.Some? {
        email := credentials.value.username;
        var secret := credentials.value.secret;
        if secret.None? || !IsTogglToken(secret.value) {
          return Failed(InvalidOperation(InvalidSecret));
        }
        token := secret;
      }
      initialized := true;
      return Done;
    }

    /** `IsAuthenticated`: a remembered success is returned as is; otherwise
        the credentials must be present and the workspace request must pass. */
    method IsAuthenticated(reachable: bool) returns (r: Result<bool>)
      requires Valid()
      modifies this`authenticated
      ensures Valid()
      ensures old(authenticated) == Some(true) ==> r == Ok(true) && authenticated == Some(true)
      ensures r.Err? <==> old(authenticated).None? && !initialized
      ensures r == Ok(true) <==> authenticated == Some(true)
      ensures old(authenticated).None? && initialized ==>
        (r == Ok(true) <==> email.Some? && token.Some? && reachable)
    {
      if authenticated.Some? {
        return Ok(authenticated.value);
      }
      if !initialized {
        return Err(InvalidOperation(NotInitialized));
      }
      if email.None? || token.None? {
        return Ok(false);
      }
      if !reachable {
        return Ok(false);
      }
      authenticated := Some(true);
      return Ok(true);
    }

    /** `AskUserForCredentials`: the token must be valid; only when
        authentication then succeeds is the setup flag cached and are
        credentials returned. */
    method AskUserForCredentials(username: Option<string>, entered: string, reachable: bool)
      returns (r: Result<Option<Credentials>>)
      requires Valid()
      modifies this`email, this`token, this`authenticated, cache
      ensures Valid()
      ensures r.Err? <==> !initialized || !IsTogglToken(entered)
      ensures email == if initialized then username else old(email)
      ensures token == if initialized && IsTogglToken(entered) then Some(entered) else old(token)
      ensures r.Ok? ==> (r.value.Some? <==> authenticated == Some(true))
      ensures r.Ok? && r.value.Some? ==>
        r.value.value == Credentials(username, Some(entered))
        && cache.Contents() == Store(old(cache.Contents()), SetupKey, Some(FlagValue(true)))
      ensures !(r.Ok? && r.value.Some?) ==> cache.Contents() == old(cache.Contents())
    {
      if !initialized {
        return Err(InvalidOperation(NotInitialized));
      }
      email := username;
      if !IsTogglToken(entered) {
        return Err(InvalidOperation(InvalidToken));
      }
      token := Some(entered);
      var auth := IsAuthenticated(reachable);
      if auth.Err? || !auth.value {
        return Ok(None);
      }
      cache.Set(SetupKey, Some(FlagValue(true)));
      return Ok(Some(Credentials(username, Some(entered))));
    }

    /** `AwaitsSetup`: true unless the setup flag is cached as true. */
    method AwaitsSetup() returns (awaits: bool)
      requires Valid()
      modifies cache
      ensures Valid()
      ensures cache.Contents() == old(cache.Contents())
      ensures awaits <==> AsFlag(Lookup(cache.Contents(), SetupKey)) != Some(true)
    {
      var v := cache.Get(SetupKey);
      awaits := AsFlag(v) != Some(true);
    }

    /** `GetLoggedInIdentity`: the id of the first workspace; `workspaces` is
        the response, None when the request fails. */
    method GetLoggedInIdentity(workspaces: Option<seq<string>>, reachable: bool)
      returns (r: Result<map<string, string>>)
      requires Valid()
      modifies this`authenticated
      ensures Valid()
      ensures r.Ok? <==> initialized && authenticated == Some(true) && workspaces.Some? && workspaces.value != []
      ensures r.Ok? ==> r.value == map["TogglWorkspace" := workspaces.value[0]]
    {
      if !initialized {
        return Err(InvalidOperation(NotInitialized));
      }
      var auth := IsAuthenticated(reachable);
      if auth.Err? || !auth.value {
        return Err(InvalidOperation(NotAuthenticatedCall));
      }
      if workspaces.None? {
        return Err(InvalidOperation(RequestFailed));
      }
      if workspaces.value == [] {
        return Err(ArgumentOutOfRange("index"));
      }
      return Ok(map["TogglWorkspace" := workspaces.value[0]]);
    }

    /** `GetTimeRegistrationEntries`: after the initialization,
        authentication and workspace checks, the pages are fetched (`pages(p)`
        is the response for page `p`, None when it fails). `lastPage` is the
        last page requested. */
    method GetTimeRegistrationEntries(registrant: Registrant, pages: nat -> Option<Page>, reachable: bool)
      returns (r: Result<seq<Entry>>, ghost lastPage: nat)
      requires Valid()
      modifies this`authenticated
      ensures Valid()
      ensures r.Ok? ==> (initialized && authenticated == Some(true) && "TogglWorkspace" in registrant.identifications)
      ensures r.Ok? ==> Completed(registrant, pages, lastPage, r.value)
      ensures r.Err? && initialized && authenticated == Some(true) && "TogglWorkspace" in registrant.identifications ==>
        FailedAt(registrant, pages, lastPage)
    {
      lastPage := 0;
      if !initialized {
        return Err(InvalidOperation(NotInitialized)), lastPage;
      }
      var auth := IsAuthenticated(reachable);
      if auth.Err? || !auth.value {
        return Err(InvalidOperation(NotAuthenticatedEntries)), lastPage;
      }
      if "TogglWorkspace" !in registrant.identifications {
        return Err(InvalidOperation(NoWorkspace)), lastPage;
      }
      r, lastPage := FetchPages(registrant, pages);
    }

    /** `CreateTimeRegistrationEntry`: not supported for Toggl. */
    method CreateTimeRegistrationEntry(entry: Entry) returns (o: Outcome)
      ensures o == Failed(NotImplemented)
    {
      return Failed(NotImplemented);
    }
  }

  /** The page loop of `GetTimeRegistrationEntries`: pages are requested
      from 1 upward until the collected rows reach the reported total or a
      page is empty. The total is read as an `int`, which bounds the loop. */
  method FetchPages(registrant: Registrant, pages: nat -> Option<Page>) returns (r: Result<seq<Entry>>, ghost lastPage: nat)
    ensures r.Ok? ==> Completed(registrant, pages, lastPage, r.value)
    ensures r.Err? ==> FailedAt(registrant, pages, lastPage)
  {
    var entries: seq<Entry> := [];
    var morePages := true;
    var page: nat := 1;
    lastPage := 0;
    while morePages
      invariant Fetched(registrant, pages, page, entries, morePages)
      invariant morePages ==> |entries| <= Int32Max
      decreases if morePages then Int32Max + 1 - |entries| else 0
    {
      lastPage := page;
      var next := FetchPage(registrant, pages, page, entries);
      if next.Err? {
        return Err(next.error), lastPage;
      }
      entries, morePages := next.value.0, next.value.1;
      page := page + 1;
    }
    lastPage := page - 1;
    FetchDone(registrant, pages, page, entries);
    return Ok(entries), lastPage;
  }

  /** The body of the page loop: reads page `page` and appends its rows;
      the flag says whether the loop asks for another page. */
  method FetchPage(registrant: Registrant, pages: nat -> Option<Page>, page: nat, entries: seq<Entry>)
    returns (r: Result<(seq<Entry>, bool)>)
    requires Fetched(registrant, pages, page, entries, true)
    ensures r.Err? ==> FailedAt(registrant, pages, page)
    ensures r.Ok? ==> Fetched(registrant, pages, page + 1, r.value.0, r.value.1)
    ensures r.Ok? && r.value.1 ==> |entries| < |r.value.0| <= Int32Max
  {
    var read := ReadPage(registrant, pages(page));
    if read.Err? {
      FetchFails(registrant, pages, page, entries);
      return Err(read.error);
    }
    var (converted, total) := read.value;
    FetchStep(registrant, pages, page, entries);
    var more := entries + converted;
    return Ok((more, total > |more| && |converted| > 0));
  }

  /** One page of the loop: the response is validated, its rows converted
      and its total count read as an `int`. */
  method ReadPage(registrant: Registrant, response: Option<Page>) returns (r: Result<(seq<Entry>, int)>)
    ensures r.Ok? <==> (response.Some? && ConvertAll(registrant, response.value.data).Ok?
      && Int32Min <= response.value.totalCount <= Int32Max)
    ensures r.Ok? ==> r.value == (ConvertAll(registrant, response.value.data).value, response.value.totalCount)
  {
    if response.None? {
      return Err(InvalidOperation(RequestFailed));
    }
    var converted := ConvertPage(registrant, response.value.data);
    if converted.Err? {
      return Err(converted.error);
    }
    var total := response.value.totalCount;
    if total < Int32Min || Int32Max < total {
      return Err(Overflow("total_count"));
    }
    return Ok((converted.value, total));
  }

  /** The loop over one page's rows. */
  method ConvertPage(registrant: Registrant, rows: seq<RawEntry>) returns (r: Result<seq<Entry>>)
    ensures r == ConvertAll(registrant, rows)
  {
    var entries: seq<Entry> := [];
    for i := 0 to |rows|
      invariant ConvertAll(registrant, rows[..i]) == Ok(entries)
    {
      assert rows[..i + 1][..i] == rows[..i];
      var desc := rows[i].description;
      if desc.None? {
        ConvertAllMeaning(registrant, rows);
        return Err(ArgumentNull("input"));
      }
      entries := entries + [TogglEntry(registrant, desc.value, rows[i].day, rows[i].ms)];
    }
    assert rows[..|rows|] == rows;
    return Ok(entries);
  }
}

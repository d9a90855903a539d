/** The Tempo provider: Jira/Tempo credentials, the authentication memo, the
    worklog fetch with its per-issue account identifications, and the worklog
    post. Every REST response is an input value. */
module TempoProvider {
  import opened Wrappers
  import opened Domain
  import opened Text
  import opened CacheUtil

  const JiraAccountIdKey := "JiraAccountIdCache"
  const TempoAccountIdKey := "TempoAccountIdCache"

  // Exception messages.
  const NotInitialized := "Initialize the provider before using it"
  const NoJiraUrl := "config must contain JiraUrl"
  const InvalidSecret := "Invalid credentials.Secret"
  const InvalidToken := "Invalid access token"
  const NotAuthenticatedCall := "Authentication failed. Authentication must be established prior to calling this method"
  const NotAuthenticatedEntries := "Authentication failed. Authentication must be established prior to retrieving time entries"
  const RequestFailed := "Request failed"
  const NoAtlassianId := "The registrant must have AtlassianID identification"
  const NoIssueKey := "The entry must have a JiraIssueKey"

  // ---- The credential secret ----

  /** `[a-zA-Z0-9_\-=]` */
  predicate JiraTokenChar(c: char) { IsAsciiLetterOrDigit(c) || c == '_' || c == '-' || c == '=' }

  /** `[a-zA-Z0-9\-]` */
  predicate TempoTokenChar(c: char) { IsAsciiLetterOrDigit(c) || c == '-' }

  /** `^[a-zA-Z0-9_\-=]+$` */
  predicate IsJiraToken(s: string) { s != [] && AllChars(s, JiraTokenChar) }

  /** `^[a-zA-Z0-9\-]+$` */
  predicate IsTempoToken(s: string) { s != [] && AllChars(s, TempoTokenChar) }

  /** `^{jira token} {tempo token}$` */
  predicate SecretMatches(s: string) {
    exists i :: 0 <= i < |s| && s[i] == ' ' && IsJiraToken(s[..i]) && IsTempoToken(s[i + 1..])
  }

  /** The stored secret `"{jira} {tempo}"`. */
  function EncodeSecret(jira: string, tempo: string): string {
    jira + " " + tempo
  }

  /** Two accepted tokens make a secret that `Initialize` accepts and splits
      back into the same two tokens. */
  lemma SecretRoundTrip(jira: string, tempo: string)
    requires IsJiraToken(jira) && IsTempoToken(tempo)
    ensures SecretMatches(EncodeSecret(jira, tempo))
    ensures Split(EncodeSecret(jira, tempo), ' ') == [jira, tempo]
  {
    var s := EncodeSecret(jira, tempo);
    assert s[..|jira|] == jira && s[|jira| + 1..] == tempo;
    assert s[|jira|] == ' ';
    assert ' ' !in jira by {
      forall i | 0 <= i < |jira| ensures jira[i] != ' ' { assert JiraTokenChar(jira[i]); }
    }
    assert ' ' !in tempo by {
      forall i | 0 <= i < |tempo| ensures tempo[i] != ' ' { assert TempoTokenChar(tempo[i]); }
    }
    SplitAt(jira, tempo, ' ');
    SplitWhole(tempo, ' ');
  }

  /** Every accepted secret is two tokens: it splits into exactly two pieces
      that are tokens of their kinds and that encode back to the secret. */
  lemma SecretParse(s: string)
    requires SecretMatches(s)
    ensures var parts := Split(s, ' ');
      |parts| == 2 && IsJiraToken(parts[0]) && IsTempoToken(parts[1])
      && EncodeSecret(parts[0], parts[1]) == s
  {
    var i :| 0 <= i < |s| && s[i] == ' ' && IsJiraToken(s[..i]) && IsTempoToken(s[i + 1..]);
    assert s == EncodeSecret(s[..i], s[i + 1..]);
    SecretRoundTrip(s[..i], s[i + 1..]);
  }

  // ---- Tempo accounts and Jira issues, as the REST calls return them ----

  datatype TempoAccount = TempoAccount(id: int, key: string, status: Option<string>)

  /** The `customfield_12320` account field of a Jira issue. */
  datatype AccountField = AccountField(id: Option<int>, value: Option<string>)

  datatype Issue = Issue(key: Option<string>, account: Option<AccountField>)

  /** A Tempo worklog: the issue's REST URL, its start day and its length. */
  datatype Worklog = Worklog(issueUrl: string, day: int, seconds: int)

  /** The body posted to create a worklog. */
  datatype WorklogPost = WorklogPost(issueKey: Option<string>, seconds: real, day: int, startTime: string, author: string)

  predicate IsOpen(a: TempoAccount) { a.status != Some("CLOSED") }

  /** The id-to-key map built from the account list: closed accounts are
      skipped and a later account overwrites an earlier one with the same id. */
  function OpenAccounts(list: seq<TempoAccount>): (m: map<int, string>)
    ensures forall id :: id in m ==>
      exists i :: 0 <= i < |list| && list[i].id == id && IsOpen(list[i]) && m[id] == list[i].key
    ensures forall i :: 0 <= i < |list| && IsOpen(list[i]) ==> list[i].id in m
  {
    if list == [] then map[]
    else
      var init := list[..|list| - 1];
      var a := list[|list| - 1];
      var m := OpenAccounts(init);
      assert forall i :: 0 <= i < |init| ==> init[i] == list[i];
      if IsOpen(a) then m[a.id := a.key] else m
  }

  /** The last open account with a given id is the one the map keeps. */
  lemma {:induction false} OpenAccountsLastWins(list: seq<TempoAccount>, i: nat)
    requires i < |list| && IsOpen(list[i])
    requires forall j :: i < j < |list| && list[j].id == list[i].id ==> !IsOpen(list[j])
    ensures OpenAccounts(list)[list[i].id] == list[i].key
  {
    var init := list[..|list| - 1];
    if i < |list| - 1 {
      assert init[i] == list[i];
      OpenAccountsLastWins(init, i);
    }
  }

  function AccountId(issue: Issue): Option<int> {
    if issue.account.Some? then issue.account.value.id else None
  }

  function AccountText(issue: Issue): Option<string> {
    if issue.account.Some? then issue.account.value.value else None
  }

  /** The invoice account of an issue: the key of its Tempo account when that
      account is known, otherwise the first word of the account text. */
  function InvoiceAccount(issue: Issue, accounts: map<int, string>): Option<string> {
    var id := AccountId(issue);
    if id.Some? && id.value in accounts then Some(accounts[id.value])
    else if AccountText(issue).Some? then Some(FirstWord(AccountText(issue).value))
    else None
  }

  /** Resolution against the fetched account list: an open account with the
      issue's id gives its key; otherwise the text's first word; otherwise null. */
  lemma InvoiceAccountResolution(issue: Issue, list: seq<TempoAccount>)
    ensures var r := InvoiceAccount(issue, OpenAccounts(list));
      var id := AccountId(issue);
      var text := AccountText(issue);
      var known := id.Some? && exists i :: 0 <= i < |list| && list[i].id == id.value && IsOpen(list[i]);
      (known ==> r.Some? && exists i :: 0 <= i < |list| && list[i].id == id.value && IsOpen(list[i]) && r.value == list[i].key)
      && (!known && text.Some? ==> r == Some(FirstWord(text.value)) && StartsWith(text.value, r.value) && ' ' !in r.value)
      && (!known && text.None? ==> r.None?)
  {
  }

  /** The identifications recorded for one issue. */
  function IssueIds(url: string, issue: Issue, accounts: map<int, string>): (ids: map<string, Option<string>>)
    ensures ids.Keys == {"JiraIssueUrl", "JiraIssueKey", "InvoiceAccount", "InvoiceAccountText"}
    ensures ids["JiraIssueUrl"] == Some(url) && ids["JiraIssueKey"] == issue.key
    ensures ids["InvoiceAccount"] == InvoiceAccount(issue, accounts)
    ensures ids["InvoiceAccountText"] == AccountText(issue)
  {
    map["JiraIssueUrl" := Some(url), "JiraIssueKey" := issue.key,
        "InvoiceAccount" := InvoiceAccount(issue, accounts), "InvoiceAccountText" := AccountText(issue)]
  }

  // ---- Hours and seconds ----

  /** `timeSpentSeconds / 60 / 60`. */
  function WorklogHours(seconds: int): (h: real)
    ensures seconds >= 0 ==> h >= 0.0
  {
    seconds as real / 3600.0
  }

  /** `TimeUsed * 60 * 60`. */
  function PostedSeconds(hours: real): real {
    hours * 3600.0
  }

  /** Posting fetched hours sends back the worklog's own seconds. */
  lemma SecondsRoundTrip(seconds: int)
    ensures PostedSeconds(WorklogHours(seconds)) == seconds as real
  {
  }

  /** Posted seconds read back as hours give the entry's hours. */
  lemma HoursRoundTrip(hours: real)
    ensures PostedSeconds(hours) / 3600.0 == hours
  {
  }

  function MakeEntry(registrant: Registrant, w: Worklog, ids: map<string, Option<string>>): Entry {
    Entry(registrant, WorklogHours(w.seconds), w.day, None, ids)
  }

  /** The per-URL memo only grows: what `k0` knew stays, and every URL added
      holds the identifications built from its issue and the account map. */
  ghost predicate MemoGrows(k0: map<string, map<string, Option<string>>>, k1: map<string, map<string, Option<string>>>,
                            issues: string -> Issue, accounts: Option<map<int, string>>)
  {
    (forall u :: u in k0 ==> u in k1 && k1[u] == k0[u])
    && (forall u :: u in k1 && u !in k0 ==> accounts.Some? && k1[u] == IssueIds(u, issues(u), accounts.value))
  }

  /** Each entry is its worklog with the memo's identifications for its issue. */
  ghost predicate EntriesFrom(entries: seq<Entry>, registrant: Registrant, ws: seq<Worklog>,
                              known: map<string, map<string, Option<string>>>)
  {
    |entries| == |ws|
    && forall k :: 0 <= k < |ws| ==>
      ws[k].issueUrl in known && entries[k] == MakeEntry(registrant, ws[k], known[ws[k].issueUrl])
  }

  lemma MemoGrowsRefl(k: map<string, map<string, Option<string>>>, issues: string -> Issue, accounts: Option<map<int, string>>)
    ensures MemoGrows(k, k, issues, accounts)
  {
  }

  /** One lookup keeps the memo or adds the looked-up URL. */
  lemma MemoStep(k0: map<string, map<string, Option<string>>>, url: string, k1: map<string, map<string, Option<string>>>,
                 issues: string -> Issue, accounts: Option<map<int, string>>)
    requires accounts.Some?
    requires url in k0 ==> k1 == k0
    requires url !in k0 ==> k1 == k0[url := IssueIds(url, issues(url), accounts.value)]
    ensures MemoGrows(k0, k1, issues, accounts) && url in k1
  {
  }

  lemma MemoGrowsTrans(k0: map<string, map<string, Option<string>>>, k1: map<string, map<string, Option<string>>>,
                       k2: map<string, map<string, Option<string>>>, issues: string -> Issue,
                       a1: Option<map<int, string>>, a2: Option<map<int, string>>)
    requires MemoGrows(k0, k1, issues, a1) && MemoGrows(k1, k2, issues, a2)
    requires a1.Some? ==> a2 == a1
    ensures MemoGrows(k0, k2, issues, a2)
  {
  }

  lemma EntriesStep(entries: seq<Entry>, registrant: Registrant, ws: seq<Worklog>, i: nat,
                    k0: map<string, map<string, Option<string>>>, k1: map<string, map<string, Option<string>>>,
                    ids: map<string, Option<string>>)
    requires i < |ws| && EntriesFrom(entries, registrant, ws[..i], k0)
    requires forall u :: u in k0 ==> u in k1 && k1[u] == k0[u]
    requires ws[i].issueUrl in k1 && k1[ws[i].issueUrl] == ids
    ensures EntriesFrom(entries + [MakeEntry(registrant, ws[i], ids)], registrant, ws[..i + 1], k1)
  {
    assert ws[..i + 1] == ws[..i] + [ws[i]];
  }

  /** The loop over the account list that fills `_accounts`. */
  method CollectOpenAccounts(list: seq<TempoAccount>) returns (m: map<int, string>)
    ensures m == OpenAccounts(list)
  {
    m := map[];
    for i := 0 to |list|
      invariant m == OpenAccounts(list[..i])
    {
      assert list[..i + 1][..i] == list[..i];
      if IsOpen(list[i]) {
        m := m[list[i].id := list[i].key];
      }
    }
    assert list[..|list|] == list;
  }

  class Tempo {
    var initialized: bool
    var email: Option<string>
    var jiraToken: Option<string>
    var tempoToken: Option<string>
    var jiraUrl: Option<string>
    /** `_authenticated`: only ever set to true. */
    var authenticated: Option<bool>
    /** `_accountIdentifications`: issue URL to identifications. */
    var accountIds: Option<map<string, map<string, Option<string>>>>
    /** `_accounts`: Tempo account id to account key. */
    var accounts: Option<map<int, string>>
    const cache: Cache

    ghost predicate Valid()
      reads this, cache
    {
      cache.Valid() && (authenticated.Some? ==> authenticated == Some(true) && initialized)
    }

    /** The identifications a lookup starts from: the memo, or what the
        cache holds under its key, or nothing. */
    ghost function KnownIds(): map<string, map<string, Option<string>>>
      reads this, cache
    {
      if accountIds.Some? then accountIds.value
      else AsIssueIds(Lookup(cache.Contents(), JiraAccountIdKey)).GetOr(map[])
    }

    /** The account map a lookup starts from: the memo, or the cached map. */
    ghost function KnownAccounts(): Option<map<int, string>>
      reads this, cache
    {
      if accounts.Some? then accounts else AsAccountKeys(Lookup(cache.Contents(), TempoAccountIdKey))
    }

    constructor (cache: Cache)
      requires cache.Valid()
      ensures Valid() && this.cache == cache
      ensures !initialized && email.None? && jiraToken.None? && tempoToken.None? && jiraUrl.None?
      ensures authenticated.None? && accountIds.None? && accounts.None?
    {
      this.cache := cache;
      initialized := false;
      email := None;
      jiraToken := None;
      tempoToken := None;
      jiraUrl := None;
      authenticated := None;
      accountIds := None;
      accounts := None;
    }

    /** `Initialize`: needs a JiraUrl; a secret, when credentials are given,
        must be the two tokens separated by one space. */
    method Initialize(credentials: Option<Credentials>, config: map<string, string>) returns (o: Outcome)
      requires Valid()
      modifies this`initialized, this`email, this`jiraToken, this`tempoToken, this`jiraUrl
      ensures Valid()
      ensures o.Failed? <==> ("JiraUrl" !in config
        || (credentials.Some? && !(credentials.value.secret.Some? && SecretMatches(credentials.value.secret.value))))
      ensures o.Failed? ==> o.error.InvalidOperation?
      ensures initialized == (o.Done? || old(initialized))
      ensures jiraUrl == if "JiraUrl" in config then Some(config["JiraUrl"]) else None
      ensures email == if "JiraUrl" in config && credentials.Some? then credentials.value.username else old(email)
      ensures o.Done? && credentials.Some? ==>
        jiraToken.Some? && tempoToken.Some? && IsJiraToken(jiraToken.value) && IsTempoToken(tempoToken.value)
        && credentials.value.secret == Some(EncodeSecret(jiraToken.value, tempoToken.value))
      ensures !(o.Done? && credentials.Some?) ==> jiraToken == old(jiraToken) && tempoToken == old(tempoToken)
    {
      if "JiraUrl" !in config {
        jiraUrl := None;
        return Failed(InvalidOperation(NoJiraUrl));
      }
      jiraUrl := Some(config["JiraUrl"]);
      if credentials.Some? {
        email := credentials.value.username;
        var secret := credentials.value.secret;
        if secret.None? || !SecretMatches(secret.value) {
          return Failed(InvalidOperation(InvalidSecret));
        }
        SecretParse(secret.value);
        var parts := Split(secret.value, ' ');
        jiraToken := Some(parts[0]);
        tempoToken := Some(parts[1]);
      }
      initialized := true;
      return Done;
    }

    /** `IsAuthenticated`: a remembered success is returned as is; otherwise
        the credentials must be present and both services must answer. */
    method IsAuthenticated(tempoReachable: bool, jiraReachable: bool) returns (r: Result<bool>)
      requires Valid()
      modifies this`authenticated
      ensures Valid()
      ensures old(authenticated) == Some(true) ==> r == Ok(true) && authenticated == Some(true)
      ensures r.Err? <==> old(authenticated).None? && !initialized
      ensures r == Ok(true) <==> authenticated == Some(true)
      ensures old(authenticated).None? && initialized ==>
        (r == Ok(true) <==> email.Some? && jiraToken.Some? && tempoToken.Some? && tempoReachable && jiraReachable)
    {
      if authenticated.Some? {
        return Ok(authenticated.value);
      }
      if !initialized {
        return Err(InvalidOperation(NotInitialized));
      }
      if email.None? || jiraToken.None? || tempoToken.None? {
        return Ok(false);
      }
      if !tempoReachable || !jiraReachable {
        return Ok(false);
      }
      authenticated := Some(true);
      return Ok(true);
    }

    /** `AskUserForCredentials`: the entered tokens are checked one by one and
        kept; credentials come back only when authentication succeeds, with
        a secret that `Initialize` accepts and splits into the same tokens. */
    method AskUserForCredentials(username: Option<string>, jira: string, tempo: string,
                                 tempoReachable: bool, jiraReachable: bool)
      returns (r: Result<Option<Credentials>>)
      requires Valid()
      modifies this`email, this`jiraToken, this`tempoToken, this`authenticated
      ensures Valid()
      ensures r.Err? <==> !initialized || !IsJiraToken(jira) || !IsTempoToken(tempo)
      ensures email == if initialized then username else old(email)
      ensures jiraToken == if initialized && IsJiraToken(jira) then Some(jira) else old(jiraToken)
      ensures tempoToken == if initialized && IsJiraToken(jira) && IsTempoToken(tempo) then Some(tempo) else old(tempoToken)
      ensures r.Ok? ==> (r.value.Some? <==> authenticated == Some(true))
      ensures r.Ok? && r.value.Some? ==>
        r.value.value.username == username && r.value.value.secret.Some?
        && SecretMatches(r.value.value.secret.value) && Split(r.value.value.secret.value, ' ') == [jira, tempo]
    {
      if !initialized {
        return Err(InvalidOperation(NotInitialized));
      }
      email := username;
      if !IsJiraToken(jira) {
        return Err(InvalidOperation(InvalidToken));
      }
      jiraToken := Some(jira);
      if !IsTempoToken(tempo) {
        return Err(InvalidOperation(InvalidToken));
      }
      tempoToken := Some(tempo);
      var auth := IsAuthenticated(tempoReachable, jiraReachable);
      if auth.Err? || !auth.value {
        return Ok(None);
      }
      SecretRoundTrip(jira, tempo);
      return Ok(Some(Credentials(username, Some(EncodeSecret(jira, tempo)))));
    }

    /** `GetLoggedInIdentity`: the Atlassian account id of the token's user;
        `myself` is the response, None when the request fails. */
    method GetLoggedInIdentity(myself: Option<string>, tempoReachable: bool, jiraReachable: bool)
      returns (r: Result<map<string, string>>)
      requires Valid()
      modifies this`authenticated
      ensures Valid()
      ensures r.Ok? <==> initialized && authenticated == Some(true) && myself.Some?
      ensures r.Ok? ==> r.value == map["AtlassianID" := myself.value]
    {
      if !initialized {
        return Err(InvalidOperation(NotInitialized));
      }
      var auth := IsAuthenticated(tempoReachable, jiraReachable);
      if auth.Err? || !auth.value {
        return Err(InvalidOperation(NotAuthenticatedCall));
      }
      if myself.None? {
        return Err(InvalidOperation(RequestFailed));
      }
      return Ok(map["AtlassianID" := myself.value]);
    }

    /** `GetAccountIdentifications` for one worklog: loads both memos (from
        the cache, the account map otherwise from `accountList`, None when
        that request fails), then answers from the per-URL memo or builds
        and remembers the issue's identifications. */
    method GetAccountIdentifications(issueUrl: string, issue: Issue, accountList: Option<seq<TempoAccount>>)
      returns (r: Result<map<string, Option<string>>>)
      requires Valid()
      modifies this`accountIds, this`accounts, cache
      ensures Valid()
      ensures cache.Contents() == old(cache.Contents())
      ensures accountIds.Some? && accounts.Some?
      ensures r.Err? <==> old(KnownAccounts()).None? && accountList.None?
      ensures r.Err? ==> r.error == InvalidOperation(RequestFailed)
      ensures accounts == if old(KnownAccounts()).Some? then old(KnownAccounts())
                          else if accountList.Some? then Some(OpenAccounts(accountList.value))
                          else Some(map[])
      ensures r.Err? ==> accountIds.value == old(KnownIds())
      ensures r.Ok? && issueUrl in old(KnownIds()) ==>
        r.value == old(KnownIds())[issueUrl] && accountIds.value == old(KnownIds())
      ensures r.Ok? && issueUrl !in old(KnownIds()) ==>
        r.value == IssueIds(issueUrl, issue, accounts.value) && accountIds.value == old(KnownIds())[issueUrl := r.value]
    {
      LoadAccountIds();
      var fetched := LoadAccounts(accountList);
      if !fetched {
        return Err(InvalidOperation(RequestFailed));
      }
      var known := accountIds.value;
      if issueUrl in known {
        return Ok(known[issueUrl]);
      }
      var ids := IssueIds(issueUrl, issue, accounts.value);
      accountIds := Some(known[issueUrl := ids]);
      return Ok(ids);
    }

    /** The first half of `GetAccountIdentifications`: the per-URL memo from
        the cache, or an empty one. */
    method LoadAccountIds()
      requires Valid()
      modifies this`accountIds, cache
      ensures Valid()
      ensures cache.Contents() == old(cache.Contents())
      ensures accountIds == Some(old(KnownIds()))
    {
      if accountIds.None? {
        var v := cache.Get(JiraAccountIdKey);
        accountIds := AsIssueIds(v);
        if accountIds.None? {
          accountIds := Some(map[]);
        }
      }
    }

    /** The account map from the memo, the cache or the account request; when
        the request fails the memo is left as an empty map and false comes
        back. */
    method LoadAccounts(accountList: Option<seq<TempoAccount>>) returns (fetched: bool)
      requires Valid()
      modifies this`accounts, cache
      ensures Valid()
      ensures cache.Contents() == old(cache.Contents())
      ensures fetched <==> old(KnownAccounts()).Some? || accountList.Some?
      ensures accounts == if old(KnownAccounts()).Some? then old(KnownAccounts())
                          else if accountList.Some? then Some(OpenAccounts(accountList.value))
                          else Some(map[])
    {
      if accounts.None? {
        var v := cache.Get(TempoAccountIdKey);
        accounts := AsAccountKeys(v);
        if accounts.None? {
          accounts := Some(map[]);
          if accountList.None? {
            return false;
          }
          var m := CollectOpenAccounts(accountList.value);
          accounts := Some(m);
        }
      }
      return true;
    }
    /** `FlushAccountIdentificationsCache`: writes each memo that is loaded. */
    method FlushAccountIdentificationsCache()
      requires Valid()
      modifies cache
      ensures Valid()
      ensures Lookup(cache.Contents(), JiraAccountIdKey)
        == if accountIds.Some? then Some(IssueIdsValue(accountIds.value)) else Lookup(old(cache.Contents()), JiraAccountIdKey)
      ensures Lookup(cache.Contents(), TempoAccountIdKey)
        == if accounts.Some? then Some(AccountKeysValue(accounts.value)) else Lookup(old(cache.Contents()), TempoAccountIdKey)
      ensures forall k :: k != JiraAccountIdKey && k != TempoAccountIdKey ==>
        Lookup(cache.Contents(), k) == Lookup(old(cache.Contents()), k)
    {
      if accountIds.Some? {
        cache.Set(JiraAccountIdKey, Some(IssueIdsValue(accountIds.value)));
      }
      if accounts.Some? {
        cache.Set(TempoAccountIdKey, Some(AccountKeysValue(accounts.value)));
      }
    }

    /** `ClearAccountIdentificationsCache`: forgets both memos and stores null
        under both keys, so the next lookup starts from nothing. */
    method ClearAccountIdentificationsCache()
      requires Valid()
      modifies this`accountIds, this`accounts, cache
      ensures Valid()
      ensures accountIds.None? && accounts.None?
      ensures Lookup(cache.Contents(), JiraAccountIdKey) == None && Lookup(cache.Contents(), TempoAccountIdKey) == None
      ensures forall k :: k != JiraAccountIdKey && k != TempoAccountIdKey ==>
        Lookup(cache.Contents(), k) == Lookup(old(cache.Contents()), k)
      ensures KnownIds() == map[] && KnownAccounts().None?
    {
      accountIds := None;
      accounts := None;
      cache.Set(TempoAccountIdKey, None);
      cache.Set(JiraAccountIdKey, None);
    }

    /** What `IsAuthenticated` answers yes to: a remembered success, or,
        with nothing remembered, the credentials and both services. */
    ghost predicate Authenticates(tempoReachable: bool, jiraReachable: bool)
      reads this
    {
      authenticated == Some(true) ||
      (authenticated.None? && email.Some? && jiraToken.Some? && tempoToken.Some? && tempoReachable && jiraReachable)
    }

    /** `GetTimeRegistrationEntries`: one entry per worklog (`worklogs` is the
        response, None when it fails) with the worklog's day, its hours and
        the identifications of its issue, then both memos are flushed. */
    method GetTimeRegistrationEntries(registrant: Registrant, worklogs: Option<seq<Worklog>>,
                                      issues: string -> Issue, accountList: Option<seq<TempoAccount>>,
                                      tempoReachable: bool, jiraReachable: bool)
      returns (r: Result<seq<Entry>>)
      requires Valid()
      modifies this`authenticated, this`accountIds, this`accounts, cache
      ensures Valid()
      ensures !initialized ==> r == Err(InvalidOperation(NotInitialized))
      ensures initialized && !old(Authenticates(tempoReachable, jiraReachable)) ==>
        r == Err(InvalidOperation(NotAuthenticatedEntries))
      ensures (initialized && old(Authenticates(tempoReachable, jiraReachable))
               && "AtlassianID" !in registrant.identifications) ==> r == Err(InvalidOperation(NoAtlassianId))
      ensures (initialized && old(Authenticates(tempoReachable, jiraReachable))
               && "AtlassianID" in registrant.identifications && worklogs.None?) ==> r == Err(InvalidOperation(RequestFailed))
      ensures (initialized && old(Authenticates(tempoReachable, jiraReachable))
               && "AtlassianID" in registrant.identifications && worklogs.Some?) ==>
        (r.Err? <==> worklogs.value != [] && old(KnownAccounts()).None? && accountList.None?) &&
        (r.Err? ==> r.error == InvalidOperation(RequestFailed))
      ensures r.Ok? ==> (initialized && authenticated == Some(true)
        && "AtlassianID" in registrant.identifications && worklogs.Some?)
      ensures r.Ok? ==> EntriesFrom(r.value, registrant, worklogs.value, KnownIds())
      ensures r.Ok? ==> MemoGrows(old(KnownIds()), KnownIds(), issues, accounts)
      ensures r.Ok? && accountIds.Some? ==> Lookup(cache.Contents(), JiraAccountIdKey) == Some(IssueIdsValue(accountIds.value))
      ensures r.Ok? && accounts.Some? ==> Lookup(cache.Contents(), TempoAccountIdKey) == Some(AccountKeysValue(accounts.value))
    {
      if !initialized {
        return Err(InvalidOperation(NotInitialized));
      }
      var auth := IsAuthenticated(tempoReachable, jiraReachable);
      if auth.Err? || !auth.value {
        return Err(InvalidOperation(NotAuthenticatedEntries));
      }
      if "AtlassianID" !in registrant.identifications {
        return Err(InvalidOperation(NoAtlassianId));
      }
      if worklogs.None? {
        return Err(InvalidOperation(RequestFailed));
      }
      var ws := worklogs.value;
      ghost var known0 := KnownIds();
      ghost var accounts0 := KnownAccounts();
      var entries: seq<Entry> := [];
      MemoGrowsRefl(known0, issues, accounts);
      for i := 0 to |ws|
        invariant Valid() && initialized && authenticated == Some(true)
        invariant i == 0 ==> KnownAccounts() == accounts0
        invariant i > 0 ==> KnownAccounts().Some? && (accounts0.Some? || accountList.Some?)
        invariant MemoGrows(known0, KnownIds(), issues, accounts)
        invariant EntriesFrom(entries, registrant, ws[..i], KnownIds())
      {
        ghost var known1 := KnownIds();
        ghost var accounts1 := accounts;
        var ids := GetAccountIdentifications(ws[i].issueUrl, issues(ws[i].issueUrl), accountList);
        if ids.Err? {
          return Err(ids.error);
        }
        MemoStep(known1, ws[i].issueUrl, KnownIds(), issues, accounts);
        MemoGrowsTrans(known0, known1, KnownIds(), issues, accounts1, accounts);
        EntriesStep(entries, registrant, ws, i, known1, KnownIds(), ids.value);
        entries := entries + [MakeEntry(registrant, ws[i], ids.value)];
      }
      assert ws[..|ws|] == ws;
      FlushAccountIdentificationsCache();
      return Ok(entries);
    }

    /** `CreateTimeRegistrationEntry`: needs the registrant's AtlassianID and
        a JiraIssueKey identification (a null value passes), and posts the
        hours as seconds; `accepted` is whether the post succeeds. */
    method CreateTimeRegistrationEntry(entry: Entry, tempoReachable: bool, jiraReachable: bool, accepted: bool)
      returns (r: Result<WorklogPost>)
      requires Valid()
      modifies this`authenticated
      ensures Valid()
      ensures r.Ok? <==> (initialized && authenticated == Some(true)
        && "AtlassianID" in entry.registrant.identifications && "JiraIssueKey" in entry.accountIds && accepted)
      ensures r.Ok? ==> r.value == WorklogPost(entry.accountIds["JiraIssueKey"], PostedSeconds(entry.timeUsed),
                                               entry.day, "00:00:00", entry.registrant.identifications["AtlassianID"])
    {
      if !initialized {
        return Err(InvalidOperation(NotInitialized));
      }
      var auth := IsAuthenticated(tempoReachable, jiraReachable);
      if auth.Err? || !auth.value {
        return Err(InvalidOperation(NotAuthenticatedEntries));
      }
      if "AtlassianID" !in entry.registrant.identifications {
        return Err(InvalidOperation(NoAtlassianId));
      }
      if "JiraIssueKey" !in entry.accountIds {
        return Err(InvalidOperation(NoIssueKey));
      }
      var post := WorklogPost(entry.accountIds["JiraIssueKey"], PostedSeconds(entry.timeUsed),
                              entry.day, "00:00:00", entry.registrant.identifications["AtlassianID"]);
      if !accepted {
        return Err(InvalidOperation(RequestFailed));
      }
      return Ok(post);
    }
  }
}

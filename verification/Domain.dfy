/** The entry model: registrants, time-registration entries and credentials.
    Days are whole numbers (a day's local midnight), hours are exact reals. */
module Domain {
  import opened Wrappers
  import opened Grouping

  /** A person, known to each provider under one or more identifications
      (identification type to identifier). */
  datatype Registrant = Registrant(name: Option<string>, identifications: map<string, string>)

  /** One registration of work time. Account identifications map a type
      ("JiraIssueKey", "InvoiceAccount", ...) to a value that may be null. */
  datatype Entry = Entry(
    registrant: Registrant,
    timeUsed: real,
    day: int,
    warning: Option<string>,
    accountIds: map<string, Option<string>>)

  datatype Credentials = Credentials(username: Option<string>, secret: Option<string>)

  /** `AccountIdentifications.TryGetValue(key, out var v) ? v : null`. */
  function IdOrNull(e: Entry, key: string): Option<string> {
    if key in e.accountIds then e.accountIds[key] else None
  }

  function TimeUsed(e: Entry): real { e.timeUsed }

  /** `entries.Sum(e => e.TimeUsed)`. */
  function TotalHours(es: seq<Entry>): real {
    SumOf(es, TimeUsed)
  }

  /** The hours of the group with key `k` in `es.GroupBy(key)`. */
  function GroupHours<K(==,!new)>(es: seq<Entry>, key: Entry -> K, k: K): real {
    GroupSum(es, key, TimeUsed, k)
  }

  /** Grouping entries by any key neither creates nor loses time. */
  lemma HoursConserved<K(!new)>(es: seq<Entry>, key: Entry -> K)
    ensures SumOverGroups(es, key, TimeUsed, GroupKeys(es, key)) == TotalHours(es)
  {
    SumConserved(es, key, TimeUsed);
  }

  /** The entries dated on `day`, in their original order: each entry of
      that day as often as it occurs, and no other. */
  function EntriesOn(entries: seq<Entry>, day: int): (r: seq<Entry>)
    ensures forall e :: e in r <==> e in entries && e.day == day
    ensures |r| <= |entries|
  {
    if entries == [] then []
    else
      assert forall e :: e in entries <==> e == entries[0] || e in entries[1..];
      (if entries[0].day == day then [entries[0]] else []) + EntriesOn(entries[1..], day)
  }

  /** Each entry of the day is kept as often as it occurs; the others are
      dropped. */
  lemma {:induction false} EntriesOnCount(entries: seq<Entry>, day: int)
    ensures forall e :: multiset(EntriesOn(entries, day))[e] == if e.day == day then multiset(entries)[e] else 0
  {
    if entries != [] {
      EntriesOnCount(entries[1..], day);
      assert entries == [entries[0]] + entries[1..];
    }
  }

  /** Filtering by day distributes over concatenation, so it keeps the
      entries' order. */
  lemma {:induction false} EntriesOnAppend(xs: seq<Entry>, zs: seq<Entry>, day: int)
    ensures EntriesOn(xs + zs, day) == EntriesOn(xs, day) + EntriesOn(zs, day)
  {
    if xs == [] {
      assert xs + zs == zs;
    } else {
      assert (xs + zs)[0] == xs[0];
      assert (xs + zs)[1..] == xs[1..] + zs;
      EntriesOnAppend(xs[1..], zs, day);
    }
  }

  /** The length of the run of `es` that is accepted before the first
      rejected entry, when `rejects` says which entries a provider refuses. */
  function FirstRejected(es: seq<Entry>, rejects: Entry -> Option<Error>): (n: nat)
    ensures n <= |es|
    ensures forall j :: 0 <= j < n ==> rejects(es[j]).None?
    ensures n < |es| ==> rejects(es[n]).Some?
  {
    if es == [] || rejects(es[0]).Some? then 0
    else
      var n := FirstRejected(es[1..], rejects);
      assert forall j :: 1 <= j <= n ==> es[j] == es[1..][j - 1];
      1 + n
  }

  /** A run with no rejection and a rejected entry (or the end) after it is
      the run `FirstRejected` finds. */
  lemma FirstRejectedAt(es: seq<Entry>, rejects: Entry -> Option<Error>, n: nat)
    requires n <= |es|
    requires forall j :: 0 <= j < n ==> rejects(es[j]).None?
    requires n < |es| ==> rejects(es[n]).Some?
    ensures FirstRejected(es, rejects) == n
  {
  }
}

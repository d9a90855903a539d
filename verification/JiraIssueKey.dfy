/** The Jira issue key the Toggl provider reads from the start of a time
    entry's description (`TogglTrackTimeProvider.GetTimeRegistrationEntries`). */
module JiraIssueKey {
  import opened Wrappers
  import opened Text

  /** `[A-ZÆØÅ]` */
  predicate IsKeyLetter(c: char) { 'A' <= c <= 'Z' || c == '\U{C6}' || c == '\U{D8}' || c == '\U{C5}' }

  /** A Jira issue key: one or more key letters, a dash, one or more digits. */
  predicate IsIssueKey(k: string) {
    exists n :: 0 < n < |k| - 1 && AllChars(k[..n], IsKeyLetter) && k[n] == '-' && AllChars(k[n + 1..], IsDigit)
  }

  /** `Regex.Match(desc, "^[A-ZÆØÅ]+-[0-9]+ ")`, its value trimmed: the key
      at the start of the description when a space follows it. */
  function JiraKeyOf(desc: string): (r: Option<string>)
    ensures r.Some? ==> IsIssueKey(r.value) && StartsWith(desc, r.value + " ")
  {
    var n := RunLength(desc, IsKeyLetter);
    if n == 0 || n >= |desc| || desc[n] != '-' then None
    else
      var m := RunLength(desc[n + 1..], IsDigit);
      if m == 0 || n + 1 + m >= |desc| || desc[n + 1 + m] != ' ' then None
      else
        var k := desc[..n + 1 + m];
        assert k[..n] == desc[..n] && k[n + 1..] == desc[n + 1..][..m];
        assert (k + " ") == desc[..n + 1 + m + 1];
        Some(k)
  }

  /** A key followed by a space at the start of a description is found, and
      is the key returned: no other key qualifies. */
  lemma JiraKeyFound(desc: string, k: string)
    requires IsIssueKey(k) && StartsWith(desc, k + " ")
    ensures JiraKeyOf(desc) == Some(k)
  {
    var n :| 0 < n < |k| - 1 && AllChars(k[..n], IsKeyLetter) && k[n] == '-' && AllChars(k[n + 1..], IsDigit);
    var m := |k| - n - 1;
    var rest := desc[n + 1..];
    KeyPrefixChars(desc, k, n);
    RunLengthIs(desc, IsKeyLetter, n);
    RunLengthIs(rest, IsDigit, m);
    JiraKeyAt(desc, n, m);
  }

  /** The match when the letter run ends at `n` and the digit run after the
      dash has length `m`. */
  lemma JiraKeyAt(desc: string, n: nat, m: nat)
    requires 0 < n && 0 < m && n + 1 + m < |desc|
    requires RunLength(desc, IsKeyLetter) == n && desc[n] == '-'
    requires RunLength(desc[n + 1..], IsDigit) == m && desc[n + 1 + m] == ' '
    ensures JiraKeyOf(desc) == Some(desc[..n + 1 + m])
  {
    JiraKeyMatches(desc, n, m);
  }

  lemma JiraKeyMatches(desc: string, n: nat, m: nat)
    requires 0 < n && 0 < m && n + 1 + m < |desc|
    requires RunLength(desc, IsKeyLetter) == n && desc[n] == '-'
    requires RunLength(desc[n + 1..], IsDigit) == m && desc[n + 1 + m] == ' '
    ensures JiraKeyOf(desc).Some?
  {
  }

  /** The characters of a key at the start of a description, position by
      position. */
  lemma KeyPrefixChars(desc: string, k: string, n: nat)
    requires 0 < n < |k| - 1 && AllChars(k[..n], IsKeyLetter) && k[n] == '-' && AllChars(k[n + 1..], IsDigit)
    requires StartsWith(desc, k + " ")
    ensures forall i :: 0 <= i < n ==> IsKeyLetter(desc[i])
    ensures desc[n] == '-'
    ensures forall i :: n < i < |k| ==> IsDigit(desc[i])
    ensures desc[|k|] == ' '
    ensures desc[..|k|] == k
  {
    assert desc[..|k| + 1] == k + " ";
    assert forall i :: 0 <= i <= |k| ==> desc[i] == (k + " ")[i];
    forall i | 0 <= i < n ensures IsKeyLetter(desc[i]) { assert k[..n][i] == k[i]; }
    forall i | n < i < |k| ensures IsDigit(desc[i]) {
      assert k[n + 1..][i - n - 1] == k[i];
    }
  }

  /** A run of exactly `n` characters satisfying `p`. */
  lemma RunLengthIs(s: string, p: char -> bool, n: nat)
    requires n <= |s| && forall i :: 0 <= i < n ==> p(s[i])
    requires n < |s| ==> !p(s[n])
    ensures RunLength(s, p) == n
  {
  }

  /** The key is found exactly when the description starts with a key and a
      space. */
  lemma JiraKeyIff(desc: string)
    ensures JiraKeyOf(desc).Some? <==> exists k :: IsIssueKey(k) && StartsWith(desc, k + " ")
  {
    if exists k :: IsIssueKey(k) && StartsWith(desc, k + " ") {
      var k :| IsIssueKey(k) && StartsWith(desc, k + " ");
      JiraKeyFound(desc, k);
    }
  }
}

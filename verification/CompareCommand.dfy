/** The `compare` command: a table of Tempo and Toolkit hours per day and
    invoice account over an inclusive date range. The entries both providers
    return for the range are inputs. */
module CompareCommand {
  import opened Wrappers
  import opened Domain
  import opened Reconcile

  /** `Execute`: the day loop, adding one table row per account of the day. */
  method Execute(tempo: seq<Entry>, toolkit: seq<Entry>, from: int, to: int) returns (r: Result<seq<Row>>)
    ensures r == CompareRows(tempo, toolkit, from, to)
  {
    var table: seq<Row> := [];
    var d := from;
    while d <= to
      invariant from <= d && (d <= to + 1 || d == from)
      invariant CompareRows(tempo, toolkit, from, d - 1) == Ok(table)
    {
      var tempoHours := DayHours(tempo, d);
      if tempoHours.Err? {
        FirstErrorDecides(tempo, toolkit, from, d, to);
        return Err(tempoHours.error);
      }
      var toolkitHours := DayHours(toolkit, d);
      if toolkitHours.Err? {
        FirstErrorDecides(tempo, toolkit, from, d, to);
        return Err(toolkitHours.error);
      }
      var accounts := DayAccounts(tempo, toolkit, d);
      table := AddDayRows(table, d, accounts, tempoHours.value, toolkitHours.value);
      d := d + 1;
    }
    return Ok(table);
  }

  /** The inner loop: one row per account, in the accounts' order. */
  method AddDayRows(table: seq<Row>, day: int, accounts: seq<string>,
                    tempoHours: map<string, real>, toolkitHours: map<string, real>)
    returns (result: seq<Row>)
    ensures result == table + DayRows(day, accounts, tempoHours, toolkitHours)
  {
    result := table;
    var i := 0;
    while i < |accounts|
      invariant 0 <= i <= |accounts|
      invariant result == table + DayRows(day, accounts[..i], tempoHours, toolkitHours)
    {
      var row := MakeRow(day, accounts[i], tempoHours, toolkitHours);
      assert DayRows(day, accounts[..i + 1], tempoHours, toolkitHours)
        == DayRows(day, accounts[..i], tempoHours, toolkitHours) + [row];
      result := result + [row];
      i := i + 1;
    }
    assert accounts[..i] == accounts;
  }

  /** A duplicate on day `d` within the range makes the whole table fail. */
  lemma FirstErrorDecides(tempo: seq<Entry>, toolkit: seq<Entry>, from: int, d: int, to: int)
    requires from <= d <= to
    requires DayHours(tempo, d).Err? || DayHours(toolkit, d).Err?
    ensures CompareRows(tempo, toolkit, from, to) == Err(DuplicateKey(""))
  {
    assert Unreadable(tempo, toolkit, d);
  }
}

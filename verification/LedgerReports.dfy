/** What the certificate manager and the application are told, over a whole run. */
module LedgerReports {
  import opened Records
  import opened LedgerState

  /** The records the application was told about, in order. */
  function ToldApplication(reports: seq<Report>): seq<Record>
    decreases |reports|
  {
    if reports == [] then []
    else
      var before := ToldApplication(reports[..|reports| - 1]);
      if reports[|reports| - 1].ToApplication? then before + [reports[|reports| - 1].r] else before
  }

  lemma ToldOneMore(reports: seq<Report>, r: Record)
    ensures ToldApplication(reports + Reports(r)) == ToldApplication(reports) + [r]
  {
    var all := reports + Reports(r);
    if Reports(r) == [ToManager(r), ToApplication(r)] {
      assert all[..|all| - 1] == reports + [ToManager(r)];
      assert (reports + [ToManager(r)])[..|reports|] == reports;
    } else {
      assert Reports(r) == [ToApplication(r)];
      assert all[..|all| - 1] == reports;
    }
  }

  /** The application is told of every confirmation, once each and in order. */
  lemma {:induction false} ToldEveryConfirmation(log: seq<Confirmation>)
    ensures |ToldApplication(Reported(log))| == |log|
    ensures forall i :: 0 <= i < |log| ==> ToldApplication(Reported(log))[i] == log[i].record
    decreases |log|
  {
    if log != [] {
      var front, last := log[..|log| - 1], log[|log| - 1].record;
      ToldEveryConfirmation(front);
      ToldOneMore(Reported(front), last);
      assert ToldApplication(Reported(log)) == ToldApplication(Reported(front)) + [last];
    }
  }
}

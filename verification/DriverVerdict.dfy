/** The reason that the daemon records when a command ends.
 *
 *  The daemon's goroutine keeps one error variable.  The wait for the command assigns it, and so
 *  does every progress report that gets as far as its status write; whatever was assigned last is
 *  what decides between success and failure.  While progress is collected the goroutine has the
 *  collector make one more report after the command has ended, and waits for it. */
module DriverVerdict {
  datatype Reason = Success | Failed | Cancelled

  /** A progress report: given up on a line that could not be parsed, or its status write ended so. */
  datatype Report = GivenUp | Written(ok: bool)

  /** What is known before the command starts: the profile's interval and the mock mode. */
  datatype Setup = Setup(intervalSeconds: int, mock: bool)

  /** How a run goes: the reports of the ticks before the wait for the command returns and of those
      that end after it, the exit, and the last report. */
  datatype Course = Course(before: seq<Report>, exitOk: bool, after: seq<Report>, last: Report)

  predicate ProgressCollectionEnabled(setup: Setup) {
    setup.intervalSeconds >= 1
  }

  /** Progress reports are made and written. */
  predicate Reporting(setup: Setup) {
    ProgressCollectionEnabled(setup) && !setup.mock
  }

  class Goroutine {
    const setup: Setup
    var err: bool

    constructor (setup: Setup)
      ensures this.setup == setup && !err
    {
      this.setup, err := setup, false;
    }

    method ParseAndUpdateProgress(report: Report)
      modifies this
      ensures err == if setup.mock then old(err) else After(old(err), report)
    {
      if report.GivenUp? {
        return;
      }
      if !setup.mock {
        err := !report.ok;
      }
    }

    /** The ticks of the collector. */
    method Collect(reports: seq<Report>)
      modifies this
      ensures err == if setup.mock then old(err) else AfterAll(old(err), reports)
    {
      ghost var start := err;
      for i := 0 to |reports|
        invariant err == if setup.mock then start else AfterAll(start, reports[..i])
      {
        assert reports[..i + 1][..i] == reports[..i];
        ParseAndUpdateProgress(reports[i]);
      }
      assert reports[..|reports|] == reports;
    }

    method Run(course: Course, cancelled: bool) returns (r: Reason)
      modifies this
      ensures r == Recorded(setup, course, cancelled)
    {
      if ProgressCollectionEnabled(setup) {
        Collect(course.before);
      }
      err := !course.exitOk;
      if ProgressCollectionEnabled(setup) {
        Collect(course.after);
        ParseAndUpdateProgress(course.last);
      }
      r := Success;
      if cancelled {
        r := Cancelled;
      } else if err {
        r := Failed;
      }
    }
  }

  function After(err: bool, report: Report): bool {
    if report.GivenUp? then err else !report.ok
  }

  function AfterAll(err: bool, reports: seq<Report>): bool {
    if reports == [] then err else After(AfterAll(err, reports[..|reports| - 1]), reports[|reports| - 1])
  }

  /** The error variable when the reason is chosen. */
  function Final(setup: Setup, course: Course): bool {
    if Reporting(setup) then After(AfterAll(!course.exitOk, course.after), course.last) else !course.exitOk
  }

  function Verdict(err: bool, cancelled: bool): Reason {
    if cancelled then Cancelled else if err then Failed else Success
  }

  function Recorded(setup: Setup, course: Course, cancelled: bool): Reason {
    Verdict(Final(setup, course), cancelled)
  }

  /** The reason tells how the command ended. */
  predicate Truthful(setup: Setup, course: Course, cancelled: bool) {
    Recorded(setup, course, cancelled) == Verdict(!course.exitOk, cancelled)
  }

  /** Position of the last report that was written, or -1. */
  function LastWritten(reports: seq<Report>): (r: int)
    ensures -1 <= r < |reports|
    ensures r >= 0 ==> reports[r].Written?
    ensures forall i :: r < i < |reports| ==> reports[i].GivenUp?
  {
    if reports == [] then -1
    else if reports[|reports| - 1].Written? then |reports| - 1
    else LastWritten(reports[..|reports| - 1])
  }

  lemma {:induction false} LastReportDecides(err: bool, reports: seq<Report>)
    ensures AfterAll(err, reports) == if LastWritten(reports) == -1 then err else !reports[LastWritten(reports)].ok
  {
    if reports != [] {
      LastReportDecides(err, reports[..|reports| - 1]);
    }
  }

  /** While reports are written, the exit of a command that was not cancelled is not what is recorded:
      the outcome of the last report's write is, whatever the reports before it and the command did. */
  lemma LastReportIsRecorded(setup: Setup, course: Course)
    requires Reporting(setup) && course.last.Written?
    ensures Recorded(setup, course, false) == if course.last.ok then Success else Failed
  {
  }

  /** One run: which outcomes leave the truth. */
  lemma TruthfulRun(setup: Setup, course: Course, cancelled: bool)
    ensures var late := course.after + [course.last];
      Truthful(setup, course, cancelled) <==>
        cancelled || !Reporting(setup) || LastWritten(late) == -1 || late[LastWritten(late)].ok == course.exitOk
  {
    var late := course.after + [course.last];
    assert late[..|late| - 1] == course.after;
    LastReportDecides(!course.exitOk, late);
  }

  /** The reason tells how the command ended in every run exactly when no progress is reported: the
      profile's interval is below a second, or the daemon is mocked. */
  lemma VerdictIsTrue(setup: Setup)
    ensures (forall course, cancelled :: Truthful(setup, course, cancelled)) <==> !Reporting(setup)
  {
    if Reporting(setup) {
      FailureRecordedAsSuccess(setup, [], []);
      assert !Truthful(setup, Course([], false, [], Written(true)), false);
    }
  }

  /** A failed command is recorded as a success whenever its last report is written, as it is in a
      daemon at work. */
  lemma FailureRecordedAsSuccess(setup: Setup, before: seq<Report>, after: seq<Report>)
    requires Reporting(setup)
    ensures Recorded(setup, Course(before, false, after, Written(true)), false) == Success
  {
    LastReportIsRecorded(setup, Course(before, false, after, Written(true)));
  }
}

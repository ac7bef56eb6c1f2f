/** The data-quality gate of src/validator.py: run two SQL scripts, take one
    scalar from each, compare them with a named operator, report the verdict,
    and turn the command line into a process exit status. */
module Validator {
  import opened Wrappers

  /** A value in the first column of a fetched row: SQL NULL (Python None)
      or a number (int or Decimal in Python, compared by value). */
  datatype Scalar = Null | Num(v: real)

  type Row = seq<Scalar>

  /** The exceptions execute_test can raise. */
  datatype Error =
    | ScriptNotFound(path: string)   // open() of a missing script file
    | ExecuteFailed                  // the warehouse rejected the statement
    | NoRow                          // fetchone() gave None; None[0] raises
    | NoColumn                       // the first row has no column 0
    | Unorderable                    // None in an ordering comparison

  /** The six operator spellings the comparison recognises. */
  const Operators: set<string> :=
    {"equals", "greater_equals", "greater", "less_equals", "less", "not_equal"}

  /** The strict ordering Python applies to two scalars, or Unorderable when
      either side is None. */
  function Less(a: Scalar, b: Scalar): (r: Result<bool, Error>)
    ensures r.Err? <==> a.Null? || b.Null?
    ensures r.Ok? ==> r.value == (a.v < b.v)
  {
    if a.Null? || b.Null? then Err(Unorderable) else Ok(a.v < b.v)
  }

  /** The negation of an ordering verdict; an error stays an error. */
  function Negated(r: Result<bool, Error>): Result<bool, Error> {
    if r.Err? then r else Ok(!r.value)
  }

  /** The operator dispatch of execute_test: the if-chain over the operator
      string, falling through to False for every other spelling. */
  function Compare(op: string, r1: Scalar, r2: Scalar): (r: Result<bool, Error>)
    ensures op !in Operators ==> r == Ok(false)
    ensures r.Err? <==> op in Operators - {"equals", "not_equal"} && (r1.Null? || r2.Null?)
    ensures op == "equals" ==> r == Ok(r1 == r2)
    ensures op == "not_equal" ==> r == Ok(r1 != r2)
    ensures op == "less" ==> r == Less(r1, r2)
    ensures op == "greater" ==> r == Less(r2, r1)
  {
    if op == "equals" then Ok(r1 == r2)
    else if op == "greater_equals" then Negated(Less(r1, r2))
    else if op == "greater" then Less(r2, r1)
    else if op == "less_equals" then Negated(Less(r2, r1))
    else if op == "less" then Less(r1, r2)
    else if op == "not_equal" then Ok(r1 != r2)
    else Ok(false)
  }

  /** "equals" and "not_equal" always give opposite verdicts on the same pair. */
  lemma EqualsAndNotEqualDisagree(r1: Scalar, r2: Scalar)
    ensures Compare("equals", r1, r2).Ok? && Compare("not_equal", r1, r2).Ok?
    ensures Compare("equals", r1, r2).value == !Compare("not_equal", r1, r2).value
  {
  }

  /** On two numbers the four ordering operators are the ordering of the
      values, each the negation or the mirror image of another. */
  lemma OrderingOperators(a: real, b: real)
    ensures Compare("greater_equals", Num(a), Num(b)) == Ok(a >= b)
    ensures Compare("greater", Num(a), Num(b)) == Ok(a > b)
    ensures Compare("less_equals", Num(a), Num(b)) == Ok(a <= b)
    ensures Compare("less", Num(a), Num(b)) == Ok(a < b)
    ensures Compare("greater", Num(a), Num(b)) == Compare("less", Num(b), Num(a))
    ensures Compare("greater_equals", Num(a), Num(b)).value == !Compare("less", Num(a), Num(b)).value
  {
  }

  /** The operator named in the usage text, "not_equals", is not one of the
      recognised spellings: it fails every test without raising. */
  lemma DocumentedSpellingAlwaysFails(r1: Scalar, r2: Scalar)
    ensures Compare("not_equals", r1, r2) == Ok(false)
  {
  }

  /** Column 0 of the first fetched row; an empty result set is an error, and
      further rows and columns are ignored. */
  function FirstScalar(rows: seq<Row>): (r: Result<Scalar, Error>)
    ensures r.Ok? <==> |rows| > 0 && |rows[0]| > 0
    ensures r.Ok? ==> r.value == rows[0][0]
    ensures |rows| == 0 ==> r == Err(NoRow)
  {
    if |rows| == 0 then Err(NoRow)
    else if |rows[0]| == 0 then Err(NoColumn)
    else Ok(rows[0][0])
  }

  lemma FirstScalarIgnoresTheRest(first: Row, rest: seq<Row>, more: seq<Scalar>)
    requires |first| > 0
    ensures FirstScalar([first + more] + rest) == Ok(first[0])
  {
  }

  /** What the warehouse session records: a statement run, or a commit. */
  datatype DbEvent = Execute(sql: string) | Commit

  /** A warehouse connection. The answer the warehouse gives a statement is
      an abstract function of its text: its result set, or None when it
      rejects the statement (bad SQL, lost connection). The session keeps the
      ordered list of statements and commits it received. */
  class Connection {
    const answer: string -> Option<seq<Row>>
    var log: seq<DbEvent>

    constructor (answer: string -> Option<seq<Row>>)
      ensures this.answer == answer && log == []
    {
      this.answer := answer;
      log := [];
    }

    /** cursor.execute(sql), giving the result set to fetch from, or
        raising when the warehouse rejects the statement. */
    method Query(sql: string) returns (rows: Result<seq<Row>, Error>)
      modifies this
      ensures answer(sql).None? ==> rows == Err(ExecuteFailed)
      ensures answer(sql).Some? ==> rows == Ok(answer(sql).value)
      ensures log == old(log) + [Execute(sql)]
    {
      log := log + [Execute(sql)];
      match answer(sql)
      case None => rows := Err(ExecuteFailed);
      case Some(result) => rows := Ok(result);
    }

    method CommitWork()
      modifies this
      ensures log == old(log) + [Commit]
    {
      log := log + [Commit];
    }
  }

  /** Outcome and session events of one script step: open the file, execute
      it, fetch one row, take column 0, commit. */
  function ScriptStep(answer: string -> Option<seq<Row>>, files: map<string, string>, path: string)
    : (r: (Result<Scalar, Error>, seq<DbEvent>))
    ensures path !in files ==> r == (Err(ScriptNotFound(path)), [])
    ensures path in files && answer(files[path]).None? ==> r.0 == Err(ExecuteFailed)
    ensures path in files && answer(files[path]).Some? ==> r.0 == FirstScalar(answer(files[path]).value)
    ensures path in files ==>
      r.1 == if r.0.Ok? then [Execute(files[path]), Commit] else [Execute(files[path])]
  {
    if path !in files then (Err(ScriptNotFound(path)), [])
    else
      var sql := files[path];
      match answer(sql)
      case None => (Err(ExecuteFailed), [Execute(sql)])
      case Some(rows) =>
        var scalar := FirstScalar(rows);
        if scalar.Err? then (scalar, [Execute(sql)])
        else (scalar, [Execute(sql), Commit])
  }

  /** Outcome and session events of execute_test as a whole: the first
      script's step, then (only if it succeeded) the second's, then the
      comparison. */
  function TestRun(answer: string -> Option<seq<Row>>, files: map<string, string>,
                   script1: string, script2: string, op: string)
    : (r: (Result<bool, Error>, seq<DbEvent>))
  {
    var (first, events1) := ScriptStep(answer, files, script1);
    if first.Err? then (Err(first.error), events1)
    else
      var (second, events2) := ScriptStep(answer, files, script2);
      if second.Err? then (Err(second.error), events1 + events2)
      else (Compare(op, first.value, second.value), events1 + events2)
  }

  /** Script 1 is executed and committed before script 2 is executed, and a
      completed test leaves exactly the two execute/commit pairs. */
  lemma FirstScriptCommittedBeforeSecond(
    answer: string -> Option<seq<Row>>, files: map<string, string>,
    script1: string, script2: string, op: string)
    ensures var events := TestRun(answer, files, script1, script2, op).1;
      |events| > 2 ==> script1 in files && script2 in files &&
                       events[..3] == [Execute(files[script1]), Commit, Execute(files[script2])]
    ensures TestRun(answer, files, script1, script2, op).0.Ok? ==>
      TestRun(answer, files, script1, script2, op).1
        == [Execute(files[script1]), Commit, Execute(files[script2]), Commit]
  {
  }

  /** execute_test: the two cursor sequences on the connection, then the
      operator dispatch. */
  method ExecuteTest(conn: Connection, files: map<string, string>,
                     script1: string, script2: string, op: string)
    returns (outcome: Result<bool, Error>)
    modifies conn
    ensures outcome == TestRun(conn.answer, files, script1, script2, op).0
    ensures conn.log == old(conn.log) + TestRun(conn.answer, files, script1, script2, op).1
  {
    if script1 !in files {
      return Err(ScriptNotFound(script1));
    }
    var rows := conn.Query(files[script1]);
    if rows.Err? {
      return Err(rows.error);
    }
    var result1 := FirstScalar(rows.value);
    if result1.Err? {
      return Err(result1.error);
    }
    conn.CommitWork();

    if script2 !in files {
      return Err(ScriptNotFound(script2));
    }
    rows := conn.Query(files[script2]);
    if rows.Err? {
      return Err(rows.error);
    }
    var result2 := FirstScalar(rows.value);
    if result2.Err? {
      return Err(result2.error);
    }
    conn.CommitWork();

    outcome := Compare(op, result1.value, result2.value);
  }

  /** How the Slack POST ended: with an HTTP status, or by raising. */
  datatype Delivery = Status(code: int) | Raised

  const PassedHeader := "Validation Test Passed!: "
  const FailedHeader := "Validation Test FAILED!: "

  /** The notification text for a verdict. */
  function Message(script1: string, script2: string, op: string, passed: bool): (m: string)
    ensures passed ==> PassedHeader <= m
    ensures !passed ==> FailedHeader <= m
  {
    (if passed then PassedHeader else FailedHeader) + script1 + " / " + script2 + " / " + op
  }

  /** Reads a verdict back from a notification text by its header. */
  function Verdict(m: string): Option<bool> {
    if PassedHeader <= m then Some(true)
    else if FailedHeader <= m then Some(false)
    else None
  }

  /** The message always announces the verdict it was built from. */
  lemma VerdictOfMessage(script1: string, script2: string, op: string, passed: bool)
    ensures Verdict(Message(script1, script2, op, passed)) == Some(passed)
  {
    var m := Message(script1, script2, op, passed);
    if !passed {
      assert PassedHeader[17] != FailedHeader[17];
      assert !(PassedHeader <= m) by {
        assert m[17] == FailedHeader[17];
      }
    }
  }

  /** The return value of send_slack_notification: False on a non-200
      status or any exception, otherwise the implicit None. */
  function NotificationResult(delivery: Delivery): (r: Option<bool>)
    ensures r != Some(true)
    ensures r == None <==> delivery == Status(200)
  {
    match delivery
    case Raised => Some(false)
    case Status(code) => if code != 200 then Some(false) else None
  }

  predicate IsHelpRequest(argv: seq<string>) {
    |argv| == 2 && argv[1] == "-h"
  }

  /** The value the main block passes to exit(), given that execute_test
      returned. */
  function ExitStatus(argv: seq<string>): (code: int)
    ensures code in {-1, 0, 1}
    ensures code == 1 <==> |argv| == 5 && argv[4] == "halt"
    ensures code == -1 <==> |argv| != 5 && !IsHelpRequest(argv)
  {
    if IsHelpRequest(argv) then 0
    else if |argv| != 5 then -1
    else if argv[4] == "halt" then 1
    else 0
  }

  /** The main block: argument checks, the test, the notification, the exit.
      argv includes the program name. When execute_test raises, Python exits
      with status 1 before anything is sent. */
  method RunValidator(argv: seq<string>, conn: Connection, files: map<string, string>,
                      delivery: Delivery)
    returns (status: int, sent: Option<string>)
    modifies conn
    ensures |argv| != 5 ==> status == ExitStatus(argv) && sent == None && conn.log == old(conn.log)
    ensures |argv| == 5 ==>
      var (outcome, events) := TestRun(conn.answer, files, argv[1], argv[2], argv[3]);
      && conn.log == old(conn.log) + events
      && (outcome.Err? ==> status == 1 && sent == None)
      && (outcome.Ok? ==> status == ExitStatus(argv)
                          && sent == Some(Message(argv[1], argv[2], argv[3], outcome.value)))
  {
    if IsHelpRequest(argv) {
      return 0, None;
    }
    if |argv| != 5 {
      return -1, None;
    }
    var script1, script2, op, severity := argv[1], argv[2], argv[3], argv[4];
    var outcome := ExecuteTest(conn, files, script1, script2, op);
    if outcome.Err? {
      return 1, None;
    }
    var message := Message(script1, script2, op, outcome.value);
    var _ := NotificationResult(delivery);
    sent := Some(message);
    status := if severity == "halt" then 1 else 0;
  }
}

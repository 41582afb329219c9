/**
 The local audit journal: an append-only file of records, each carrying the digest of the
 one before, read back under a line and a size limit.

 The digests and the width of a stored line are supplied. A line is what its JSON decodes
 to, so two spellings of one record are the same line here.
*/
module AuditJournal {
  import opened Identifiers
  import opened Results

  /** What a record says besides its place in the chain; other writers may store anything. */
  datatype Content =
    | Entry(eventId: string, taskId: string, taskRevision: int, category: string, status: string, detailDigest: string)
    | Foreign(text: string)

  datatype Body = Body(content: Content, previous: string)

  datatype Record = Record(body: Body, digest: string)

  datatype Line = Decoded(record: Record) | Corrupt

  datatype Error = JournalLimit | JournalCorrupt | ChainInvalid | BindingInvalid | ValueInvalid | DetailRefused

  datatype Functions = Functions(
    digest: Body -> string, detailDigest: string -> string, isPrivate: string -> bool, width: Line -> nat)

  const MAX_LINES := 10000
  const MAX_BYTES := 4 * 1024 * 1024
  const MAX_DETAIL := 4096

  // Reading

  function Size(f: Functions, lines: seq<Line>): nat {
    if lines == [] then 0 else Size(f, lines[..|lines| - 1]) + f.width(lines[|lines| - 1])
  }

  predicate WithinLimits(f: Functions, lines: seq<Line>) {
    |lines| <= MAX_LINES && Size(f, lines) <= MAX_BYTES
  }

  /** The chain up to a line: its records, or the first thing wrong with them. */
  function Chain(f: Functions, lines: seq<Line>): (r: Result<seq<Record>, Error>)
    ensures r.Ok? ==> |r.value| == |lines|
  {
    if lines == [] then Ok([])
    else
      var earlier, last := Chain(f, lines[..|lines| - 1]), lines[|lines| - 1];
      if earlier.Err? then earlier
      else if last.Corrupt? then Err(JournalCorrupt)
      else if last.record.body.previous != LastDigest(earlier.value) || last.record.digest != f.digest(last.record.body) then
        Err(ChainInvalid)
      else Ok(earlier.value + [last.record])
  }

  function LastDigest(records: seq<Record>): string {
    if records == [] then ZeroDigest() else records[|records| - 1].digest
  }

  function Records(f: Functions, lines: seq<Line>): (r: Result<seq<Record>, Error>)
    ensures r.Ok? ==> |r.value| == |lines|
  {
    if !WithinLimits(f, lines) then Err(JournalLimit) else Chain(f, lines)
  }

  // Appending

  datatype Report = Report(
    eventId: string, taskId: string, taskRevision: int, category: string, status: string, detail: string)

  predicate IsAuditId(s: string) {
    IsId("AR-", s) || IsId("JOB-", s) || IsId("EVT-", s) || IsId("OP-", s)
  }

  function ReportProblem(f: Functions, r: Report): Option<Error> {
    if !IsAuditId(r.eventId) || !IsAuditId(r.taskId) || r.taskRevision < 1 then Some(BindingInvalid)
    else if !IsName(r.category) || !IsName(r.status) then Some(ValueInvalid)
    else if |r.detail| > MAX_DETAIL || f.isPrivate(r.detail) then Some(DetailRefused)
    else None
  }

  function RecordOf(f: Functions, r: Report, previous: string): Record {
    var body := Body(Entry(r.eventId, r.taskId, r.taskRevision, r.category, r.status, f.detailDigest(r.detail)), previous);
    Record(body, f.digest(body))
  }

  function Appended(f: Functions, lines: seq<Line>, r: Report): (seq<Line>, Result<Record, Error>) {
    var records := Records(f, lines);
    if records.Err? then (lines, Err(records.error))
    else
      var problem := ReportProblem(f, r);
      if problem.Some? then (lines, Err(problem.value))
      else
        var record := RecordOf(f, r, LastDigest(records.value));
        (lines + [Decoded(record)], Ok(record))
  }

  /** The chain still holds after an append; the limits hold exactly when there was room for the line. */
  lemma AppendKeepsChain(f: Functions, lines: seq<Line>, r: Report)
    requires Appended(f, lines, r).1.Ok?
    ensures var (after, record) := Appended(f, lines, r);
            && Chain(f, after) == Ok(Records(f, lines).value + [record.value])
            && (Records(f, after).Ok? <==>
                  |lines| < MAX_LINES && Size(f, lines) + f.width(Decoded(record.value)) <= MAX_BYTES)
            && (Records(f, after).Err? ==> Records(f, after) == Err(JournalLimit))
  {
    hide ReportProblem;
    var after := Appended(f, lines, r).0;
    assert after[..|lines|] == lines;
  }

  function Run(f: Functions, lines: seq<Line>, reports: seq<Report>): seq<Line> {
    if reports == [] then lines
    else Appended(f, Run(f, lines, reports[..|reports| - 1]), reports[|reports| - 1]).0
  }

  /** Whatever is reported, the journal on disk is a chain of decodable records, at most one line too long. */
  lemma {:induction false} EveryRunIsChained(f: Functions, reports: seq<Report>)
    ensures Chain(f, Run(f, [], reports)).Ok? && |Run(f, [], reports)| <= MAX_LINES + 1
  {
    if reports != [] {
      hide Appended, Chain;
      var before, last := Run(f, [], reports[..|reports| - 1]), reports[|reports| - 1];
      EveryRunIsChained(f, reports[..|reports| - 1]);
      AppendLength(f, before, last);
      if Appended(f, before, last).1.Ok? {
        AppendKeepsChain(f, before, last);
      }
    } else {
      assert Chain(f, []) == Ok([]);
    }
  }

  lemma AppendLength(f: Functions, lines: seq<Line>, r: Report)
    ensures var (after, record) := Appended(f, lines, r);
            && (record.Err? ==> after == lines)
            && (record.Ok? ==> |after| == |lines| + 1 && |lines| <= MAX_LINES)
  {
    hide ReportProblem;
  }

  /** A journal that cannot be read can never be appended to again. */
  lemma {:induction false} UnreadableStaysAsItIs(f: Functions, lines: seq<Line>, reports: seq<Report>)
    requires Records(f, lines).Err?
    ensures Run(f, lines, reports) == lines
  {
    if reports != [] {
      UnreadableStaysAsItIs(f, lines, reports[..|reports| - 1]);
    }
  }

  /** Appending checks no limit of its own: the append to a full journal succeeds and locks it for good. */
  lemma FullJournalLocksItself(f: Functions, lines: seq<Line>, r: Report, reports: seq<Report>)
    requires |lines| == MAX_LINES && Records(f, lines).Ok? && ReportProblem(f, r).None?
    ensures var (after, record) := Appended(f, lines, r);
            record.Ok? && Records(f, after) == Err(JournalLimit) && Run(f, after, reports) == after
  {
    hide ReportProblem, Run;
    AppendKeepsChain(f, lines, r);
    UnreadableStaysAsItIs(f, Appended(f, lines, r).0, reports);
  }

  // What was reported is what is read

  /** The reports of a run that were recorded, in order. */
  function Recorded(f: Functions, reports: seq<Report>): seq<Report> {
    if reports == [] then []
    else
      var before, last := reports[..|reports| - 1], reports[|reports| - 1];
      if Appended(f, Run(f, [], before), last).1.Ok? then Recorded(f, before) + [last] else Recorded(f, before)
  }

  /** The record tells everything the report does, with its detail as a digest, and carries the digest of what it says. */
  ghost predicate Tells(f: Functions, record: Record, r: Report) {
    && record.body.content == Entry(r.eventId, r.taskId, r.taskRevision, r.category, r.status, f.detailDigest(r.detail))
    && record.digest == f.digest(record.body)
  }

  ghost predicate NamesPrevious(records: seq<Record>, i: nat)
    requires i < |records|
  {
    records[i].body.previous == if i == 0 then ZeroDigest() else records[i - 1].digest
  }

  /** The records tell the reports one by one, each naming the digest of the one before. */
  ghost predicate TellInOrder(f: Functions, records: seq<Record>, reports: seq<Report>) {
    && |records| == |reports|
    && forall i | 0 <= i < |records| :: Tells(f, records[i], reports[i]) && NamesPrevious(records, i)
  }

  lemma PreviousIsKept(records: seq<Record>, record: Record, i: nat)
    requires i <= |records|
    ensures i < |records| && NamesPrevious(records, i) ==> NamesPrevious(records + [record], i)
    ensures i == |records| && record.body.previous == LastDigest(records) ==> NamesPrevious(records + [record], i)
  {
  }

  lemma TellOneMore(f: Functions, records: seq<Record>, reports: seq<Report>, record: Record, r: Report)
    requires TellInOrder(f, records, reports) && Tells(f, record, r) && record.body.previous == LastDigest(records)
    ensures TellInOrder(f, records + [record], reports + [r])
  {
    hide Tells, NamesPrevious, LastDigest;
    var more, told := records + [record], reports + [r];
    forall i | 0 <= i < |more| ensures Tells(f, more[i], told[i]) && NamesPrevious(more, i) {
      PreviousIsKept(records, record, i);
    }
  }

  /** After any run the journal reads back, in order, exactly the reports that were recorded, each with all its fields. */
  lemma {:induction false} JournalTellsItsReports(f: Functions, reports: seq<Report>)
    ensures var records := Chain(f, Run(f, [], reports));
            records.Ok? && TellInOrder(f, records.value, Recorded(f, reports))
  {
    hide TellInOrder, Appended, Chain;
    if reports == [] {
      NothingIsTold(f);
    } else {
      var before, last := reports[..|reports| - 1], reports[|reports| - 1];
      var lines := Run(f, [], before);
      JournalTellsItsReports(f, before);
      AppendLength(f, lines, last);
      if Appended(f, lines, last).1.Ok? {
        AppendKeepsChain(f, lines, last);
        AppendTells(f, lines, last);
        TellOneMore(f, Chain(f, lines).value, Recorded(f, before), Appended(f, lines, last).1.value, last);
      }
    }
  }

  lemma NothingIsTold(f: Functions)
    ensures Chain(f, []) == Ok([]) && TellInOrder(f, [], [])
  {
  }

  lemma AppendTells(f: Functions, lines: seq<Line>, r: Report)
    requires Appended(f, lines, r).1.Ok?
    ensures Records(f, lines) == Chain(f, lines) && Records(f, lines).Ok?
    ensures var record := Appended(f, lines, r).1.value;
            Tells(f, record, r) && record.body.previous == LastDigest(Records(f, lines).value)
  {
    hide ReportProblem, Chain;
  }

  /** The identifiers the journal takes. */
  ghost predicate NamesSomething(s: string) {
    exists prefix | prefix in {"AR-", "JOB-", "EVT-", "OP-"} :: IsId(prefix, s)
  }

  lemma AuditIdsNameSomething(s: string)
    ensures IsAuditId(s) <==> NamesSomething(s)
  {
    hide IsId;
  }

  /** A report is recorded exactly when the journal can be read and the report is well formed; else its first fault is named. */
  lemma RecordedExactlyWhen(f: Functions, lines: seq<Line>, r: Report)
    ensures var result := Appended(f, lines, r).1;
            var bound := NamesSomething(r.eventId) && NamesSomething(r.taskId) && r.taskRevision >= 1;
            var named := IsName(r.category) && IsName(r.status);
            var kept := |r.detail| <= 4096 && !f.isPrivate(r.detail);
            && (result.Ok? <==> Records(f, lines).Ok? && bound && named && kept)
            && (Records(f, lines).Err? ==> result == Err(Records(f, lines).error))
            && (Records(f, lines).Ok? && !bound ==> result == Err(BindingInvalid))
            && (Records(f, lines).Ok? && bound && !named ==> result == Err(ValueInvalid))
            && (Records(f, lines).Ok? && bound && named && !kept ==> result == Err(DetailRefused))
  {
    hide Records, IsAuditId, IsName, NamesSomething;
    AuditIdsNameSomething(r.eventId);
    AuditIdsNameSomething(r.taskId);
  }

  /** The line continues the chain before it. */
  ghost predicate Continues(f: Functions, records: seq<Record>, line: Line) {
    && line.Decoded? && line.record.digest == f.digest(line.record.body)
    && line.record.body.previous == if records == [] then ZeroDigest() else records[|records| - 1].digest
  }

  /** Reading fails at the first line that does not continue the chain, and says whether it could be decoded. */
  lemma {:induction false} ReadingFailsAtTheFirstBreak(f: Functions, lines: seq<Line>, k: nat)
    requires k < |lines| && Chain(f, lines[..k]).Ok? && !Continues(f, Chain(f, lines[..k]).value, lines[k])
    ensures Chain(f, lines) == Err(if lines[k].Corrupt? then JournalCorrupt else ChainInvalid)
    decreases |lines|
  {
    var n := |lines| - 1;
    if k < n {
      assert lines[..n][..k] == lines[..k];
      ReadingFailsAtTheFirstBreak(f, lines[..n], k);
    }
  }

  /** The limits come first. */
  lemma LimitsComeFirst(f: Functions, lines: seq<Line>)
    ensures Records(f, lines) == Err(JournalLimit) <==> |lines| > 10000 || Size(f, lines) > 4194304
    ensures Records(f, lines) != Err(JournalLimit) ==> Records(f, lines) == Chain(f, lines)
  {
    ChainIsWithinLimits(f, lines);
    hide Chain;
  }

  lemma {:induction false} ChainIsWithinLimits(f: Functions, lines: seq<Line>)
    ensures Chain(f, lines) != Err(JournalLimit)
  {
    if lines != [] {
      ChainIsWithinLimits(f, lines[..|lines| - 1]);
    }
  }

  /** The width up to which a full journal is sure to fit its size limit. */
  const ROOM := 419

  lemma OneMoreIsRecorded(f: Functions, lines: seq<Line>, r: Report)
    requires ReportProblem(f, r).None? && (forall line | line in Appended(f, lines, r).0 :: f.width(line) <= ROOM)
    requires Records(f, lines).Ok? && |lines| < MAX_LINES && Size(f, lines) <= |lines| * ROOM
    ensures var (after, record) := Appended(f, lines, r);
            record.Ok? && |after| == |lines| + 1 && Size(f, after) <= |after| * ROOM && Records(f, after).Ok?
  {
    hide Chain, ReportProblem, Size;
    AppendKeepsChain(f, lines, r);
    var line := Decoded(Appended(f, lines, r).1.value);
    assert line in Appended(f, lines, r).0;
    SizeOneMore(f, lines, line);
  }

  lemma SizeOneMore(f: Functions, lines: seq<Line>, line: Line)
    ensures Size(f, lines + [line]) == Size(f, lines) + f.width(line)
  {
    assert (lines + [line])[..|lines|] == lines;
  }

  /** Nothing recorded is ever dropped. */
  lemma AppendedIsLonger(f: Functions, lines: seq<Line>, r: Report)
    ensures forall line | line in lines :: line in Appended(f, lines, r).0
  {
  }

  /** Valid reports whose lines are narrow are all recorded, and the journal stays readable up to the line limit. */
  lemma {:induction false} ValidReportsAreRecorded(f: Functions, reports: seq<Report>)
    requires (forall r | r in reports :: ReportProblem(f, r).None?) && |reports| <= MAX_LINES
    requires forall line | line in Run(f, [], reports) :: f.width(line) <= ROOM
    ensures var lines := Run(f, [], reports);
            |lines| == |reports| && Size(f, lines) <= |lines| * ROOM && Records(f, lines).Ok?
  {
    if reports == [] {
      assert Chain(f, []) == Ok([]);
    } else {
      hide Chain, ReportProblem, Appended, Records;
      var n := |reports| - 1;
      assert reports[n] in reports && forall r | r in reports[..n] :: r in reports;
      AppendedIsLonger(f, Run(f, [], reports[..n]), reports[n]);
      ValidReportsAreRecorded(f, reports[..n]);
      OneMoreIsRecorded(f, Run(f, [], reports[..n]), reports[n]);
    }
  }

  /**
   So one report more than the line limit locks a journal started from nothing: every report is
   recorded, and from then on nothing is read or recorded.
  */
  lemma OneReportTooManyLocksTheJournal(f: Functions, reports: seq<Report>, more: seq<Report>)
    requires (forall r | r in reports :: ReportProblem(f, r).None?) && |reports| == MAX_LINES + 1
    requires forall line | line in Run(f, [], reports) :: f.width(line) <= ROOM
    ensures Records(f, Run(f, [], reports[..MAX_LINES])).Ok? && |Run(f, [], reports[..MAX_LINES])| == MAX_LINES
    ensures var lines := Run(f, [], reports);
            |lines| == MAX_LINES + 1 && Records(f, lines) == Err(JournalLimit) && Run(f, lines, more) == lines
  {
    hide ReportProblem, Records, Chain;
    assert reports[MAX_LINES] in reports && forall r | r in reports[..MAX_LINES] :: r in reports;
    AppendedIsLonger(f, Run(f, [], reports[..MAX_LINES]), reports[MAX_LINES]);
    ValidReportsAreRecorded(f, reports[..MAX_LINES]);
    FullJournalLocksItself(f, Run(f, [], reports[..MAX_LINES]), reports[MAX_LINES], more);
    AppendLength(f, Run(f, [], reports[..MAX_LINES]), reports[MAX_LINES]);
  }

  // Tamper evidence

  ghost predicate InjectiveDigest(f: Functions) {
    forall x, y :: f.digest(x) == f.digest(y) ==> x == y
  }

  /** No body's digest is the anchor the chain starts from. */
  ghost predicate NeverAnchor(f: Functions) {
    forall body :: f.digest(body) != ZeroDigest()
  }

  /** Two readable journals with the same last digest are the same journal, throughout. */
  lemma {:induction false} SameLastDigestSameJournal(f: Functions, a: seq<Line>, b: seq<Line>)
    requires InjectiveDigest(f) && NeverAnchor(f)
    requires Chain(f, a).Ok? && Chain(f, b).Ok?
    requires LastDigest(Chain(f, a).value) == LastDigest(Chain(f, b).value)
    ensures a == b
    decreases |a|
  {
    hide ZeroDigest;
    EndsOffTheAnchor(f, a);
    EndsOffTheAnchor(f, b);
    if a != [] && b != [] {
      var x, y := a[|a| - 1], b[|b| - 1];
      assert f.digest(x.record.body) == f.digest(y.record.body);
      SameLastDigestSameJournal(f, a[..|a| - 1], b[..|b| - 1]);
      assert a == a[..|a| - 1] + [x] && b == b[..|b| - 1] + [y];
    }
  }

  lemma EndsOffTheAnchor(f: Functions, lines: seq<Line>)
    requires NeverAnchor(f) && Chain(f, lines).Ok?
    ensures lines == [] <==> LastDigest(Chain(f, lines).value) == ZeroDigest()
  {
    hide ZeroDigest;
    if lines != [] {
      assert f.digest(lines[|lines| - 1].record.body) != ZeroDigest();
    }
  }

  /** Were some first record's digest the anchor, its removal would leave no trace. */
  lemma AnchorDigestHidesRemoval(f: Functions, body: Body)
    requires body.previous == ZeroDigest() && f.digest(body) == ZeroDigest()
    ensures var one := [Decoded(Record(body, ZeroDigest()))];
            Chain(f, one).Ok? && LastDigest(Chain(f, one).value) == LastDigest(Chain(f, []).value)
  {
    var one := [Decoded(Record(body, ZeroDigest()))];
    assert one[..0] == [];
  }

  /** The journal object over its file. */
  class Journal {
    const functions: Functions
    var lines: seq<Line>

    constructor (functions: Functions)
      ensures lines == [] && this.functions == functions
    {
      this.functions, lines := functions, [];
    }

    method Read() returns (r: Result<seq<Record>, Error>)
      ensures r == Records(functions, lines)
    {
      var bytes := 0;
      for i := 0 to |lines|
        invariant bytes == Size(functions, lines[..i])
      {
        assert lines[..i + 1][..i] == lines[..i];
        bytes := bytes + functions.width(lines[i]);
      }
      assert lines[..|lines|] == lines;
      if |lines| > MAX_LINES || bytes > MAX_BYTES {
        return Err(JournalLimit);
      }
      var records, previous := [], ZeroDigest();
      for i := 0 to |lines|
        invariant Chain(functions, lines[..i]) == Ok(records) && previous == LastDigest(records)
      {
        assert lines[..i + 1][..i] == lines[..i];
        if lines[i].Corrupt? {
          FirstFaultDecides(functions, lines, i + 1);
          return Err(JournalCorrupt);
        }
        var record := lines[i].record;
        if record.body.previous != previous || record.digest != functions.digest(record.body) {
          FirstFaultDecides(functions, lines, i + 1);
          return Err(ChainInvalid);
        }
        previous := record.digest;
        records := records + [record];
      }
      r := Ok(records);
    }

    method Append(report: Report) returns (r: Result<Record, Error>)
      modifies this`lines
      ensures (lines, r) == Appended(functions, old(lines), report)
    {
      var records := Read();
      if records.Err? {
        return Err(records.error);
      }
      var problem := ReportProblem(functions, report);
      if problem.Some? {
        return Err(problem.value);
      }
      var previous := if records.value == [] then ZeroDigest() else records.value[|records.value| - 1].digest;
      var record := RecordOf(functions, report, previous);
      lines := lines + [Decoded(record)];
      r := Ok(record);
    }
  }

  /** What is wrong with a prefix is what is wrong with the whole. */
  lemma {:induction false} FirstFaultDecides(f: Functions, lines: seq<Line>, n: nat)
    requires n <= |lines| && Chain(f, lines[..n]).Err?
    ensures Chain(f, lines) == Err(Chain(f, lines[..n]).error)
    decreases |lines|
  {
    if n == |lines| {
      assert lines[..n] == lines;
    } else {
      assert lines[..|lines| - 1][..n] == lines[..n];
      FirstFaultDecides(f, lines[..|lines| - 1], n);
    }
  }
}

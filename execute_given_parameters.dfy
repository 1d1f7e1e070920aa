/**
 * The estimation driver that replays a result file: every data row of the
 * file that is wide enough becomes one job whose parameter values are read
 * from consecutive column blocks, one block per root parameter, after the
 * generation and value columns. Rows are given as sequences of numeric
 * cells; the first line is the header.
 */
module ExecuteGivenParameters {
  import opened Common

  /** A parameter: the names it sets, its bounds and its current value. */
  datatype ParameterSetting = ParameterSetting(names: seq<string>, minimum: real, maximum: real, current: real)

  /**
   * A job for the remote clients. `processedBy` is the client that took it
   * (None for none); `value` None stands for the NaN a new job starts with.
   */
  datatype Job = Job(processedBy: Option<string>, processing: bool, processed: bool, value: Option<real>,
                     parameters: seq<ParameterSetting>)

  /** The total number of names over the parameters (one column each). */
  function SumNames(ps: seq<ParameterSetting>): nat
  {
    if ps == [] then 0 else SumNames(ps[..|ps| - 1]) + |ps[|ps| - 1].names|
  }

  /** The column where parameter `i` starts: after generation, value and the blocks before it. */
  function Offset(ps: seq<ParameterSetting>, i: nat): nat
    requires i <= |ps|
  {
    2 + SumNames(ps[..i])
  }

  /** Each block follows the one before it. */
  lemma OffsetStep(ps: seq<ParameterSetting>, i: nat)
    requires i < |ps|
    ensures Offset(ps, i + 1) == Offset(ps, i) + |ps[i].names|
  {
    assert ps[..i + 1][..i] == ps[..i];
  }

  /** A prefix never has more names than the whole. */
  lemma {:induction false} SumNamesPrefix(ps: seq<ParameterSetting>, i: nat)
    requires i <= |ps|
    ensures SumNames(ps[..i]) <= SumNames(ps)
    decreases |ps| - i
  {
    if i < |ps| {
      SumNamesPrefix(ps, i + 1);
      OffsetStep(ps, i);
      assert ps[..|ps|] == ps;
    } else {
      assert ps[..i] == ps;
    }
  }

  /** A row is read only when it has a column for every name plus generation and value. */
  predicate LongEnough(ps: seq<ParameterSetting>, row: seq<real>)
  {
    |row| >= SumNames(ps) + 2
  }

  /** In a row wide enough, every parameter with a name reads a column the row has. */
  lemma ReadsWithinRow(ps: seq<ParameterSetting>, row: seq<real>, i: nat)
    requires LongEnough(ps, row) && i < |ps| && |ps[i].names| >= 1
    ensures Offset(ps, i) < |row|
  {
    OffsetStep(ps, i);
    SumNamesPrefix(ps, i + 1);
  }

  /** The cell in a column; a column the row does not have reads as 0. */
  function Cell(row: seq<real>, column: nat): real
  {
    if column < |row| then row[column] else 0.0
  }

  /** Parameter `i` of the job a row becomes: the root's names and bounds, the cell where its block starts. */
  function SettingFor(ps: seq<ParameterSetting>, row: seq<real>, i: nat): ParameterSetting
    requires i < |ps|
  {
    ParameterSetting(ps[i].names, ps[i].minimum, ps[i].maximum, Cell(row, Offset(ps, i)))
  }

  /** The job one row becomes. */
  function JobFor(ps: seq<ParameterSetting>, row: seq<real>): (job: Job)
    ensures job.processedBy.None? && !job.processing && !job.processed && job.value.None?
    ensures |job.parameters| == |ps|
    ensures forall i :: 0 <= i < |ps| ==>
      job.parameters[i].names == ps[i].names && job.parameters[i].minimum == ps[i].minimum
      && job.parameters[i].maximum == ps[i].maximum
  {
    Job(None, false, false, None,
        seq(|ps|, i requires 0 <= i < |ps| => SettingFor(ps, row, i)))
  }

  /** The jobs of the rows wide enough, in row order. */
  function Eligible(ps: seq<ParameterSetting>, rows: seq<seq<real>>): seq<Job>
  {
    if rows == [] then []
    else Eligible(ps, rows[..|rows| - 1]) + (if LongEnough(ps, rows[|rows| - 1]) then [JobFor(ps, rows[|rows| - 1])] else [])
  }

  /** The jobs of two runs of rows are the jobs of the first followed by those of the second. */
  lemma {:induction false} EligibleAppend(ps: seq<ParameterSetting>, a: seq<seq<real>>, b: seq<seq<real>>)
    ensures Eligible(ps, a + b) == Eligible(ps, a) + Eligible(ps, b)
    decreases |b|
  {
    if b == [] {
      assert a + b == a;
    } else {
      var front := b[..|b| - 1];
      assert (a + b)[..|a + b| - 1] == a + front;
      EligibleAppend(ps, a, front);
    }
  }

  /** No row yields more than one job, and a row too narrow yields none. */
  lemma {:induction false} EligibleCount(ps: seq<ParameterSetting>, rows: seq<seq<real>>)
    ensures |Eligible(ps, rows)| <= |rows|
    ensures (forall k :: 0 <= k < |rows| ==> !LongEnough(ps, rows[k])) ==> Eligible(ps, rows) == []
    ensures (forall k :: 0 <= k < |rows| ==> LongEnough(ps, rows[k])) ==>
      Eligible(ps, rows) == seq(|rows|, k requires 0 <= k < |rows| => JobFor(ps, rows[k]))
  {
    if rows != [] {
      var front := rows[..|rows| - 1];
      EligibleCount(ps, front);
      assert forall k :: 0 <= k < |front| ==> front[k] == rows[k];
    }
  }

  /**
   * What the driver returns for the lines of a result file: the jobs of the
   * data rows after the header, cut to the first `numberOfRows` when that is
   * positive.
   */
  function ExpectedJobs(ps: seq<ParameterSetting>, lines: seq<seq<real>>, numberOfRows: int): (r: seq<Job>)
    ensures numberOfRows > 0 ==> |r| <= numberOfRows
    ensures numberOfRows <= 0 ==> r == Eligible(ps, if lines == [] then [] else lines[1..])
    ensures r <= Eligible(ps, if lines == [] then [] else lines[1..])
  {
    var all := Eligible(ps, if lines == [] then [] else lines[1..]);
    if numberOfRows > 0 && |all| > numberOfRows then all[..numberOfRows] else all
  }

  /** The header line is never read. */
  lemma HeaderIgnored(ps: seq<ParameterSetting>, header1: seq<real>, header2: seq<real>, rows: seq<seq<real>>, numberOfRows: int)
    ensures ExpectedJobs(ps, [header1] + rows, numberOfRows) == ExpectedJobs(ps, [header2] + rows, numberOfRows)
  {
    assert ([header1] + rows)[1..] == rows;
    assert ([header2] + rows)[1..] == rows;
  }

  /** Once the jobs of the first rows reach the cap, the remaining rows change nothing. */
  lemma CapReached(ps: seq<ParameterSetting>, lines: seq<seq<real>>, k: nat, numberOfRows: int)
    requires |lines| >= 1 && k < |lines| - 1 && numberOfRows > 0
    requires |Eligible(ps, lines[1..][..k + 1])| == numberOfRows
    ensures ExpectedJobs(ps, lines, numberOfRows) == Eligible(ps, lines[1..][..k + 1])
  {
    var rows := lines[1..];
    assert rows == rows[..k + 1] + rows[k + 1..];
    EligibleAppend(ps, rows[..k + 1], rows[k + 1..]);
  }

  class ExecuteGivenParameters {
    /** The estimation host's parameters. */
    const rootParameters: seq<ParameterSetting>
    /** How many jobs to create; 0 (or less) means one per row. */
    const numberOfRows: int

    constructor(rootParameters: seq<ParameterSetting>, numberOfRows: int)
      ensures this.rootParameters == rootParameters && this.numberOfRows == numberOfRows
    {
      this.rootParameters := rootParameters;
      this.numberOfRows := numberOfRows;
    }

    /** Reads one row into a new job, block by block. */
    method ReadJob(row: seq<real>) returns (job: Job)
      ensures job == JobFor(rootParameters, row)
    {
      var ps := rootParameters;
      var jobParameters := new ParameterSetting[|ps|];
      var columnIndex := 2;
      var i := 0;
      while i < |ps|
        invariant 0 <= i <= |ps|
        invariant columnIndex == Offset(ps, i)
        invariant forall j :: 0 <= j < i ==> jobParameters[j] == SettingFor(ps, row, j)
      {
        jobParameters[i] := ParameterSetting(ps[i].names, ps[i].minimum, ps[i].maximum, 0.0);
        jobParameters[i] := jobParameters[i].(current := Cell(row, columnIndex));
        OffsetStep(ps, i);
        columnIndex := columnIndex + |ps[i].names|;
        i := i + 1;
      }
      assert jobParameters[..] == JobFor(ps, row).parameters;
      job := Job(None, false, false, None, jobParameters[..]);
    }

    /** CreateJobsForIteration over the lines of the result file. */
    method CreateJobsForIteration(lines: seq<seq<real>>) returns (ret: seq<Job>)
      ensures ret == ExpectedJobs(rootParameters, lines, numberOfRows)
    {
      ret := [];
      if lines == [] {
        return;
      }
      var rows := lines[1..];
      var totalParameters := SumNames(rootParameters);
      var k := 0;
      while k < |rows|
        invariant 0 <= k <= |rows|
        invariant ret == Eligible(rootParameters, rows[..k])
        invariant numberOfRows > 0 ==> |ret| < numberOfRows
      {
        var row := rows[k];
        assert rows[..k + 1][..k] == rows[..k];
        if |row| >= totalParameters + 2 {
          var job := ReadJob(row);
          ret := ret + [job];
          if numberOfRows > 0 && |ret| >= numberOfRows {
            CapReached(rootParameters, lines, k, numberOfRows);
            return;
          }
        }
        k := k + 1;
      }
      assert rows[..k] == rows;
    }
  }
}

/** The probe battery of checks.go: each probe's query result is an input
    (an error or a sequence of rows), and the model is the decision logic
    that turns those results into the eight-entry report. */
module Checks {
  import opened Wrappers
  import Plans

  /** A probe's severity; `Label` gives the string the report carries. */
  datatype Status = Green | Yellow | Red | Skipped {
    function Label(): string
    {
      match this
      case Green => "green"
      case Yellow => "yellow"
      case Red => "red"
      case Skipped => "skipped"
    }
  }

  /** The order of concern among classified outcomes: green < yellow < red. */
  function Rank(s: Status): nat
    requires s != Skipped
  {
    match s
    case Green => 0
    case Yellow => 1
    case Red => 2
  }

  // Rows returned by the probe queries, field for field as the report carries them.

  datatype ConnCountRow = ConnCountRow(count: int)
  datatype LongQueryRow = LongQueryRow(pid: int, duration: string, query: string)
  datatype IdleQueryRow = IdleQueryRow(pid: int, duration: string, query: string)
  datatype UnusedIndexRow = UnusedIndexRow(reason: string, index: string, indexScanPct: string,
                                           scansPerWrite: string, indexSize: string, tableSize: string)
  datatype BloatRow = BloatRow(kind: string, object: string, bloat: int, waste: string)
  /** The ratio is carried into the report and never inspected here. */
  datatype HitRateRow = HitRateRow(name: string, ratio: real)
  datatype BlockingRow = BlockingRow(blockedPid: int, blockingStatement: string, blockingDuration: string,
                                     blockingPid: int, blockedStatement: string, blockedDuration: string)
  /** A sequence found by the discovery query: the column it feeds and its name. */
  datatype SequenceCandidate = SequenceCandidate(column: string, sequence: string)
  /** A measured sequence; `pct` is the percentage of the int4 range used, in
      hundredths (the follow-up query rounds to two decimals). */
  datatype SequenceRow = SequenceRow(column: string, sequence: string, pct: int)

  /** The `results` payload of a check: the reason map when skipped, else the rows. */
  datatype Results =
    | Reason(reason: map<string, string>)
    | ConnCountRows(connCount: seq<ConnCountRow>)
    | LongQueryRows(longQueries: seq<LongQueryRow>)
    | IdleQueryRows(idleQueries: seq<IdleQueryRow>)
    | UnusedIndexRows(unusedIndexes: seq<UnusedIndexRow>)
    | BloatRows(bloat: seq<BloatRow>)
    | HitRateRows(hitRate: seq<HitRateRow>)
    | BlockingRows(blocking: seq<BlockingRow>)
    | SequenceRows(sequences: seq<SequenceRow>)

  datatype Check = Check(name: string, status: Status, results: Results)

  /** What a probe query gives back: an error, or its rows. */
  datatype QueryResult<T> = QueryFailed | Rows(rows: seq<T>)

  /** What the database answers to each probe query. `seqPct` is the
      follow-up query on one sequence, by name: None when it fails. */
  datatype Probes = Probes(
    connCount: QueryResult<ConnCountRow>,
    longQueries: QueryResult<LongQueryRow>,
    idleQueries: QueryResult<IdleQueryRow>,
    unusedIndexes: QueryResult<UnusedIndexRow>,
    bloat: QueryResult<BloatRow>,
    hitRate: QueryResult<HitRateRow>,
    blocking: QueryResult<BlockingRow>,
    seqDiscovery: QueryResult<SequenceCandidate>,
    seqPct: string -> Option<int>)

  /** The target database: opening it or its `select 1` ping fails, or it answers. */
  datatype Database = Unreachable(error: string) | Reachable(probes: Probes)

  const ConnCountTitle := "Connection Count"
  const LongQueriesTitle := "Long Queries"
  const IdleQueriesTitle := "Idle in Transaction"
  const UnusedIndexesTitle := "Indexes"
  const BloatTitle := "Bloat"
  const HitRateTitle := "Hit Rate"
  const BlockingTitle := "Blocking Queries"
  const SequencesTitle := "Sequences"

  /** The check names of a report, in battery order. */
  const BatteryNames: seq<string> := [ConnCountTitle, LongQueriesTitle, IdleQueriesTitle,
    UnusedIndexesTitle, BloatTitle, HitRateTitle, BlockingTitle, SequencesTitle]

  const SkipReason: map<string, string> := map["error" := "could not do check"]

  /** Sequence thresholds in hundredths of a percent: 75.00 and 90.00. */
  const YellowCutoff := 7500
  const RedCutoff := 9000

  /** makeErrorCheck: the outcome of a probe whose query failed. */
  function MakeErrorCheck(name: string): (c: Check)
    ensures c.name == name && c.status.Label() == "skipped"
    ensures c.results.Reason? && c.results.reason == map["error" := "could not do check"]
  {
    Check(name, Skipped, Reason(SkipReason))
  }

  // ---------------------------------------------------------------------
  // Connection count

  /** The float comparison count/limit >= num/den for a positive threshold,
      decided exactly: by cross-multiplication for a non-zero limit, and as
      IEEE division by zero for limit 0 (+Inf for a positive count, -Inf for
      a negative one, NaN for 0/0, which compares false). */
  predicate RatioAtLeast(count: int, limit: int, num: nat, den: nat)
    requires 0 < num && 0 < den
  {
    if limit > 0 then den * count >= num * limit
    else if limit < 0 then den * count <= num * limit
    else count > 0
  }

  /** connCountStuats: yellow for 0.75 <= ratio < 0.9, red for ratio >= 0.9. */
  function ConnCountStatus(count: int, limit: int): (s: Status)
    ensures s != Skipped
    ensures limit > 0 ==> (s == Red <==> 10 * count >= 9 * limit)
    ensures limit > 0 ==> (s == Yellow <==> 4 * count >= 3 * limit && 10 * count < 9 * limit)
    ensures limit == 0 ==> (s == Red <==> count > 0) && s != Yellow
  {
    var atLeast75 := RatioAtLeast(count, limit, 3, 4);
    var atLeast90 := RatioAtLeast(count, limit, 9, 10);
    if atLeast75 && !atLeast90 then Yellow
    else if atLeast90 then Red
    else Green
  }

  /** The severity of a ratio, as the switch in connCountStuats reads it. */
  function RatioSeverity(perc: real): Status
  {
    if 0.75 <= perc < 0.9 then Yellow
    else if perc >= 0.9 then Red
    else Green
  }

  lemma DivideAtLeast(c: real, l: real, t: real)
    requires l != 0.0
    ensures l > 0.0 ==> (c / l >= t <==> c >= t * l)
    ensures l < 0.0 ==> (c / l >= t <==> c <= t * l)
  {
  }

  /** For a non-zero limit the cross-multiplication decides the float
      comparison count/limit >= num/den exactly. */
  lemma RatioAtLeastIsDivision(count: int, limit: int, num: nat, den: nat)
    requires 0 < num && 0 < den && limit != 0
    ensures RatioAtLeast(count, limit, num, den) <==>
              count as real / limit as real >= num as real / den as real
  {
    var c, l, t := count as real, limit as real, num as real / den as real;
    DivideAtLeast(c, l, t);
    assert t * l * den as real == num as real * l;
    if limit > 0 {
      assert c >= t * l <==> den as real * c >= num as real * l;
    } else {
      assert c <= t * l <==> den as real * c <= num as real * l;
    }
  }

  /** For a non-zero limit the integer classification agrees with dividing
      the count by the limit exactly. */
  lemma ConnCountMatchesDivision(count: int, limit: int)
    requires limit != 0
    ensures ConnCountStatus(count, limit) == RatioSeverity(count as real / limit as real)
  {
    var c, l := count as real, limit as real;
    DivideAtLeast(c, l, 0.75);
    DivideAtLeast(c, l, 0.9);
  }

  /** With the limit fixed and non-negative, more connections never lower the severity. */
  lemma ConnCountMonotoneInCount(c1: int, c2: int, limit: int)
    requires c1 <= c2 && 0 <= limit
    ensures Rank(ConnCountStatus(c1, limit)) <= Rank(ConnCountStatus(c2, limit))
  {
  }

  /** With the count fixed and non-negative, a larger limit never raises the
      severity; limit 0 is the strictest. */
  lemma ConnCountAntitoneInLimit(count: int, l1: int, l2: int)
    requires 0 <= count && 0 <= l1 <= l2
    ensures Rank(ConnCountStatus(count, l2)) <= Rank(ConnCountStatus(count, l1))
  {
  }

  lemma ConnCountExamples()
    ensures ConnCountStatus(18, 20) == Red && ConnCountStatus(19, 20) == Red
    ensures ConnCountStatus(15, 20) == Yellow
    ensures ConnCountStatus(10, 20) == Green
    ensures ConnCountStatus(1, 0) == Red && ConnCountStatus(0, 0) == Green
  {
  }

  /** connCountCheck: the first row's count against the plan's limit. */
  function ConnCountCheck(q: QueryResult<ConnCountRow>, limit: int): (c: Check)
    requires q.Rows? ==> |q.rows| > 0
    ensures c.name == ConnCountTitle
    ensures c.status == Skipped <==> q.QueryFailed?
    ensures q.QueryFailed? ==> c.results == Reason(SkipReason)
    ensures q.Rows? ==> c.status == ConnCountStatus(q.rows[0].count, limit)
                        && c.results == ConnCountRows(q.rows)
  {
    match q
    case QueryFailed => MakeErrorCheck(ConnCountTitle)
    case Rows(rows) => Check(ConnCountTitle, ConnCountStatus(rows[0].count, limit), ConnCountRows(rows))
  }

  // ---------------------------------------------------------------------
  // List probes: an empty list is green, any row raises the probe's severity

  function LongQueriesStatus(rows: seq<LongQueryRow>): (s: Status)
    ensures s == Green <==> |rows| == 0
    ensures s != Green ==> s == Red
  {
    if |rows| == 0 then Green else Red
  }

  function IdleQueriesStatus(rows: seq<IdleQueryRow>): (s: Status)
    ensures s == Green <==> |rows| == 0
    ensures s != Green ==> s == Red
  {
    if |rows| == 0 then Green else Red
  }

  function UnusedIndexesStatus(rows: seq<UnusedIndexRow>): (s: Status)
    ensures s == Green <==> |rows| == 0
    ensures s != Green ==> s == Yellow
  {
    if |rows| == 0 then Green else Yellow
  }

  function BloatStatus(rows: seq<BloatRow>): (s: Status)
    ensures s == Green <==> |rows| == 0
    ensures s != Green ==> s == Red
  {
    if |rows| == 0 then Green else Red
  }

  function HitRateStatus(rows: seq<HitRateRow>): (s: Status)
    ensures s == Green <==> |rows| == 0
    ensures s != Green ==> s == Red
  {
    if |rows| == 0 then Green else Red
  }

  function BlockingStatus(rows: seq<BlockingRow>): (s: Status)
    ensures s == Green <==> |rows| == 0
    ensures s != Green ==> s == Red
  {
    if |rows| == 0 then Green else Red
  }

  function LongQueriesCheck(q: QueryResult<LongQueryRow>): (c: Check)
    ensures c.name == LongQueriesTitle
    ensures c.status == Skipped <==> q.QueryFailed?
    ensures q.QueryFailed? ==> c.results == Reason(SkipReason)
    ensures q.Rows? ==> c.status == LongQueriesStatus(q.rows) && c.results == LongQueryRows(q.rows)
  {
    match q
    case QueryFailed => MakeErrorCheck(LongQueriesTitle)
    case Rows(rows) => Check(LongQueriesTitle, LongQueriesStatus(rows), LongQueryRows(rows))
  }

  function IdleQueriesCheck(q: QueryResult<IdleQueryRow>): (c: Check)
    ensures c.name == IdleQueriesTitle
    ensures c.status == Skipped <==> q.QueryFailed?
    ensures q.QueryFailed? ==> c.results == Reason(SkipReason)
    ensures q.Rows? ==> c.status == IdleQueriesStatus(q.rows) && c.results == IdleQueryRows(q.rows)
  {
    match q
    case QueryFailed => MakeErrorCheck(IdleQueriesTitle)
    case Rows(rows) => Check(IdleQueriesTitle, IdleQueriesStatus(rows), IdleQueryRows(rows))
  }

  function UnusedIndexesCheck(q: QueryResult<UnusedIndexRow>): (c: Check)
    ensures c.name == UnusedIndexesTitle
    ensures c.status == Skipped <==> q.QueryFailed?
    ensures q.QueryFailed? ==> c.results == Reason(SkipReason)
    ensures q.Rows? ==> c.status == UnusedIndexesStatus(q.rows) && c.results == UnusedIndexRows(q.rows)
  {
    match q
    case QueryFailed => MakeErrorCheck(UnusedIndexesTitle)
    case Rows(rows) => Check(UnusedIndexesTitle, UnusedIndexesStatus(rows), UnusedIndexRows(rows))
  }

  function BloatCheck(q: QueryResult<BloatRow>): (c: Check)
    ensures c.name == BloatTitle
    ensures c.status == Skipped <==> q.QueryFailed?
    ensures q.QueryFailed? ==> c.results == Reason(SkipReason)
    ensures q.Rows? ==> c.status == BloatStatus(q.rows) && c.results == BloatRows(q.rows)
  {
    match q
    case QueryFailed => MakeErrorCheck(BloatTitle)
    case Rows(rows) => Check(BloatTitle, BloatStatus(rows), BloatRows(rows))
  }

  function HitRateCheck(q: QueryResult<HitRateRow>): (c: Check)
    ensures c.name == HitRateTitle
    ensures c.status == Skipped <==> q.QueryFailed?
    ensures q.QueryFailed? ==> c.results == Reason(SkipReason)
    ensures q.Rows? ==> c.status == HitRateStatus(q.rows) && c.results == HitRateRows(q.rows)
  {
    match q
    case QueryFailed => MakeErrorCheck(HitRateTitle)
    case Rows(rows) => Check(HitRateTitle, HitRateStatus(rows), HitRateRows(rows))
  }

  function BlockingCheck(q: QueryResult<BlockingRow>): (c: Check)
    ensures c.name == BlockingTitle
    ensures c.status == Skipped <==> q.QueryFailed?
    ensures q.QueryFailed? ==> c.results == Reason(SkipReason)
    ensures q.Rows? ==> c.status == BlockingStatus(q.rows) && c.results == BlockingRows(q.rows)
  {
    match q
    case QueryFailed => MakeErrorCheck(BlockingTitle)
    case Rows(rows) => Check(BlockingTitle, BlockingStatus(rows), BlockingRows(rows))
  }

  // ---------------------------------------------------------------------
  // Sequence exhaustion

  /** A candidate after its follow-up query: the measured percentage, or the
      zero value the row starts with when the follow-up fails. */
  function Measure(c: SequenceCandidate, seqPct: string -> Option<int>): (r: SequenceRow)
    ensures r.column == c.column && r.sequence == c.sequence
    ensures seqPct(c.sequence).None? ==> r.pct == 0
    ensures seqPct(c.sequence).Some? ==> r.pct == seqPct(c.sequence).value
  {
    match seqPct(c.sequence)
    case None => SequenceRow(c.column, c.sequence, 0)
    case Some(p) => SequenceRow(c.column, c.sequence, p)
  }

  /** The measured candidates above the yellow cutoff, in discovery order. */
  function Findings(cs: seq<SequenceCandidate>, seqPct: string -> Option<int>): (r: seq<SequenceRow>)
    ensures |r| <= |cs|
    ensures forall k :: 0 <= k < |r| ==> r[k].pct > YellowCutoff
  {
    if cs == [] then []
    else
      var row := Measure(cs[|cs| - 1], seqPct);
      Findings(cs[..|cs| - 1], seqPct) + (if row.pct > YellowCutoff then [row] else [])
  }

  /** Measuring one more candidate appends it to the findings exactly when
      it lands above the cutoff. */
  lemma FindingsSnoc(cs: seq<SequenceCandidate>, c: SequenceCandidate, seqPct: string -> Option<int>)
    ensures Findings(cs + [c], seqPct) ==
              Findings(cs, seqPct) + (if Measure(c, seqPct).pct > YellowCutoff then [Measure(c, seqPct)] else [])
  {
  }

  /** The severity the sequence probe promises for its findings: red when
      some finding is at 90.00 or more, yellow when there are findings and
      all are below, green when there are none. */
  function SeqSeverity(findings: seq<SequenceRow>): (s: Status)
    ensures s != Skipped
    ensures s == Green <==> findings == []
  {
    if exists k :: 0 <= k < |findings| && findings[k].pct >= RedCutoff then Red
    else if findings != [] then Yellow
    else Green
  }

  /** The outcome of the sequence probe, as a function of its query results. */
  function SeqOutcome(discovery: QueryResult<SequenceCandidate>, seqPct: string -> Option<int>): (c: Check)
    ensures c.name == SequencesTitle
    ensures c.status == Skipped <==> discovery.QueryFailed?
    ensures discovery.QueryFailed? ==> c.results == Reason(SkipReason)
  {
    match discovery
    case QueryFailed => MakeErrorCheck(SequencesTitle)
    case Rows(cs) =>
      var findings := Findings(cs, seqPct);
      Check(SequencesTitle, SeqSeverity(findings), SequenceRows(findings))
  }

  /** `maxPct` is the largest percentage in `kept` (0 when `kept` is empty),
      attained at index `at`: the running maximum of seqCheck. */
  ghost predicate RunningMax(kept: seq<SequenceRow>, maxPct: int, at: nat)
  {
    && 0 <= maxPct
    && (forall k :: 0 <= k < |kept| ==> kept[k].pct <= maxPct)
    && (kept == [] ==> maxPct == 0)
    && (kept != [] ==> at < |kept| && kept[at].pct == maxPct)
  }

  /** Appending a kept row and raising the maximum when it is exceeded keeps
      the running maximum. */
  lemma RunningMaxStep(kept: seq<SequenceRow>, maxPct: int, at: nat, row: SequenceRow)
    requires RunningMax(kept, maxPct, at) && row.pct >= 0
    ensures row.pct > maxPct ==> RunningMax(kept + [row], row.pct, |kept|)
    ensures row.pct <= maxPct && kept != [] ==> RunningMax(kept + [row], maxPct, at)
  {
  }

  /** Grading the largest kept percentage, as seqCheck does, gives the
      promised severity of the findings. */
  lemma SeverityOfMax(findings: seq<SequenceRow>, maxPct: int, at: nat)
    requires RunningMax(findings, maxPct, at)
    requires forall k :: 0 <= k < |findings| ==> findings[k].pct > YellowCutoff
    ensures SeqSeverity(findings) ==
              if maxPct >= RedCutoff then Red else if maxPct >= YellowCutoff then Yellow else Green
  {
  }

  /** One loop step of seqCheck: the findings of the next longer prefix of
      the candidates. */
  lemma FindingsStep(cs: seq<SequenceCandidate>, i: nat, seqPct: string -> Option<int>)
    requires i < |cs|
    ensures Findings(cs[..i + 1], seqPct) ==
              Findings(cs[..i], seqPct) +
              (if Measure(cs[i], seqPct).pct > YellowCutoff then [Measure(cs[i], seqPct)] else [])
  {
    assert cs[..i + 1] == cs[..i] + [cs[i]];
    FindingsSnoc(cs[..i], cs[i], seqPct);
  }

  /** After the loop of seqCheck: grading the running maximum of all the
      findings gives the outcome of the probe. */
  lemma GradeOfRunningMax(cs: seq<SequenceCandidate>, seqPct: string -> Option<int>,
                          kept: seq<SequenceRow>, maxPct: int, at: nat)
    requires kept == Findings(cs[..|cs|], seqPct) && RunningMax(kept, maxPct, at)
    ensures SeqOutcome(Rows(cs), seqPct) ==
              Check(SequencesTitle,
                    if maxPct >= RedCutoff then Red else if maxPct >= YellowCutoff then Yellow else Green,
                    SequenceRows(kept))
  {
    assert cs[..|cs|] == cs;
    SeverityOfMax(kept, maxPct, at);
  }

  /** seqCheck: measure each discovered sequence, keep those above the
      cutoff while tracking the largest percentage kept, then grade that
      maximum. */
  method SeqCheck(discovery: QueryResult<SequenceCandidate>, seqPct: string -> Option<int>)
    returns (c: Check)
    ensures c == SeqOutcome(discovery, seqPct)
  {
    if discovery.QueryFailed? {
      return MakeErrorCheck(SequencesTitle);
    }
    var tmpSeqs := discovery.rows;
    var retSeqs: seq<SequenceRow> := [];
    var maxPct := 0;
    ghost var maxAt: nat := 0;
    for i := 0 to |tmpSeqs|
      invariant retSeqs == Findings(tmpSeqs[..i], seqPct)
      invariant RunningMax(retSeqs, maxPct, maxAt)
    {
      // A failed follow-up is only logged; the row keeps its zero percentage.
      var measured := seqPct(tmpSeqs[i].sequence);
      var pct := if measured.Some? then measured.value else 0;
      var candidate := SequenceRow(tmpSeqs[i].column, tmpSeqs[i].sequence, pct);
      FindingsStep(tmpSeqs, i, seqPct);
      if candidate.pct > YellowCutoff {
        RunningMaxStep(retSeqs, maxPct, maxAt, candidate);
        retSeqs := retSeqs + [candidate];
        if candidate.pct > maxPct {
          maxPct := candidate.pct;
          maxAt := |retSeqs| - 1;
        }
      }
    }
    GradeOfRunningMax(tmpSeqs, seqPct, retSeqs, maxPct, maxAt);
    var status;
    if maxPct >= RedCutoff {
      status := Red;
    } else if maxPct >= YellowCutoff {
      status := Yellow;
    } else {
      status := Green;
    }
    c := Check(SequencesTitle, status, SequenceRows(retSeqs));
  }

  /** Findings distribute over concatenation of the candidate list: each
      candidate is kept or dropped on its own, in discovery order. */
  lemma {:induction false} FindingsAppend(cs: seq<SequenceCandidate>, ds: seq<SequenceCandidate>,
                                          seqPct: string -> Option<int>)
    ensures Findings(cs + ds, seqPct) == Findings(cs, seqPct) + Findings(ds, seqPct)
    decreases |ds|
  {
    if ds == [] {
      assert cs + ds == cs;
    } else {
      var front, d := ds[..|ds| - 1], ds[|ds| - 1];
      assert ds == front + [d];
      assert cs + ds == (cs + front) + [d];
      FindingsAppend(cs, front, seqPct);
      FindingsSnoc(cs + front, d, seqPct);
      FindingsSnoc(front, d, seqPct);
    }
  }

  /** `r` is the measurement of some candidate, above the cutoff. */
  ghost predicate MeasuredAbove(cs: seq<SequenceCandidate>, seqPct: string -> Option<int>, r: SequenceRow)
  {
    exists i :: 0 <= i < |cs| && r == Measure(cs[i], seqPct) && r.pct > YellowCutoff
  }

  lemma MeasuredAboveSnoc(cs: seq<SequenceCandidate>, c: SequenceCandidate,
                          seqPct: string -> Option<int>, r: SequenceRow)
    ensures MeasuredAbove(cs + [c], seqPct, r) <==>
              MeasuredAbove(cs, seqPct, r) || (r == Measure(c, seqPct) && r.pct > YellowCutoff)
  {
    var ds := cs + [c];
    if MeasuredAbove(cs, seqPct, r) {
      var i :| 0 <= i < |cs| && r == Measure(cs[i], seqPct) && r.pct > YellowCutoff;
      assert ds[i] == cs[i];
    }
    if r == Measure(c, seqPct) && r.pct > YellowCutoff {
      assert ds[|cs|] == c;
    }
    if MeasuredAbove(ds, seqPct, r) {
      var i :| 0 <= i < |ds| && r == Measure(ds[i], seqPct) && r.pct > YellowCutoff;
      if i < |cs| {
        assert cs[i] == ds[i];
      }
    }
  }

  /** The findings are exactly the measured candidates strictly above 75.00. */
  lemma {:induction false} FindingsExactly(cs: seq<SequenceCandidate>, seqPct: string -> Option<int>, r: SequenceRow)
    ensures r in Findings(cs, seqPct) <==>
              exists i :: 0 <= i < |cs| && r == Measure(cs[i], seqPct) && r.pct > YellowCutoff
  {
    if cs != [] {
      var front, c := cs[..|cs| - 1], cs[|cs| - 1];
      assert cs == front + [c];
      FindingsExactly(front, seqPct, r);
      FindingsSnoc(front, c, seqPct);
      MeasuredAboveSnoc(front, c, seqPct, r);
    }
  }

  /** A candidate whose follow-up query fails keeps percentage 0, so it is
      dropped and the candidates after it are still measured. */
  lemma FailedFollowUpIgnored(cs: seq<SequenceCandidate>, c: SequenceCandidate, ds: seq<SequenceCandidate>,
                              seqPct: string -> Option<int>)
    requires seqPct(c.sequence).None?
    ensures Findings(cs + [c] + ds, seqPct) == Findings(cs + ds, seqPct)
  {
    FindingsAppend(cs + [c], ds, seqPct);
    FindingsSnoc(cs, c, seqPct);
    FindingsAppend(cs, ds, seqPct);
  }

  /** More findings never lower the sequence severity. */
  lemma SeqSeverityGrows(f: seq<SequenceRow>, g: seq<SequenceRow>)
    ensures Rank(SeqSeverity(f)) <= Rank(SeqSeverity(f + g))
  {
    if exists k :: 0 <= k < |f| && f[k].pct >= RedCutoff {
      var k :| 0 <= k < |f| && f[k].pct >= RedCutoff;
      assert (f + g)[k] == f[k];
    }
  }

  /** Discovering more sequences never lowers the sequence probe's severity. */
  lemma SeqSeverityMonotone(cs: seq<SequenceCandidate>, ds: seq<SequenceCandidate>,
                            seqPct: string -> Option<int>)
    ensures Rank(SeqSeverity(Findings(cs, seqPct))) <= Rank(SeqSeverity(Findings(cs + ds, seqPct)))
  {
    FindingsAppend(cs, ds, seqPct);
    SeqSeverityGrows(Findings(cs, seqPct), Findings(ds, seqPct));
  }

  /** The cutoff is strict: 75.00 and 74.99 are dropped, 80.00 is a yellow
      finding and 92.30 is red. */
  lemma SeqCutoffExamples(c: SequenceCandidate)
    ensures Findings([c], _ => Some(7500)) == []
    ensures Findings([c], _ => Some(7499)) == []
    ensures Findings([c], _ => None) == []
    ensures Findings([c], _ => Some(8000)) == [SequenceRow(c.column, c.sequence, 8000)]
    ensures SeqSeverity(Findings([c], _ => Some(8000))) == Yellow
    ensures SeqSeverity(Findings([c], _ => Some(9230))) == Red
  {
    assert [c][..0] == [];
    assert SequenceRow(c.column, c.sequence, 9230) in Findings([c], _ => Some(9230));
  }

  // ---------------------------------------------------------------------
  // The battery

  /** connCountCheck reads the first row, which `count(*)` always returns. */
  predicate CountRowPresent(p: Probes)
  {
    p.connCount.Rows? ==> |p.connCount.rows| > 0
  }

  /** The report CheckSql assembles from a reachable database's answers. */
  function Battery(p: Probes, limit: int): (checks: seq<Check>)
    requires CountRowPresent(p)
    ensures |checks| == |BatteryNames| == 8
    ensures forall i :: 0 <= i < |checks| ==> checks[i].name == BatteryNames[i]
  {
    [ConnCountCheck(p.connCount, limit),
     LongQueriesCheck(p.longQueries),
     IdleQueriesCheck(p.idleQueries),
     UnusedIndexesCheck(p.unusedIndexes),
     BloatCheck(p.bloat),
     HitRateCheck(p.hitRate),
     BlockingCheck(p.blocking),
     SeqOutcome(p.seqDiscovery, p.seqPct)]
  }

  /** Whether the query behind the i-th check of the battery failed. */
  predicate ProbeFailed(p: Probes, i: nat)
  {
    match i
    case 0 => p.connCount.QueryFailed?
    case 1 => p.longQueries.QueryFailed?
    case 2 => p.idleQueries.QueryFailed?
    case 3 => p.unusedIndexes.QueryFailed?
    case 4 => p.bloat.QueryFailed?
    case 5 => p.hitRate.QueryFailed?
    case 6 => p.blocking.QueryFailed?
    case 7 => p.seqDiscovery.QueryFailed?
    case _ => false
  }

  /** The same answers, except that the query behind the i-th check fails. */
  function FailProbe(p: Probes, i: nat): Probes
  {
    match i
    case 0 => p.(connCount := QueryFailed)
    case 1 => p.(longQueries := QueryFailed)
    case 2 => p.(idleQueries := QueryFailed)
    case 3 => p.(unusedIndexes := QueryFailed)
    case 4 => p.(bloat := QueryFailed)
    case 5 => p.(hitRate := QueryFailed)
    case 6 => p.(blocking := QueryFailed)
    case 7 => p.(seqDiscovery := QueryFailed)
    case _ => p
  }

  /** A check is skipped exactly when its own query failed, and then it
      carries the generic reason. */
  lemma SkippedExactlyWhenFailed(p: Probes, limit: int, i: nat)
    requires CountRowPresent(p) && i < 8
    ensures Battery(p, limit)[i].status == Skipped <==> ProbeFailed(p, i)
    ensures ProbeFailed(p, i) ==> Battery(p, limit)[i] == MakeErrorCheck(BatteryNames[i])
  {
  }

  /** A failing probe turns only its own entry into a skipped check; the
      other seven entries are what they would have been. */
  lemma FailureIsolated(p: Probes, limit: int, i: nat)
    requires CountRowPresent(p) && i < 8
    ensures CountRowPresent(FailProbe(p, i))
    ensures Battery(FailProbe(p, i), limit) == Battery(p, limit)[i := MakeErrorCheck(BatteryNames[i])]
  {
    // Split on the failing probe, so that each case sees fewer record updates.
    if i < 4 {
      if i < 2 { } else { }
    } else {
      if i < 6 { } else { }
    }
  }

  /** CheckSql: fail as a whole when the connection fails, otherwise fill
      the eight slots of the report in battery order. */
  method CheckSql(db: Database, plan: Plans.Plan) returns (r: Result<seq<Check>, string>)
    requires db.Reachable? ==> CountRowPresent(db.probes)
    ensures r.Failure? <==> db.Unreachable?
    ensures db.Unreachable? ==> r == Failure(db.error)
    ensures r.Success? ==> r.value == Battery(db.probes, plan.connectionLimit)
  {
    if db.Unreachable? {
      return Failure(db.error);
    }
    var p := db.probes;
    var v := new Check[8];
    v[0] := ConnCountCheck(p.connCount, plan.connectionLimit);
    v[1] := LongQueriesCheck(p.longQueries);
    v[2] := IdleQueriesCheck(p.idleQueries);
    v[3] := UnusedIndexesCheck(p.unusedIndexes);
    v[4] := BloatCheck(p.bloat);
    v[5] := HitRateCheck(p.hitRate);
    v[6] := BlockingCheck(p.blocking);
    v[7] := SeqCheck(p.seqDiscovery, p.seqPct);
    return Success(v[..]);
  }

  /** A database with 18 of 20 connections in use, one long query, no idle
      transaction and one sequence at 80.00%: the count is red (18/20 is
      0.9), long queries red, idle green, sequences yellow with one finding. */
  lemma ScenarioReport(p: Probes, long: LongQueryRow, seqCol: string, seqName: string)
    requires p.connCount == Rows([ConnCountRow(18)])
    requires p.longQueries == Rows([long])
    requires p.idleQueries == Rows([])
    requires p.seqDiscovery == Rows([SequenceCandidate(seqCol, seqName)])
    requires p.seqPct(seqName) == Some(8000)
    ensures CountRowPresent(p)
    ensures Battery(p, Plans.GetPlan("dev").connectionLimit)[0].status == Red
    ensures Battery(p, 20)[1].status == Red
    ensures Battery(p, 20)[2].status == Green
    ensures Battery(p, 20)[7].status == Yellow
    ensures Battery(p, 20)[7].results == SequenceRows([SequenceRow(seqCol, seqName, 8000)])
  {
  }
}

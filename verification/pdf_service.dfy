/** PDFService.calculateStatistics (src/services/pdfService.ts): the aggregate figures the
    report prints about a list of sessions. The HTML, file and sharing steps of the report
    are not part of this model. */
module PdfService {
  import opened Types
  import opened Numeric
  import opened Seqs

  /** sessionsPerStatus. */
  datatype StatusCounts = StatusCounts(bajo: nat, moderado: nat, alto: nat)

  /** SessionStatistics. */
  datatype SessionStatistics = SessionStatistics(
    totalSessions: nat,
    averageTremorIndex: int,
    minTremorIndex: int,
    maxTremorIndex: int,
    totalDuration: int,
    sessionsPerStatus: StatusCounts)

  /** `sessions.map(s => s.tremorIndex)`. */
  function TremorIndices(sessions: seq<Session>): (r: seq<int>)
    ensures |r| == |sessions|
    ensures forall i :: 0 <= i < |sessions| ==> r[i] == sessions[i].tremorIndex
  {
    seq(|sessions|, i requires 0 <= i < |sessions| => sessions[i].tremorIndex)
  }

  /** `reduce((a, b) => a + b, 0)` over integers. */
  function SumInts(s: seq<int>): int
  {
    if s == [] then 0 else SumInts(s[..|s| - 1]) + s[|s| - 1]
  }

  /** `sessions.reduce((sum, s) => sum + s.duration, 0)`. */
  function TotalDuration(sessions: seq<Session>): int
  {
    if sessions == [] then 0 else TotalDuration(sessions[..|sessions| - 1]) + sessions[|sessions| - 1].duration
  }

  /** `Math.min(...s)` of a non-empty list: a member of the list below every member. */
  function MinOf(s: seq<int>): (m: int)
    requires |s| > 0
    ensures forall i :: 0 <= i < |s| ==> m <= s[i]
    ensures exists i :: 0 <= i < |s| && m == s[i]
  {
    if |s| == 1 then s[0]
    else
      var rest := MinOf(s[..|s| - 1]);
      assert forall i :: 0 <= i < |s| - 1 ==> s[..|s| - 1][i] == s[i];
      if s[|s| - 1] < rest then s[|s| - 1] else rest
  }

  /** `Math.max(...s)` of a non-empty list: a member of the list above every member. */
  function MaxOf(s: seq<int>): (m: int)
    requires |s| > 0
    ensures forall i :: 0 <= i < |s| ==> s[i] <= m
    ensures exists i :: 0 <= i < |s| && m == s[i]
  {
    if |s| == 1 then s[0]
    else
      var rest := MaxOf(s[..|s| - 1]);
      assert forall i :: 0 <= i < |s| - 1 ==> s[..|s| - 1][i] == s[i];
      if rest < s[|s| - 1] then s[|s| - 1] else rest
  }

  /** The filter callback `s => s.tremorStatus === status`. */
  function WithStatus(status: string): Session -> bool {
    (s: Session) => s.tremorStatus == status
  }

  /** `sessions.filter(s => s.tremorStatus === status).length`. */
  function CountWithStatus(sessions: seq<Session>, status: string): (n: nat)
    ensures n <= |sessions|
  {
    |Keep(sessions, WithStatus(status))|
  }

  /** calculateStatistics: all zeros for no sessions; otherwise the count, the rounded mean,
      the extremes of the tremor indices, the summed duration and the number of sessions
      under each of the three statuses. */
  function CalculateStatistics(sessions: seq<Session>): (stats: SessionStatistics)
    ensures stats.totalSessions == |sessions|
    ensures sessions == [] ==>
      stats == SessionStatistics(0, 0, 0, 0, 0, StatusCounts(0, 0, 0))
    ensures sessions != [] ==>
      && (forall i :: 0 <= i < |sessions| ==>
            stats.minTremorIndex <= sessions[i].tremorIndex <= stats.maxTremorIndex)
      && (exists i :: 0 <= i < |sessions| && sessions[i].tremorIndex == stats.minTremorIndex)
      && (exists i :: 0 <= i < |sessions| && sessions[i].tremorIndex == stats.maxTremorIndex)
    ensures stats.sessionsPerStatus.bajo == CountWithStatus(sessions, "Bajo")
    ensures stats.sessionsPerStatus.moderado == CountWithStatus(sessions, "Moderado")
    ensures stats.sessionsPerStatus.alto == CountWithStatus(sessions, "Alto")
  {
    if |sessions| == 0 then
      SessionStatistics(0, 0, 0, 0, 0, StatusCounts(0, 0, 0))
    else
      var indices := TremorIndices(sessions);
      SessionStatistics(
        |sessions|,
        Round(SumInts(indices) as real / |sessions| as real),
        MinOf(indices),
        MaxOf(indices),
        TotalDuration(sessions),
        StatusCounts(
          CountWithStatus(sessions, "Bajo"),
          CountWithStatus(sessions, "Moderado"),
          CountWithStatus(sessions, "Alto")))
  }

  /** A sum of `n` integers lies between `n` times their minimum and `n` times their maximum. */
  lemma {:induction false} SumBetweenExtremes(s: seq<int>, lo: int, hi: int)
    requires forall i :: 0 <= i < |s| ==> lo <= s[i] <= hi
    ensures |s| * lo <= SumInts(s) <= |s| * hi
  {
    if s != [] {
      var init := s[..|s| - 1];
      var k := |init|;
      assert forall i :: 0 <= i < k ==> init[i] == s[i];
      SumBetweenExtremes(init, lo, hi);
      assert SumInts(s) == SumInts(init) + s[k];
      MultiplyOneMore(k, lo);
      MultiplyOneMore(k, hi);
    }
  }

  /** Rounding the mean of `n` values kept between `lo` and `hi` stays between them. */
  lemma RoundedMeanBetween(sum: int, n: int, lo: int, hi: int)
    requires n > 0
    requires n * lo <= sum <= n * hi
    ensures lo <= Round(sum as real / n as real) <= hi
  {
    QuotientBetween(sum as real, n as real, lo as real, hi as real);
  }

  /** Dividing n·lo <= sum <= n·hi by a positive n. */
  lemma QuotientBetween(sum: real, n: real, lo: real, hi: real)
    requires n > 0.0
    requires n * lo <= sum <= n * hi
    ensures lo <= sum / n <= hi
  {
    var q := sum / n;
    assert sum == n * q;
  }


  /** The rounded mean of the tremor indices lies between their minimum and maximum. */
  lemma AverageWithinExtremes(sessions: seq<Session>)
    requires sessions != []
    ensures var stats := CalculateStatistics(sessions);
      stats.minTremorIndex <= stats.averageTremorIndex <= stats.maxTremorIndex
  {
    var indices := TremorIndices(sessions);
    var lo, hi := MinOf(indices), MaxOf(indices);
    SumBetweenExtremes(indices, lo, hi);
    RoundedMeanBetween(SumInts(indices), |sessions|, lo, hi);
  }

  /** The tremorStatus of a session built by the app. */
  predicate HasKnownStatus(s: Session) {
    s.tremorStatus == "Bajo" || s.tremorStatus == "Moderado" || s.tremorStatus == "Alto"
  }

  /** No session is counted under two labels, and a session with a known label is counted
      under one. */
  lemma {:induction false} StatusCountsSum(sessions: seq<Session>)
    ensures CountWithStatus(sessions, "Bajo") + CountWithStatus(sessions, "Moderado")
      + CountWithStatus(sessions, "Alto") <= |sessions|
    ensures (forall i :: 0 <= i < |sessions| ==> HasKnownStatus(sessions[i])) ==>
      CountWithStatus(sessions, "Bajo") + CountWithStatus(sessions, "Moderado")
        + CountWithStatus(sessions, "Alto") == |sessions|
  {
    if sessions != [] {
      var rest := sessions[1..];
      StatusCountsSum(rest);
      if forall i :: 0 <= i < |sessions| ==> HasKnownStatus(sessions[i]) {
        assert forall i :: 0 <= i < |rest| ==> rest[i] == sessions[i + 1];
      }
    }
  }

  /** The three counts of the report add up to at most the number of sessions, and to
      exactly that number when every session carries one of the three labels, as sessions
      built by the app do. */
  lemma StatusCountsCover(sessions: seq<Session>)
    ensures var c := CalculateStatistics(sessions).sessionsPerStatus;
      c.bajo + c.moderado + c.alto <= |sessions|
    ensures (forall i :: 0 <= i < |sessions| ==> HasKnownStatus(sessions[i])) ==>
      var c := CalculateStatistics(sessions).sessionsPerStatus;
      c.bajo + c.moderado + c.alto == |sessions|
  {
    StatusCountsSum(sessions);
  }

  /** Appending a session adds one to its label's count and nothing to the others. */
  lemma CountAfterAppend(sessions: seq<Session>, s: Session, status: string)
    ensures CountWithStatus(sessions + [s], status)
      == CountWithStatus(sessions, status) + (if s.tremorStatus == status then 1 else 0)
  {
    KeepConcat(sessions, [s], WithStatus(status));
  }

  /** Appending a value to a non-empty list widens its extremes to that value. */
  lemma ExtremesAfterAppend(s: seq<int>, x: int)
    requires s != []
    ensures MinOf(s + [x]) == MinInt(MinOf(s), x)
    ensures MaxOf(s + [x]) == MaxInt(MaxOf(s), x)
  {
    assert (s + [x])[..|s|] == s;
  }

  /** Saving one more session moves the statistics as expected: one more session, its
      duration added, its label's count up by one, and the extremes widened to its index. */
  lemma StatisticsAfterSave(sessions: seq<Session>, s: Session)
    ensures var before := CalculateStatistics(sessions);
      var after := CalculateStatistics(sessions + [s]);
      && after.totalSessions == before.totalSessions + 1
      && after.totalDuration == before.totalDuration + s.duration
      && after.sessionsPerStatus.bajo == before.sessionsPerStatus.bajo + (if s.tremorStatus == "Bajo" then 1 else 0)
      && after.sessionsPerStatus.moderado == before.sessionsPerStatus.moderado + (if s.tremorStatus == "Moderado" then 1 else 0)
      && after.sessionsPerStatus.alto == before.sessionsPerStatus.alto + (if s.tremorStatus == "Alto" then 1 else 0)
      && (sessions != [] ==>
            && after.minTremorIndex == MinInt(before.minTremorIndex, s.tremorIndex)
            && after.maxTremorIndex == MaxInt(before.maxTremorIndex, s.tremorIndex))
      && (sessions == [] ==>
            after.minTremorIndex == after.maxTremorIndex == after.averageTremorIndex == s.tremorIndex)
  {
    var all := sessions + [s];
    assert all[..|all| - 1] == sessions;
    CountAfterAppend(sessions, s, "Bajo");
    CountAfterAppend(sessions, s, "Moderado");
    CountAfterAppend(sessions, s, "Alto");
    if sessions != [] {
      assert TremorIndices(all) == TremorIndices(sessions) + [s.tremorIndex];
      ExtremesAfterAppend(TremorIndices(sessions), s.tremorIndex);
    } else {
      var x := s.tremorIndex;
      assert all == [s];
      assert TremorIndices(all) == [x];
      assert [x][..0] == [];
      assert SumInts([x]) == x;
      assert x as real / 1 as real == x as real;
      assert Round(x as real) == x;
      assert all[..0] == [];
      assert TotalDuration(all) == TotalDuration(all[..0]) + s.duration;
    }
  }
}

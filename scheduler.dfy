/**
 * The press scheduler.  Jobs are placed in their given order; each press has an
 * availability frontier, both starting at "now" truncated to the hour.  A job with a
 * preferred start begins at that instant on its run-by date, any other job at its press's
 * frontier; either way the job's end becomes the new frontier of its press.
 */
module Scheduler {
  import opened Wrappers
  import opened Clock
  import opened Jobs

  /** A maintenance window; the scheduler accepts a list of them and never reads it. */
  datatype Maintenance = Maintenance(press: Press, start: real, end: real)

  /** A job row of the schedule: the job, its duration in hours and its start and end instants. */
  datatype ScheduledJob = ScheduledJob(job: Job, durationHours: real, start: real, end: real)

  /** Every rate is positive, as every rate taken from the product table is. */
  predicate Rated(jobs: seq<Job>)
  {
    forall k :: 0 <= k < |jobs| ==> jobs[k].rate > 0.0
  }

  /** No job asks for a preferred start. */
  predicate NoPreferredStarts(jobs: seq<Job>)
  {
    forall k :: 0 <= k < |jobs| ==> jobs[k].preferredStart.None?
  }

  /** Every job has at least one roll, as the roll-quantity input guarantees. */
  predicate AtLeastOneRoll(jobs: seq<Job>)
  {
    forall k :: 0 <= k < |jobs| ==> jobs[k].rolls >= 1
  }

  /** The row for `job` when its press is next free at `frontier`. */
  function Place(job: Job, frontier: real): (r: ScheduledJob)
    requires job.rate > 0.0
    ensures r.job == job && r.durationHours == job.rolls as real / job.rate
    ensures r.end == r.start + r.durationHours
    ensures job.preferredStart.Some? ==> r.start == Combine(job.runBy, job.preferredStart.value)
    ensures job.preferredStart.None? ==> r.start == frontier
  {
    var duration := job.rolls as real / job.rate;
    var start := match job.preferredStart
      case Some(t) => Combine(job.runBy, t)
      case None => frontier;
    ScheduledJob(job, duration, start, start + duration)
  }

  /** The frontier of press `p` after `jobs` were placed, starting from `t0`. */
  function Frontier(jobs: seq<Job>, t0: real, p: Press): (f: real)
    requires Rated(jobs)
    ensures (forall k :: 0 <= k < |jobs| ==> jobs[k].press != p) ==> f == t0
    decreases |jobs|
  {
    if |jobs| == 0 then t0
    else
      var before := Frontier(jobs[..|jobs| - 1], t0, p);
      var last := jobs[|jobs| - 1];
      if last.press == p then Place(last, before).end else before
  }

  /** The schedule of `jobs` when both presses are first free at `t0`. */
  function Schedule(jobs: seq<Job>, t0: real): (r: seq<ScheduledJob>)
    requires Rated(jobs)
    ensures |r| == |jobs|
    decreases |jobs|
  {
    if |jobs| == 0 then []
    else
      var prefix := jobs[..|jobs| - 1];
      var last := jobs[|jobs| - 1];
      Schedule(prefix, t0) + [Place(last, Frontier(prefix, t0, last.press))]
  }

  /**
   * The scheduler proper.  `now` is the wall-clock reading; `maintenance` is accepted and
   * ignored, so the result is a function of the jobs and the hour of `now` alone.
   */
  method ScheduleJobs(jobs: seq<Job>, maintenance: seq<Maintenance>, now: DateTime)
    returns (r: seq<ScheduledJob>)
    requires Rated(jobs)
    ensures r == Schedule(jobs, Instant(TruncateToHour(now)))
    ensures jobs == [] ==> r == []
  {
    var durations := seq(|jobs|, k requires 0 <= k < |jobs| => jobs[k].rolls as real / jobs[k].rate);
    var t0 := Instant(TruncateToHour(now));
    var avail := map[Heidelberg := t0, Kidder := t0];
    r := [];
    var i := 0;
    while i < |jobs|
      invariant 0 <= i <= |jobs|
      invariant r == Schedule(jobs[..i], t0)
      invariant Heidelberg in avail && avail[Heidelberg] == Frontier(jobs[..i], t0, Heidelberg)
      invariant Kidder in avail && avail[Kidder] == Frontier(jobs[..i], t0, Kidder)
    {
      var job := jobs[i];
      assert avail[job.press] == Frontier(jobs[..i], t0, job.press) by {
        if job.press == Heidelberg {} else {}
      }
      var start := if job.preferredStart.Some? then Combine(job.runBy, job.preferredStart.value)
                   else avail[job.press];
      var end := start + durations[i];
      r := r + [ScheduledJob(job, durations[i], start, end)];
      avail := avail[job.press := end];
      assert jobs[..i + 1][..i] == jobs[..i];
      i := i + 1;
    }
    assert jobs[..i] == jobs;
  }

  /** The empty-job-list behaviour of the code as written: building the table fails. */
  datatype FrameError = MissingColumn(name: string)

  /**
   * The scheduler as written: on an empty job list the table has no `Rolls` column and
   * computing durations fails; otherwise it is the schedule.
   */
  function ScheduleAsWritten(jobs: seq<Job>, t0: real): (r: Result<seq<ScheduledJob>, FrameError>)
    requires Rated(jobs)
    ensures r.Err? <==> jobs == []
    ensures r.Err? ==> r.error == MissingColumn("Rolls")
    ensures r.Ok? ==> r.value == Schedule(jobs, t0)
  {
    if jobs == [] then Err(MissingColumn("Rolls")) else Ok(Schedule(jobs, t0))
  }

  /** On the empty job list the code as written fails, while the intended schedule is empty. */
  lemma EmptyListAsWrittenAndIntended(t0: real)
    ensures ScheduleAsWritten([], t0).Err? && Schedule([], t0) == []
  {
  }

  // ---------------------------------------------------------------- row shape

  /** Row `i` is job `i` placed at its press's frontier after the jobs before it. */
  lemma {:induction false} ScheduleAt(jobs: seq<Job>, t0: real, i: int)
    requires Rated(jobs) && 0 <= i < |jobs|
    ensures Schedule(jobs, t0)[i] == Place(jobs[i], Frontier(jobs[..i], t0, jobs[i].press))
    decreases |jobs|
  {
    var prefix := jobs[..|jobs| - 1];
    if i < |jobs| - 1 {
      ScheduleAt(prefix, t0, i);
      assert prefix[..i] == jobs[..i];
    } else {
      assert jobs[..i] == prefix;
    }
  }

  /**
   * Same length and order as the input, every job kept unchanged, the duration is
   * rolls / rate and every end is its start plus its duration.
   */
  lemma {:induction false} ScheduleRows(jobs: seq<Job>, t0: real)
    requires Rated(jobs)
    ensures |Schedule(jobs, t0)| == |jobs|
    ensures forall i :: 0 <= i < |jobs| ==>
      var row := Schedule(jobs, t0)[i];
      && row.job == jobs[i]
      && row.durationHours == jobs[i].rolls as real / jobs[i].rate
      && row.end == row.start + row.durationHours
  {
    forall i | 0 <= i < |jobs|
      ensures var row := Schedule(jobs, t0)[i];
        && row.job == jobs[i]
        && row.durationHours == jobs[i].rolls as real / jobs[i].rate
        && row.end == row.start + row.durationHours
    {
      ScheduleAt(jobs, t0, i);
    }
  }

  // ---------------------------------------------------------------- start times

  /** The index of the last job before index `i` that runs on press `p`, if any. */
  function LastOn(jobs: seq<Job>, i: int, p: Press): (r: Option<nat>)
    requires 0 <= i <= |jobs|
    ensures r.Some? ==> r.value < i && jobs[r.value].press == p
    ensures r.Some? ==> forall k :: r.value < k < i ==> jobs[k].press != p
    ensures r.None? ==> forall k :: 0 <= k < i ==> jobs[k].press != p
    decreases i
  {
    if i == 0 then None
    else if jobs[i - 1].press == p then Some(i - 1)
    else LastOn(jobs, i - 1, p)
  }

  /** The instant a job placed after jobs[..i] starts at when it has no preferred start. */
  function FrontierStart(jobs: seq<Job>, t0: real, i: int, p: Press): (start: real)
    requires Rated(jobs) && 0 <= i <= |jobs|
  {
    match LastOn(jobs, i, p)
    case Some(k) => Schedule(jobs, t0)[k].end
    case None => t0
  }

  /** The frontier of `p` after jobs[..i] is the end of the last of them on `p`, else `t0`. */
  lemma {:induction false} FrontierIsLastEnd(jobs: seq<Job>, t0: real, i: int, p: Press)
    requires Rated(jobs) && 0 <= i <= |jobs|
    ensures Frontier(jobs[..i], t0, p) == FrontierStart(jobs, t0, i, p)
    decreases i
  {
    if i > 0 {
      assert jobs[..i][..i - 1] == jobs[..i - 1];
      if jobs[i - 1].press == p {
        ScheduleAt(jobs, t0, i - 1);
      } else {
        FrontierIsLastEnd(jobs, t0, i - 1, p);
      }
    }
  }

  /**
   * A job with a preferred start begins at that time on its run-by date.  Any other job
   * begins at the end of the most recent earlier job on the same press, whether or not
   * that job had a preferred start, and at `t0` when there is none.
   */
  lemma StartRule(jobs: seq<Job>, t0: real)
    requires Rated(jobs)
    ensures forall i :: 0 <= i < |jobs| && jobs[i].preferredStart.Some? ==>
      Schedule(jobs, t0)[i].start == Combine(jobs[i].runBy, jobs[i].preferredStart.value)
    ensures forall i :: 0 <= i < |jobs| && jobs[i].preferredStart.None? ==>
      Schedule(jobs, t0)[i].start == FrontierStart(jobs, t0, i, jobs[i].press)
  {
    forall i | 0 <= i < |jobs|
      ensures jobs[i].preferredStart.Some? ==>
        Schedule(jobs, t0)[i].start == Combine(jobs[i].runBy, jobs[i].preferredStart.value)
      ensures jobs[i].preferredStart.None? ==>
        Schedule(jobs, t0)[i].start == FrontierStart(jobs, t0, i, jobs[i].press)
    {
      ScheduleAt(jobs, t0, i);
      FrontierIsLastEnd(jobs, t0, i, jobs[i].press);
    }
  }

  /**
   * A job with a preferred start gets the same row whatever jobs come before it and
   * whatever the starting instant is.
   */
  lemma PreferredStartIndependent(a: seq<Job>, b: seq<Job>, job: Job, t0: real, t1: real)
    requires Rated(a) && Rated(b) && job.rate > 0.0
    requires job.preferredStart.Some?
    ensures Rated(a + [job]) && Rated(b + [job])
    ensures Schedule(a + [job], t0)[|a|] == Schedule(b + [job], t1)[|b|]
    ensures Schedule(a + [job], t0)[|a|].start == Combine(job.runBy, job.preferredStart.value)
  {
  }

  /**
   * 100 rolls of a product made at 4.76 rolls per hour take about 21.0084 hours from the
   * frontier; a 09:00 preferred start begins at 09:00 on the run-by date whatever "now" is.
   */
  lemma ScenarioExamples(t0: real, runBy: Date)
    ensures var job := Job("DUT10-40360R6W", "B166420332C", 100, 4.76, 42.5, runBy, None, Kidder);
      var row := Schedule([job], t0)[0];
      && 21.0084 < row.durationHours < 21.0085
      && row.start == t0 && row.end == t0 + 100.0 / 4.76
    ensures var job := Job("DUT10-40360R6W", "B166420332C", 100, 4.76, 42.5, runBy,
                           Some(TimeFields(9, 0, 0, 0)), Kidder);
      Schedule([job], t0)[0].start == (runBy * 24 + 9) as real
  {
  }

  // ---------------------------------------------------------------- one press at a time

  /** The jobs of `jobs` that run on press `p`, in their order. */
  function OnPress(jobs: seq<Job>, p: Press): (r: seq<Job>)
    ensures Rated(jobs) ==> Rated(r)
    ensures |r| <= |jobs|
    decreases |jobs|
  {
    if |jobs| == 0 then []
    else
      var last := jobs[|jobs| - 1];
      OnPress(jobs[..|jobs| - 1], p) + (if last.press == p then [last] else [])
  }

  /** The rows of `rows` whose job runs on press `p`, in their order. */
  function RowsOnPress(rows: seq<ScheduledJob>, p: Press): (r: seq<ScheduledJob>)
    decreases |rows|
  {
    if |rows| == 0 then []
    else
      var last := rows[|rows| - 1];
      RowsOnPress(rows[..|rows| - 1], p) + (if last.job.press == p then [last] else [])
  }

  /** The frontier of `p` does not depend on the jobs of the other press. */
  lemma {:induction false} FrontierOnPress(jobs: seq<Job>, t0: real, p: Press)
    requires Rated(jobs)
    ensures Frontier(jobs, t0, p) == Frontier(OnPress(jobs, p), t0, p)
    decreases |jobs|
  {
    if |jobs| > 0 {
      var prefix := jobs[..|jobs| - 1];
      var last := jobs[|jobs| - 1];
      FrontierOnPress(prefix, t0, p);
      if last.press == p {
        var filtered := OnPress(prefix, p) + [last];
        assert OnPress(jobs, p) == filtered;
        assert filtered[..|filtered| - 1] == OnPress(prefix, p);
        assert Frontier(filtered, t0, p) == Place(last, Frontier(OnPress(prefix, p), t0, p)).end;
      } else {
        assert OnPress(jobs, p) == OnPress(prefix, p);
      }
    }
  }

  /**
   * Scheduling only the jobs of press `p` gives exactly the rows of press `p` in the
   * full schedule: jobs on the other press never affect it.
   */
  lemma {:induction false} OtherPressIrrelevant(jobs: seq<Job>, t0: real, p: Press)
    requires Rated(jobs)
    ensures Schedule(OnPress(jobs, p), t0) == RowsOnPress(Schedule(jobs, t0), p)
    decreases |jobs|
  {
    if |jobs| > 0 {
      var prefix := jobs[..|jobs| - 1];
      var last := jobs[|jobs| - 1];
      var rows := Schedule(jobs, t0);
      OtherPressIrrelevant(prefix, t0, p);
      assert rows[..|rows| - 1] == Schedule(prefix, t0);
      if last.press == p {
        FrontierOnPress(prefix, t0, p);
        var filtered := OnPress(prefix, p) + [last];
        assert OnPress(jobs, p) == filtered;
        assert filtered[..|filtered| - 1] == OnPress(prefix, p);
      } else {
        assert OnPress(jobs, p) == OnPress(prefix, p);
      }
    }
  }

  /** Two job lists with the same jobs on press `p` give press `p` the same rows. */
  lemma SamePressJobsSameRows(a: seq<Job>, b: seq<Job>, t0: real, p: Press)
    requires Rated(a) && Rated(b)
    requires OnPress(a, p) == OnPress(b, p)
    ensures RowsOnPress(Schedule(a, t0), p) == RowsOnPress(Schedule(b, t0), p)
  {
    OtherPressIrrelevant(a, t0, p);
    OtherPressIrrelevant(b, t0, p);
  }

  // ---------------------------------------------------------------- no overlaps

  /** Without preferred starts, a press's frontier never moves backward. */
  lemma {:induction false} FrontierMonotone(jobs: seq<Job>, t0: real, p: Press, m: int, n: int)
    requires Rated(jobs) && NoPreferredStarts(jobs) && AtLeastOneRoll(jobs)
    requires 0 <= m <= n <= |jobs|
    ensures Frontier(jobs[..m], t0, p) <= Frontier(jobs[..n], t0, p)
    decreases n
  {
    if m < n {
      FrontierMonotone(jobs, t0, p, m, n - 1);
      assert jobs[..n][..n - 1] == jobs[..n - 1];
      var job := jobs[n - 1];
      assert job.rolls as real / job.rate > 0.0;
    }
  }

  /**
   * Without preferred starts, every job starts no earlier than `t0`, has positive length,
   * and a later job on the same press starts no earlier than an earlier one ends.
   */
  lemma NoOverlap(jobs: seq<Job>, t0: real)
    requires Rated(jobs) && NoPreferredStarts(jobs) && AtLeastOneRoll(jobs)
    ensures forall i :: 0 <= i < |jobs| ==>
      t0 <= Schedule(jobs, t0)[i].start < Schedule(jobs, t0)[i].end
    ensures forall i, k :: 0 <= i < k < |jobs| && jobs[i].press == jobs[k].press ==>
      Schedule(jobs, t0)[i].end <= Schedule(jobs, t0)[k].start
  {
    var rows := Schedule(jobs, t0);
    forall i | 0 <= i < |jobs|
      ensures t0 <= rows[i].start < rows[i].end
    {
      ScheduleAt(jobs, t0, i);
      FrontierMonotone(jobs, t0, jobs[i].press, 0, i);
      assert jobs[i].rolls as real / jobs[i].rate > 0.0;
    }
    forall i, k | 0 <= i < k < |jobs| && jobs[i].press == jobs[k].press
      ensures rows[i].end <= rows[k].start
    {
      ScheduleAt(jobs, t0, i);
      ScheduleAt(jobs, t0, k);
      FrontierMonotone(jobs, t0, jobs[i].press, i + 1, k);
      assert jobs[..i + 1][..i] == jobs[..i];
    }
  }

  /**
   * Without the "no preferred starts" hypothesis overlaps do happen: a job with an early
   * preferred start moves its press's frontier back, and the next job on that press then
   * starts before an earlier one has ended.
   */
  lemma PreferredStartCanMoveFrontierBack()
    ensures var a := Job("DUT10-40360R6W", "B166420332C", 476, 4.76, 42.5, 0, None, Kidder);
      var b := Job("DUT10-40360R6W", "B166420332C", 476, 4.76, 42.5, 0, Some(TimeFields(9, 0, 0, 0)), Kidder);
      var rows := Schedule([a, b, a], 1000.0);
      && rows[0].start == 1000.0 && rows[0].end == 1100.0
      && rows[1].start == 9.0 && rows[1].end == 109.0
      && rows[2].start == 109.0 && rows[2].start < rows[0].end
  {
    var a := Job("DUT10-40360R6W", "B166420332C", 476, 4.76, 42.5, 0, None, Kidder);
    var b := Job("DUT10-40360R6W", "B166420332C", 476, 4.76, 42.5, 0, Some(TimeFields(9, 0, 0, 0)), Kidder);
    var jobs := [a, b, a];
    ScheduleRows(jobs, 1000.0);
    StartRule(jobs, 1000.0);
    assert LastOn(jobs, 0, Kidder) == None;
    assert LastOn(jobs, 2, Kidder) == Some(1);
  }
}

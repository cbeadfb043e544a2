/**
 * The per-session state of the page: the job list, the suggestion list and the
 * maintenance list, each only ever appended to, and the schedule recomputed from them.
 */
module Session {
  import opened Wrappers
  import opened Clock
  import opened Jobs
  import opened Scheduler
  import opened Suggestions

  class SessionState {
    var jobs: seq<Job>
    var suggestions: seq<string>
    var maintenance: seq<Maintenance>

    /** Every stored job came from the builder, so its rate is positive. */
    predicate Valid()
      reads this
    {
      Rated(jobs)
    }

    /** A new session starts with all three lists empty. */
    constructor ()
      ensures Valid()
      ensures jobs == [] && suggestions == [] && maintenance == []
    {
      jobs, suggestions, maintenance := [], [], [];
    }

    /** "Add Job": builds the job and appends it; an unknown product stops before the append. */
    method AddJob(product: string, rawBoard: string, rolls: int, runBy: Date,
                  preferredStart: Option<TimeOfDay>) returns (r: Result<Job, BuildError>)
      requires Valid()
      modifies this`jobs
      ensures Valid()
      ensures r == BuildJob(product, rawBoard, rolls, runBy, preferredStart)
      ensures r.Ok? ==> jobs == old(jobs) + [r.value]
      ensures r.Err? ==> jobs == old(jobs)
    {
      r := BuildJob(product, rawBoard, rolls, runBy, preferredStart);
      if r.Ok? {
        jobs := jobs + [r.value];
      }
    }

    /** "Send": records a suggestion when the input carries the prefix, else records nothing. */
    method Send(chatInput: string) returns (recorded: bool)
      modifies this`suggestions
      ensures recorded <==> ParseSuggestion(chatInput).Some?
      ensures recorded ==> suggestions == old(suggestions) + [ParseSuggestion(chatInput).value]
      ensures !recorded ==> suggestions == old(suggestions)
    {
      var parsed := ParseSuggestion(chatInput);
      recorded := parsed.Some?;
      if recorded {
        suggestions := suggestions + [parsed.value];
      }
    }

    /** The schedule shown on every page render, from the current lists and clock reading. */
    method CurrentSchedule(now: DateTime) returns (r: seq<ScheduledJob>)
      requires Valid()
      ensures r == Schedule(jobs, Instant(TruncateToHour(now)))
    {
      r := ScheduleJobs(jobs, maintenance, now);
    }
  }

  /**
   * Rendering twice, with any two maintenance lists and any two clock readings within the
   * same hour, gives the same schedule.
   */
  method RerenderAgrees(jobs: seq<Job>, m1: seq<Maintenance>, m2: seq<Maintenance>,
                        now1: DateTime, now2: DateTime) returns (r1: seq<ScheduledJob>, r2: seq<ScheduledJob>)
    requires Rated(jobs)
    requires now1.date == now2.date && now1.time.hour == now2.time.hour
    ensures r1 == r2
    ensures |r1| == |jobs|
  {
    r1 := ScheduleJobs(jobs, m1, now1);
    r2 := ScheduleJobs(jobs, m2, now2);
  }
}

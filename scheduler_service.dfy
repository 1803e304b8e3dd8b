/** `SchedulerService.schedule_6_month_csat` and `send_csat_email`: one
    recurring CSAT job per project, first run 180 days after the start. */
module Scheduler {

  import opened Outcomes
  import opened Calendar
  import opened IsoFormat
  import opened Email

  const CsatIntervalDays := 180
  const CsatContext := "6-Month CSAT"
  const JobIdPrefix := "csat_"

  /** The `start_date` argument, by its Python type. */
  datatype StartValue =
    | StartText(text: string)     // str
    | StartDate(date: Date)       // date that is not a datetime
    | StartDateTime(at: DateTime) // datetime
    | StartOther                  // any other type

  /** Python's `date` and `datetime` objects only ever hold valid values. */
  predicate WellFormedStart(start: StartValue) {
    match start
    case StartDate(d) => ValidDate(d)
    case StartDateTime(t) => ValidDateTime(t)
    case _ => true
  }

  /** An `interval` job: `send_csat_email(email, projectId, context)` first at
      `firstRun`, then every `intervalDays` days. */
  datatype Job = Job(id: string, firstRun: DateTime, intervalDays: nat,
                     email: string, projectId: string, context: string)

  datatype ScheduleError =
    | InvalidStartDate  // ValueError from the second fromisoformat
    | DateOverflow      // OverflowError from adding 180 days

  datatype Registration = Added(job: Job) | AlreadyScheduled | Failed(error: ScheduleError)

  /** The job id of a project: `"csat_"` followed by the project id. */
  function JobId(projectId: string): (id: string)
    ensures |id| == |JobIdPrefix| + |projectId|
    ensures id[..|JobIdPrefix|] == JobIdPrefix && id[|JobIdPrefix|..] == projectId
  {
    JobIdPrefix + projectId
  }

  /** The start value as a `datetime`; `None` is the ValueError a string
      raises when neither it nor it with `T00:00:00` appended parses. */
  function Normalise(start: StartValue, now: DateTime): (r: Option<DateTime>)
    requires WellFormedStart(start) && ValidDateTime(now)
    ensures r.Some? ==> ValidDateTime(r.value)
    ensures r.None? ==> start.StartText?
    ensures start.StartDate? ==> r == Some(Midnight(start.date))
  {
    match start
    case StartText(s) =>
      (match ParseIso(s)
       case Some(t) => Some(t)
       case None => ParseIso(s + "T00:00:00"))
    case StartDate(d) => Some(Midnight(d))
    case StartDateTime(t) => Some(t)
    case StartOther => Some(now)
  }

  /** `first_run = start_dt + timedelta(days=180)`, or the exception raised on the way. */
  function FirstRun(start: StartValue, now: DateTime): (r: Result<DateTime, ScheduleError>)
    requires WellFormedStart(start) && ValidDateTime(now)
    ensures r.Ok? ==> ValidDateTime(r.value)
  {
    match Normalise(start, now)
    case None => Err(InvalidStartDate)
    case Some(t) =>
      match AddDaysToDateTime(t, CsatIntervalDays)
      case None => Err(DateOverflow)
      case Some(f) => Ok(f)
  }

  function CsatJob(email: string, projectId: string, firstRun: DateTime): Job {
    Job(JobId(projectId), firstRun, CsatIntervalDays, email, projectId, CsatContext)
  }

  /** Every job sits under its own id, which is its project's job id, and
      repeats every 180 days. */
  predicate TableInvariant(jobs: map<string, Job>) {
    forall id :: id in jobs ==>
      jobs[id].id == id && id == JobId(jobs[id].projectId)
      && jobs[id].intervalDays == CsatIntervalDays && ValidDateTime(jobs[id].firstRun)
  }

  class SchedulerService {
    /** The scheduler's job store, by job id. */
    var jobs: map<string, Job>

    ghost predicate Valid()
      reads this
    {
      TableInvariant(jobs)
    }

    constructor ()
      ensures Valid() && jobs == map[]
    {
      jobs := map[];
    }

    /** `scheduler.get_job(id)`. */
    method GetJob(id: string) returns (j: Option<Job>)
      ensures j.Some? <==> id in jobs
      ensures j.Some? ==> j.value == jobs[id]
    {
      if id in jobs {
        j := Some(jobs[id]);
      } else {
        j := None;
      }
    }

    /** `schedule_6_month_csat(email, projectId, start)`, with `now` standing
        for `datetime.now()`. */
    method Schedule6MonthCsat(email: string, projectId: string, start: StartValue, now: DateTime)
      returns (r: Registration)
      requires Valid() && WellFormedStart(start) && ValidDateTime(now)
      modifies this
      ensures Valid()
      ensures JobId(projectId) in old(jobs) ==> r == AlreadyScheduled && jobs == old(jobs)
      ensures JobId(projectId) !in old(jobs) && FirstRun(start, now).Err? ==>
                r == Failed(FirstRun(start, now).error) && jobs == old(jobs)
      ensures JobId(projectId) !in old(jobs) && FirstRun(start, now).Ok? ==>
                r == Added(CsatJob(email, projectId, FirstRun(start, now).value))
                && jobs == old(jobs)[JobId(projectId) := r.job]
    {
      var id := JobId(projectId);
      var existing := GetJob(id);
      if existing.Some? {
        return AlreadyScheduled;
      }
      var startDt: DateTime;
      match start {
        case StartText(s) =>
          var parsed := ParseIso(s);
          if parsed.None? {
            parsed := ParseIso(s + "T00:00:00");
          }
          if parsed.None? {
            return Failed(InvalidStartDate);
          }
          startDt := parsed.value;
        case StartDate(d) =>
          startDt := Midnight(d);
        case StartDateTime(t) =>
          startDt := t;
        case StartOther =>
          startDt := now;
      }
      var firstRun := AddDaysToDateTime(startDt, CsatIntervalDays);
      if firstRun.None? {
        return Failed(DateOverflow);
      }
      var job := CsatJob(email, projectId, firstRun.value);
      jobs := jobs[id := job];
      r := Added(job);
    }
  }

  // ---------------------------------------------------------------------
  // send_csat_email

  const SubjectLead := "CSAT Feedback \U{2013} Project "
  const BodyGreeting := "\nHello,\n\n"
  const FeedbackLead := "Please share your feedback for Project "
  const ContextLead := ".\nContext: "
  const BodyClosing := "\n\nThank you,\nCSAT Team\n"

  function CsatSubject(projectId: string): (s: string)
    ensures |s| == |SubjectLead| + |projectId|
    ensures s[..|SubjectLead|] == SubjectLead && s[|SubjectLead|..] == projectId
  {
    SubjectLead + projectId
  }

  /** The body: greeting, the feedback line naming the project, the context
      line, and the closing. */
  function CsatBody(projectId: string, context: string): (b: string)
    ensures |b| == 9 + |FeedbackLead| + |projectId| + |ContextLead| + |context| + |BodyClosing|
    ensures b[9..9 + |FeedbackLead| + |projectId|] == FeedbackLead + projectId
    ensures b[9 + |FeedbackLead| + |projectId| + 2..9 + |FeedbackLead| + |projectId| + |ContextLead| + |context|]
            == "Context: " + context
  {
    BodyGreeting + FeedbackLead + projectId + ContextLead + context + BodyClosing
  }

  /** The three things `send_csat_email` can log: sent, not sent via SMTP, or
      an exception caught from `send_email`. None of them is an exception. */
  datatype CsatOutcome = CsatSent | CsatNotSent | CsatSendRaised

  /** `send_csat_email(email, projectId, context)`, delivering through `mailer`. */
  method SendCsatEmail(mailer: Mailer, cfg: MailConfig, email: string, projectId: string, context: string,
                       smtp: SmtpOutcomes, logWritable: bool)
    returns (r: CsatOutcome)
    modifies mailer
    ensures r == CsatSendRaised <==> UseSmtp(cfg) && !smtp.connectOk
    ensures r == CsatSent <==> UseSmtp(cfg) && smtp.connectOk && SessionSucceeds(cfg, smtp)
    ensures mailer.log == old(mailer.log) +
              (if r == CsatNotSent && logWritable
               then [FallbackRecord(email, CsatSubject(projectId), CsatBody(projectId, context))]
               else [])
  {
    var subject := CsatSubject(projectId);
    var body := CsatBody(projectId, context);
    var outcome, _ := mailer.SendEmail(cfg, email, subject, body, smtp, logWritable);
    match outcome {
      case Returned(ok) =>
        r := if ok then CsatSent else CsatNotSent;
      case ConnectRaised =>
        r := CsatSendRaised;
    }
  }

  // ---------------------------------------------------------------------
  // Properties of registration

  /** Distinct projects get distinct job ids. */
  lemma JobIdInjective(p: string, q: string)
    requires JobId(p) == JobId(q)
    ensures p == q
  {
    assert p == JobId(p)[|JobIdPrefix|..];
  }

  /** The table holds at most one job per project. */
  lemma OneJobPerProject(jobs: map<string, Job>, a: string, b: string)
    requires TableInvariant(jobs) && a in jobs && b in jobs
    ensures jobs[a].projectId == jobs[b].projectId <==> a == b
  {
  }

  /** A string start fails exactly when `fromisoformat` rejects the string
      itself: the retry with `T00:00:00` appended never succeeds where the
      first attempt failed. */
  lemma InvalidStartIffUnparsable(start: StartValue, now: DateTime)
    requires WellFormedStart(start) && ValidDateTime(now)
    ensures FirstRun(start, now) == Err(InvalidStartDate) <==>
              start.StartText? && ParseIso(start.text).None?
  {
    if start.StartText? && ParseIso(start.text).None? {
      RetryNeverRescues(start.text);
    }
  }

  /** The first run is the normalised start moved 180 days on, with its time
      of day kept; adding them overflows exactly past 9999-12-31. */
  lemma FirstRunIs180DaysLater(start: StartValue, now: DateTime)
    requires WellFormedStart(start) && ValidDateTime(now)
    requires Normalise(start, now).Some?
    ensures var t := Normalise(start, now).value;
      && (FirstRun(start, now).Ok? <==> Ordinal(t.date) + 180 <= MaxOrdinal)
      && (FirstRun(start, now).Ok? ==>
            var f := FirstRun(start, now).value;
            Ordinal(f.date) == Ordinal(t.date) + 180
            && f == t.(date := AddDays(t.date, 180)))
  {
    var t := Normalise(start, now).value;
    AddDaysToDateTimeSpec(t, CsatIntervalDays);
  }

  /** A date and its ISO string give the same first run, midnight 180 days on. */
  lemma DateAndIsoStringAgree(d: Date, now: DateTime, now': DateTime)
    requires ValidDate(d) && ValidDateTime(now) && ValidDateTime(now')
    ensures Normalise(StartText(FormatDate(d)), now) == Normalise(StartDate(d), now') == Some(Midnight(d))
    ensures FirstRun(StartText(FormatDate(d)), now) == FirstRun(StartDate(d), now')
  {
    ParseFormatDate(d);
  }

  /** A datetime is used unchanged, and so is one given as its ISO string. */
  lemma DateTimeKeptAsIs(t: DateTime, now: DateTime, now': DateTime)
    requires ValidDateTime(t) && ValidDateTime(now) && ValidDateTime(now')
    ensures Normalise(StartDateTime(t), now) == Some(t)
    ensures t.microsecond == 0 ==> Normalise(StartText(FormatDateTime(t)), now') == Some(t)
  {
    if t.microsecond == 0 {
      ParseFormatDateTime(t);
    }
  }

  /** Project start 2024-01-01 gives a first run at midnight on 2024-06-29. */
  lemma FirstRunExample(now: DateTime)
    requires ValidDateTime(now)
    ensures FirstRun(StartDate(Date(2024, 1, 1)), now) == Ok(Midnight(Date(2024, 6, 29)))
    ensures FirstRun(StartText("2024-01-01"), now) == Ok(Midnight(Date(2024, 6, 29)))
  {
    NewYear2024Plus180();
    DateAndIsoStringAgree(Date(2024, 1, 1), now, now);
    assert FormatDate(Date(2024, 1, 1)) == "2024-01-01";
  }

  /** Registering "P100" from 2024-01-01 and again from 2030-01-01 leaves a
      single job whose first run is still 2024-06-29. */
  method RegisterTwiceScenario() returns (first: Registration, second: Registration, job: Option<Job>)
    ensures first == Added(CsatJob("a@b.com", "P100", Midnight(Date(2024, 6, 29))))
    ensures second == AlreadyScheduled
    ensures job == Some(first.job)
  {
    var service := new SchedulerService();
    var now := Midnight(Date(2026, 1, 1));
    FirstRunExample(now);
    assert JobId("P100") == "csat_P100";
    first := service.Schedule6MonthCsat("a@b.com", "P100", StartDate(Date(2024, 1, 1)), now);
    assert service.jobs == map["csat_P100" := first.job];
    second := service.Schedule6MonthCsat("b@c.com", "P100", StartDate(Date(2030, 1, 1)), now);
    job := service.GetJob("csat_P100");
  }
}

# CSAT scheduling and email delivery, modelled in Dafny

This project models the decision logic of a small CSAT (customer-satisfaction
survey) service. It has two parts.

- **Recurring job registration** (`app/scheduler_service.py`). A project gets
  one job, under the id `"csat_" + project_id`. Registering a project that
  already has a job changes nothing. The start value (a `date`, a `datetime`,
  an ISO 8601 string, or anything else) is normalised to a `datetime`. The job
  first runs 180 days later and then every 180 days. `send_csat_email` builds
  the survey's subject and body and catches any exception from `send_email`.
- **Email delivery** (`app/email_service.py`). `send_email` reads its
  configuration and chooses between the SMTP relay and the file
  `sent_emails.log`. It runs the SMTP session. When a step after connecting
  fails, it appends a fixed-format record to the file instead.

Files:

- `outcomes.dfy`: `Option` and `Result`.
- `calendar.dfy`: the proleptic Gregorian calendar of Python's `datetime`.
  It covers years 1 to 9999, the leap-year rule and the day number
  (`Ordinal`, days-from-civil with 0001-01-01 as day 1). `AddDays` adds days a
  month at a time. It is proved to move the day number forward by exactly the
  days added, and the day number is proved one-to-one. So `AddDays` agrees with
  `timedelta` arithmetic.
- `iso_format.dfy`: the strings `YYYY-MM-DD` (ISO 8601 extended calendar date,
  section 5.2.1.1 of ISO 8601:2004) and `YYYY-MM-DDTHH:MM:SS`, read as
  `datetime.fromisoformat` reads them. Also the matching formatters.
- `email_service.dfy`: `send_email`. The `Mailer` class holds the log file as
  a `seq<string>` of records. Its method `SendEmail` takes the outcome of each
  SMTP step (connect, STARTTLS, login, send) as an input.
- `scheduler_service.dfy`: `SchedulerService`. It holds the job table as a
  `map<string, Job>` and registers jobs with `Schedule6MonthCsat`. The file
  also has `send_csat_email`.

Behaviour the model keeps exactly as the code has it:

- An unparsable start string raises `ValueError` out of registration. The model
  returns `Failed(InvalidStartDate)` and adds no job. Only a start value of an
  unexpected type falls back to "now", which is a parameter here.
- Opening the SMTP connection happens before the `try`. If it fails, the
  exception escapes `send_email` and nothing is written to the log
  (`ConnectRaised`).
- A failed write to `sent_emails.log` is swallowed. `send_email` returns
  `False` whether or not the record was written, so a lost message cannot be
  told apart from a saved one. There is no separate "dropped" outcome.
- The mode values are `smtp` and `console`. Any other value behaves as "auto".
  The record carries no timestamp.
- `datetime + timedelta` raises `OverflowError` past 9999-12-31. The model
  returns `Failed(DateOverflow)` and adds no job.

## Model

| member | source | states |
|---|---|---|
| `Calendar.Midnight` | app/scheduler_service.py:40 | `datetime.combine(d, datetime.min.time())`: the same date at 00:00:00.000000, a valid datetime for a valid date. |
| `Calendar.AddDays` | app/scheduler_service.py:47 | Adding days to a calendar date gives a calendar date no earlier in years. Its meaning is fixed by `AddDaysOrdinal` and `AddDaysIsOrdinalShift`. |
| `Calendar.AddDaysOrdinal` | app/scheduler_service.py:47 | Adding n days moves the day number (days-from-civil) forward by exactly n, across month and year ends and leap days. |
| `Calendar.OrdinalInjective` | app/scheduler_service.py:47 | Two calendar dates with the same day number are the same date. |
| `Calendar.AddDaysIsOrdinalShift` | app/scheduler_service.py:47 | `AddDays(d, n)` is the one calendar date whose day number is `Ordinal(d) + n`, both directions. |
| `Calendar.DaysBeforeNextYear` | app/scheduler_service.py:47 | The closed-form count of days before a year grows by 366 after a Gregorian leap year and by 365 otherwise. |
| `Calendar.InRangeIffOrdinal` | app/scheduler_service.py:47 | A date is at most 9999-12-31 exactly when its day number is at most 3652059. |
| `Calendar.AddDaysToDateTime` | app/scheduler_service.py:47 | `datetime + timedelta(days=n)` yields a valid datetime with the same time of day, or overflows. |
| `Calendar.AddDaysToDateTimeSpec` | app/scheduler_service.py:47 | The addition overflows exactly when the day number would pass 3652059. Otherwise the new date is n days later. |
| `Calendar.NewYear2024Plus180` | app/scheduler_service.py:47 | 2024-01-01 plus 180 days is 2024-06-29. |
| `IsoFormat.ParseIso` | app/scheduler_service.py:34 | An accepted string is 10 or 19 characters long and yields a valid datetime. |
| `IsoFormat.ParseFormatDate` | app/scheduler_service.py:34 | The ISO text of a date parses back to midnight of that date. |
| `IsoFormat.ParseFormatDateTime` | app/scheduler_service.py:34 | The ISO text of a datetime without microseconds parses back to the same datetime. |
| `IsoFormat.ParsedIsFormatted` | app/scheduler_service.py:34 | Every accepted string is the canonical ISO text of the value it yields. |
| `IsoFormat.RetryNeverRescues` | app/scheduler_service.py:35-37 | If a string fails to parse, the string with `T00:00:00` appended fails too. |
| `Email.SelectionIgnoresCase` | app/email_service.py:22-37 | The backend choice depends on MAIL_BACKEND only through its lower-cased form. |
| `Email.UnsetBackendIsAuto` | app/email_service.py:22-37 | With MAIL_BACKEND unset, SMTP is used exactly when server, user name, password and sender are all set and non-empty. |
| `Email.ExplicitModes` | app/email_service.py:30-34 | Any spelling of `console` never uses SMTP. Any spelling of `smtp` always does. |
| `Email.BackendMode` | app/email_service.py:22 | MAIL_BACKEND lower-cased, "auto" when unset. It has the variable's length and no upper-case ASCII letter. |
| `Email.UseSmtp` | app/email_service.py:30-37 | SMTP is chosen without a complete configuration only when the mode is `smtp`, and never when it is `console`. |
| `Email.HasCredentials` | app/email_service.py:50 | True exactly when the user name and the password are both set and non-empty. |
| `Email.SessionSteps` | app/email_service.py:47-68 | After a connect, the SMTP calls are STARTTLS, then login, send and `quit` under their conditions. It starts with STARTTLS and contains `quit` exactly when the session fails. |
| `Email.FallbackRecord` | app/email_service.py:58 | The record is `---\nTo: `, the recipient, `\nSubject: `, the subject, a blank line, the body verbatim and `\n---\n`, each at its stated position. Line 72 uses the same template. |
| `Email.Mailer.AppendRecord` | app/email_service.py:59-63 | A writable log gains exactly the record. A write modelled as failing leaves the log unchanged and raises nothing; partial writes are under "Left out". |
| `Email.Mailer.SendEmail` | app/email_service.py:11-79 | Without SMTP: no SMTP call, at most one record appended, result `False`. Connect failure: the exception escapes, nothing is appended, and the only call is the connect. Otherwise the calls are exactly `[Connect] + SessionSteps`, in that order. The result is `True` exactly when STARTTLS, the login (attempted only with user name and password) and the send succeed, and nothing is appended. A failure appends one record, then `quit`, result `False`. The result does not depend on whether the write succeeded. |
| `Email.ConsoleFallbackScenario` | app/email_service.py:70-79 | In console mode, sending "Body" makes no SMTP call, returns `False`, and the logged record holds "Body" just before its closing line. |
| `Scheduler.JobId` | app/scheduler_service.py:25 | A job id is `csat_` followed by the project id, which can be read back from it. |
| `Scheduler.JobIdInjective` | app/scheduler_service.py:25 | Distinct project ids give distinct job ids. |
| `Scheduler.OneJobPerProject` | app/scheduler_service.py:25-29 | In a table that keeps the invariant, two entries belong to the same project exactly when they are the same entry. |
| `Scheduler.Normalise` | app/scheduler_service.py:31-45 | The start as a valid datetime. A date gives its midnight. Only a string can fail to normalise. |
| `Scheduler.FirstRun` | app/scheduler_service.py:31-47 | The first run, when it exists, is a valid datetime. |
| `Scheduler.InvalidStartIffUnparsable` | app/scheduler_service.py:32-37 | Registration fails with `InvalidStartDate` exactly when the start is a string that `fromisoformat` rejects. |
| `Scheduler.FirstRunIs180DaysLater` | app/scheduler_service.py:47 | The first run is the normalised start moved exactly 180 days on, with its time of day kept. It overflows exactly past day number 3652059. |
| `Scheduler.DateAndIsoStringAgree` | app/scheduler_service.py:32-40 | A date and its `YYYY-MM-DD` string both normalise to midnight of that day and give the same first run. |
| `Scheduler.DateTimeKeptAsIs` | app/scheduler_service.py:41-42 | Any datetime is used unchanged, microseconds included. Its ISO string normalises to it too, when it has no microseconds. |
| `Scheduler.FirstRunExample` | app/scheduler_service.py:47 | A start of 2024-01-01, as a date or as a string, gives a first run at 2024-06-29 00:00. |
| `Scheduler.SchedulerService.constructor` | app/scheduler_service.py:10-11 | A new service has an empty job table. |
| `Scheduler.SchedulerService.GetJob` | app/scheduler_service.py:27 | Returns the job under the id, or none when there is none. |
| `Scheduler.SchedulerService.Schedule6MonthCsat` | app/scheduler_service.py:19-56 | For an existing id: no-op, whatever the email or start, even a malformed start. Otherwise, if the start normalises and the addition does not overflow, exactly one job `(id, first run, 180 days, email, project_id, "6-Month CSAT")` is added and every other entry is unchanged. Otherwise it fails and the table is unchanged. The table invariant is kept. |
| `Scheduler.RegisterTwiceScenario` | app/scheduler_service.py:25-56 | Registering "P100" from 2024-01-01, then again from 2030-01-01, leaves one job with its first run at 2024-06-29. |
| `Scheduler.CsatSubject` | app/scheduler_service.py:59 | The subject is `CSAT Feedback – Project ` followed by the project id. |
| `Scheduler.CsatBody` | app/scheduler_service.py:60-68 | The body holds `Please share your feedback for Project ` + project id, and `Context: ` + context, at fixed positions. |
| `Scheduler.SendCsatEmail` | app/scheduler_service.py:58-77 | Never raises. It reports "sent" exactly when `send_email` returned `True`, and "caught exception" exactly when the connect failed. The log gains the CSAT record only on the "not sent" path with a writable log. |

## Left out

- `SchedulerService.start` / `shutdown` and APScheduler itself: timer dispatch, the repetition clock and the firing of jobs. This is library code that is not part of this model. A job records its interval and first run, and nothing more.
- `smtplib` and `email.mime`: the connection, TLS, authentication, the MIME message and the 10-second timeout. Each SMTP step is an input saying whether it succeeds. The outcome of `server.quit()` is ignored, as in the source.
- `int(os.getenv("SMTP_PORT", "587"))` (app/email_service.py:25): a non-numeric port would raise before any backend is chosen. The port is not modelled.
- `Email.Mailer.AppendRecord`: the append is all-or-nothing. A buffered `fh.write` can fail after part of the record reached the file, for example a short write on a full disk during flush or close. The swallowed exception then leaves a truncated record in the file, which the model does not capture.
- `os.getenv`: the configuration is an input record. `datetime.now()` is the parameter `now`.
- `Email.Lower`: this is `str.lower()` restricted to ASCII. No non-ASCII character lowers to a string that could spell `smtp` or `console`, so the backend choice is unaffected.
- `datetime.fromisoformat`: only `YYYY-MM-DD` and `YYYY-MM-DDTHH:MM:SS` with ASCII digits and a `T` separator are accepted. Fractional seconds, time zones, other separators, the basic format and the lenient digit parsing of older Python versions are not modelled.
- Time-zone-aware datetimes: a `datetime` is naive (no `tzinfo`).
- Logging calls, simultaneous registrations, persistence of jobs across restarts.
- `app/main.py` (HTTP routing, startup and shutdown hooks, HTTP 500 mapping) and `app/models.py` (request schema) are not part of this model.

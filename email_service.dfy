/** `send_email`: choose between the SMTP relay and the `sent_emails.log`
    file, run the SMTP session, and fall back to the file when it fails. */
module Email {

  import opened Outcomes

  /** The environment variables `send_email` reads; `None` is an unset variable.
      The port (`SMTP_PORT`) only reaches the connection, which is abstract here. */
  datatype MailConfig = MailConfig(
    mailBackend: Option<string>,   // MAIL_BACKEND, "auto" when unset
    smtpServer: Option<string>,    // SMTP_SERVER
    smtpUsername: Option<string>,  // SMTP_USERNAME
    smtpPassword: Option<string>,  // SMTP_PASSWORD
    smtpFromEmail: Option<string>) // SMTP_FROM_EMAIL

  /** Whether each step of the SMTP session would succeed if attempted. */
  datatype SmtpOutcomes = SmtpOutcomes(connectOk: bool, starttlsOk: bool, loginOk: bool, sendOk: bool)

  /** The SMTP calls `send_email` makes, in order. */
  datatype SmtpStep = Connect | StartTls | Login | Send | Quit

  /** What a call of `send_email` does for its caller: it returns `True` or
      `False`, or the exception from opening the connection escapes it. */
  datatype SendOutcome = Returned(sent: bool) | ConnectRaised

  function LowerChar(c: char): char {
    if 'A' <= c <= 'Z' then (c as int - 'A' as int + 'a' as int) as char else c
  }

  /** `str.lower()` on ASCII letters; other characters are left alone. */
  function Lower(s: string): (r: string)
    ensures |r| == |s|
    ensures forall i :: 0 <= i < |s| ==> r[i] == LowerChar(s[i])
  {
    seq(|s|, i requires 0 <= i < |s| => LowerChar(s[i]))
  }

  /** The lower-cased MAIL_BACKEND, "auto" when unset. */
  function BackendMode(cfg: MailConfig): (mode: string)
    ensures cfg.mailBackend.None? ==> mode == "auto"
    ensures cfg.mailBackend.Some? ==> |mode| == |cfg.mailBackend.value|
    ensures forall i :: 0 <= i < |mode| ==> !('A' <= mode[i] <= 'Z')
  {
    Lower(match cfg.mailBackend case Some(m) => m case None => "auto")
  }

  /** Python truthiness of an optional string: set and non-empty. */
  predicate Truthy(v: Option<string>) {
    v.Some? && v.value != ""
  }

  /** The `use_smtp` decision: SMTP without a complete configuration only when
      asked for by name, and never in console mode. */
  predicate UseSmtp(cfg: MailConfig)
    ensures UseSmtp(cfg) ==>
      BackendMode(cfg) == "smtp"
      || (Truthy(cfg.smtpServer) && Truthy(cfg.smtpUsername)
          && Truthy(cfg.smtpPassword) && Truthy(cfg.smtpFromEmail))
    ensures BackendMode(cfg) == "console" ==> !UseSmtp(cfg)
  {
    var mode := BackendMode(cfg);
    if mode == "smtp" then true
    else if mode == "console" then false
    else Truthy(cfg.smtpServer) && Truthy(cfg.smtpUsername)
         && Truthy(cfg.smtpPassword) && Truthy(cfg.smtpFromEmail)
  }

  /** Login is attempted only with both a user name and a password, each set
      and non-empty; an unset or empty one means an anonymous send. */
  predicate HasCredentials(cfg: MailConfig)
    ensures HasCredentials(cfg) <==>
      cfg.smtpUsername.Some? && |cfg.smtpUsername.value| > 0
      && cfg.smtpPassword.Some? && |cfg.smtpPassword.value| > 0
  {
    Truthy(cfg.smtpUsername) && Truthy(cfg.smtpPassword)
  }

  /** The session after a successful connect delivers the message: STARTTLS,
      then the login if one is attempted, then the send, all succeed. */
  predicate SessionSucceeds(cfg: MailConfig, smtp: SmtpOutcomes) {
    smtp.starttlsOk && (HasCredentials(cfg) ==> smtp.loginOk) && smtp.sendOk
  }

  /** The SMTP calls made after a successful connect: STARTTLS; the login when
      STARTTLS succeeded and credentials are set; the send when nothing before
      it failed; and `quit` exactly when the session failed. */
  function SessionSteps(cfg: MailConfig, smtp: SmtpOutcomes): (steps: seq<SmtpStep>)
    ensures |steps| > 0 && steps[0] == StartTls
    ensures Quit in steps <==> !SessionSucceeds(cfg, smtp)
  {
    [StartTls]
    + (if smtp.starttlsOk && HasCredentials(cfg) then [Login] else [])
    + (if smtp.starttlsOk && (HasCredentials(cfg) ==> smtp.loginOk) then [Send] else [])
    + (if SessionSucceeds(cfg, smtp) then [] else [Quit])
  }

  const RecordHead := "---\nTo: "
  const RecordSubject := "\nSubject: "
  const RecordGap := "\n\n"
  const RecordTail := "\n---\n"

  /** The block written to `sent_emails.log`; both fallback sites use this one template. */
  function FallbackRecord(to: string, subject: string, body: string): (r: string)
    ensures |r| == |to| + |subject| + |body| + 25
    ensures r[..8] == RecordHead && r[|r| - 5..] == RecordTail
    ensures r[8..8 + |to|] == to
    ensures r[8 + |to|..18 + |to|] == RecordSubject
    ensures r[18 + |to|..18 + |to| + |subject|] == subject
    ensures r[18 + |to| + |subject|..20 + |to| + |subject|] == RecordGap
    ensures r[20 + |to| + |subject|..|r| - 5] == body
  {
    RecordHead + to + RecordSubject + subject + RecordGap + body + RecordTail
  }

  class Mailer {
    /** The records in `sent_emails.log`, oldest first; the file is only appended to. */
    var log: seq<string>

    constructor (existing: seq<string>)
      ensures log == existing
    {
      log := existing;
    }

    /** `open("sent_emails.log", "a").write(record)` inside a `try` whose
        `except` only logs: a failed write leaves the file as it was. */
    method AppendRecord(record: string, writable: bool)
      modifies this
      ensures log == old(log) + (if writable then [record] else [])
    {
      if writable {
        log := log + [record];
      }
    }

    /** `send_email(to, subject, body)` under configuration `cfg`, where `smtp`
        says which SMTP calls would succeed and `logWritable` whether the
        append to `sent_emails.log` would. Also returns the SMTP calls made. */
    method SendEmail(cfg: MailConfig, to: string, subject: string, body: string,
                     smtp: SmtpOutcomes, logWritable: bool)
      returns (r: SendOutcome, steps: seq<SmtpStep>)
      modifies this
      ensures !UseSmtp(cfg) ==> r == Returned(false) && steps == []
      ensures UseSmtp(cfg) && !smtp.connectOk ==> r == ConnectRaised && steps == [Connect]
      ensures UseSmtp(cfg) && smtp.connectOk ==> r == Returned(SessionSucceeds(cfg, smtp))
      ensures steps == if !UseSmtp(cfg) then []
                       else [Connect] + (if smtp.connectOk then SessionSteps(cfg, smtp) else [])
      ensures Login in steps <==>
                UseSmtp(cfg) && smtp.connectOk && smtp.starttlsOk && HasCredentials(cfg)
      ensures Send in steps <==>
                UseSmtp(cfg) && smtp.connectOk && smtp.starttlsOk && (HasCredentials(cfg) ==> smtp.loginOk)
      ensures Quit in steps <==> r == Returned(false) && UseSmtp(cfg)
      ensures log == old(log) +
                (if r == Returned(false) && logWritable then [FallbackRecord(to, subject, body)] else [])
    {
      if UseSmtp(cfg) {
        steps := [Connect];
        if !smtp.connectOk {
          // smtplib.SMTP(...) is called before the `try`: its exception escapes.
          r := ConnectRaised;
          return;
        }
        steps := steps + [StartTls];
        var failed := !smtp.starttlsOk;
        if !failed && HasCredentials(cfg) {
          steps := steps + [Login];
          failed := !smtp.loginOk;
        }
        if !failed {
          steps := steps + [Send];
          failed := !smtp.sendOk;
        }
        if !failed {
          r := Returned(true);
          return;
        }
        AppendRecord(FallbackRecord(to, subject, body), logWritable);
        // server.quit() in the `finally`; its own failure is ignored.
        steps := steps + [Quit];
        r := Returned(false);
      } else {
        steps := [];
        AppendRecord(FallbackRecord(to, subject, body), logWritable);
        r := Returned(false);
      }
    }
  }

  // ---------------------------------------------------------------------
  // Backend selection

  lemma {:induction false} LowerIdempotent(s: string)
    ensures Lower(Lower(s)) == Lower(s)
  {
    forall i | 0 <= i < |s|
      ensures Lower(Lower(s))[i] == Lower(s)[i]
    {
      assert LowerChar(LowerChar(s[i])) == LowerChar(s[i]);
    }
  }

  /** The backend choice depends on MAIL_BACKEND only through its lower-cased
      form: "SMTP", "Smtp" and "smtp" choose alike. */
  lemma SelectionIgnoresCase(cfg: MailConfig, m: string)
    ensures UseSmtp(cfg.(mailBackend := Some(m))) == UseSmtp(cfg.(mailBackend := Some(Lower(m))))
  {
    LowerIdempotent(m);
  }

  /** An unset MAIL_BACKEND is "auto": SMTP exactly when server, user name,
      password and sender are all set and non-empty. */
  lemma UnsetBackendIsAuto(cfg: MailConfig)
    requires cfg.mailBackend.None?
    ensures UseSmtp(cfg) <==>
      Truthy(cfg.smtpServer) && Truthy(cfg.smtpUsername)
      && Truthy(cfg.smtpPassword) && Truthy(cfg.smtpFromEmail)
  {
    assert BackendMode(cfg) == "auto";
  }

  /** Any spelling of "console" never uses SMTP, whatever the credentials;
      any spelling of "smtp" always does, even with none. */
  lemma ExplicitModes(cfg: MailConfig, m: string)
    requires cfg.mailBackend == Some(m)
    ensures Lower(m) == "console" ==> !UseSmtp(cfg)
    ensures Lower(m) == "smtp" ==> UseSmtp(cfg)
  {
  }

  /** With MAIL_BACKEND=console, sending "Body" makes no SMTP call, returns
      `False`, and the last record of the log ends with the body verbatim. */
  method ConsoleFallbackScenario() returns (r: SendOutcome, steps: seq<SmtpStep>, last: string)
    ensures r == Returned(false) && steps == []
    ensures last == FallbackRecord("a@b.com", "Subj", "Body")
    ensures last[|last| - |RecordTail| - 4..|last| - |RecordTail|] == "Body"
  {
    var mailer := new Mailer([]);
    var cfg := MailConfig(Some("console"), Some("relay"), Some("user"), Some("secret"), Some("from@b.com"));
    assert Lower("console") == "console";
    r, steps := mailer.SendEmail(cfg, "a@b.com", "Subj", "Body", SmtpOutcomes(true, true, true, true), true);
    last := mailer.log[|mailer.log| - 1];
  }
}

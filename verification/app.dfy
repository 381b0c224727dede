/** The briefing orchestrator (src/App.tsx): `handleRunAnalysis` as a pure
    transition over the run state, given what the fetch and the email sender
    produce, plus the two display guards and the cosmetic SUMMARIZING timer.
    `RunBriefing` wires the transition to the fetcher and dispatcher models. */
module App {
  import opened Wrappers
  import opened Types
  import opened Text
  import Gemini
  import Email
  import Scheduler

  datatype NoticeKind = SuccessNotice | ErrorNotice

  datatype Notification = Notification(msg: string, kind: NoticeKind)

  /** The four pieces of component state. */
  datatype RunState = RunState(
    status: AppStatus, error: Option<string>, briefing: Option<BriefingData>, notification: Option<Notification>)

  const Initial: RunState := RunState(IDLE, None, None, None)

  const UnexpectedErrorMessage: string := "An unexpected error occurred."
  const AutoSendingNotice: Notification := Notification("Auto-sending report via secure cloud...", SuccessNotice)
  const EmailedNotice: Notification := Notification("Report successfully auto-emailed to Ambuj.", SuccessNotice)
  const SkippedNotice: Notification := Notification("Auto-email skipped (Missing configuration).", ErrorNotice)
  const EmailFailedNotice: Notification := Notification("Failed to auto-send email.", ErrorNotice)

  /** What `await fetchDailyBriefing()` produced: the data, or a thrown error
      whose `message` may be absent or empty. */
  datatype FetchOutcome = Fetched(data: BriefingData) | FetchThrew(message: Option<string>)

  /** The state after each synchronous segment of the handler (between two
      awaits), and the briefings handed to the email sender. */
  datatype RunTrace = RunTrace(states: seq<RunState>, emailed: seq<BriefingData>)

  function Final(t: RunTrace): RunState
    requires |t.states| > 0
  {
    t.states[|t.states| - 1]
  }

  /** The first segment of a run: FETCHING, with error, data and notification cleared. */
  function Start(s: RunState): (r: RunState)
    ensures r.status == FETCHING && r.error.None? && r.briefing.None? && r.notification.None?
  {
    s.(status := FETCHING, error := None, briefing := None, notification := None)
  }

  /** `err.message || "An unexpected error occurred."` */
  function ErrorText(message: Option<string>): (r: string)
    ensures |r| > 0
    ensures Truthy(message) ==> r == message.value
    ensures !Truthy(message) ==> r == UnexpectedErrorMessage
  {
    if Truthy(message) then message.value else UnexpectedErrorMessage
  }

  /** The notification for what the email sender did. */
  function EmailNotice(result: Email.EmailResult): Notification
  {
    match result
    case Returned(sent) => if sent then EmailedNotice else SkippedNotice
    case Threw(_) => EmailFailedNotice
  }

  /** `handleRunAnalysis(isAuto)` from state `s`, given the fetch outcome and
      what the email sender would do if consulted. */
  function HandleRunAnalysis(s: RunState, isAuto: bool, fetch: FetchOutcome, email: Email.EmailResult): (t: RunTrace)
    ensures |t.states| >= 2
    ensures t.states[0].status == FETCHING && t.states[0].error.None?
    ensures t.states[0].briefing.None? && t.states[0].notification.None?
    ensures forall i :: 0 < i < |t.states| ==> t.states[i].status == COMPLETED || t.states[i].status == ERROR
    ensures fetch.Fetched? ==> forall i :: 0 < i < |t.states| ==>
      t.states[i].status == COMPLETED && t.states[i].briefing == Some(fetch.data) && t.states[i].error.None?
    ensures !isAuto ==> t.emailed == [] && Final(t).notification.None?
    ensures !isAuto ==> forall i :: 0 <= i < |t.states| ==> t.states[i].notification.None?
    ensures isAuto && fetch.Fetched? ==> t.emailed == [fetch.data]
    ensures isAuto && fetch.Fetched? ==> |t.states| == 3 && t.states[1].notification == Some(AutoSendingNotice)
    ensures isAuto && fetch.Fetched? && email == Email.Returned(true) ==> Final(t).notification == Some(EmailedNotice)
    ensures isAuto && fetch.Fetched? && email == Email.Returned(false) ==> Final(t).notification == Some(SkippedNotice)
    ensures isAuto && fetch.Fetched? && email.Threw? ==> Final(t).notification == Some(EmailFailedNotice)
    ensures fetch.FetchThrew? ==>
              && t.emailed == [] && |t.states| == 2
              && Final(t) == RunState(ERROR, Some(ErrorText(fetch.message)), None, None)
  {
    var started := Start(s);
    match fetch
    case FetchThrew(message) =>
      RunTrace([started, started.(error := Some(ErrorText(message)), status := ERROR)], [])
    case Fetched(data) =>
      var completed := started.(briefing := Some(data), status := COMPLETED);
      if !isAuto then RunTrace([started, completed], [])
      else
        var sending := completed.(notification := Some(AutoSendingNotice));
        RunTrace([started, sending, sending.(notification := Some(EmailNotice(email)))], [data])
  }

  /** The error banner: `status === ERROR && error`. */
  predicate ShowsErrorBanner(s: RunState): (b: bool)
    ensures b ==> !ShowsResults(s) && !Scheduler.IsProcessing(s.status)
  {
    s.status == ERROR && Truthy(s.error)
  }

  /** The results: `briefingData && status === COMPLETED`. */
  predicate ShowsResults(s: RunState): (b: bool)
    ensures b ==> !Scheduler.IsProcessing(s.status)
  {
    s.briefing.Some? && s.status == COMPLETED
  }

  /** When a run settles, the results show exactly when the fetch succeeded
      and the error banner exactly when it failed; while it is fetching neither shows. */
  lemma RunOutcomeDisplayed(s: RunState, isAuto: bool, fetch: FetchOutcome, email: Email.EmailResult)
    ensures ShowsResults(Final(HandleRunAnalysis(s, isAuto, fetch, email))) <==> fetch.Fetched?
    ensures ShowsErrorBanner(Final(HandleRunAnalysis(s, isAuto, fetch, email))) <==> fetch.FetchThrew?
    ensures !ShowsResults(HandleRunAnalysis(s, isAuto, fetch, email).states[0])
    ensures !ShowsErrorBanner(HandleRunAnalysis(s, isAuto, fetch, email).states[0])
  {
  }

  /** The 2.5 s timer as written: it sets SUMMARIZING whatever the state. */
  function SummarizingTimerAsWritten(s: RunState): (r: RunState)
    ensures r.status == SUMMARIZING
    ensures r.error == s.error && r.briefing == s.briefing && r.notification == s.notification
  {
    s.(status := SUMMARIZING)
  }

  /** The timer as a progress hint only: it moves FETCHING to SUMMARIZING and
      leaves any other state alone. */
  function SummarizingTimer(s: RunState): (r: RunState)
    ensures s.status == FETCHING ==> r == s.(status := SUMMARIZING)
    ensures s.status != FETCHING ==> r == s
  {
    if s.status == FETCHING then s.(status := SUMMARIZING) else s
  }

  /** The inputs a run depends on: configuration, what the two foreign
      services do, the current instant and the locale date string. */
  datatype Environment = Environment(
    apiKey: Option<string>, emailConfig: Email.Config, upstream: Gemini.Upstream,
    transport: Email.Transport, now: string, localeDate: string)

  /** A run wired to the services: its trace, the upstream requests issued
      and the email send requests issued. */
  datatype BriefingRun = BriefingRun(trace: RunTrace, upstreamRequests: nat, sendRequests: seq<Email.SendRequest>)

  function RunBriefing(s: RunState, isAuto: bool, env: Environment): (r: BriefingRun)
    ensures r.upstreamRequests == (if Truthy(env.apiKey) then 1 else 0)
    ensures |r.sendRequests| <= 1 && (!isAuto ==> r.sendRequests == [])
    ensures |r.trace.states| >= 2
    ensures Final(r.trace).status == COMPLETED <==> Truthy(env.apiKey) && env.upstream.Responded?
    ensures Final(r.trace).status == ERROR <==> !(Truthy(env.apiKey) && env.upstream.Responded?)
    ensures Truthy(env.apiKey) && env.upstream.Responded? ==>
      Final(r.trace).briefing == Some(Gemini.FetchDailyBriefing(env.apiKey, env.upstream, env.now).result.value)
    ensures isAuto && Truthy(env.apiKey) && env.upstream.Responded? && Email.Configured(env.emailConfig) ==>
      && |r.sendRequests| == 1
      && r.sendRequests[0].params == Email.BuildParams(Final(r.trace).briefing.value, env.localeDate)
  {
    var f := Gemini.FetchDailyBriefing(env.apiKey, env.upstream, env.now);
    match f.result
    case Failure(msg) =>
      BriefingRun(HandleRunAnalysis(s, isAuto, FetchThrew(Some(msg)), Email.Returned(false)), f.upstreamRequests, [])
    case Success(data) =>
      var e := Email.SendBriefingEmail(data, env.emailConfig, env.localeDate, env.transport);
      BriefingRun(HandleRunAnalysis(s, isAuto, Fetched(data), e.result), f.upstreamRequests,
                  if isAuto then e.requests else [])
  }

  /** A manual run never sends an email and leaves no notification. */
  lemma ManualRunNeverEmails(s: RunState, env: Environment)
    ensures RunBriefing(s, false, env).sendRequests == []
    ensures RunBriefing(s, false, env).trace.emailed == []
    ensures Final(RunBriefing(s, false, env).trace).notification.None?
  {
  }

  /** An automatic run whose fetch succeeds stays COMPLETED whatever the email
      does: one send when configured, and a notification naming the outcome. */
  lemma AutoRunEmailOutcome(s: RunState, env: Environment)
    requires Truthy(env.apiKey) && env.upstream.Responded?
    ensures Final(RunBriefing(s, true, env).trace).status == COMPLETED
    ensures Final(RunBriefing(s, true, env).trace).error.None?
    ensures |RunBriefing(s, true, env).sendRequests| == (if Email.Configured(env.emailConfig) then 1 else 0)
    ensures !Email.Configured(env.emailConfig) ==>
      Final(RunBriefing(s, true, env).trace).notification == Some(SkippedNotice)
    ensures Email.Configured(env.emailConfig) && env.transport.Delivered? ==>
      Final(RunBriefing(s, true, env).trace).notification == Some(EmailedNotice)
    ensures Email.Configured(env.emailConfig) && env.transport.TransportFailed? ==>
      Final(RunBriefing(s, true, env).trace).notification == Some(EmailFailedNotice)
  {
  }

  /** A failed run ends in ERROR with one of the fetcher's two messages, shown
      in the banner, and no data; without an API key no upstream request is made. */
  lemma FailedRunReportsError(s: RunState, isAuto: bool, env: Environment)
    requires !Truthy(env.apiKey) || env.upstream.UpstreamFailed?
    ensures Final(RunBriefing(s, isAuto, env).trace).status == ERROR
    ensures Final(RunBriefing(s, isAuto, env).trace).briefing.None?
    ensures ShowsErrorBanner(Final(RunBriefing(s, isAuto, env).trace))
    ensures Final(RunBriefing(s, isAuto, env).trace).error == Some(Gemini.MissingKeyMessage)
         || Final(RunBriefing(s, isAuto, env).trace).error == Some(Gemini.GenerationFailedMessage)
    ensures !Truthy(env.apiKey) ==> RunBriefing(s, isAuto, env).upstreamRequests == 0
    ensures RunBriefing(s, isAuto, env).sendRequests == []
  {
  }

  /** As written, the timer undoes a run that failed before it fired: with no
      API key the run settles in ERROR at once, and 2.5 s later the banner is
      gone and the manual button is disabled with nothing in flight. */
  lemma TimerOverwritesFailedRun(s: RunState, isAuto: bool, env: Environment)
    requires !Truthy(env.apiKey)
    ensures ShowsErrorBanner(Final(RunBriefing(s, isAuto, env).trace))
    ensures !ShowsErrorBanner(SummarizingTimerAsWritten(Final(RunBriefing(s, isAuto, env).trace)))
    ensures Scheduler.PressRunNow(SummarizingTimerAsWritten(Final(RunBriefing(s, isAuto, env).trace)).status).None?
  {
  }

  /** The hint never disturbs a settled run: its status, banner and results
      are as they were, and the manual button stays enabled. */
  lemma TimerKeepsSettledRun(s: RunState, isAuto: bool, fetch: FetchOutcome, email: Email.EmailResult)
    ensures SummarizingTimer(Final(HandleRunAnalysis(s, isAuto, fetch, email)))
         == Final(HandleRunAnalysis(s, isAuto, fetch, email))
    ensures Scheduler.PressRunNow(SummarizingTimer(Final(HandleRunAnalysis(s, isAuto, fetch, email))).status).Some?
  {
  }

  /** As written, once any run has settled the daily trigger is dead: no
      transition returns the status to IDLE, so a whole day polled every ten
      seconds with the guard clear fires no automatic run. */
  lemma NoAutoRunAfterAnyRun(s: RunState, isAuto: bool, fetch: FetchOutcome, email: Email.EmailResult, phase: int)
    requires 0 <= phase < Scheduler.TickMs
    ensures Final(HandleRunAnalysis(s, isAuto, fetch, email)).status != IDLE
    ensures Scheduler.RunTicks(Scheduler.IdleOnly,
      Scheduler.TenSecondDay(phase, Final(HandleRunAnalysis(s, isAuto, fetch, email)).status), false).fired == []
  {
    var status := Final(HandleRunAnalysis(s, isAuto, fetch, email)).status;
    Scheduler.SettledDayNeverFires(Scheduler.TenSecondDay(phase, status), false);
  }

  /** With the trigger gated on no run being in flight, the day after any
      settled run fires exactly one automatic run, at the first tick after 08:00. */
  lemma DailyRunAfterAnyRun(s: RunState, isAuto: bool, fetch: FetchOutcome, email: Email.EmailResult, phase: int)
    requires 0 <= phase < Scheduler.TickMs
    ensures Scheduler.RunTicks(Scheduler.NotProcessing,
      Scheduler.TenSecondDay(phase, Final(HandleRunAnalysis(s, isAuto, fetch, email)).status), false).fired
      == [Scheduler.TriggerHour * Scheduler.HourMs + phase]
  {
    var status := Final(HandleRunAnalysis(s, isAuto, fetch, email)).status;
    Scheduler.OneRunPerPolledDay(Scheduler.NotProcessing, phase, status);
  }
}

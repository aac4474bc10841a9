/**
 * The control logic of the assistant client (`OpenAIService`), as functions of
 * the session state: the configuration checks of the constructor, the retry
 * helper with exponential back-off, the total status-to-message normaliser,
 * lazy thread creation, the bounded polling of a run, and `sendMessage` with its
 * catch-all error handler. The class in `OpenAIService` runs the same steps
 * imperatively and is proved to agree with these functions.
 *
 * The SDK is a scripted remote: the n-th remote invocation of the session,
 * whatever the operation, is answered by the matching function of `Remote`
 * applied to n. Waiting is recorded as a delay in milliseconds, and each
 * invocation with its arguments is recorded in a log.
 */
module OpenAIModel {
  import opened Wrappers
  import opened Text

  const MaxRetries: nat := 3
  const RetryDelay: nat := 1000
  const MaxPollAttempts: nat := 30
  const PollInterval: nat := 1000

  /** A thrown error: the HTTP status of an SDK error, absent for a plain `Error`. */
  datatype ApiError = ApiError(status: Option<int>, message: string)

  datatype RunStatus =
    | Queued | InProgress | RequiresAction | Cancelling | Cancelled | Failed | Completed | Incomplete | Expired

  datatype Role = User | Assistant

  datatype ContentPart = TextPart(value: string) | ImagePart(fileId: string)

  datatype ThreadMessage = ThreadMessage(role: Role, content: seq<ContentPart>)

  /** The answers of the remote service, one function per SDK operation, indexed by
   *  the number of remote invocations the session made before this one. */
  datatype Remote = Remote(
    createThread: nat -> Result<string, ApiError>,
    addMessage: nat -> Result<(), ApiError>,
    createRun: nat -> Result<string, ApiError>,
    retrieveRun: nat -> Result<RunStatus, ApiError>,
    listMessages: nat -> Result<seq<ThreadMessage>, ApiError>)

  /** One remote invocation with the arguments it was given. */
  datatype Call =
    | CreateThread
    | AddMessage(threadId: string, content: string)
    | CreateRun(threadId: string, assistantId: string)
    | RetrieveRun(threadId: string, runId: string)
    | ListMessages(threadId: string)

  /** The state of the client: its lazily created thread, how many remote
   *  invocations it has made, the delays it has awaited and the invocations it
   *  has issued. */
  datatype Session = Session(thread: Option<string>, calls: nat, waits: seq<nat>, log: seq<Call>)

  datatype Config = Config(apiKey: string, assistantId: string)

  /** The five messages a caller of sendMessage can see. */
  datatype Notice = AuthFailed | AssistantNotFound | RateLimited | ServiceUnavailable | RequestFailed

  /** The text shown for each notice: the messages getErrorMessage returns. */
  function NoticeText(n: Notice): string {
    match n
    case AuthFailed => "Authentication failed. Please check your API key."
    case AssistantNotFound => "Assistant not found. Please check your configuration."
    case RateLimited => "Rate limit exceeded. Please try again in a moment."
    case ServiceUnavailable => "OpenAI service is temporarily unavailable. Please try again later."
    case RequestFailed => "An error occurred while processing your request. Please try again."
  }

  // Errors raised inside sendMessage and initThread; none carries a status.
  // The longer texts are written as two joined literals: the verifier does not
  // look inside a long literal, and the proofs that these texts differ from
  // each other, or lack "Thread not found", need their characters.
  const InvalidInputMessage: string := "Please provide a valid question or request."
  const RunFailedMessage: string := "The assistant encountered " + "an error processing your request."
  const RunCancelledMessage: string := "The request was cancelled. Please try again."
  const RunExpiredMessage: string := "The request expired. Please try again."
  const TimedOutMessage: string := "Request timed out. Please try again."
  const NoResponseMessage: string := "No response received from assistant."
  const InvalidKeyMessage: string := "Invalid API key. " + "Please check your configuration."
  const AssistantMissingMessage: string := "Assistant not found. " + "Please check your assistant ID."
  const InitFailedMessage: string := "Failed to initialize chat. Please try again."

  // Errors of the constructor.
  const ApiKeyNotConfigured: string := "OpenAI API key is not properly configured"
  const AssistantIdNotConfigured: string := "OpenAI Assistant ID is not properly configured"

  /** Remote invocations one sendMessage can make: one thread creation, then four
   *  retried operations (adding the message, creating the run, listing the
   *  messages, and up to thirty polls), each invoked at most four times. */
  const MaxCallsPerSend: nat := 1 + (MaxRetries + 1) * (3 + MaxPollAttempts)

  function Pow2(k: nat): (p: nat)
    ensures p >= 1
  {
    if k == 0 then 1 else 2 * Pow2(k - 1)
  }

  function Sum(s: seq<nat>): nat
    decreases |s|
  {
    if s == [] then 0 else s[0] + Sum(s[1..])
  }

  function Repeat<X>(x: X, n: nat): (r: seq<X>)
    ensures |r| == n && forall i :: 0 <= i < n ==> r[i] == x
  {
    if n == 0 then [] else [x] + Repeat(x, n - 1)
  }

  lemma {:induction false} SumAppend(a: seq<nat>, b: seq<nat>)
    ensures Sum(a + b) == Sum(a) + Sum(b)
    decreases |a|
  {
    if a == [] {
      assert a + b == b;
    } else {
      SumAppend(a[1..], b);
      assert (a + b)[1..] == a[1..] + b;
    }
  }

  // ---------------------------------------------------------------------------
  // Constructor

  /** The setting is present, non-empty and not the placeholder of the sample
   *  environment file. */
  predicate IsConfigured(setting: Option<string>, placeholder: string) {
    setting.Some? && setting.value != [] && !Contains(setting.value, placeholder)
  }

  /** The constructor's checks: the API key first, then the assistant id. */
  function CheckConfiguration(apiKey: Option<string>, assistantId: Option<string>): (r: Result<Config, string>)
    ensures r.Success? <==> IsConfigured(apiKey, "your-api-key") && IsConfigured(assistantId, "your-assistant-id")
    ensures r.Success? ==> r.value == Config(apiKey.value, assistantId.value) && r.value.assistantId != []
    ensures !IsConfigured(apiKey, "your-api-key") ==> r == Failure(ApiKeyNotConfigured)
    ensures IsConfigured(apiKey, "your-api-key") && !IsConfigured(assistantId, "your-assistant-id") ==>
      r == Failure(AssistantIdNotConfigured)
  {
    if apiKey.None? || apiKey.value == [] || Contains(apiKey.value, "your-api-key") then
      Failure(ApiKeyNotConfigured)
    else if assistantId.None? || assistantId.value == [] || Contains(assistantId.value, "your-assistant-id") then
      Failure(AssistantIdNotConfigured)
    else
      Success(Config(apiKey.value, assistantId.value))
  }

  // ---------------------------------------------------------------------------
  // getErrorMessage

  /** `getErrorMessage(error)`, as the notice whose `NoticeText` it returns.
   *  Total: every error, with or without a status, maps to one of the five
   *  messages, tested in the order 401, 404, 429, 500 and above. */
  function ErrorNotice(e: ApiError): (n: Notice)
    ensures n == AuthFailed <==> e.status == Some(401)
    ensures n == AssistantNotFound <==> e.status == Some(404)
    ensures n == RateLimited <==> e.status == Some(429)
    ensures n == ServiceUnavailable <==> e.status.Some? && e.status.value >= 500
    ensures n == RequestFailed <==>
      e.status.None? || (e.status.value != 401 && e.status.value != 404 && e.status.value != 429 && e.status.value < 500)
  {
    if e.status == Some(401) then AuthFailed
    else if e.status == Some(404) then AssistantNotFound
    else if e.status == Some(429) then RateLimited
    else if e.status.Some? && e.status.value >= 500 then ServiceUnavailable
    else RequestFailed
  }


  // ---------------------------------------------------------------------------
  // retryOperation

  /** 401 and 404 are never retried. */
  predicate IsRetryable(e: ApiError) {
    e.status != Some(401) && e.status != Some(404)
  }

  predicate FailsRetryably<T>(r: Result<T, ApiError>) {
    r.Failure? && IsRetryable(r.error)
  }

  /** The wait before retry number `retryCount + 1`: `RETRY_DELAY * 2^retryCount`. */
  function Backoff(retryCount: nat): nat {
    RetryDelay * Pow2(retryCount)
  }

  /** What one retried operation did: its outcome, how often the operation was
   *  invoked, and the delays awaited between invocations. */
  datatype Retried<T> = Retried(result: Result<T, ApiError>, invocations: nat, delays: seq<nat>)

  /** `retryOperation(operation, retryCount)`: the outcome is that of the last
   *  invocation, and a first call invokes the operation at most four times. */
  function RetrySpec<T>(op: nat -> Result<T, ApiError>, next: nat, retryCount: nat): (r: Retried<T>)
    ensures 1 <= r.invocations
    ensures retryCount <= MaxRetries ==> r.invocations <= MaxRetries + 1 - retryCount
    ensures r.result == op(next + r.invocations - 1)
    ensures |r.delays| == r.invocations - 1
    decreases MaxRetries - retryCount
  {
    match op(next)
    case Success(v) => Retried(Success(v), 1, [])
    case Failure(e) =>
      if e.status == Some(401) || e.status == Some(404) then
        Retried(Failure(e), 1, [])
      else if retryCount < MaxRetries then
        var rest := RetrySpec(op, next + 1, retryCount + 1);
        Retried(rest.result, rest.invocations + 1, [Backoff(retryCount)] + rest.delays)
      else
        Retried(Failure(e), 1, [])
  }

  /** Every invocation before the last one failed retryably. */
  lemma {:induction false} RetriedOnlyRetryable<T>(op: nat -> Result<T, ApiError>, next: nat, retryCount: nat)
    ensures forall i :: next <= i < next + RetrySpec(op, next, retryCount).invocations - 1 ==> FailsRetryably(op(i))
    decreases MaxRetries - retryCount
  {
    if FailsRetryably(op(next)) && retryCount < MaxRetries {
      RetriedOnlyRetryable(op, next + 1, retryCount + 1);
    }
  }

  /** A retryable failure is returned only once the retry budget is spent. */
  lemma {:induction false} GivesUpOnlyWhenSpent<T>(op: nat -> Result<T, ApiError>, next: nat, retryCount: nat)
    ensures var r := RetrySpec(op, next, retryCount);
      FailsRetryably(r.result) ==> retryCount + r.invocations - 1 >= MaxRetries
    decreases MaxRetries - retryCount
  {
    if FailsRetryably(op(next)) && retryCount < MaxRetries {
      GivesUpOnlyWhenSpent(op, next + 1, retryCount + 1);
    }
  }

  /** The k-th wait of a retried operation is `1000 * 2^(retryCount + k)`. */
  lemma {:induction false} BackoffDoubles<T>(op: nat -> Result<T, ApiError>, next: nat, retryCount: nat)
    ensures var r := RetrySpec(op, next, retryCount);
      forall k :: 0 <= k < |r.delays| ==> r.delays[k] == RetryDelay * Pow2(retryCount + k)
    decreases MaxRetries - retryCount
  {
    var r := RetrySpec(op, next, retryCount);
    if FailsRetryably(op(next)) && retryCount < MaxRetries {
      var rest := RetrySpec(op, next + 1, retryCount + 1);
      BackoffDoubles(op, next + 1, retryCount + 1);
      assert r.delays == [Backoff(retryCount)] + rest.delays;
      assert forall k :: 1 <= k < |r.delays| ==> r.delays[k] == rest.delays[k - 1];
    }
  }

  /** The delays of a retried operation add up to `1000 * (2^last - 2^first)`. */
  lemma {:induction false} RetryTotalWait<T>(op: nat -> Result<T, ApiError>, next: nat, retryCount: nat)
    ensures var r := RetrySpec(op, next, retryCount);
      Sum(r.delays) == RetryDelay * (Pow2(retryCount + r.invocations - 1) - Pow2(retryCount))
    decreases MaxRetries - retryCount
  {
    var r := RetrySpec(op, next, retryCount);
    if r.invocations > 1 {
      var rest := RetrySpec(op, next + 1, retryCount + 1);
      RetryTotalWait(op, next + 1, retryCount + 1);
      assert r.delays == [Backoff(retryCount)] + rest.delays;
      assert r.delays[1..] == rest.delays;
      assert Pow2(retryCount + 1) == 2 * Pow2(retryCount);
    }
  }

  /** One retried operation invokes the remote at most four times and waits at
   *  most 1000 + 2000 + 4000 ms. */
  lemma RetryBounds<T>(op: nat -> Result<T, ApiError>, next: nat)
    ensures RetrySpec(op, next, 0).invocations <= MaxRetries + 1
    ensures Sum(RetrySpec(op, next, 0).delays) <= 7000
  {
    var r := RetrySpec(op, next, 0);
    RetryTotalWait(op, next, 0);
    assert Pow2(r.invocations - 1) <= 8 by {
      assert Pow2(0) == 1 && Pow2(1) == 2 && Pow2(2) == 4 && Pow2(3) == 8;
    }
  }

  /** A success, a 401 or a 404 is returned after a single invocation, without
   *  waiting. */
  lemma SettlesOnFirstTry<T>(op: nat -> Result<T, ApiError>, next: nat, retryCount: nat)
    requires !FailsRetryably(op(next))
    ensures RetrySpec(op, next, retryCount) == Retried(op(next), 1, [])
  {
  }

  /** `k` retryable failures followed by a success: the success is returned after
   *  `k + 1` invocations and `1000 * (2^k - 1)` ms of waiting. */
  lemma SucceedsAfterFailures<T>(op: nat -> Result<T, ApiError>, next: nat, k: nat)
    requires k <= MaxRetries
    requires forall i :: next <= i < next + k ==> FailsRetryably(op(i))
    requires op(next + k).Success?
    ensures var r := RetrySpec(op, next, 0);
      r.result == op(next + k) && r.invocations == k + 1 && Sum(r.delays) == RetryDelay * (Pow2(k) - 1)
  {
    var r := RetrySpec(op, next, 0);
    RetriedOnlyRetryable(op, next, 0);
    GivesUpOnlyWhenSpent(op, next, 0);
    assert !FailsRetryably(op(next + k));
    assert r.invocations - 1 < k ==> FailsRetryably(r.result);
    RetryTotalWait(op, next, 0);
  }

  /** Four retryable failures in a row: the fourth is rethrown after 7000 ms. */
  lemma GivesUpAfterFourFailures<T>(op: nat -> Result<T, ApiError>, next: nat)
    requires forall i :: next <= i < next + MaxRetries + 1 ==> FailsRetryably(op(i))
    ensures var r := RetrySpec(op, next, 0);
      r.result == op(next + MaxRetries) && r.invocations == MaxRetries + 1 && Sum(r.delays) == 7000
  {
    var r := RetrySpec(op, next, 0);
    GivesUpOnlyWhenSpent(op, next, 0);
    assert FailsRetryably(op(next + r.invocations - 1));
    RetryTotalWait(op, next, 0);
    assert Pow2(3) == 8;
  }

  /** The session after a retried operation issued as `call`. */
  function Record<T>(s: Session, rr: Retried<T>, call: Call): Session {
    s.(calls := s.calls + rr.invocations, waits := s.waits + rr.delays, log := s.log + Repeat(call, rr.invocations))
  }

  /** A retried operation settled by its first invocation adds that invocation
   *  to the session and no wait. */
  lemma RecordSingle<T>(s: Session, result: Result<T, ApiError>, call: Call)
    ensures Record(s, Retried(result, 1, []), call) == s.(calls := s.calls + 1, log := s.log + [call])
  {
    assert s.waits + [] == s.waits;
    assert Repeat(call, 1) == [call];
  }

  /** A failed invocation and a wait in front of the remaining retries. */
  lemma RecordRetry<T>(s: Session, call: Call, delay: nat, rest: Retried<T>)
    ensures Record(s.(calls := s.calls + 1, waits := s.waits + [delay], log := s.log + [call]), rest, call) ==
      Record(s, Retried(rest.result, rest.invocations + 1, [delay] + rest.delays), call)
  {
    assert s.waits + [delay] + rest.delays == s.waits + ([delay] + rest.delays);
    assert Repeat(call, rest.invocations + 1) == [call] + Repeat(call, rest.invocations);
    assert s.log + [call] + Repeat(call, rest.invocations) == s.log + ([call] + Repeat(call, rest.invocations));
  }

  /** The outcome of a retried operation issued as `call` and the session after it. */
  function RetryOutcome<T>(op: nat -> Result<T, ApiError>, s: Session, retryCount: nat, call: Call): (Result<T, ApiError>, Session) {
    var rr := RetrySpec(op, s.calls, retryCount);
    (rr.result, Record(s, rr, call))
  }

  /** A retryable failure with retries left: the failed invocation and the
   *  back-off wait, followed by the remaining retries. */
  lemma RetryOutcomeStep<T>(op: nat -> Result<T, ApiError>, s: Session, retryCount: nat, call: Call)
    requires FailsRetryably(op(s.calls)) && retryCount < MaxRetries
    ensures RetryOutcome(op, s, retryCount, call) ==
      RetryOutcome(op, s.(calls := s.calls + 1, waits := s.waits + [Backoff(retryCount)], log := s.log + [call]), retryCount + 1, call)
  {
    var rest := RetrySpec(op, s.calls + 1, retryCount + 1);
    assert RetrySpec(op, s.calls, retryCount) == Retried(rest.result, rest.invocations + 1, [Backoff(retryCount)] + rest.delays);
    RecordRetry(s, call, Backoff(retryCount), rest);
  }

  /** Otherwise the first invocation settles the operation. */
  lemma RetryOutcomeSettled<T>(op: nat -> Result<T, ApiError>, s: Session, retryCount: nat, call: Call)
    requires !FailsRetryably(op(s.calls)) || retryCount >= MaxRetries
    ensures RetryOutcome(op, s, retryCount, call) == (op(s.calls), s.(calls := s.calls + 1, log := s.log + [call]))
  {
    assert RetrySpec(op, s.calls, retryCount) == Retried(op(s.calls), 1, []);
    RecordSingle(s, op(s.calls), call);
  }

  // ---------------------------------------------------------------------------
  // initThread

  /** initThread's catch: the SDK error is replaced by a plain error. */
  function InitErrorMessage(e: ApiError): (m: string)
    ensures m == InvalidKeyMessage <==> e.status == Some(401)
    ensures m == AssistantMissingMessage <==> e.status == Some(404)
    ensures m == InitFailedMessage <==> e.status != Some(401) && e.status != Some(404)
  {
    if e.status == Some(401) then InvalidKeyMessage
    else if e.status == Some(404) then AssistantMissingMessage
    else InitFailedMessage
  }

  /** `initThread()`: an existing thread is kept and nothing is invoked; otherwise
   *  one unretried creation either stores the new thread or fails with a plain
   *  error that has lost the status. */
  function InitThreadSpec(remote: Remote, s: Session): (r: (Result<string, ApiError>, Session))
    ensures s.thread.Some? ==> r == (Success(s.thread.value), s)
    ensures r.0.Success? <==> r.1.thread.Some?
    ensures r.0.Success? ==> r.1.thread == Some(r.0.value)
    ensures r.0.Failure? ==> r.0.error.status.None?
    ensures s.thread.None? ==> r.1.calls == s.calls + 1 && r.1.log == s.log + [CreateThread]
    ensures r.1.waits == s.waits
  {
    if s.thread.Some? then (Success(s.thread.value), s)
    else
      var s1 := s.(calls := s.calls + 1, log := s.log + [CreateThread]);
      match remote.createThread(s.calls)
      case Success(id) => (Success(id), s1.(thread := Some(id)))
      case Failure(e) => (Failure(ApiError(None, InitErrorMessage(e))), s1)
  }

  // ---------------------------------------------------------------------------
  // The polling loop of sendMessage

  /** The error a failed, cancelled or expired run is reported with: one text
   *  per status, no two alike. */
  function RunEndMessage(status: RunStatus): (m: string)
    requires status == Failed || status == Cancelled || status == Expired
    ensures m == RunFailedMessage <==> status == Failed
    ensures m == RunCancelledMessage <==> status == Cancelled
    ensures m == RunExpiredMessage <==> status == Expired
  {
    if status == Failed then RunFailedMessage
    else if status == Cancelled then RunCancelledMessage
    else RunExpiredMessage
  }

  /** The result of polling: the outcome, how many status retrievals were issued,
   *  and the session afterwards. */
  datatype Polled = Polled(outcome: Result<(), ApiError>, polls: nat, session: Session)

  /** Polling from the iteration with `attempts` completed waits: `completed`
   *  ends it; `failed`, `cancelled` and `expired` fail at once; otherwise it waits
   *  a second, fails on the thirtieth wait, and goes round again only for
   *  `queued` and `in_progress`. Each round is one retried retrieval, so at most
   *  `MaxRetries + 1` = 4 invocations. */
  function PollSpec(remote: Remote, threadId: string, runId: string, attempts: nat, s: Session): (p: Polled)
    requires attempts < MaxPollAttempts
    ensures 1 <= p.polls <= MaxPollAttempts - attempts
    ensures p.session.calls <= s.calls + 4 * p.polls
    ensures p.session.thread == s.thread
    ensures s.waits <= p.session.waits && s.log <= p.session.log
    decreases MaxPollAttempts - attempts
  {
    var rr := RetrySpec(remote.retrieveRun, s.calls, 0);
    var s1 := Record(s, rr, RetrieveRun(threadId, runId));
    match rr.result
    case Failure(e) => Polled(Failure(e), 1, s1)
    case Success(status) =>
      if status == Completed then Polled(Success(()), 1, s1)
      else if status == Failed || status == Cancelled || status == Expired then
        Polled(Failure(ApiError(None, RunEndMessage(status))), 1, s1)
      else
        var s2 := s1.(waits := s1.waits + [PollInterval]);
        if attempts + 1 >= MaxPollAttempts then
          Polled(Failure(ApiError(None, TimedOutMessage)), 1, s2)
        else if status == InProgress || status == Queued then
          var p := PollSpec(remote, threadId, runId, attempts + 1, s2);
          Polled(p.outcome, p.polls + 1, p.session)
        else
          Polled(Success(()), 1, s2)
  }

  /** A run that never leaves `in_progress` is given up after exactly thirty
   *  status retrievals and thirty one-second waits; no thirty-first is issued. */
  lemma {:induction false} PollTimesOut(remote: Remote, threadId: string, runId: string, attempts: nat, s: Session)
    requires attempts < MaxPollAttempts
    requires forall i :: s.calls <= i ==> remote.retrieveRun(i) == Success(InProgress)
    ensures PollSpec(remote, threadId, runId, attempts, s) == Polled(
      Failure(ApiError(None, TimedOutMessage)), MaxPollAttempts - attempts,
      s.(calls := s.calls + (MaxPollAttempts - attempts),
         waits := s.waits + Repeat(PollInterval, MaxPollAttempts - attempts),
         log := s.log + Repeat(RetrieveRun(threadId, runId), MaxPollAttempts - attempts)))
    decreases MaxPollAttempts - attempts
  {
    var n := MaxPollAttempts - attempts;
    var call := RetrieveRun(threadId, runId);
    var rr := RetrySpec(remote.retrieveRun, s.calls, 0);
    SettlesOnFirstTry(remote.retrieveRun, s.calls, 0);
    var s1 := Record(s, rr, call);
    var s2 := s1.(waits := s1.waits + [PollInterval]);
    assert s2 == s.(calls := s.calls + 1, waits := s.waits + [PollInterval], log := s.log + [call]) by {
      assert s.waits + [] == s.waits;
      assert Repeat(call, 1) == [call];
    }
    assert Repeat(PollInterval, n) == [PollInterval] + Repeat(PollInterval, n - 1);
    assert Repeat(call, n) == [call] + Repeat(call, n - 1);
    if attempts + 1 < MaxPollAttempts {
      PollTimesOut(remote, threadId, runId, attempts + 1, s2);
      assert s2.waits + Repeat(PollInterval, n - 1) == s.waits + Repeat(PollInterval, n);
      assert s2.log + Repeat(call, n - 1) == s.log + Repeat(call, n);
    } else {
      assert Repeat(PollInterval, n - 1) == [] && Repeat(call, n - 1) == [];
      assert s2.waits == s.waits + Repeat(PollInterval, n);
      assert s2.log == s.log + Repeat(call, n);
    }
  }

  /** A status other than the four final ones, `queued` and `in_progress` (such
   *  as `requires_action`) ends the polling as a success after one wait, so the
   *  client goes on to list the messages. */
  lemma UnexpectedStatusEndsPolling(remote: Remote, threadId: string, runId: string, attempts: nat, s: Session, status: RunStatus)
    requires attempts + 1 < MaxPollAttempts
    requires status !in {Completed, Failed, Cancelled, Expired, Queued, InProgress}
    requires remote.retrieveRun(s.calls) == Success(status)
    ensures PollSpec(remote, threadId, runId, attempts, s) ==
      Polled(Success(()), 1, s.(calls := s.calls + 1, waits := s.waits + [PollInterval], log := s.log + [RetrieveRun(threadId, runId)]))
  {
    SettlesOnFirstTry(remote.retrieveRun, s.calls, 0);
    RecordSingle(s, remote.retrieveRun(s.calls), RetrieveRun(threadId, runId));
  }

  /** The session after a polling round that retrieved the status and waited
   *  the one-second pause. */
  function NextRound(remote: Remote, threadId: string, runId: string, s: Session): Session {
    var s1 := Record(s, RetrySpec(remote.retrieveRun, s.calls, 0), RetrieveRun(threadId, runId));
    s1.(waits := s1.waits + [PollInterval])
  }

  /** The status retrieved by a polling round is `queued` or `in_progress`. */
  predicate StillRunning(remote: Remote, s: Session) {
    var rr := RetrySpec(remote.retrieveRun, s.calls, 0);
    rr.result.Success? && (rr.result.value == InProgress || rr.result.value == Queued)
  }

  /** A run still queued or in progress before the thirtieth wait: polling goes
   *  on from the next iteration after the one-second wait. */
  lemma PollContinues(remote: Remote, threadId: string, runId: string, attempts: nat, s: Session)
    requires attempts + 1 < MaxPollAttempts && StillRunning(remote, s)
    ensures var rest := PollSpec(remote, threadId, runId, attempts + 1, NextRound(remote, threadId, runId, s));
      PollSpec(remote, threadId, runId, attempts, s) == Polled(rest.outcome, rest.polls + 1, rest.session)
  {
  }

  /** Otherwise polling ends after this round, with or without the wait. */
  lemma PollEnds(remote: Remote, threadId: string, runId: string, attempts: nat, s: Session)
    requires attempts < MaxPollAttempts
    requires attempts + 1 >= MaxPollAttempts || !StillRunning(remote, s)
    ensures var p := PollSpec(remote, threadId, runId, attempts, s);
      p.polls == 1 &&
      (p.session == Record(s, RetrySpec(remote.retrieveRun, s.calls, 0), RetrieveRun(threadId, runId)) ||
       p.session == NextRound(remote, threadId, runId, s))
  {
  }

  /** One polling round waits at most seven seconds of back-off and the
   *  one-second pause. */
  lemma PollRoundWaits(remote: Remote, threadId: string, runId: string, s: Session)
    ensures var s1 := Record(s, RetrySpec(remote.retrieveRun, s.calls, 0), RetrieveRun(threadId, runId));
      Sum(s1.waits) <= Sum(s.waits) + 7000 && Sum(NextRound(remote, threadId, runId, s).waits) <= Sum(s.waits) + 8000
  {
    var rr := RetrySpec(remote.retrieveRun, s.calls, 0);
    var s1 := Record(s, rr, RetrieveRun(threadId, runId));
    RetryBounds(remote.retrieveRun, s.calls);
    SumAppend(s.waits, rr.delays);
    SumAppend(s1.waits, [PollInterval]);
    assert Sum([PollInterval]) == PollInterval;
  }

  /** A polling round either ends the polling within eight seconds of waiting,
   *  or waits at most eight seconds and goes on. */
  lemma PollRoundBound(remote: Remote, threadId: string, runId: string, attempts: nat, s: Session)
    requires attempts < MaxPollAttempts
    ensures var next := NextRound(remote, threadId, runId, s);
      var p := PollSpec(remote, threadId, runId, attempts, s);
      && Sum(next.waits) <= Sum(s.waits) + 8000
      && (|| (p.polls == 1 && Sum(p.session.waits) <= Sum(s.waits) + 8000)
          || (attempts + 1 < MaxPollAttempts &&
              p.polls == PollSpec(remote, threadId, runId, attempts + 1, next).polls + 1 &&
              p.session == PollSpec(remote, threadId, runId, attempts + 1, next).session))
  {
    PollRoundWaits(remote, threadId, runId, s);
    if attempts + 1 < MaxPollAttempts && StillRunning(remote, s) {
      PollContinues(remote, threadId, runId, attempts, s);
    } else {
      PollEnds(remote, threadId, runId, attempts, s);
    }
  }

  /** Polling waits at most eight seconds per status retrieval: the one-second
   *  pause plus at most seven seconds of back-off. */
  lemma {:induction false} PollWaitBound(remote: Remote, threadId: string, runId: string, attempts: nat, s: Session)
    requires attempts < MaxPollAttempts
    ensures var p := PollSpec(remote, threadId, runId, attempts, s);
      Sum(p.session.waits) <= Sum(s.waits) + 8000 * p.polls
    decreases MaxPollAttempts - attempts
  {
    PollRoundBound(remote, threadId, runId, attempts, s);
    if attempts + 1 < MaxPollAttempts {
      PollWaitBound(remote, threadId, runId, attempts + 1, NextRound(remote, threadId, runId, s));
    }
  }

  // ---------------------------------------------------------------------------
  // sendMessage

  /** The content is empty once surrounding white space is trimmed. */
  predicate IsBlank(content: string) {
    Trim(content) == []
  }

  /** The first message in list order with the assistant role. */
  predicate FirstAssistantAt(messages: seq<ThreadMessage>, i: int) {
    0 <= i < |messages| && messages[i].role == Assistant &&
    forall j :: 0 <= j < i ==> messages[j].role != Assistant
  }

  /** The message's first content part is a text part with a non-empty value. */
  predicate HasText(m: ThreadMessage) {
    |m.content| > 0 && m.content[0].TextPart? && m.content[0].value != []
  }

  /** Message `i` is the first assistant message and its first part is the
   *  non-empty text `text`. */
  predicate RepliesAt(messages: seq<ThreadMessage>, i: int, text: string) {
    FirstAssistantAt(messages, i) && HasText(messages[i]) && messages[i].content[0] == TextPart(text)
  }

  /** The text of the first assistant message, when its first part is non-empty
   *  text; later assistant messages are never looked at. */
  function FirstAssistantText(messages: seq<ThreadMessage>): (t: Option<string>)
    ensures t.Some? ==> exists i :: RepliesAt(messages, i, t.value)
    ensures t.None? ==> forall i :: FirstAssistantAt(messages, i) ==> !HasText(messages[i])
    decreases |messages|
  {
    if messages == [] then None
    else if messages[0].role == Assistant then
      (if HasText(messages[0]) then (assert RepliesAt(messages, 0, messages[0].content[0].value);
        Some(messages[0].content[0].value)) else None)
    else
      var t := FirstAssistantText(messages[1..]);
      assert forall i :: 0 < i < |messages| ==>
        (FirstAssistantAt(messages, i) <==> FirstAssistantAt(messages[1..], i - 1));
      assert t.Some? ==> exists i :: RepliesAt(messages, i, t.value) by {
        if t.Some? {
          var i :| RepliesAt(messages[1..], i, t.value);
          assert RepliesAt(messages, i + 1, t.value);
        }
      }
      t
  }

  /** Listing the thread's messages once the run is over, and picking the reply. */
  function ReadReply(remote: Remote, threadId: string, s: Session): (r: (Result<string, ApiError>, Session))
    ensures r.0.Success? ==> r.0.value != []
    ensures r.1.thread == s.thread
    ensures r.1.calls <= s.calls + MaxRetries + 1
    ensures s.waits <= r.1.waits && s.log <= r.1.log
  {
    var list := RetrySpec(remote.listMessages, s.calls, 0);
    var s1 := Record(s, list, ListMessages(threadId));
    match list.result
    case Failure(e) => (Failure(e), s1)
    case Success(messages) => (ReplyOf(messages), s1)
  }

  /** Polling the run, then reading the reply: at most 4 * 30 invocations for
   *  the polling and 4 for the listing. */
  function AwaitAndRead(remote: Remote, threadId: string, runId: string, s: Session): (r: (Result<string, ApiError>, Session))
    ensures r.0.Success? ==> r.0.value != []
    ensures r.1.thread == s.thread
    ensures r.1.calls <= s.calls + 124
    ensures s.waits <= r.1.waits && s.log <= r.1.log
  {
    var polled := PollSpec(remote, threadId, runId, 0, s);
    match polled.outcome
    case Failure(e) => (Failure(e), polled.session)
    case Success(_) => ReadReply(remote, threadId, polled.session)
  }

  /** Creating the run, then awaiting it and reading the reply (at most 4 more
   *  invocations). */
  function RunAndRead(remote: Remote, assistantId: string, threadId: string, s: Session): (r: (Result<string, ApiError>, Session))
    ensures r.0.Success? ==> r.0.value != []
    ensures r.1.thread == s.thread
    ensures r.1.calls <= s.calls + 128
    ensures s.waits <= r.1.waits && s.log <= r.1.log
  {
    var run := RetrySpec(remote.createRun, s.calls, 0);
    var s1 := Record(s, run, CreateRun(threadId, assistantId));
    match run.result
    case Failure(e) => (Failure(e), s1)
    case Success(runId) => AwaitAndRead(remote, threadId, runId, s1)
  }

  /** Adding the user's message to the thread, then running the assistant on it
   *  (at most 4 more invocations). */
  function Exchange(remote: Remote, assistantId: string, threadId: string, s: Session, content: string): (r: (Result<string, ApiError>, Session))
    ensures r.0.Success? ==> r.0.value != []
    ensures r.1.thread == s.thread
    ensures r.1.calls <= s.calls + 132
    ensures s.waits <= r.1.waits && s.log <= r.1.log
  {
    var add := RetrySpec(remote.addMessage, s.calls, 0);
    var s1 := Record(s, add, AddMessage(threadId, content));
    match add.result
    case Failure(e) => (Failure(e), s1)
    case Success(_) => RunAndRead(remote, assistantId, threadId, s1)
  }

  /** The body of sendMessage's `try`: the error it throws, or the reply. */
  function AttemptSpec(remote: Remote, assistantId: string, s: Session, content: string): (r: (Result<string, ApiError>, Session))
    ensures IsBlank(content) ==> r == (Failure(ApiError(None, InvalidInputMessage)), s)
    ensures r.0.Success? ==> r.0.value != [] && r.1.thread.Some?
    ensures s.thread.Some? ==> r.1.thread == s.thread
    ensures s.waits <= r.1.waits && s.log <= r.1.log
  {
    if IsBlank(content) then (Failure(ApiError(None, InvalidInputMessage)), s)
    else
      var init := InitThreadSpec(remote, s);
      match init.0
      case Failure(e) => (Failure(e), init.1)
      case Success(threadId) => Exchange(remote, assistantId, threadId, init.1, content)
  }

  /** One sendMessage makes at most 133 remote invocations. */
  lemma AttemptCallBound(remote: Remote, assistantId: string, s: Session, content: string)
    ensures AttemptSpec(remote, assistantId, s, content).1.calls <= s.calls + MaxCallsPerSend
  {
    assert MaxCallsPerSend == 133;
    if !IsBlank(content) {
      var init := InitThreadSpec(remote, s);
      assert init.1.calls <= s.calls + 1;
      if init.0.Success? {
        assert AttemptSpec(remote, assistantId, s, content) == Exchange(remote, assistantId, init.0.value, init.1, content);
      } else {
        assert AttemptSpec(remote, assistantId, s, content) == init;
      }
    }
  }

  /** The catch's test for dropping the thread. */
  predicate ResetsThread(e: ApiError)
    ensures ErrorNotice(e) == AuthFailed || ErrorNotice(e) == AssistantNotFound ==> ResetsThread(e)
    ensures !ResetsThread(e) ==> IsRetryable(e)
  {
    e.status == Some(401) || e.status == Some(404) || Contains(e.message, "Thread not found")
  }

  /** `sendMessage(content)`: every error leaving it carries one of the five
   *  messages; whitespace-only input fails before any remote invocation and
   *  leaves the session alone; a reply is non-empty and leaves a thread in
   *  place; an existing thread is either kept or dropped, never replaced. */
  function SendSpec(remote: Remote, assistantId: string, s: Session, content: string): (r: (Result<string, Notice>, Session))
    ensures IsBlank(content) ==> r == (Failure(RequestFailed), s)
    ensures r.0.Success? ==> r.0.value != [] && r.1.thread.Some? && (s.thread.Some? ==> r.1.thread == s.thread)
    ensures s.thread.Some? ==> r.1.thread == s.thread || r.1.thread == None
    ensures r.1.calls <= s.calls + MaxCallsPerSend
  {
    InvalidInputKeepsThread();
    AttemptCallBound(remote, assistantId, s, content);
    var attempt := AttemptSpec(remote, assistantId, s, content);
    match attempt.0
    case Success(text) => (Success(text), attempt.1)
    case Failure(e) =>
      (Failure(ErrorNotice(e)), if ResetsThread(e) then attempt.1.(thread := None) else attempt.1)
  }

  /** Every character of a contained string occurs in the containing one. */
  lemma ContainedChars(s: string, p: string, c: char)
    ensures Contains(s, p) && c in p ==> c in s
  {
    ContainsIff(s, p);
    if Contains(s, p) && c in p {
      var i :| OccursAt(s, p, i);
      var k :| 0 <= k < |p| && p[k] == c;
      assert s[i + k] == p[k];
    }
  }

  lemma MissingChar(s: string, p: string, c: char)
    requires c in p && c !in s
    ensures !Contains(s, p)
  {
    ContainedChars(s, p, c);
  }

  /** What sendMessage hands back: the reply, or the text of the notice. */
  function Shown(r: Result<string, Notice>): Result<string, string> {
    match r
    case Success(text) => Success(text)
    case Failure(n) => Failure(NoticeText(n))
  }

  // The errors sendMessage raises itself do not say `Thread not found`, so none
  // of them drops the thread by its wording: each lacks a character of it.
  // (initThread's errors need no such fact: they are raised only when there is
  // no thread to drop.)

  lemma InvalidInputKeepsThread()
    ensures !Contains(InvalidInputMessage, "Thread not found")
  {
    assert 'T' !in InvalidInputMessage;
    MissingChar(InvalidInputMessage, "Thread not found", 'T');
  }

  lemma RunFailedKeepsThread()
    ensures !Contains(RunFailedMessage, "Thread not found")
  {
    assert 'f' !in RunFailedMessage;
    MissingChar(RunFailedMessage, "Thread not found", 'f');
  }

  lemma RunCancelledKeepsThread()
    ensures !Contains(RunCancelledMessage, "Thread not found")
  {
    assert 'f' !in RunCancelledMessage;
    MissingChar(RunCancelledMessage, "Thread not found", 'f');
  }

  lemma RunExpiredKeepsThread()
    ensures !Contains(RunExpiredMessage, "Thread not found")
  {
    assert 'f' !in RunExpiredMessage;
    MissingChar(RunExpiredMessage, "Thread not found", 'f');
  }

  lemma RunEndKeepsThread(status: RunStatus)
    requires status == Failed || status == Cancelled || status == Expired
    ensures !ResetsThread(ApiError(None, RunEndMessage(status)))
  {
    if status == Failed {
      RunFailedKeepsThread();
    } else if status == Cancelled {
      RunCancelledKeepsThread();
    } else {
      RunExpiredKeepsThread();
    }
  }

  lemma TimedOutKeepsThread()
    ensures !Contains(TimedOutMessage, "Thread not found")
  {
    assert 'T' !in TimedOutMessage;
    MissingChar(TimedOutMessage, "Thread not found", 'T');
  }

  lemma NoResponseKeepsThread()
    ensures !Contains(NoResponseMessage, "Thread not found")
  {
    assert 'T' !in NoResponseMessage;
    MissingChar(NoResponseMessage, "Thread not found", 'T');
  }

  /** A failed attempt that leaves no thread to drop, or whose error does not
   *  reset the thread, surfaces as its notice with the attempt's session. */
  lemma SendOfFailure(remote: Remote, assistantId: string, s: Session, content: string)
    ensures var a := AttemptSpec(remote, assistantId, s, content);
      a.0.Failure? && (a.1.thread.None? || !ResetsThread(a.0.error)) ==>
        SendSpec(remote, assistantId, s, content) == (Failure(ErrorNotice(a.0.error)), a.1)
  {
    var a := AttemptSpec(remote, assistantId, s, content);
    if a.0.Failure? && a.1.thread.None? {
      assert a.1.(thread := None) == a.1;
    }
  }

  /** A successful attempt is handed back as it is. */
  lemma SendOfSuccess(remote: Remote, assistantId: string, s: Session, content: string)
    ensures var a := AttemptSpec(remote, assistantId, s, content);
      a.0.Success? ==> SendSpec(remote, assistantId, s, content) == (Success(a.0.value), a.1)
  {
  }

  /** A failed attempt whose error resets the thread surfaces as its notice,
   *  with the thread dropped. */
  lemma SendOfResetting(remote: Remote, assistantId: string, s: Session, content: string)
    ensures var a := AttemptSpec(remote, assistantId, s, content);
      a.0.Failure? && ResetsThread(a.0.error) ==>
        SendSpec(remote, assistantId, s, content) == (Failure(ErrorNotice(a.0.error)), a.1.(thread := None))
  {
  }

  /** With a thread and a non-blank message, the attempt is the exchange on that thread. */
  lemma AttemptWithThread(remote: Remote, assistantId: string, s: Session, content: string)
    requires s.thread.Some? && !IsBlank(content)
    ensures AttemptSpec(remote, assistantId, s, content) == Exchange(remote, assistantId, s.thread.value, s, content)
  {
    assert InitThreadSpec(remote, s) == (Success(s.thread.value), s);
  }

  /** The session after one status retrieval that answered at once. */
  function AfterPoll(s: Session, threadId: string, runId: string): Session {
    s.(calls := s.calls + 1, log := s.log + [RetrieveRun(threadId, runId)])
  }

  /** A status retrieval that answers a final status at once ends the polling
   *  after that one invocation, with the outcome the status calls for. */
  lemma FirstPollDecides(remote: Remote, threadId: string, runId: string, s: Session, status: RunStatus)
    requires remote.retrieveRun(s.calls) == Success(status)
    requires status == Completed || status == Failed || status == Cancelled || status == Expired
    ensures var p := PollSpec(remote, threadId, runId, 0, s);
      && p.polls == 1 && p.session == AfterPoll(s, threadId, runId)
      && p.outcome == if status == Completed then Success(()) else Failure(ApiError(None, RunEndMessage(status)))
  {
    SettlesOnFirstTry(remote.retrieveRun, s.calls, 0);
    RecordSingle(s, remote.retrieveRun(s.calls), RetrieveRun(threadId, runId));
  }

  /** A run found completed by the first status retrieval: the reply is read
   *  right after that retrieval. */
  lemma AwaitOfCompletedRun(remote: Remote, threadId: string, runId: string, s: Session)
    requires remote.retrieveRun(s.calls) == Success(Completed)
    ensures AwaitAndRead(remote, threadId, runId, s) ==
      ReadReply(remote, threadId, AfterPoll(s, threadId, runId))
  {
    FirstPollDecides(remote, threadId, runId, s, Completed);
  }

  /** A run found failed, cancelled or expired by the first status retrieval:
   *  the wait fails with the message of the status and nothing is listed. */
  lemma AwaitOfEndedRun(remote: Remote, threadId: string, runId: string, s: Session, status: RunStatus)
    requires remote.retrieveRun(s.calls) == Success(status)
    requires status == Failed || status == Cancelled || status == Expired
    ensures AwaitAndRead(remote, threadId, runId, s) ==
      (Failure(ApiError(None, RunEndMessage(status))), AfterPoll(s, threadId, runId))
  {
    FirstPollDecides(remote, threadId, runId, s, status);
  }

  /** Adding the message, creating the run and the first status retrieval all
   *  answer at once, and the run has completed: the exchange goes on to read
   *  the reply. */
  lemma ExchangeOfCompletedRun(remote: Remote, assistantId: string, threadId: string, s: Session, content: string)
    requires remote.addMessage(s.calls).Success? && remote.createRun(s.calls + 1).Success?
    requires remote.retrieveRun(s.calls + 2) == Success(Completed)
    ensures Exchange(remote, assistantId, threadId, s, content) ==
      ReadReply(remote, threadId, AfterPoll(Started(s, threadId, assistantId, content), threadId, remote.createRun(s.calls + 1).value))
  {
    StartsRun(remote, assistantId, threadId, s, content);
    assert Started(s, threadId, assistantId, content).calls == s.calls + 2;
    AwaitOfCompletedRun(remote, threadId, remote.createRun(s.calls + 1).value, Started(s, threadId, assistantId, content));
  }

  /** As above, for a run that fails, is cancelled or expires: the exchange fails
   *  with the message of the status. */
  lemma ExchangeOfEndedRun(remote: Remote, assistantId: string, threadId: string, s: Session, content: string, status: RunStatus)
    requires remote.addMessage(s.calls).Success? && remote.createRun(s.calls + 1).Success?
    requires remote.retrieveRun(s.calls + 2) == Success(status)
    requires status == Failed || status == Cancelled || status == Expired
    ensures Exchange(remote, assistantId, threadId, s, content) ==
      (Failure(ApiError(None, RunEndMessage(status))),
       AfterPoll(Started(s, threadId, assistantId, content), threadId, remote.createRun(s.calls + 1).value))
  {
    StartsRun(remote, assistantId, threadId, s, content);
    assert Started(s, threadId, assistantId, content).calls == s.calls + 2;
    AwaitOfEndedRun(remote, threadId, remote.createRun(s.calls + 1).value, Started(s, threadId, assistantId, content), status);
  }

  /** Listing the messages answers at once: the reply is the first assistant
   *  text, or the no-response error. */
  lemma ReadReplyAtOnce(remote: Remote, threadId: string, s: Session, messages: seq<ThreadMessage>)
    requires remote.listMessages(s.calls) == Success(messages)
    ensures ReadReply(remote, threadId, s) ==
      (ReplyOf(messages), s.(calls := s.calls + 1, log := s.log + [ListMessages(threadId)]))
  {
    SettlesOnFirstTry(remote.listMessages, s.calls, 0);
    RecordSingle(s, Success(messages), ListMessages(threadId));
  }

  /** Without a thread, a failed creation ends the attempt with initThread's
   *  plain error after that one invocation. */
  lemma AttemptOfInitFailure(remote: Remote, assistantId: string, s: Session, content: string)
    requires s.thread.None? && !IsBlank(content)
    requires remote.createThread(s.calls).Failure?
    ensures AttemptSpec(remote, assistantId, s, content) ==
      (Failure(ApiError(None, InitErrorMessage(remote.createThread(s.calls).error))),
       s.(calls := s.calls + 1, log := s.log + [CreateThread]))
  {
    assert InitThreadSpec(remote, s).0.Failure?;
  }

  /** A failed thread creation surfaces as the generic message, even for a 401 or
   *  404: initThread replaces the SDK error by a plain one without a status. */
  lemma InitFailureSurfacesGeneric(remote: Remote, assistantId: string, s: Session, content: string)
    requires s.thread.None? && !IsBlank(content)
    requires remote.createThread(s.calls).Failure?
    ensures SendSpec(remote, assistantId, s, content) ==
      (Failure(RequestFailed), s.(calls := s.calls + 1, log := s.log + [CreateThread]))
  {
    AttemptOfInitFailure(remote, assistantId, s, content);
    SendOfFailure(remote, assistantId, s, content);
  }

  /** Adding the message fails with a 401 or a 404: the exchange fails with that
   *  error after the one invocation, without waiting. */
  lemma ExchangeOfRefusedAdd(remote: Remote, assistantId: string, threadId: string, s: Session, content: string)
    requires remote.addMessage(s.calls).Failure? && !IsRetryable(remote.addMessage(s.calls).error)
    ensures Exchange(remote, assistantId, threadId, s, content) ==
      (Failure(remote.addMessage(s.calls).error), s.(calls := s.calls + 1, log := s.log + [AddMessage(threadId, content)]))
  {
    SettlesOnFirstTry(remote.addMessage, s.calls, 0);
    RecordSingle(s, remote.addMessage(s.calls), AddMessage(threadId, content));
  }

  /** A 401 on adding the message fails at once, without waiting, with the
   *  authentication message, and drops the thread so that the next call creates
   *  a new one. */
  lemma AuthFailureOnAddDropsThread(remote: Remote, assistantId: string, s: Session, content: string)
    requires s.thread.Some? && !IsBlank(content)
    requires remote.addMessage(s.calls).Failure? && remote.addMessage(s.calls).error.status == Some(401)
    ensures SendSpec(remote, assistantId, s, content) ==
      (Failure(AuthFailed), s.(thread := None, calls := s.calls + 1, log := s.log + [AddMessage(s.thread.value, content)]))
  {
    AttemptWithThread(remote, assistantId, s, content);
    ExchangeOfRefusedAdd(remote, assistantId, s.thread.value, s, content);
    SendOfResetting(remote, assistantId, s, content);
  }

  /** Without a thread, the first remote invocation of a non-blank sendMessage is
   *  the creation of a thread. */
  lemma CreatesThreadFirst(remote: Remote, assistantId: string, s: Session, content: string)
    requires s.thread.None? && !IsBlank(content)
    ensures var r := SendSpec(remote, assistantId, s, content);
      |r.1.log| > |s.log| && r.1.log[|s.log|] == CreateThread
  {
    var init := InitThreadSpec(remote, s);
    var a := AttemptSpec(remote, assistantId, s, content);
    assert init.1.log <= a.1.log;
    assert a.1.log[|s.log|] == init.1.log[|s.log|];
  }

  /** The session after the message was added and the run created, each on the
   *  first invocation. */
  function Started(s: Session, threadId: string, assistantId: string, content: string): Session {
    s.(calls := s.calls + 2, log := s.log + [AddMessage(threadId, content), CreateRun(threadId, assistantId)])
  }

  /** Adding the message and creating the run, both succeeding on the first
   *  invocation, hand over to the polling of that run. */
  lemma StartsRun(remote: Remote, assistantId: string, threadId: string, s: Session, content: string)
    requires remote.addMessage(s.calls).Success? && remote.createRun(s.calls + 1).Success?
    ensures Exchange(remote, assistantId, threadId, s, content) ==
      AwaitAndRead(remote, threadId, remote.createRun(s.calls + 1).value, Started(s, threadId, assistantId, content))
  {
    var add := RetrySpec(remote.addMessage, s.calls, 0);
    SettlesOnFirstTry(remote.addMessage, s.calls, 0);
    var s1 := Record(s, add, AddMessage(threadId, content));
    var run := RetrySpec(remote.createRun, s1.calls, 0);
    SettlesOnFirstTry(remote.createRun, s1.calls, 0);
    var s2 := Record(s1, run, CreateRun(threadId, assistantId));
    assert Repeat(AddMessage(threadId, content), 1) == [AddMessage(threadId, content)];
    assert Repeat(CreateRun(threadId, assistantId), 1) == [CreateRun(threadId, assistantId)];
    assert s2 == Started(s, threadId, assistantId, content);
    assert RunAndRead(remote, assistantId, threadId, s1) == AwaitAndRead(remote, threadId, run.result.value, s2);
  }

  /** A run that ends `failed`, `cancelled` or `expired` surfaces as the generic
   *  message and keeps the thread. */
  lemma RunFailureSurfacesGeneric(remote: Remote, assistantId: string, s: Session, content: string, status: RunStatus)
    requires s.thread.Some? && !IsBlank(content)
    requires remote.addMessage(s.calls).Success? && remote.createRun(s.calls + 1).Success?
    requires status == Failed || status == Cancelled || status == Expired
    requires remote.retrieveRun(s.calls + 2) == Success(status)
    ensures var r := SendSpec(remote, assistantId, s, content);
      r.0 == Failure(RequestFailed) && r.1.thread == s.thread && r.1.calls == s.calls + 3
  {
    AttemptWithThread(remote, assistantId, s, content);
    ExchangeOfEndedRun(remote, assistantId, s.thread.value, s, content, status);
    RunEndKeepsThread(status);
    SendOfFailure(remote, assistantId, s, content);
  }

  /** With a thread, a completed run found by the first status retrieval leads
   *  the attempt to read the reply. */
  lemma AttemptOfCompletedRun(remote: Remote, assistantId: string, s: Session, content: string)
    requires s.thread.Some? && !IsBlank(content)
    requires remote.addMessage(s.calls).Success? && remote.createRun(s.calls + 1).Success?
    requires remote.retrieveRun(s.calls + 2) == Success(Completed)
    ensures AttemptSpec(remote, assistantId, s, content) ==
      ReadReply(remote, s.thread.value,
        AfterPoll(Started(s, s.thread.value, assistantId, content), s.thread.value, remote.createRun(s.calls + 1).value))
  {
    AttemptWithThread(remote, assistantId, s, content);
    ExchangeOfCompletedRun(remote, assistantId, s.thread.value, s, content);
  }

  /** The reply picked from the listed messages, as the attempt reports it: the
   *  non-empty text of the first assistant message, or the no-response error
   *  when that message has no text or there is no assistant message. */
  function ReplyOf(messages: seq<ThreadMessage>): (r: Result<string, ApiError>)
    ensures r.Success? ==> exists i :: RepliesAt(messages, i, r.value)
    ensures r.Failure? ==> r.error == ApiError(None, NoResponseMessage)
    ensures r.Failure? ==> forall i :: FirstAssistantAt(messages, i) ==> !HasText(messages[i])
  {
    match FirstAssistantText(messages)
    case Some(text) => Success(text)
    case None => Failure(ApiError(None, NoResponseMessage))
  }

  /** With a thread, every step answering at once and the run completed: the
   *  attempt reads the reply after four invocations. */
  lemma AttemptReadsFirstAssistantText(remote: Remote, assistantId: string, s: Session, content: string, messages: seq<ThreadMessage>)
    requires s.thread.Some? && !IsBlank(content)
    requires remote.addMessage(s.calls).Success? && remote.createRun(s.calls + 1).Success?
    requires remote.retrieveRun(s.calls + 2) == Success(Completed)
    requires remote.listMessages(s.calls + 3) == Success(messages)
    ensures var a := AttemptSpec(remote, assistantId, s, content);
      a.0 == ReplyOf(messages) && a.1.thread == s.thread && a.1.calls == s.calls + 4 && a.1.waits == s.waits
  {
    var threadId, runId := s.thread.value, remote.createRun(s.calls + 1).value;
    var polled := AfterPoll(Started(s, threadId, assistantId, content), threadId, runId);
    assert polled.calls == s.calls + 3;
    AttemptOfCompletedRun(remote, assistantId, s, content);
    ReadReplyAtOnce(remote, threadId, polled, messages);
  }

  /** Once the run completes, the reply is the text of the first assistant
   *  message in list order; without such a text the generic message surfaces.
   *  Either way the exchange took four invocations and no wait. */
  lemma SendReadsFirstAssistantText(remote: Remote, assistantId: string, s: Session, content: string, messages: seq<ThreadMessage>)
    requires s.thread.Some? && !IsBlank(content)
    requires remote.addMessage(s.calls).Success? && remote.createRun(s.calls + 1).Success?
    requires remote.retrieveRun(s.calls + 2) == Success(Completed)
    requires remote.listMessages(s.calls + 3) == Success(messages)
    ensures var r := SendSpec(remote, assistantId, s, content);
      r.0 == (match FirstAssistantText(messages) case Some(text) => Success(text) case None => Failure(RequestFailed)) &&
      r.1.thread == s.thread && r.1.calls == s.calls + 4 && r.1.waits == s.waits
  {
    AttemptReadsFirstAssistantText(remote, assistantId, s, content, messages);
    if FirstAssistantText(messages).Some? {
      SendOfSuccess(remote, assistantId, s, content);
    } else {
      NoResponseKeepsThread();
      SendOfFailure(remote, assistantId, s, content);
    }
  }

  /** An existing thread is dropped exactly when the attempt fails with a 401, a
   *  404 or an error that says `Thread not found`. */
  lemma ThreadDroppedIffResetting(remote: Remote, assistantId: string, s: Session, content: string)
    requires s.thread.Some?
    ensures var a := AttemptSpec(remote, assistantId, s, content);
      SendSpec(remote, assistantId, s, content).1.thread.None? <==> a.0.Failure? && ResetsThread(a.0.error)
  {
  }

  /** A run that stays `in_progress` makes the wait time out after thirty status
   *  retrievals and thirty one-second waits; nothing is listed. */
  lemma AwaitTimesOut(remote: Remote, threadId: string, runId: string, s: Session)
    requires forall i :: s.calls <= i ==> remote.retrieveRun(i) == Success(InProgress)
    ensures var r := AwaitAndRead(remote, threadId, runId, s);
      && r.0 == Failure(ApiError(None, TimedOutMessage))
      && r.1.calls == s.calls + MaxPollAttempts
      && r.1.waits == s.waits + Repeat(PollInterval, MaxPollAttempts)
      && r.1.log == s.log + Repeat(RetrieveRun(threadId, runId), MaxPollAttempts)
  {
    PollTimesOut(remote, threadId, runId, 0, s);
  }

  /** With a thread, the message added and the run created at once, and the run
   *  staying `in_progress`, the attempt times out. */
  lemma AttemptTimesOut(remote: Remote, assistantId: string, s: Session, content: string)
    requires s.thread.Some? && !IsBlank(content)
    requires remote.addMessage(s.calls).Success? && remote.createRun(s.calls + 1).Success?
    requires forall i :: s.calls + 2 <= i ==> remote.retrieveRun(i) == Success(InProgress)
    ensures var a := AttemptSpec(remote, assistantId, s, content);
      && a.0 == Failure(ApiError(None, TimedOutMessage)) && a.1.thread == s.thread
      && a.1.calls == s.calls + 2 + MaxPollAttempts && a.1.waits == s.waits + Repeat(PollInterval, MaxPollAttempts)
  {
    var started := Started(s, s.thread.value, assistantId, content);
    assert started.calls == s.calls + 2 && started.waits == s.waits;
    AttemptWithThread(remote, assistantId, s, content);
    StartsRun(remote, assistantId, s.thread.value, s, content);
    AwaitTimesOut(remote, s.thread.value, remote.createRun(s.calls + 1).value, started);
  }

  /** A run stuck in `in_progress` makes sendMessage fail with the generic message
   *  after thirty polls and thirty seconds of waiting, keeping the thread. */
  lemma SendTimesOut(remote: Remote, assistantId: string, s: Session, content: string)
    requires s.thread.Some? && !IsBlank(content)
    requires remote.addMessage(s.calls).Success? && remote.createRun(s.calls + 1).Success?
    requires forall i :: s.calls + 2 <= i ==> remote.retrieveRun(i) == Success(InProgress)
    ensures var r := SendSpec(remote, assistantId, s, content);
      r.0 == Failure(RequestFailed) && r.1.thread == s.thread &&
      r.1.calls == s.calls + 2 + MaxPollAttempts && r.1.waits == s.waits + Repeat(PollInterval, MaxPollAttempts)
  {
    AttemptTimesOut(remote, assistantId, s, content);
    var e := AttemptSpec(remote, assistantId, s, content).0.error;
    assert e == ApiError(None, TimedOutMessage);
    assert ErrorNotice(e) == RequestFailed;
    TimedOutKeepsThread();
    SendOfFailure(remote, assistantId, s, content);
  }

  // ---------------------------------------------------------------------------
  // Where a reply comes from, whatever the retries and polls on the way

  /** The last invocation of the session listed the messages of `threadId`, and
   *  the listing it answered has `text` as its first assistant text. */
  predicate LastListingReplies(remote: Remote, threadId: string, s: Session, text: string) {
    && 0 < s.calls && |s.log| > 0 && s.log[|s.log| - 1] == ListMessages(threadId)
    && remote.listMessages(s.calls - 1).Success?
    && FirstAssistantText(remote.listMessages(s.calls - 1).value) == Some(text)
  }

  /** Polling never takes back an invocation. */
  lemma {:induction false} PollCallsGrow(remote: Remote, threadId: string, runId: string, attempts: nat, s: Session)
    requires attempts < MaxPollAttempts
    ensures s.calls < PollSpec(remote, threadId, runId, attempts, s).session.calls
    decreases MaxPollAttempts - attempts
  {
    var next := NextRound(remote, threadId, runId, s);
    assert s.calls < next.calls;
    if attempts + 1 < MaxPollAttempts && StillRunning(remote, s) {
      PollContinues(remote, threadId, runId, attempts, s);
      PollCallsGrow(remote, threadId, runId, attempts + 1, next);
    } else {
      PollEnds(remote, threadId, runId, attempts, s);
    }
  }

  /** A reply read from the thread is the first assistant text of the listing
   *  answered by the read's last invocation. */
  lemma ReadReplyListed(remote: Remote, threadId: string, s: Session)
    ensures var r := ReadReply(remote, threadId, s);
      r.0.Success? ==> s.calls < r.1.calls && LastListingReplies(remote, threadId, r.1, r.0.value)
  {
    var list := RetrySpec(remote.listMessages, s.calls, 0);
    var r := ReadReply(remote, threadId, s);
    if r.0.Success? {
      assert remote.listMessages(s.calls + list.invocations - 1) == list.result;
      assert r.1.calls == s.calls + list.invocations;
      assert r.1.log == s.log + Repeat(ListMessages(threadId), list.invocations);
    }
  }

  lemma AwaitAndReadListed(remote: Remote, threadId: string, runId: string, s: Session)
    ensures var r := AwaitAndRead(remote, threadId, runId, s);
      r.0.Success? ==> s.calls < r.1.calls && LastListingReplies(remote, threadId, r.1, r.0.value)
  {
    var polled := PollSpec(remote, threadId, runId, 0, s);
    PollCallsGrow(remote, threadId, runId, 0, s);
    if polled.outcome.Success? {
      ReadReplyListed(remote, threadId, polled.session);
    }
  }

  lemma RunAndReadListed(remote: Remote, assistantId: string, threadId: string, s: Session)
    ensures var r := RunAndRead(remote, assistantId, threadId, s);
      r.0.Success? ==> s.calls < r.1.calls && LastListingReplies(remote, threadId, r.1, r.0.value)
  {
    var run := RetrySpec(remote.createRun, s.calls, 0);
    var s1 := Record(s, run, CreateRun(threadId, assistantId));
    if run.result.Success? {
      AwaitAndReadListed(remote, threadId, run.result.value, s1);
    }
  }

  lemma ExchangeListed(remote: Remote, assistantId: string, threadId: string, s: Session, content: string)
    ensures var r := Exchange(remote, assistantId, threadId, s, content);
      r.0.Success? ==> s.calls < r.1.calls && LastListingReplies(remote, threadId, r.1, r.0.value)
  {
    var add := RetrySpec(remote.addMessage, s.calls, 0);
    var s1 := Record(s, add, AddMessage(threadId, content));
    if add.result.Success? {
      RunAndReadListed(remote, assistantId, threadId, s1);
    }
  }

  /** Whatever retries and polls it took, a reply of the attempt is the first
   *  assistant text of the listing of the thread's messages that its last
   *  invocation answered. */
  lemma AttemptReplyListed(remote: Remote, assistantId: string, s: Session, content: string)
    ensures var a := AttemptSpec(remote, assistantId, s, content);
      a.0.Success? ==> s.calls < a.1.calls && LastListingReplies(remote, a.1.thread.value, a.1, a.0.value)
  {
    if !IsBlank(content) {
      var init := InitThreadSpec(remote, s);
      if init.0.Success? {
        assert s.calls <= init.1.calls;
        ExchangeListed(remote, assistantId, init.0.value, init.1, content);
      }
    }
  }

  /** What sendMessage returns is the first assistant text of the listing of the
   *  thread's messages that its last invocation answered, and nothing else. */
  lemma SendReplyListed(remote: Remote, assistantId: string, s: Session, content: string)
    ensures var r := SendSpec(remote, assistantId, s, content);
      r.0.Success? ==> s.calls < r.1.calls && LastListingReplies(remote, r.1.thread.value, r.1, r.0.value)
  {
    AttemptReplyListed(remote, assistantId, s, content);
    SendOfSuccess(remote, assistantId, s, content);
  }
}

/**
 * The assistant client as an object: the lazily created thread is a field that
 * sendMessage sets and clears, and the retry helper and the polling loop run
 * step by step. Each method is proved to leave the object in the state, and to
 * return the result, that the matching function of `OpenAIModel` prescribes.
 */
module OpenAIService {
  import opened Wrappers
  import opened Text
  import opened OpenAIModel

  class AssistantService {
    const assistantId: string
    const remote: Remote
    var thread: Option<string>
    /** The number of remote invocations made so far; it selects the scripted answer. */
    var calls: nat
    ghost var waits: seq<nat>
    ghost var log: seq<Call>

    ghost function State(): Session
      reads this
    {
      Session(thread, calls, waits, log)
    }

    /** The constructor once its checks have passed: no thread yet. */
    constructor (config: Config, remote: Remote)
      requires CheckConfiguration(Some(config.apiKey), Some(config.assistantId)) == Success(config)
      ensures assistantId == config.assistantId && this.remote == remote
      ensures State() == Session(None, 0, [], [])
    {
      assistantId := config.assistantId;
      this.remote := remote;
      thread := None;
      calls := 0;
      waits := [];
      log := [];
    }

    /** `new OpenAIService()` reading the two settings: it throws, and no client
     *  exists, unless both are configured. */
    static method Create(apiKey: Option<string>, assistantId: Option<string>, remote: Remote)
      returns (r: Result<AssistantService, string>)
      ensures r.Success? <==> CheckConfiguration(apiKey, assistantId).Success?
      ensures r.Failure? ==> r.error == CheckConfiguration(apiKey, assistantId).error
      ensures r.Success? ==>
        fresh(r.value) && r.value.State() == Session(None, 0, [], []) &&
        r.value.assistantId == assistantId.value && r.value.remote == remote
    {
      var checked := CheckConfiguration(apiKey, assistantId);
      match checked {
        case Failure(e) =>
          r := Failure(e);
        case Success(config) =>
          var service := new AssistantService(config, remote);
          r := Success(service);
      }
    }

    /** `wait(ms)`: the delay is recorded, nothing else changes. */
    method Wait(ms: nat)
      modifies this
      ensures State() == old(State()).(waits := old(waits) + [ms])
    {
      waits := waits + [ms];
    }

    /** One remote invocation: its answer is selected by the invocation count. */
    method Invoke<T>(op: nat -> Result<T, ApiError>, ghost call: Call) returns (answer: Result<T, ApiError>)
      modifies this
      ensures answer == op(old(calls))
      ensures State() == old(State()).(calls := old(calls) + 1, log := old(log) + [call])
    {
      answer := op(calls);
      calls := calls + 1;
      log := log + [call];
    }

    /** `retryOperation(operation, retryCount)`, with `op` answering the operation
     *  and `call` the invocation it stands for. */
    method Retry<T>(op: nat -> Result<T, ApiError>, ghost call: Call, retryCount: nat) returns (r: Result<T, ApiError>)
      modifies this
      ensures (r, State()) == RetryOutcome(op, old(State()), retryCount, call)
      decreases MaxRetries - retryCount
    {
      ghost var s0 := State();
      var answer := Invoke(op, call);
      if answer.Failure? && answer.error.status != Some(401) && answer.error.status != Some(404) &&
         retryCount < MaxRetries {
        Wait(Backoff(retryCount));
        RetryOutcomeStep(op, s0, retryCount, call);
        r := Retry(op, call, retryCount + 1);
      } else {
        r := answer;
        RetryOutcomeSettled(op, s0, retryCount, call);
      }
    }

    /** `initThread()`. */
    method InitThread() returns (r: Result<string, ApiError>)
      modifies this
      ensures (r, State()) == InitThreadSpec(remote, old(State()))
    {
      if thread.Some? {
        return Success(thread.value);
      }
      var created := remote.createThread(calls);
      calls := calls + 1;
      log := log + [CreateThread];
      match created {
        case Success(id) =>
          thread := Some(id);
          r := Success(id);
        case Failure(e) =>
          r := Failure(ApiError(None, InitErrorMessage(e)));
      }
    }

    /** The polling loop of sendMessage: at most thirty rounds of a retried status
     *  retrieval followed by a one-second wait. */
    method AwaitRun(threadId: string, runId: string) returns (r: Result<(), ApiError>)
      modifies this
      ensures r == PollSpec(remote, threadId, runId, 0, old(State())).outcome
      ensures State() == PollSpec(remote, threadId, runId, 0, old(State())).session
    {
      ghost var spec := PollSpec(remote, threadId, runId, 0, State());
      var attempts := 0;
      while true
        invariant 0 <= attempts < MaxPollAttempts
        invariant PollSpec(remote, threadId, runId, attempts, State()).outcome == spec.outcome
        invariant PollSpec(remote, threadId, runId, attempts, State()).session == spec.session
        decreases MaxPollAttempts - attempts
      {
        ghost var before := State();
        var response := Retry(remote.retrieveRun, RetrieveRun(threadId, runId), 0);
        if response.Failure? {
          return Failure(response.error);
        }
        var status := response.value;
        if status == Completed {
          return Success(());
        } else if status == Failed || status == Cancelled || status == Expired {
          return Failure(ApiError(None, RunEndMessage(status)));
        }
        Wait(PollInterval);
        attempts := attempts + 1;
        if attempts >= MaxPollAttempts {
          return Failure(ApiError(None, TimedOutMessage));
        }
        if status != InProgress && status != Queued {
          return Success(());
        }
        assert PollSpec(remote, threadId, runId, attempts - 1, before).session ==
          PollSpec(remote, threadId, runId, attempts, State()).session;
      }
    }

    /** The body of sendMessage's `try`. */
    method Attempt(content: string) returns (r: Result<string, ApiError>)
      modifies this
      ensures (r, State()) == AttemptSpec(remote, assistantId, old(State()), content)
    {
      if Trim(content) == [] {
        return Failure(ApiError(None, InvalidInputMessage));
      }
      if thread.None? {
        var init := InitThread();
        if init.Failure? {
          return Failure(init.error);
        }
      }
      var threadId := thread.value;
      ghost var s0 := State();
      var added := Retry(remote.addMessage, AddMessage(threadId, content), 0);
      if added.Failure? {
        return Failure(added.error);
      }
      ghost var s1 := State();
      var run := Retry(remote.createRun, CreateRun(threadId, assistantId), 0);
      if run.Failure? {
        return Failure(run.error);
      }
      ghost var s2 := State();
      var polled := AwaitRun(threadId, run.value);
      if polled.Failure? {
        assert AwaitAndRead(remote, threadId, run.value, s2) == (Failure(polled.error), State());
        return Failure(polled.error);
      }
      var messages := Retry(remote.listMessages, ListMessages(threadId), 0);
      if messages.Failure? {
        r := Failure(messages.error);
      } else {
        var text := FirstAssistantText(messages.value);
        if text.None? {
          r := Failure(ApiError(None, NoResponseMessage));
        } else {
          r := Success(text.value);
        }
      }
      assert AwaitAndRead(remote, threadId, run.value, s2) == (r, State());
    }

    /** `sendMessage(content)`: the reply, or one of the five messages; the
     *  thread is dropped on a 401, a 404 or a `Thread not found` error. */
    method SendMessage(content: string) returns (r: Result<string, string>)
      modifies this
      ensures r == Shown(SendSpec(remote, assistantId, old(State()), content).0)
      ensures State() == SendSpec(remote, assistantId, old(State()), content).1
    {
      ghost var s0 := State();
      var attempt := Attempt(content);
      ghost var s1 := State();
      assert (attempt, s1) == AttemptSpec(remote, assistantId, s0, content);
      match attempt {
        case Success(text) =>
          SendOfSuccess(remote, assistantId, s0, content);
          r := Success(text);
        case Failure(e) =>
          if ResetsThread(e) {
            SendOfResetting(remote, assistantId, s0, content);
            thread := None;
            assert State() == s1.(thread := None);
          } else {
            SendOfFailure(remote, assistantId, s0, content);
          }
          r := Failure(NoticeText(ErrorNotice(e)));
      }
    }
  }
}

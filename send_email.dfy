/**
 * `sendEmail` of the email step: ask the backend for a login code unless one
 * was already requested for the same address, then store the next-allowed
 * time, mark the code requested, start the resend timer, update the stored
 * address and hand the address on, in that order.
 *
 * As in the withdrawal step, every call into the auth context, the token
 * storage, the timer, the backend and the caller is recorded, in order, as
 * an `Effect`; the backend's answer is a parameter.
 */
module SendEmail {
  import opened Wrappers

  /** The resend countdown started after a code request. */
  const TIMER_SECONDS: nat := 60

  /** The body of `getCodeAsync`'s answer: an error text, or the next allowed request time. */
  datatype CodeResponse = CodeResponse(error: Option<string>, next: Option<int>)

  /** What `getCodeAsync` does: resolves, or rejects with the server's error messages and its own. */
  datatype CodeOutcome =
    | Responded(response: CodeResponse)
    | RequestFailed(serverErrors: seq<string>, message: string)

  datatype Effect =
    | CodeRequestSent(email: string)
    | CodeNextTimeStored(next: Option<int>)
    | CodeRequestedSet(requested: bool)
    | TimerStarted(seconds: nat)
    | EmailUpdated(email: string)
    | Sent(email: string)
    | ErrorToasted(message: string)

  /** The auth context, the stored next-code time and the last started countdown. */
  datatype AuthState = AuthState(email: Option<string>, codeRequested: bool, codeNextTime: Option<int>, timerSeconds: Option<nat>)

  function Apply(s: AuthState, e: Effect): AuthState {
    match e
    case CodeNextTimeStored(t) => s.(codeNextTime := t)
    case CodeRequestedSet(b) => s.(codeRequested := b)
    case TimerStarted(n) => s.(timerSeconds := Some(n))
    case EmailUpdated(m) => s.(email := Some(m))
    case _ => s
  }

  /** The state after performing `es`, in order, from `s`. */
  function Replay(s: AuthState, es: seq<Effect>): AuthState
    decreases |es|
  {
    if es == [] then s else Apply(Replay(s, es[..|es| - 1]), es[|es| - 1])
  }

  /** A new code is needed when the address changed or none was requested yet. */
  predicate NeedsCode(input: string, stored: Option<string>, codeRequested: bool) {
    stored != Some(input) || !codeRequested
  }

  /** `items` joined with `sep` in between (`Array.prototype.join`). */
  function Join(items: seq<string>, sep: string): (r: string)
    ensures |items| == 0 ==> r == ""
    ensures |items| == 1 ==> r == items[0]
    ensures |items| > 0 ==> |r| >= |items[0]| && r[..|items[0]|] == items[0]
  {
    if items == [] then ""
    else if |items| == 1 then items[0]
    else
      var r := items[0] + sep + Join(items[1..], sep);
      assert r[..|items[0]|] == items[0];
      r
  }

  /** The `catch` block's toast text. */
  function ErrorText(outcome: CodeOutcome): string
    requires outcome.RequestFailed?
  {
    if |outcome.serverErrors| > 0 then Join(outcome.serverErrors, ", ") else outcome.message
  }

  /** The backend answered without an error: the `try` block runs to its end. */
  predicate RequestSucceeded(outcome: CodeOutcome) {
    outcome.Responded? && !(outcome.response.error.Some? && outcome.response.error.value != "")
  }

  /** Requesting the code: on success the bookkeeping, otherwise the `catch` block's toast. */
  function RequestEffects(input: string, outcome: CodeOutcome): seq<Effect> {
    [CodeRequestSent(input)]
    + match outcome
      case RequestFailed(_, _) => [ErrorToasted(ErrorText(outcome))]
      case Responded(res) =>
        if RequestSucceeded(outcome) then [CodeNextTimeStored(res.next), CodeRequestedSet(true), TimerStarted(TIMER_SECONDS)]
        else [ErrorToasted(res.error.value)]
  }

  /** `sendEmail` for the submitted address, given the stored address and flag. */
  function SendEffects(input: string, stored: Option<string>, codeRequested: bool, outcome: CodeOutcome): seq<Effect> {
    if NeedsCode(input, stored, codeRequested) then
      RequestEffects(input, outcome) + (if RequestSucceeded(outcome) then [EmailUpdated(input), Sent(input)] else [])
    else [EmailUpdated(input), Sent(input)]
  }

  class EmailStep {
    var email: Option<string>
    var codeRequested: bool
    var codeNextTime: Option<int>
    var timerSeconds: Option<nat>
    var trace: seq<Effect>
    /** The auth state the step was mounted with. */
    ghost var start: AuthState

    function State(): AuthState
      reads this
    {
      AuthState(email, codeRequested, codeNextTime, timerSeconds)
    }

    ghost predicate Valid()
      reads this
    {
      State() == Replay(start, trace)
    }

    constructor (s: AuthState)
      ensures Valid() && trace == [] && State() == s
    {
      email, codeRequested, codeNextTime, timerSeconds := s.email, s.codeRequested, s.codeNextTime, s.timerSeconds;
      trace := [];
      start := s;
    }

    method Perform(e: Effect)
      requires Valid()
      modifies this
      ensures Valid() && start == old(start)
      ensures trace == old(trace) + [e]
      ensures State() == Apply(old(State()), e)
    {
      match e {
        case CodeNextTimeStored(t) => codeNextTime := t;
        case CodeRequestedSet(b) => codeRequested := b;
        case TimerStarted(n) => timerSeconds := Some(n);
        case EmailUpdated(m) => email := Some(m);
        case _ =>
      }
      trace := trace + [e];
      ReplayConcat(start, old(trace), [e]);
    }

    method SendEmail(input: string, outcome: CodeOutcome)
      requires Valid()
      modifies this
      ensures Valid() && start == old(start)
      ensures trace == old(trace) + SendEffects(input, old(email), old(codeRequested), outcome)
      ensures State() == Replay(old(State()), SendEffects(input, old(email), old(codeRequested), outcome))
    {
      if Some(input) != email || !codeRequested {
        ghost var before := trace;
        var ok := RequestCode(input, outcome);
        if ok {
          Deliver(input);
          Regroup(before, RequestEffects(input, outcome), [EmailUpdated(input), Sent(input)]);
        } else {
          Regroup(before, RequestEffects(input, outcome), []);
        }
      } else {
        Deliver(input);
      }
      ReplayConcat(start, old(trace), SendEffects(input, old(email), old(codeRequested), outcome));
    }

    /** `updateEmail` and `onSend`, the end of the `try` block. */
    method Deliver(input: string)
      requires Valid()
      modifies this
      ensures Valid() && start == old(start)
      ensures trace == old(trace) + [EmailUpdated(input), Sent(input)]
    {
      Perform(EmailUpdated(input));
      Perform(Sent(input));
    }

    /** `getCodeAsync` and what follows it inside the `try` block; false when it threw. */
    method RequestCode(input: string, outcome: CodeOutcome) returns (ok: bool)
      requires Valid()
      modifies this
      ensures Valid() && start == old(start)
      ensures ok == RequestSucceeded(outcome)
      ensures trace == old(trace) + RequestEffects(input, outcome)
    {
      Perform(CodeRequestSent(input));
      match outcome {
        case RequestFailed(_, _) =>
          Perform(ErrorToasted(ErrorText(outcome)));
          ok := false;
        case Responded(res) =>
          if res.error.Some? && res.error.value != "" {
            Perform(ErrorToasted(res.error.value));
            ok := false;
          } else {
            Perform(CodeNextTimeStored(res.next));
            Perform(CodeRequestedSet(true));
            Perform(TimerStarted(TIMER_SECONDS));
            ok := true;
          }
      }
    }
  }

  /** Appending a request's effects and then what follows it is appending both at once. */
  lemma Regroup(before: seq<Effect>, request: seq<Effect>, rest: seq<Effect>)
    ensures before + request + rest == before + (request + rest)
  {
  }

  /** Performing two effect sequences in turn is performing their concatenation. */
  lemma {:induction false} ReplayConcat(s: AuthState, a: seq<Effect>, b: seq<Effect>)
    ensures Replay(s, a + b) == Replay(Replay(s, a), b)
    decreases |b|
  {
    if b != [] {
      assert (a + b)[..|a + b| - 1] == a + b[..|b| - 1];
      ReplayConcat(s, a, b[..|b| - 1]);
    } else {
      assert a + b == a;
    }
  }

  /** A code is requested from the backend exactly when `NeedsCode` holds, and then first. */
  lemma RequestsCodeIffNeeded(input: string, stored: Option<string>, codeRequested: bool, outcome: CodeOutcome)
    ensures CodeRequestSent(input) in SendEffects(input, stored, codeRequested, outcome)
        <==> NeedsCode(input, stored, codeRequested)
    ensures NeedsCode(input, stored, codeRequested) ==> SendEffects(input, stored, codeRequested, outcome)[0] == CodeRequestSent(input)
    ensures !NeedsCode(input, stored, codeRequested) ==>
      SendEffects(input, stored, codeRequested, outcome) == [EmailUpdated(input), Sent(input)]
  {
  }

  /** Performing `e` and then `rest`. */
  lemma ReplayCons(s: AuthState, e: Effect, rest: seq<Effect>)
    ensures Replay(s, [e] + rest) == Replay(Apply(s, e), rest)
  {
    ReplayConcat(s, [e], rest);
    ReplayOne(s, e);
  }

  /** Performing the single effect `e`. */
  lemma ReplayOne(s: AuthState, e: Effect)
    ensures Replay(s, [e]) == Apply(s, e)
  {
  }

  /**
   * A successful request stores the next-allowed time, marks the code
   * requested, starts the 60-second timer, updates the address and calls
   * `onSend`, in that order.
   */
  lemma SuccessfulRequestOrder(s: AuthState, input: string, res: CodeResponse)
    requires NeedsCode(input, s.email, s.codeRequested)
    requires res.error.None? || res.error.value == ""
    ensures SendEffects(input, s.email, s.codeRequested, Responded(res))
         == [CodeRequestSent(input), CodeNextTimeStored(res.next), CodeRequestedSet(true),
             TimerStarted(TIMER_SECONDS), EmailUpdated(input), Sent(input)]
    ensures Replay(s, SendEffects(input, s.email, s.codeRequested, Responded(res)))
         == AuthState(Some(input), true, res.next, Some(TIMER_SECONDS))
  {
    var s1 := Apply(s, CodeRequestSent(input));
    var s2 := Apply(s1, CodeNextTimeStored(res.next));
    var s3 := Apply(s2, CodeRequestedSet(true));
    var s4 := Apply(s3, TimerStarted(TIMER_SECONDS));
    var t5 := [Sent(input)];
    var t4 := [EmailUpdated(input)] + t5;
    var t3 := [TimerStarted(TIMER_SECONDS)] + t4;
    var t2 := [CodeRequestedSet(true)] + t3;
    var t1 := [CodeNextTimeStored(res.next)] + t2;
    assert SendEffects(input, s.email, s.codeRequested, Responded(res)) == [CodeRequestSent(input)] + t1;
    ReplayCons(s, CodeRequestSent(input), t1);
    ReplayCons(s1, CodeNextTimeStored(res.next), t2);
    ReplayCons(s2, CodeRequestedSet(true), t3);
    ReplayCons(s3, TimerStarted(TIMER_SECONDS), t4);
    ReplayCons(s4, EmailUpdated(input), t5);
    ReplayOne(Apply(s4, EmailUpdated(input)), Sent(input));
  }

  /** Without a request, only the address is updated and `onSend` is called. */
  lemma NoRequestNeeded(s: AuthState, input: string, outcome: CodeOutcome)
    requires !NeedsCode(input, s.email, s.codeRequested)
    ensures SendEffects(input, s.email, s.codeRequested, outcome) == [EmailUpdated(input), Sent(input)]
    ensures Replay(s, SendEffects(input, s.email, s.codeRequested, outcome)) == s
  {
    ReplayCons(s, EmailUpdated(input), [Sent(input)]);
    ReplayOne(Apply(s, EmailUpdated(input)), Sent(input));
  }

  /**
   * A backend error stops after the request: the state is untouched and the
   * toast shows the server's messages joined with ", ", or the error's own
   * message when the server sent none.
   */
  lemma BackendErrorAborts(s: AuthState, input: string, outcome: CodeOutcome)
    requires NeedsCode(input, s.email, s.codeRequested)
    requires outcome.RequestFailed?
    ensures SendEffects(input, s.email, s.codeRequested, outcome)
         == [CodeRequestSent(input), ErrorToasted(ErrorText(outcome))]
    ensures |outcome.serverErrors| == 0 ==> ErrorText(outcome) == outcome.message
    ensures |outcome.serverErrors| == 1 ==> ErrorText(outcome) == outcome.serverErrors[0]
    ensures Replay(s, SendEffects(input, s.email, s.codeRequested, outcome)) == s
  {
    ReplayCons(s, CodeRequestSent(input), [ErrorToasted(ErrorText(outcome))]);
    ReplayOne(s, ErrorToasted(ErrorText(outcome)));
  }

  /** An error in the backend's answer aborts the same way, toasting its text. */
  lemma ErrorAnswerAborts(s: AuthState, input: string, res: CodeResponse)
    requires NeedsCode(input, s.email, s.codeRequested)
    requires res.error.Some? && res.error.value != ""
    ensures SendEffects(input, s.email, s.codeRequested, Responded(res))
         == [CodeRequestSent(input), ErrorToasted(res.error.value)]
    ensures Replay(s, SendEffects(input, s.email, s.codeRequested, Responded(res))) == s
  {
    ReplayCons(s, CodeRequestSent(input), [ErrorToasted(res.error.value)]);
    ReplayOne(s, ErrorToasted(res.error.value));
  }

  /** After a successful send, sending the same address again needs no new code. */
  lemma ResendSameAddressSkipsRequest(s: AuthState, input: string, outcome: CodeOutcome)
    requires outcome.Responded? && (outcome.response.error.None? || outcome.response.error.value == "")
    ensures !NeedsCode(input, Replay(s, SendEffects(input, s.email, s.codeRequested, outcome)).email,
                       Replay(s, SendEffects(input, s.email, s.codeRequested, outcome)).codeRequested)
  {
    if NeedsCode(input, s.email, s.codeRequested) {
      SuccessfulRequestOrder(s, input, outcome.response);
    } else {
      NoRequestNeeded(s, input, outcome);
    }
  }
}

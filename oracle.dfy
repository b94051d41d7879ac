/** The exchange with the solving service (login.js:59-81): one
    task-creation answer, then at most thirty status polls. The answers are
    inputs; each poll is one step of the loop. */
module Oracle {
  import opened Wrappers

  /** The `request` field of an answer: a string (ticket, error code or
      token), a solution object `{token, useragent}`, or `undefined`. */
  datatype Payload = Text(s: string) | Solution(token: Option<string>, useragent: Option<string>) | Null

  /** `if (request)`: an empty string and `undefined` are falsy, an object is
      always truthy. */
  predicate PayloadTruthy(p: Payload)
  {
    match p
    case Text(s) => s != ""
    case Solution(_, _) => true
    case Null => false
  }

  /** A JSON answer `{status, request}` of the service. */
  datatype Answer = Answer(status: int, request: Payload)

  /** The poll ceiling. */
  const MaxPolls: nat := 30

  /** The code the service uses for "keep polling". */
  const NotReady: string := "CAPCHA_NOT_READY"

  /** How the exchange ends: a result, the task-creation error, the poll
      error, or no usable result within the ceiling. */
  datatype Outcome = Solved(result: Payload) | Rejected(msg: Payload) | PollFailed(msg: Payload) | Timeout

  /** An answer that makes the loop continue: not a success, and the
      not-ready code. */
  predicate Pending(a: Answer)
  {
    a.status != 1 && a.request == Text(NotReady)
  }

  /** How the poll loop leaves: `break` with a payload, `throw` with the
      service's message, or the counter reaching the ceiling. */
  datatype Stop = Got(result: Payload) | Threw(msg: Payload) | Exhausted

  /** The poll loop from iteration `i` on: the way it stops and the number of
      polls made in total. */
  function PollFrom(polls: seq<Answer>, i: nat): (Stop, nat)
    requires i <= MaxPolls <= |polls|
    decreases MaxPolls - i
  {
    if i == MaxPolls then (Exhausted, i)
    else if polls[i].status == 1 then (Got(polls[i].request), i + 1)
    else if polls[i].request == Text(NotReady) then PollFrom(polls, i + 1)
    else (Threw(polls[i].request), i + 1)
  }

  /** The whole exchange: the outcome and the number of polls made. */
  function Exchange(submit: Answer, polls: seq<Answer>): (Outcome, nat)
    requires MaxPolls <= |polls|
  {
    if submit.status != 1 then (Rejected(submit.request), 0)
    else
      var (stop, used) := PollFrom(polls, 0);
      match stop
      case Got(p) => (if PayloadTruthy(p) then Solved(p) else Timeout, used)
      case Threw(m) => (PollFailed(m), used)
      case Exhausted => (Timeout, used)
  }

  /** Checks the task-creation answer, then polls: `status === 1` stores the
      result and breaks, the not-ready code continues, anything else throws;
      no usable result after the loop is a timeout. */
  method SubmitAndPoll(submit: Answer, polls: seq<Answer>) returns (outcome: Outcome, used: nat)
    requires MaxPolls <= |polls|
    ensures (outcome, used) == Exchange(submit, polls)
  {
    if submit.status != 1 {
      return Rejected(submit.request), 0;
    }
    var result := Null;
    used := 0;
    for i := 0 to MaxPolls
      invariant used == i
      invariant result == Null
      invariant PollFrom(polls, i) == PollFrom(polls, 0)
    {
      var answer := polls[i];
      used := used + 1;
      if answer.status == 1 {
        result := answer.request;
        break;
      }
      if answer.request == Text(NotReady) {
        continue;
      }
      return PollFailed(answer.request), used;
    }
    if !PayloadTruthy(result) {
      return Timeout, used;
    }
    outcome := Solved(result);
  }

  /** Every answer in `polls[lo..hi]` is the not-ready code. */
  predicate AllPending(polls: seq<Answer>, lo: nat, hi: nat)
    requires lo <= hi <= |polls|
  {
    forall j :: lo <= j < hi ==> Pending(polls[j])
  }

  /** The loop from iteration `i` stops at the first answer that is not
      pending, or after the last iteration when every answer is pending. */
  lemma {:induction false} PollFromStopsAtFirstNonPending(polls: seq<Answer>, i: nat)
    requires i <= MaxPolls <= |polls|
    ensures var (stop, n) := PollFrom(polls, i);
      i <= n <= MaxPolls &&
      (stop.Exhausted? ==> n == MaxPolls && AllPending(polls, i, MaxPolls)) &&
      (!stop.Exhausted? ==> i < n && AllPending(polls, i, n - 1) && !Pending(polls[n - 1])) &&
      (stop.Got? ==> polls[n - 1].status == 1 && stop.result == polls[n - 1].request) &&
      (stop.Threw? ==> polls[n - 1].status != 1 && stop.msg == polls[n - 1].request)
    decreases MaxPolls - i
  {
    if i < MaxPolls && polls[i].status != 1 && polls[i].request == Text(NotReady) {
      PollFromStopsAtFirstNonPending(polls, i + 1);
    }
  }

  /** What each outcome of the exchange says about the answers: at most
      thirty polls; a rejection makes none; a result or a poll error comes
      from the first answer that is not the not-ready code, every earlier one
      being not-ready; a timeout means thirty not-ready answers or a success
      whose payload is empty. */
  lemma ExchangeOutcomes(submit: Answer, polls: seq<Answer>, outcome: Outcome, used: nat)
    requires MaxPolls <= |polls|
    requires (outcome, used) == Exchange(submit, polls)
    ensures used <= MaxPolls
    ensures outcome.Rejected? <==> submit.status != 1
    ensures outcome.Rejected? ==> used == 0 && outcome.msg == submit.request
    ensures outcome.Solved? ==>
              1 <= used && AllPending(polls, 0, used - 1) &&
              polls[used - 1].status == 1 && outcome.result == polls[used - 1].request &&
              PayloadTruthy(outcome.result)
    ensures outcome.PollFailed? ==>
              1 <= used && AllPending(polls, 0, used - 1) &&
              polls[used - 1].status != 1 && polls[used - 1].request != Text(NotReady) &&
              outcome.msg == polls[used - 1].request
    ensures outcome.Timeout? ==>
              submit.status == 1 &&
              ((used == MaxPolls && AllPending(polls, 0, MaxPolls)) ||
               (1 <= used && AllPending(polls, 0, used - 1) &&
                polls[used - 1].status == 1 && !PayloadTruthy(polls[used - 1].request)))
  {
    PollFromStopsAtFirstNonPending(polls, 0);
    var (stop, n) := PollFrom(polls, 0);
    if submit.status == 1 && stop.Got? {
      assert used == n && stop.result == polls[n - 1].request;
    }
  }

  /** Conversely, the first answer that is not the not-ready code decides
      the exchange, and no poll is made after it. */
  lemma FirstNonPendingDecides(submit: Answer, polls: seq<Answer>, k: nat)
    requires MaxPolls <= |polls| && k < MaxPolls
    requires submit.status == 1
    requires AllPending(polls, 0, k) && !Pending(polls[k])
    ensures Exchange(submit, polls) ==
              (if polls[k].status != 1 then (PollFailed(polls[k].request), k + 1)
               else if PayloadTruthy(polls[k].request) then (Solved(polls[k].request), k + 1)
               else (Timeout, k + 1))
  {
    PollFromStopsAtFirstNonPending(polls, 0);
    var (stop, n) := PollFrom(polls, 0);
    assert !Pending(polls[k]);
    assert n == k + 1;
  }

  /** Thirty not-ready answers in a row end in a timeout after thirty polls. */
  lemma AllPendingTimesOut(submit: Answer, polls: seq<Answer>)
    requires MaxPolls <= |polls|
    requires submit.status == 1
    requires AllPending(polls, 0, MaxPolls)
    ensures Exchange(submit, polls) == (Timeout, MaxPolls)
  {
    PollFromStopsAtFirstNonPending(polls, 0);
  }
}

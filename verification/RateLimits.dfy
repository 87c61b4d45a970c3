/**
 * A rate limit is meant never to be retried. The first attempt of a candidate keeps to that; a rate limit met by a
 * retry does not, because a retry's error is not classified again. Here is exactly when.
 */
module RateLimits {
  import opened Chat
  import opened Orchestration
  import opened OrchestrationRuns

  predicate Limited(e: Event) {
    || (e.Called? && e.outcome == Err(RateLimit))
    || (e.Streamed? && e.capture.Empty() && e.capture.error.value == RateLimit)
  }

  /** Between the two states a rate limit was answered by yet another attempt. */
  ghost predicate LimitRetried(before: State, after: State) {
    exists i :: |before.log| <= i < |after.log| - 1 && Limited(after.log[i])
  }

  /** The log of one, two, or three attempts. */
  lemma {:induction false} RetriedAt(before: State, after: State, events: seq<Event>)
    requires after.log == before.log + events && 1 <= |events| <= 3
    ensures LimitRetried(before, after) <==>
            (|events| > 1 && Limited(events[0])) || (|events| > 2 && Limited(events[1]))
  {
    var n := |before.log|;
    assert forall i :: 0 <= i < |events| ==> after.log[n + i] == events[i];
    if |events| > 1 && Limited(events[0]) {
      assert Limited(after.log[n]);
    }
    if |events| > 2 && Limited(events[1]) {
      assert Limited(after.log[n + 1]);
    }
    assert forall i :: n <= i < |after.log| ==> after.log[i] == events[i - n];
  }

  function CalledOf(s: Setting, st: State, cand: Candidate): Event {
    Called(cand, st.RequestTo(cand), Call(s, st, cand).value)
  }

  function StreamedOf(s: Setting, st: State, cand: Candidate): Event {
    Streamed(cand, st.RequestTo(cand), Attempt(s, st, cand).value)
  }

  /** A completion's rate limit is retried exactly when the first retry, not the first attempt, met it. */
  lemma {:induction false} CallRetriesLimit(s: Setting, st: State, cand: Candidate, wire: Wire)
    ensures var first := Call(s, st, cand);
            LimitRetried(st, Attempts(s, st, cand, wire).st) <==>
            && wire.OpenAI? && first.value.Err? && first.value.error.Retryable()
            && Call(s, first.st, cand).value == Err(RateLimit)
  {
    var first := Call(s, st, cand);
    var after := Attempts(s, st, cand, wire).st;
    var a := CalledOf(s, st, cand);
    if wire.OpenAI? && first.value.Err? && first.value.error.Retryable() {
      var second := Call(s, first.st, cand);
      var b := CalledOf(s, first.st, cand);
      if second.value.Ok? {
        assert st.log + [a] + [b] == st.log + [a, b];
        RetriedAt(st, after, [a, b]);
      } else {
        var c := CalledOf(s, second.st, cand);
        assert Retry(s, second.st, cand, 1) == Call(s, second.st, cand);
        assert st.log + [a] + [b] + [c] == st.log + [a, b, c];
        RetriedAt(st, after, [a, b, c]);
      }
    } else {
      RetriedAt(st, after, [a]);
    }
  }

  /** And a stream's, likewise. */
  lemma {:induction false} StreamRetriesLimit(s: Setting, st: State, cand: Candidate, wire: Wire)
    ensures var first := Attempt(s, st, cand);
            LimitRetried(st, StreamAttempts(s, st, cand, wire).st) <==>
            && wire.OpenAI? && first.value.Empty() && first.value.error.value.Retryable()
            && Limited(StreamedOf(s, first.st, cand))
  {
    var first := Attempt(s, st, cand);
    var after := StreamAttempts(s, st, cand, wire).st;
    var a := StreamedOf(s, st, cand);
    if wire.OpenAI? && first.value.Empty() && first.value.error.value.Retryable() {
      var second := Attempt(s, first.st, cand);
      var b := StreamedOf(s, first.st, cand);
      if !second.value.Empty() {
        assert st.log + [a] + [b] == st.log + [a, b];
        RetriedAt(st, after, [a, b]);
      } else {
        var c := StreamedOf(s, second.st, cand);
        assert AttemptAgain(s, second.st, cand, 1) == Attempt(s, second.st, cand);
        assert st.log + [a] + [b] + [c] == st.log + [a, b, c];
        RetriedAt(st, after, [a, b, c]);
      }
    } else {
      RetriedAt(st, after, [a]);
    }
  }

  /** A provider whose connection fails once, and which is rate limiting from then on. */
  function FailsThenLimits(provider: string): Setting {
    Setting({provider}, {}, {},
            (log, cand, req) => Err(if log == [] then Transport else RateLimit),
            (log, cand, req) => Captured([], Some(if log == [] then Transport else RateLimit)),
            (log, call) => "", error => "")
  }

  /** It is asked again after a rate limit, on either kind of request, and is not cooled for it. */
  lemma {:induction false} LimitCanBeRetried(cand: Candidate, messages: seq<Message>, stream: bool)
    ensures var s, st := FailsThenLimits(cand.provider), State([], messages, stream);
            && LimitRetried(st, Attempts(s, st, cand, OpenAI).st)
            && LimitRetried(st, StreamAttempts(s, st, cand, OpenAI).st)
            && !CoolsDown(s, st, cand, OpenAI)
  {
    var s, st := FailsThenLimits(cand.provider), State([], messages, stream);
    var first := Call(s, st, cand);
    var second := Call(s, first.st, cand);
    CallRetriesLimit(s, st, cand, OpenAI);
    StreamRetriesLimit(s, st, cand, OpenAI);
    assert Retry(s, second.st, cand, 1) == Call(s, second.st, cand);
  }
}

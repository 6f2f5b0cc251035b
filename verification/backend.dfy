/** The backend retry policy of `on_message`: up to three calls, a linear
    backoff sleep after every attempt that does not yield a reply, and a fixed
    fallback text. The calls themselves are external; what each attempt
    produced is an input. */
module Backend {
  import opened Wrappers

  /** What one backend call came to: it timed out, it raised, or it answered
      with a `message.content` that may be missing. */
  datatype AttemptOutcome = TimedOut | Failed | Answered(content: Option<string>)

  /** The retry loop's result: the reply used, the seconds slept, in order,
      and the number of calls made. */
  datatype Invocation = Invocation(reply: string, sleeps: seq<int>, attempts: nat)

  const MaxAttempts: nat := 3

  const Fallback: string := "Sorry, my brain just lagged. Try again in a moment."

  /** The attempt produced a reply the loop accepts: non-empty content. */
  predicate Succeeds(o: AttemptOutcome) {
    o.Answered? && o.content.Some? && o.content.value != ""
  }

  /** The seconds slept after failed attempt `i` (counting from 0):
      `1.0 + attempt`, a whole number of seconds. */
  function Backoff(i: nat): int {
    1 + i
  }

  /** The loop from attempt `i` on, where `outcome(j)` is what attempt `j`
      produced. */
  function InvokeFrom(outcome: nat -> AttemptOutcome, i: nat): (r: Invocation)
    requires i <= MaxAttempts
    ensures i < r.attempts <= MaxAttempts || (i == MaxAttempts && r.attempts == i)
    ensures forall j :: i <= j < r.attempts - 1 ==> !Succeeds(outcome(j))
    ensures |r.sleeps| == (if Succeeds(outcome(r.attempts - 1)) && i < r.attempts then r.attempts - 1 - i else r.attempts - i)
    ensures forall k :: 0 <= k < |r.sleeps| ==> r.sleeps[k] == Backoff(i + k)
    ensures i < r.attempts && Succeeds(outcome(r.attempts - 1)) ==> r.reply == outcome(r.attempts - 1).content.value
    ensures !(i < r.attempts && Succeeds(outcome(r.attempts - 1))) ==> r.attempts == MaxAttempts && r.reply == Fallback
    decreases MaxAttempts - i
  {
    if i == MaxAttempts then Invocation(Fallback, [], MaxAttempts)
    else if Succeeds(outcome(i)) then Invocation(outcome(i).content.value, [], i + 1)
    else
      var rest := InvokeFrom(outcome, i + 1);
      Invocation(rest.reply, [Backoff(i)] + rest.sleeps, rest.attempts)
  }

  /** The whole retry loop. The first attempt with non-empty content ends
      it, with no sleep after that attempt; every earlier attempt failed and
      was followed by a sleep of `1 + i` seconds. When no attempt succeeds,
      all three calls are made, each followed by its sleep, and the reply is
      the fallback. */
  function Invoke(outcome: nat -> AttemptOutcome): (r: Invocation)
    ensures 1 <= r.attempts <= MaxAttempts
    ensures forall j :: 0 <= j < r.attempts - 1 ==> !Succeeds(outcome(j))
    ensures forall k :: 0 <= k < |r.sleeps| ==> r.sleeps[k] == 1 + k
    ensures Succeeds(outcome(r.attempts - 1)) ==>
      r.reply == outcome(r.attempts - 1).content.value && |r.sleeps| == r.attempts - 1
    ensures !Succeeds(outcome(r.attempts - 1)) ==>
      r.attempts == MaxAttempts && r.reply == Fallback && |r.sleeps| == MaxAttempts
    ensures r.reply != ""
  {
    InvokeFrom(outcome, 0)
  }

  /** A backend that fails twice and then answers "hi" yields "hi" after
      sleeps of 1 and 2 seconds. */
  lemma FailTwiceThenReply()
    ensures Invoke(j => if j < 2 then Failed else Answered(Some("hi")))
      == Invocation("hi", [1, 2], 3)
  {
    var outcome := j => if j < 2 then Failed else Answered(Some("hi"));
    assert InvokeFrom(outcome, 2) == Invocation("hi", [], 3);
    assert InvokeFrom(outcome, 1) == Invocation("hi", [2], 3);
  }

  /** A backend that always times out yields the fallback after three
      attempts, each followed by its sleep. */
  lemma AlwaysTimingOut()
    ensures Invoke(j => TimedOut) == Invocation(Fallback, [1, 2, 3], 3)
  {
    var outcome := j => TimedOut;
    assert InvokeFrom(outcome, 2) == Invocation(Fallback, [3], 3);
    assert InvokeFrom(outcome, 1) == Invocation(Fallback, [2, 3], 3);
  }
}

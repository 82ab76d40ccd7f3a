/** `ManagedAvahiSimplePoll` (avahi/poll.rs): the null check of its constructor and
    the timeout and return-code handling of `iterate`. The native poll is an input. */
module AvahiPoll {
  import opened Common


  /** `Duration::as_millis`: the whole milliseconds of the duration, rounded down. */
  function AsMillis(d: Duration): (ms: nat)
    ensures ms * 1_000_000 <= d.secs * 1_000_000_000 + d.subsecNanos < (ms + 1) * 1_000_000
  {
    d.secs * 1000 + d.subsecNanos / 1_000_000
  }

  datatype ManagedSimplePoll = ManagedSimplePoll(inner: Handle)

  /** `ManagedAvahiSimplePoll::new`: `avahi_simple_poll_new` returned `handle`. */
  function New(handle: Handle): (r: Result<ManagedSimplePoll>)
    ensures r.Err? <==> handle == NULL
    ensures r.Err? ==> r.msg == "could not initialize AvahiSimplePoll"
    ensures r.Ok? ==> r.value.inner == handle
  {
    if handle == NULL then Err("could not initialize AvahiSimplePoll") else Ok(ManagedSimplePoll(handle))
  }

  /** `as_millis().try_into().unwrap_or(i32::MAX)`. */
  function SleepTime(timeout: Duration): (r: i32)
    ensures 0 <= r <= I32_MAX
    ensures AsMillis(timeout) <= I32_MAX ==> r == AsMillis(timeout)
    ensures AsMillis(timeout) > I32_MAX ==> r == I32_MAX
  {
    var millis := AsMillis(timeout);
    if millis <= I32_MAX then millis else I32_MAX
  }

  /** A longer timeout never sleeps for less. */
  lemma SleepTimeMonotonic(a: Duration, b: Duration)
    requires AsMillis(a) <= AsMillis(b)
    ensures SleepTime(a) <= SleepTime(b)
  {
  }

  const ITERATE_ERROR := "avahi_simple_poll_iterate(..) threw an error result"
  const ITERATE_UNKNOWN := "avahi_simple_poll_iterate(..) returned an unknown result"

  /** The mapping of `avahi_simple_poll_iterate`'s return code. */
  function IterateResult(code: i32): (r: Result<Unit>)
    ensures r.Ok? <==> code == 0 || code == 1
    ensures code == -1 ==> r == Err(ITERATE_ERROR)
    ensures code != -1 && r.Err? ==> r == Err(ITERATE_UNKNOWN)
  {
    if code == 0 || code == 1 then Ok(Unit)
    else if code == -1 then Err(ITERATE_ERROR)
    else Err(ITERATE_UNKNOWN)
  }

  /** The two failures are told apart. */
  lemma IterateErrorsDistinct()
    ensures IterateResult(-1) != IterateResult(2)
    ensures IterateResult(-1).Err? && IterateResult(2).Err?
  {
  }

  /** `iterate`: `native` is `avahi_simple_poll_iterate` on this poll, given the sleep time. */
  function Iterate(poll: ManagedSimplePoll, timeout: Duration, native: i32 -> i32): (r: Result<Unit>)
    ensures r.Ok? <==> native(SleepTime(timeout)) in {0, 1}
    ensures native(SleepTime(timeout)) == -1 ==> r.Err? && r.msg == ITERATE_ERROR
  {
    IterateResult(native(SleepTime(timeout)))
  }

  /** A native call that reports the sleep time it was given sees the clamped
      whole-millisecond timeout. */
  lemma IterateSleepsClamped(poll: ManagedSimplePoll, timeout: Duration)
    ensures Iterate(poll, timeout, (ms: i32) => if ms == SleepTime(timeout) then 0 else -1).Ok?
    ensures AsMillis(timeout) > I32_MAX ==>
      Iterate(poll, timeout, (ms: i32) => if ms == I32_MAX then 0 else -1).Ok?
  {
  }
}

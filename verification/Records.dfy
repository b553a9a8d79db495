/** Values shared by every component: identifiers, time and the stored notification row. */
module Records {

  type Id = nat

  /** Nanoseconds on the one clock that the workers, the API and the database read. */
  type Time = int

  datatype Option<+T> = None | Some(value: T)

  datatype Status = Pending | Queued | Processing | Sent | Delivered | Failed | Cancelled

  datatype Channel = Sms | Email | Push

  /** What the broker is told about a delivery. */
  datatype Disposition = Acked | Requeued | DeadLettered

  /** The columns of a notification row that delivery reads or writes. */
  datatype Row = Row(
    status: Status,
    retryCount: nat,
    nextRetryAt: Option<Time>,
    scheduledAt: Option<Time>,
    sentAt: Option<Time>,
    failedAt: Option<Time>)

  const SECOND: int := 1_000_000_000

  /** The same clock as the rate limiter reads it, in microseconds. */
  function Micros(now: Time): int {
    now / 1000
  }

  /** True when `at` is absent or not in the future. */
  predicate Reached(at: Option<Time>, now: Time) {
    at.None? || at.value <= now
  }

  function Min(a: int, b: int): int {
    if a <= b then a else b
  }

  function Max(a: int, b: int): int {
    if a <= b then b else a
  }

  function One(b: bool): nat {
    if b then 1 else 0
  }

  predicate Distinct<T(==)>(s: seq<T>) {
    forall i, j :: 0 <= i < j < |s| ==> s[i] != s[j]
  }

  predicate Ascending(times: seq<Time>) {
    forall i, j :: 0 <= i <= j < |times| ==> times[i] <= times[j]
  }

  lemma Assoc<T>(a: seq<T>, b: seq<T>, c: seq<T>)
    ensures a + b + c == a + (b + c)
  {
  }

  lemma {:induction false} SubsetSize<T>(a: set<T>, b: set<T>)
    requires a <= b
    ensures |a| <= |b|
  {
    if a != {} {
      var x :| x in a;
      SubsetSize(a - {x}, b - {x});
    }
  }
}

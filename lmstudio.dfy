/** `LMStudioClient._make_request`: up to three POSTs to the chat-completions endpoint
    with a linear back-off between retried attempts. The network is an oracle: the
    outcome of attempt i is `attempts[i]`, and the sleeps are returned instead of taken. */
module LMStudio {
  import opened Text

  const MaxRetries: nat := 3
  const RetryDelay: nat := 2

  /** What one POST attempt ends with. */
  datatype Attempt =
      /** a reply whose `choices[0].message.content` is the string `raw` */
    | Success(raw: string)
      /** `requests.exceptions.Timeout` */
    | Timeout
      /** `requests.exceptions.ConnectionError` */
    | ConnectionError
      /** any other `requests.exceptions.RequestException`, HTTP error statuses included */
    | RequestError
      /** `KeyError`, `json.JSONDecodeError` or `ValueError` while reading the reply,
          the "no choices" / "no message content" structure checks included */
    | MalformedReply
      /** an exception none of the handlers catches (a `content` that is not a string) */
    | Uncaught(message: string)

  /** What `_make_request` hands back: the stripped content, `None`, or an exception
      that escapes to the caller. */
  datatype Reply = Content(text: string) | NoReply | Raised(message: string)

  /** Outcomes after which the loop goes on to the next attempt. */
  predicate Retryable(a: Attempt) {
    a.Timeout? || a.ConnectionError? || a.RequestError?
  }

  /** The sleep after a retried attempt: `retry_delay * (attempt + 1)` for timeouts and
      connection errors, a flat `retry_delay` for other request errors. */
  function Backoff(attempt: nat, a: Attempt): (d: nat)
    requires Retryable(a)
    ensures d == (if a.RequestError? then 2 else 2 * (attempt + 1))
  {
    if a.RequestError? then RetryDelay else RetryDelay * (attempt + 1)
  }

  /** The index of the attempt that ends the loop, looking from `from` on:
      the first one that is not retried, or `MaxRetries` when all are. */
  function Decisive(attempts: seq<Attempt>, from: nat): (k: nat)
    requires |attempts| >= MaxRetries && from <= MaxRetries
    ensures from <= k <= MaxRetries
    ensures forall i :: from <= i < k ==> Retryable(attempts[i])
    ensures k < MaxRetries ==> !Retryable(attempts[k])
    decreases MaxRetries - from
  {
    if from == MaxRetries || !Retryable(attempts[from]) then from else Decisive(attempts, from + 1)
  }

  /** The sleeps taken after the first `n` attempts, all of them retried: one per
      attempt except after the last allowed one. */
  function SleepsBefore(attempts: seq<Attempt>, n: nat): (s: seq<nat>)
    requires n <= MaxRetries <= |attempts|
    requires forall i :: 0 <= i < n ==> Retryable(attempts[i])
    ensures |s| == if n < MaxRetries then n else MaxRetries - 1
  {
    if n == 0 then []
    else SleepsBefore(attempts, n - 1) + (if n - 1 < MaxRetries - 1 then [Backoff(n - 1, attempts[n - 1])] else [])
  }

  /** The reply given the attempt that ends the loop. */
  function ReplyAt(attempts: seq<Attempt>, k: nat): Reply
    requires k <= MaxRetries <= |attempts|
  {
    if k == MaxRetries then NoReply
    else match attempts[k]
      case Success(raw) => Content(Strip(raw))
      case Uncaught(m) => Raised(m)
      case _ => NoReply
  }

  /** The retry loop. */
  method MakeRequest(attempts: seq<Attempt>) returns (reply: Reply, sleeps: seq<nat>)
    requires |attempts| >= MaxRetries
    ensures reply == ReplyAt(attempts, Decisive(attempts, 0))
    ensures sleeps == SleepsBefore(attempts, Decisive(attempts, 0))
  {
    sleeps := [];
    var attempt: nat := 0;
    while attempt < MaxRetries
      invariant attempt <= MaxRetries
      invariant forall i :: 0 <= i < attempt ==> Retryable(attempts[i])
      invariant Decisive(attempts, 0) == Decisive(attempts, attempt)
      invariant sleeps == SleepsBefore(attempts, attempt)
    {
      match attempts[attempt] {
        case Success(raw) =>
          reply := Content(Strip(raw));
          return;
        case Uncaught(m) =>
          reply := Raised(m);
          return;
        case MalformedReply =>
          break;
        case Timeout =>
          if attempt < MaxRetries - 1 {
            sleeps := sleeps + [RetryDelay * (attempt + 1)];
          }
        case ConnectionError =>
          if attempt < MaxRetries - 1 {
            sleeps := sleeps + [RetryDelay * (attempt + 1)];
          }
        case RequestError =>
          if attempt < MaxRetries - 1 {
            sleeps := sleeps + [RetryDelay];
          }
      }
      attempt := attempt + 1;
    }
    reply := NoReply;
  }

  /** Attempt `i` is made: every attempt before it was retried. */
  predicate Reached(attempts: seq<Attempt>, i: nat)
    requires i <= |attempts|
  {
    forall j :: 0 <= j < i ==> Retryable(attempts[j])
  }

  /** Some content comes back exactly when an attempt that is made succeeds, and it is
      that attempt's content stripped; `None` comes back exactly when no attempt that is
      made succeeds or raises an uncaught exception. */
  lemma ReplyCharacterised(attempts: seq<Attempt>)
    requires |attempts| >= MaxRetries
    ensures var r := ReplyAt(attempts, Decisive(attempts, 0));
      && (r.Content? <==> exists i :: 0 <= i < MaxRetries && Reached(attempts, i) && attempts[i].Success?)
      && (forall i :: 0 <= i < MaxRetries && Reached(attempts, i) && attempts[i].Success? ==>
            r == Content(Strip(attempts[i].raw)))
      && (r.NoReply? <==> forall i :: 0 <= i < MaxRetries && Reached(attempts, i) ==>
            !attempts[i].Success? && !attempts[i].Uncaught?)
  {
    var k := Decisive(attempts, 0);
    forall i | 0 <= i < MaxRetries && Reached(attempts, i)
      ensures i <= k
    {
    }
    if k < MaxRetries {
      assert Reached(attempts, k);
    }
  }

  /** At most two sleeps, none after the last attempt, each 2 or 4 seconds, and the
      sleep after attempt i (a timeout or connection error) is 2*(i+1). */
  lemma {:induction false} SleepsBounded(attempts: seq<Attempt>, n: nat)
    requires n <= MaxRetries <= |attempts|
    requires forall i :: 0 <= i < n ==> Retryable(attempts[i])
    ensures var s := SleepsBefore(attempts, n);
      && |s| <= MaxRetries - 1
      && (forall i :: 0 <= i < |s| ==> s[i] == 2 || s[i] == 4)
      && (forall i :: 0 <= i < |s| ==> s[i] == (if attempts[i].RequestError? then 2 else 2 * (i + 1)))
  {
    if n > 0 {
      SleepsBounded(attempts, n - 1);
    }
  }

  /** A malformed reply stops the loop at once: nothing after it is tried and no sleep follows it. */
  lemma MalformedStops(attempts: seq<Attempt>, i: nat)
    requires |attempts| >= MaxRetries && i < MaxRetries && attempts[i].MalformedReply?
    requires forall j :: 0 <= j < i ==> Retryable(attempts[j])
    ensures Decisive(attempts, 0) == i
    ensures ReplyAt(attempts, i) == NoReply
    ensures |SleepsBefore(attempts, i)| == i
  {
    DecisiveIsFirst(attempts, 0, i);
  }

  lemma {:induction false} DecisiveIsFirst(attempts: seq<Attempt>, from: nat, i: nat)
    requires |attempts| >= MaxRetries && from <= i < MaxRetries && !Retryable(attempts[i])
    requires forall j :: from <= j < i ==> Retryable(attempts[j])
    ensures Decisive(attempts, from) == i
    decreases i - from
  {
    if from < i {
      DecisiveIsFirst(attempts, from + 1, i);
    }
  }
}

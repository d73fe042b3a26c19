/**
 * What `confirmTransaction` computes from the answers to its status
 * queries. Each query either resolves with `response.value` (the signature
 * status object, or null) or throws. A status of 'confirmed' or 'finalized'
 * ends polling; an `err` payload raises an exception that the loop's own
 * `catch` swallows, so it only uses up an attempt, like a null, a pending
 * status or a failed query.
 */
module Confirmation {
  import opened Wrappers
  import opened JsonValue

  const DefaultMaxRetries := 30
  const RetryDelayMs := 2000
  const TimeoutMessage := "Transaction confirmation timeout"

  /** The answer to one `getSignatureStatus` query. */
  datatype PollOutcome =
    | Answered(value: Json)   // `response.value`; `JNull` when there is no status yet
    | Threw(msg: string)      // the query itself failed

  /** `response.value?.confirmationStatus` is 'confirmed' or 'finalized'. */
  predicate IsConfirmed(o: PollOutcome)
  {
    o.Answered? &&
    (Member(o.value, "confirmationStatus") == Some(JStr("confirmed")) ||
     Member(o.value, "confirmationStatus") == Some(JStr("finalized")))
  }

  /** `response.value?.err` is truthy. */
  predicate HasErr(o: PollOutcome)
  {
    o.Answered? && Truthy(Member(o.value, "err"))
  }

  /** The index of the first confirmed answer. */
  function FirstConfirmed(polls: seq<PollOutcome>): (r: Option<nat>)
    ensures r.Some? ==> r.value < |polls| && IsConfirmed(polls[r.value])
    ensures r.Some? ==> forall j :: 0 <= j < r.value ==> !IsConfirmed(polls[j])
    ensures r.None? ==> forall j :: 0 <= j < |polls| ==> !IsConfirmed(polls[j])
  {
    if polls == [] then None
    else if IsConfirmed(polls[0]) then Some(0)
    else match FirstConfirmed(polls[1..])
      case Some(k) => Some(k + 1)
      case None => None
  }

  /** The outcome of polling, with the number of queries made and of 2-second waits taken. */
  datatype Poll = Poll(result: Result<Json>, queries: nat, waits: nat)

  function Attempts(maxRetries: int): nat
  {
    if maxRetries < 0 then 0 else maxRetries
  }

  /**
   * `confirmTransaction(signature, maxRetries)` against the answers `polls`
   * (the i-th query gets `polls[i]`).
   */
  function Confirm(polls: seq<PollOutcome>, maxRetries: int): (p: Poll)
    requires maxRetries <= |polls|
    ensures p.queries <= Attempts(maxRetries)
    ensures p.waits == if p.queries == 0 then 0 else p.queries - 1
    ensures p.result.Ok? <==> exists k :: 0 <= k < maxRetries && IsConfirmed(polls[k])
    ensures p.result.Ok? ==> 0 < p.queries && IsConfirmed(polls[p.queries - 1])
                             && p.result.value == polls[p.queries - 1].value
                             && forall j :: 0 <= j < p.queries - 1 ==> !IsConfirmed(polls[j])
    ensures p.result.Err? ==> p.result.msg == TimeoutMessage && p.queries == Attempts(maxRetries)
  {
    var n := Attempts(maxRetries);
    match FirstConfirmed(polls[..n])
    case Some(k) => Poll(Ok(polls[k].value), k + 1, k)
    case None => Poll(Err(TimeoutMessage), n, if n == 0 then 0 else n - 1)
  }

  /** Polling never exceeds its budget: at most `maxRetries` queries and one wait fewer. */
  lemma PollingBudget(polls: seq<PollOutcome>, maxRetries: int)
    requires maxRetries <= |polls|
    ensures Confirm(polls, maxRetries).queries <= Attempts(maxRetries)
    ensures Confirm(polls, maxRetries).waits < Attempts(maxRetries) || maxRetries <= 0
    ensures maxRetries <= 0 ==> Confirm(polls, maxRetries) == Poll(Err(TimeoutMessage), 0, 0)
  {
  }

  /**
   * An answer that does not confirm, whatever it is (null, pending, an `err`
   * payload, a thrown query), can be replaced by any other such answer
   * without changing the outcome: an on-chain error never ends polling early.
   */
  lemma {:induction false} NonConfirmingAnswersInterchangeable(polls: seq<PollOutcome>, maxRetries: int, k: nat, o: PollOutcome)
    requires maxRetries <= |polls| && k < |polls|
    requires !IsConfirmed(polls[k]) && !IsConfirmed(o)
    ensures Confirm(polls[k := o], maxRetries) == Confirm(polls, maxRetries)
  {
    var n := Attempts(maxRetries);
    FirstConfirmedIgnores(polls[..n], k, o);
    if k < n {
      assert polls[k := o][..n] == polls[..n][k := o];
    } else {
      assert polls[k := o][..n] == polls[..n];
    }
  }

  lemma {:induction false} FirstConfirmedIgnores(s: seq<PollOutcome>, k: nat, o: PollOutcome)
    requires !IsConfirmed(o)
    requires k < |s| ==> !IsConfirmed(s[k])
    ensures k < |s| ==> FirstConfirmed(s[k := o]) == FirstConfirmed(s)
  {
    if k < |s| {
      if k > 0 {
        FirstConfirmedIgnores(s[1..], k - 1, o);
        assert s[k := o][1..] == s[1..][k - 1 := o];
      }
    }
  }

  /** An `err` payload alone, on every attempt, ends in the timeout, not in an early failure. */
  lemma ErrorPayloadsTimeOut(polls: seq<PollOutcome>, maxRetries: int)
    requires 0 < maxRetries <= |polls|
    requires forall j :: 0 <= j < maxRetries ==> HasErr(polls[j]) && !IsConfirmed(polls[j])
    ensures Confirm(polls, maxRetries) == Poll(Err(TimeoutMessage), maxRetries, maxRetries - 1)
  {
  }

  /** A confirmed status wins even when `err` is also set: its value is returned at once. */
  lemma ConfirmedWinsOverErr(polls: seq<PollOutcome>, maxRetries: int)
    requires 0 < maxRetries <= |polls|
    requires IsConfirmed(polls[0]) && HasErr(polls[0])
    ensures Confirm(polls, maxRetries) == Poll(Ok(polls[0].value), 1, 0)
  {
  }

  /**
   * N pending answers then a confirmed one, with N below the budget: success
   * after exactly N + 1 queries and N waits of two seconds.
   */
  lemma PendingThenConfirmed(polls: seq<PollOutcome>, maxRetries: int, pending: nat)
    requires pending < maxRetries <= |polls|
    requires forall j :: 0 <= j < pending ==> !IsConfirmed(polls[j])
    requires IsConfirmed(polls[pending])
    ensures Confirm(polls, maxRetries) == Poll(Ok(polls[pending].value), pending + 1, pending)
  {
    var p := Confirm(polls, maxRetries);
    assert p.result.Ok?;
  }

  /** No confirmed answer within the budget: the timeout, after exactly `maxRetries` queries. */
  lemma NeverConfirmedTimesOut(polls: seq<PollOutcome>, maxRetries: int)
    requires 0 < maxRetries <= |polls|
    requires forall j :: 0 <= j < maxRetries ==> !IsConfirmed(polls[j])
    ensures Confirm(polls, maxRetries) == Poll(Err(TimeoutMessage), maxRetries, maxRetries - 1)
  {
  }
}

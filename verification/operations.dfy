/** The generic operation runner: one operation is run under a catch-all,
    and a batch runs each item with a bounded number of attempts. The
    operation itself (a browser interaction) is an oracle: `env(i, k)` is
    what the `k`-th attempt on the `i`-th item does. */
module Operations {
  import opened Common

  /** What one call of the operation function does: it returns a boolean,
      or it raises. */
  datatype Outcome = Returned(success: bool) | Raised(message: string)

  /** `execute_operation`: never raises; a raised exception becomes false. */
  function ExecuteOperation(o: Outcome): (r: bool)
    ensures r <==> o.Returned? && o.success
    ensures o.Raised? ==> !r
  {
    match o
    case Returned(b) => b
    case Raised(_) => false
  }

  /** The first attempt at or after `from`, below `maxRetries`, that succeeds. */
  function FirstSuccess(env: (nat, nat) -> Outcome, item: nat, from: nat, maxRetries: int): (r: Option<nat>)
    decreases maxRetries - from
    ensures r.Some? ==> from <= r.value < maxRetries && ExecuteOperation(env(item, r.value))
    ensures r.Some? ==> forall k :: from <= k < r.value ==> !ExecuteOperation(env(item, k))
    ensures r.None? ==> forall k :: from <= k < maxRetries ==> !ExecuteOperation(env(item, k))
  {
    if from >= maxRetries then None
    else if ExecuteOperation(env(item, from)) then Some(from)
    else FirstSuccess(env, item, from + 1, maxRetries)
  }

  /** The result recorded for an item: some attempt below `maxRetries` succeeded. */
  predicate ItemSucceeds(env: (nat, nat) -> Outcome, item: nat, maxRetries: int) {
    FirstSuccess(env, item, 0, maxRetries).Some?
  }

  /** How many times the operation is called for an item: up to and
      including the first success, otherwise every permitted attempt. */
  function AttemptCount(env: (nat, nat) -> Outcome, item: nat, maxRetries: int): nat {
    match FirstSuccess(env, item, 0, maxRetries)
    case Some(k) => k + 1
    case None => if maxRetries < 0 then 0 else maxRetries
  }

  /** An item succeeds exactly when one of its permitted attempts returns true. */
  lemma ItemSucceedsIff(env: (nat, nat) -> Outcome, item: nat, maxRetries: int)
    ensures ItemSucceeds(env, item, maxRetries)
        <==> exists k :: 0 <= k < maxRetries && ExecuteOperation(env(item, k))
  {
    var r := FirstSuccess(env, item, 0, maxRetries);
    if r.Some? {
      assert 0 <= r.value < maxRetries && ExecuteOperation(env(item, r.value));
    }
  }

  /** At most `maxRetries` calls, at least one when retries are allowed; a
      success is the last call made, and every earlier call failed. */
  lemma AttemptCountBounds(env: (nat, nat) -> Outcome, item: nat, maxRetries: int)
    ensures AttemptCount(env, item, maxRetries) <= if maxRetries < 0 then 0 else maxRetries
    ensures maxRetries >= 1 ==> AttemptCount(env, item, maxRetries) >= 1
    ensures ItemSucceeds(env, item, maxRetries) ==>
      ExecuteOperation(env(item, AttemptCount(env, item, maxRetries) - 1))
    ensures forall k :: 0 <= k < AttemptCount(env, item, maxRetries) - 1 ==> !ExecuteOperation(env(item, k))
  {
  }

  /** With no retries allowed the operation is never called and the item fails. */
  lemma NoRetriesNoCalls(env: (nat, nat) -> Outcome, item: nat, maxRetries: int)
    requires maxRetries <= 0
    ensures !ItemSucceeds(env, item, maxRetries) && AttemptCount(env, item, maxRetries) == 0
  {
  }

  /** `execute_batch_operations`: one result per item, in order; alongside,
      how many times the operation was called for each item. */
  method ExecuteBatchOperations<D>(env: (nat, nat) -> Outcome, batchData: seq<D>, maxRetries: int)
    returns (results: seq<bool>, attempts: seq<nat>)
    ensures |results| == |batchData| && |attempts| == |batchData|
    ensures forall i :: 0 <= i < |batchData| ==> results[i] == ItemSucceeds(env, i, maxRetries)
    ensures forall i :: 0 <= i < |batchData| ==> attempts[i] == AttemptCount(env, i, maxRetries)
  {
    results := [];
    attempts := [];
    var idx := 0;
    while idx < |batchData|
      invariant 0 <= idx <= |batchData|
      invariant |results| == idx && |attempts| == idx
      invariant forall i :: 0 <= i < idx ==> results[i] == ItemSucceeds(env, i, maxRetries)
      invariant forall i :: 0 <= i < idx ==> attempts[i] == AttemptCount(env, i, maxRetries)
    {
      var success := false;
      var calls := 0;
      var attempt := 0;
      while attempt < maxRetries
        invariant 0 <= attempt && calls == attempt && !success
        invariant attempt <= maxRetries || attempt == 0
        invariant FirstSuccess(env, idx, 0, maxRetries) == FirstSuccess(env, idx, attempt, maxRetries)
      {
        success := ExecuteOperation(env(idx, attempt));
        calls := calls + 1;
        if success {
          break;
        }
        attempt := attempt + 1;
      }
      results := results + [success];
      attempts := attempts + [calls];
      idx := idx + 1;
    }
  }
}

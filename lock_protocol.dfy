/**
  The lock protocol on values: one instance's local belief (its token, nil
  when unlocked) beside the store's ground truth, and what `try_lock`,
  `unlock`, `lock` and `synchronize` make of the pair. The class in module
  ExpiringLock is proved to behave exactly as these functions say.
 */
module LockProtocol {
  import opened Wrappers
  import opened KeyValue

  /**
    What the source raises: an empty key, `try_lock` while locked, all
    attempts failed; and from below it, the store refusing a PX that is not
    positive (a `Redis::CommandError`), and `sleep` refusing a negative retry
    interval.
   */
  datatype LockError =
    | InvalidKey
    | AlreadyAcquired
    | TooManyLockAttempts
    | CommandError
    | NegativeSleep

  /** One instance's token beside the store's content. The two may disagree. */
  datatype View = View(token: Option<Token>, data: Data)

  /** `key_owned?`: the instance holds a token and the store holds the same one. */
  predicate Owns(token: Option<Token>, d: Data, key: Key)
  {
    token.Some? && Lookup(d, key) == token
  }

  datatype TryLockOutcome = TryLockOutcome(result: Result<bool, LockError>, view: View)

  /**
    `try_lock` with `newToken` as the generated token: raises when already
    locked; otherwise one `SET NX`, which takes the lock exactly when the key
    is absent, and which the store refuses when the PX is not positive.
   */
  function TryLockStep(v: View, key: Key, pxMs: Option<int>, newToken: Token): (r: TryLockOutcome)
    ensures r.result.Failure? <==> v.token.Some? || !ValidPx(pxMs)
    ensures r.result.Failure? ==>
              r.result.error == if v.token.Some? then AlreadyAcquired else CommandError
    ensures r.result == Success(true) <==> v.token.None? && ValidPx(pxMs) && key !in v.data
    ensures r.result == Success(true) ==>
              r.view.token == Some(newToken) && Owns(r.view.token, r.view.data, key)
              && r.view.data == v.data[key := Record(newToken, pxMs)]
    ensures r.result != Success(true) ==> r.view == v
  {
    if v.token.Some? then TryLockOutcome(Failure(AlreadyAcquired), v)
    else
      var s := SetIfAbsent(v.data, key, newToken, pxMs);
      match s.reply
      case Failure(_) => TryLockOutcome(Failure(CommandError), v)
      case Success(true) => TryLockOutcome(Success(true), View(Some(newToken), s.data))
      case Success(false) => TryLockOutcome(Success(false), v)
  }

  datatype UnlockOutcome = UnlockOutcome(released: bool, view: View)

  /**
    `unlock`: when locked, the atomic compare-and-delete of the key against
    the local token; the local token is cleared either way.
   */
  function UnlockStep(v: View, key: Key): (r: UnlockOutcome)
    ensures r.view.token.None?
    ensures r.released <==> Owns(v.token, v.data, key)
    ensures r.view.data == if r.released then v.data - {key} else v.data
    ensures forall k | k in v.data && Lookup(v.data, k) != v.token ::
              k in r.view.data && r.view.data[k] == v.data[k]
  {
    if v.token.None? then UnlockOutcome(false, v)
    else
      var del := CompareAndDelete(v.data, key, v.token.value);
      UnlockOutcome(del.deleted == 1, View(None, del.data))
  }

  /**
    How many times `lock` calls `try_lock` at most: the loop runs while
    `attempts <= retries`, with `attempts` counting up from 0, so the result
    is the first count that fails that test.
   */
  function MaxAttempts(retries: int): (n: nat)
    ensures n > retries
    ensures n == 0 || n - 1 <= retries
  {
    if retries < 0 then 0 else retries + 1
  }

  datatype LockRun = LockRun(result: Result<nat, LockError>, attempts: nat, view: View)

  /**
    The `lock` loop with `budget` attempts left after `made` attempts. Attempt
    i uses token `tokens[i]`; a failed attempt is followed by the sleep of
    `intervalMs`, which raises when negative and during which the rest of the
    world performs `env[i]`.
   */
  function RunLock(v: View, key: Key, pxMs: Option<int>, intervalMs: int, budget: nat, made: nat,
                   tokens: seq<Token>, env: seq<Event>): (r: LockRun)
    requires |tokens| >= budget && |env| >= budget
    ensures r.result.Success? ==> Owns(r.view.token, r.view.data, key)
    ensures r.result.Failure? ==> r.view.token == v.token
    decreases budget
  {
    if budget == 0 then LockRun(Failure(TooManyLockAttempts), made, v)
    else
      var t := TryLockStep(v, key, pxMs, tokens[0]);
      match t.result
      case Failure(e) => LockRun(Failure(e), made + 1, t.view)
      case Success(true) => LockRun(Success(made + 1), made + 1, t.view)
      case Success(false) =>
        if intervalMs < 0 then LockRun(Failure(NegativeSleep), made + 1, t.view)
        else RunLock(View(t.view.token, Step(t.view.data, env[0])), key, pxMs, intervalMs,
                     budget - 1, made + 1, tokens[1..], env[1..])
  }

  /**
    `lock` calls `try_lock` at most `budget` times, and at least once when
    `budget` is positive; on
    success it returns the number of the attempt that took the lock, with the
    token of that attempt held locally and in the store.
   */
  lemma {:induction false} LockAttemptsBounded(v: View, key: Key, pxMs: Option<int>, intervalMs: int, budget: nat, made: nat,
                                               tokens: seq<Token>, env: seq<Event>)
    requires |tokens| >= budget && |env| >= budget
    ensures var r := RunLock(v, key, pxMs, intervalMs, budget, made, tokens, env);
      && made <= r.attempts <= made + budget
      && (budget > 0 ==> made < r.attempts)
      && (r.result.Success? ==>
            && r.result.value == r.attempts
            && r.view.token == Some(tokens[r.attempts - made - 1])
            && Owns(r.view.token, r.view.data, key))
    decreases budget
  {
    if budget > 0 {
      var t := TryLockStep(v, key, pxMs, tokens[0]);
      if t.result == Success(false) {
        LockAttemptsBounded(View(t.view.token, Step(t.view.data, env[0])), key, pxMs, intervalMs,
                            budget - 1, made + 1, tokens[1..], env[1..]);
      }
    }
  }

  /** `Replay` over a prefix, one event peeled off. */
  lemma ReplayPrefix(d: Data, env: seq<Event>, n: nat)
    requires 0 < n <= |env|
    ensures Replay(d, env[..n]) == Replay(Step(d, env[0]), env[1..][..n - 1])
  {
    assert env[..n][0] == env[0];
    assert env[..n][1..] == env[1..][..n - 1];
  }

  /**
    When `lock` gives up it has made every attempt, its token is unchanged
    (an unlocked instance stays unlocked), and the store holds exactly what the rest of the world made of
    it: this instance changed nothing.
   */
  lemma {:induction false} LockExhaustion(v: View, key: Key, pxMs: Option<int>, intervalMs: int, budget: nat, made: nat,
                                          tokens: seq<Token>, env: seq<Event>)
    requires |tokens| >= budget && |env| >= budget
    ensures var r := RunLock(v, key, pxMs, intervalMs, budget, made, tokens, env);
      r.result == Failure(TooManyLockAttempts) ==>
        && r.attempts == made + budget
        && r.view.token == v.token
        && r.view.data == Replay(v.data, env[..budget])
    decreases budget
  {
    if budget == 0 {
      assert env[..0] == [];
    } else {
      var t := TryLockStep(v, key, pxMs, tokens[0]);
      if t.result == Success(false) {
        LockExhaustion(View(t.view.token, Step(t.view.data, env[0])), key, pxMs, intervalMs,
                       budget - 1, made + 1, tokens[1..], env[1..]);
        ReplayPrefix(v.data, env, budget);
      }
    }
  }

  /**
    `lock` with at least one attempt (`retries >= 0`) on an instance that is
    already locked raises at the first attempt and changes nothing.
   */
  lemma LockWhileLocked(v: View, key: Key, pxMs: Option<int>, intervalMs: int, budget: nat, made: nat,
                        tokens: seq<Token>, env: seq<Event>)
    requires |tokens| >= budget && |env| >= budget
    requires v.token.Some? && budget > 0
    ensures RunLock(v, key, pxMs, intervalMs, budget, made, tokens, env)
         == LockRun(Failure(AlreadyAcquired), made + 1, v)
  {
  }

  /**
    Against a holder whose record has no TTL and which does not release,
    `lock` fails with `TooManyLockAttempts` after exactly `budget` attempts,
    unless its first attempt or first sleep raises: a PX that is not positive
    fails the first `SET`, a negative interval fails the first sleep.
   */
  lemma {:induction false} LockBlockedByPermanentHolder(v: View, key: Key, pxMs: Option<int>, intervalMs: int, budget: nat,
                                                        made: nat, tokens: seq<Token>, env: seq<Event>)
    requires |tokens| >= budget && |env| >= budget
    requires v.token.None? && key in v.data && v.data[key].pxMs.None?
    requires forall i | 0 <= i < budget :: env[i] != ForeignDelEqual(key, v.data[key].value)
    ensures RunLock(v, key, pxMs, intervalMs, budget, made, tokens, env)
         == if budget > 0 && !ValidPx(pxMs) then LockRun(Failure(CommandError), made + 1, v)
            else if budget > 0 && intervalMs < 0 then LockRun(Failure(NegativeSleep), made + 1, v)
            else LockRun(Failure(TooManyLockAttempts), made + budget, View(None, Replay(v.data, env[..budget])))
    decreases budget
  {
    if budget == 0 {
      assert env[..0] == [];
    } else if ValidPx(pxMs) && intervalMs >= 0 {
      var d1 := Step(v.data, env[0]);
      assert key in d1 && d1[key] == v.data[key];
      assert forall i | 0 <= i < budget - 1 :: env[1..][i] == env[i + 1];
      LockBlockedByPermanentHolder(View(None, d1), key, pxMs, intervalMs, budget - 1, made + 1, tokens[1..], env[1..]);
      ReplayPrefix(v.data, env, budget);
    }
  }

  /**
    A holder that releases during the first sleep lets a retrying `lock`
    through at its second attempt, unless the first attempt or sleep raises.
   */
  lemma LockRetriesAfterRelease(v: View, key: Key, pxMs: Option<int>, intervalMs: int, budget: nat,
                                tokens: seq<Token>, env: seq<Event>)
    requires |tokens| >= budget && |env| >= budget && budget >= 2
    requires v.token.None? && key in v.data
    requires env[0] == ForeignDelEqual(key, v.data[key].value)
    ensures var r := RunLock(v, key, pxMs, intervalMs, budget, 0, tokens, env);
      && r.result == (if !ValidPx(pxMs) then Failure(CommandError)
                      else if intervalMs < 0 then Failure(NegativeSleep)
                      else Success(2))
      && (r.result.Success? ==> r.view.token == Some(tokens[1]))
  {
  }

  /**
    A holder that keeps its record through the first `j` sleeps and releases
    it in sleep `j` lets a retrying `lock` through at attempt `j + 2`, with
    that attempt's token, provided the budget reaches that far and neither
    the PX nor the interval raises.
   */
  lemma {:induction false} LockRetriesAfterReleaseAt(v: View, key: Key, pxMs: Option<int>, intervalMs: int, budget: nat,
                                                     made: nat, j: nat, tokens: seq<Token>, env: seq<Event>)
    requires |tokens| >= budget && |env| >= budget && j + 2 <= budget
    requires v.token.None? && key in v.data && ValidPx(pxMs) && intervalMs >= 0
    requires forall i | 0 <= i < j :: KeepsKey(env[i], key)
    requires env[j] == ForeignDelEqual(key, v.data[key].value)
    ensures var r := RunLock(v, key, pxMs, intervalMs, budget, made, tokens, env);
      r.result == Success(made + j + 2) && r.view.token == Some(tokens[j + 1])
    decreases j
  {
    if j > 0 {
      StepKeepsRecord(v.data, env[0], key);
      assert forall i | 0 <= i < j - 1 :: env[1..][i] == env[i + 1];
      LockRetriesAfterReleaseAt(View(None, Step(v.data, env[0])), key, pxMs, intervalMs, budget - 1,
                                made + 1, j - 1, tokens[1..], env[1..]);
    }
  }

  datatype SyncRun = SyncRun(result: Result<bool, LockError>, heldInside: bool, ownedInside: bool, view: View)

  /**
    `synchronize` on its normal path: `lock`, then the critical section (its
    effect on the store is `critSec` of the attempt count), then `unlock`,
    whose result is returned. `heldInside` is what `locked?` and
    `ownedInside` what `key_owned?` answers when the critical section starts.
   */
  function RunSynchronize(v: View, key: Key, pxMs: Option<int>, intervalMs: int, budget: nat,
                          tokens: seq<Token>, env: seq<Event>, critSec: nat -> Event): (r: SyncRun)
    requires |tokens| >= budget && |env| >= budget
    ensures r.result.Success? ==> r.ownedInside && r.view.token.None?
    ensures r.result.Failure? ==> !r.heldInside && !r.ownedInside && r.view.token == v.token
    ensures r.result.Failure? ==> r.view == RunLock(v, key, pxMs, intervalMs, budget, 0, tokens, env).view
  {
    var run := RunLock(v, key, pxMs, intervalMs, budget, 0, tokens, env);
    if run.result.Failure? then SyncRun(Failure(run.result.error), false, false, run.view)
    else
      var inside := View(run.view.token, Step(run.view.data, critSec(run.result.value)));
      var out := UnlockStep(inside, key);
      SyncRun(Success(out.released), inside.token.Some?, Owns(run.view.token, run.view.data, key), out.view)
  }

  /**
    After `synchronize` the instance is unlocked. The critical section starts
    with the key owned, so any other instance's `try_lock` there returns
    false. If the critical section leaves the record alone, `synchronize`
    reports a real release and the key is free for any other instance's
    `try_lock`.
   */
  lemma SynchronizeReleases(v: View, key: Key, pxMs: Option<int>, intervalMs: int, budget: nat,
                            tokens: seq<Token>, env: seq<Event>, critSec: nat -> Event,
                            otherPxMs: Option<int>, otherToken: Token)
    requires |tokens| >= budget && |env| >= budget
    ensures var r := RunSynchronize(v, key, pxMs, intervalMs, budget, tokens, env, critSec);
      var run := RunLock(v, key, pxMs, intervalMs, budget, 0, tokens, env);
      && (r.result.Success? ==> r.heldInside && r.ownedInside && r.view.token.None?)
      && (r.result.Success? && ValidPx(otherPxMs) ==>
            TryLockStep(View(None, run.view.data), key, otherPxMs, otherToken).result == Success(false))
      && (r.result.Failure? ==> r.result.error == run.result.error)
    ensures var r := RunSynchronize(v, key, pxMs, intervalMs, budget, tokens, env, critSec);
      var run := RunLock(v, key, pxMs, intervalMs, budget, 0, tokens, env);
      r.result.Success? && KeepsKey(critSec(run.result.value), key) && ValidPx(otherPxMs) ==>
        && r.result == Success(true)
        && key !in r.view.data
        && TryLockStep(View(None, r.view.data), key, otherPxMs, otherToken).result == Success(true)
  {
    var run := RunLock(v, key, pxMs, intervalMs, budget, 0, tokens, env);
    LockAttemptsBounded(v, key, pxMs, intervalMs, budget, 0, tokens, env);
    if run.result.Success? && KeepsKey(critSec(run.result.value), key) {
      StepKeepsRecord(run.view.data, critSec(run.result.value), key);
    }
  }
}

/**
  The repository's RSpec examples, replayed on the classes: two lock
  instances on the key "test_key" over one shared store. Each method returns
  what the example observes and its postcondition states what the example
  expects. A sleep past a lock's TTL is the store's `Expire` event.
 */
module LockScenarios {
  import opened Wrappers
  import opened KeyValue
  import opened LockProtocol
  import opened ExpiringLock

  const TestKey: Key := "test_key"

  /** A lock with the given options on "test_key" over `store`. */
  method NewLock(store: Store, opts: Options) returns (lock: RedisExpLock)
    requires store.Valid()
    ensures fresh(lock) && lock.Valid() && !lock.Locked()
    ensures lock.key == TestKey && lock.store == store
    ensures lock.expiryMs == opts.expiryMs && lock.retries == opts.retries
    ensures lock.retryIntervalMs == opts.retryIntervalMs
  {
    var r := Create(TestKey, store, opts);
    assert r.Success?;
    lock := r.value;
  }

  /** A fresh lock is not locked, and on an empty store its key is neither locked nor owned. */
  method FreshLockHoldsNothing() returns (locked: bool, keyLocked: bool, keyOwned: bool, invalid: bool)
    ensures !locked && !keyLocked && !keyOwned && invalid
  {
    var store := new Store();
    var lock := NewLock(store, Defaults);
    locked := lock.Locked();
    keyLocked := lock.KeyLocked();
    keyOwned := lock.KeyOwned();
    var bad := Create("", store, Defaults);
    invalid := bad == Failure(InvalidKey);
  }

  /** `try_lock` on a free key takes it; a second `try_lock` raises `AlreadyAcquired`. */
  method TryLockTakesFreeKey(t: Token)
    returns (acquired: Result<bool, LockError>, locked: bool, keyLocked: bool, keyOwned: bool,
             again: Result<bool, LockError>)
    ensures acquired == Success(true) && locked && keyLocked && keyOwned
    ensures again == Failure(AlreadyAcquired)
  {
    var store := new Store();
    var lock := NewLock(store, Defaults);
    acquired := lock.TryLock(t);
    locked := lock.Locked();
    keyLocked := lock.KeyLocked();
    keyOwned := lock.KeyOwned();
    again := lock.TryLock(t);
  }

  /**
    While one instance holds the key another's `try_lock` fails and a
    non-retrying `lock` raises; after `unlock` (which reports a real release
    and leaves nothing behind) the other's `try_lock` succeeds.
   */
  method UnlockLetsOthersIn(ta: Token, tb: Token, tc: Token)
    returns (attempts: Result<nat, LockError>, blocked: Result<bool, LockError>,
             exhausted: Result<nat, LockError>, released: bool,
             locked: bool, keyLocked: bool, keyOwned: bool, later: Result<bool, LockError>)
    requires ta != tb && ta != tc && tb != tc
    ensures attempts == Success(1) && blocked == Success(false)
    ensures exhausted == Failure(TooManyLockAttempts)
    ensures released && !locked && !keyLocked && !keyOwned
    ensures later == Success(true)
  {
    var store := new Store();
    var lock := NewLock(store, Defaults);
    var other := NewLock(store, Defaults);
    attempts := lock.Lock([ta], [Idle]);
    blocked := other.TryLock(tb);
    LockBlockedByPermanentHolder(View(None, store.data), TestKey, None, 10, 1, 0, [tb], [Idle]);
    exhausted := other.Lock([tb], [Idle]);
    released := lock.Unlock();
    locked := lock.Locked();
    keyLocked := lock.KeyLocked();
    keyOwned := lock.KeyOwned();
    later := other.TryLock(tc);
  }

  /**
    A non-retrying `lock` against a holder set without a TTL fails however
    many TTL evictions the store performs.
   */
  method PermanentHolderBlocksLock(ta: Token, tb: Token) returns (exhausted: Result<nat, LockError>, stillOwned: bool)
    requires ta != tb
    ensures exhausted == Failure(TooManyLockAttempts) && stillOwned
  {
    var store := new Store();
    var lock := NewLock(store, Options(None, 0, 10));
    var other := NewLock(store, Defaults);
    var _ := lock.Lock([ta], [Idle]);
    store.Expire(TestKey);
    LockBlockedByPermanentHolder(View(None, store.data), TestKey, None, 10, 1, 0, [tb], [Expire(TestKey)]);
    exhausted := other.Lock([tb], [Expire(TestKey)]);
    stillOwned := lock.KeyOwned();
  }

  /**
    A lock with ten retries, started while another instance holds the key,
    succeeds on its second attempt when the holder releases during the first
    sleep.
   */
  method RetryAfterRelease(ta: Token, tb: Token) returns (attempts: Result<nat, LockError>, owned: bool)
    requires ta != tb
    ensures attempts == Success(2) && owned
  {
    var store := new Store();
    var other := NewLock(store, Defaults);
    var retrying := NewLock(store, Options(None, 10, 10));
    var _ := other.Lock([ta], [Idle]);
    var tokens := seq(11, _ => tb);
    var env := [ForeignDelEqual(TestKey, ta)] + seq(10, _ => Idle);
    assert Issued(env) == {} by {
      forall i | 0 <= i < |env| ensures !env[i].ForeignSetNX? {
      }
    }
    LockRetriesAfterRelease(View(None, store.data), TestKey, None, 10, 11, tokens, env);
    attempts := retrying.Lock(tokens, env);
    owned := retrying.KeyOwned();
  }

  /**
    The example's own timing: the holder releases after 15 ms and the retry
    interval is 10 ms, so the release falls in the second sleep and `lock`
    succeeds on its third attempt.
   */
  method RetryAfterLaterRelease(ta: Token, tb: Token) returns (attempts: Result<nat, LockError>, owned: bool)
    requires ta != tb
    ensures attempts == Success(3) && owned
  {
    var store := new Store();
    var other := NewLock(store, Defaults);
    var retrying := NewLock(store, Options(None, 10, 10));
    var _ := other.Lock([ta], [Idle]);
    var tokens := seq(11, _ => tb);
    var env := [Idle, ForeignDelEqual(TestKey, ta)] + seq(9, _ => Idle);
    assert Issued(env) == {} by {
      forall i | 0 <= i < |env| ensures !env[i].ForeignSetNX? {
      }
    }
    LockRetriesAfterReleaseAt(View(None, store.data), TestKey, None, 10, 11, 0, 1, tokens, env);
    attempts := retrying.Lock(tokens, env);
    owned := retrying.KeyOwned();
  }

  /**
    After its record expires the holder still believes it is locked but no
    longer owns the key; another instance takes the key, and the stale
    holder's `unlock` reports false, clears its own belief and leaves the new
    holder's record in place.
   */
  method ExpiredHolderDoesNotInterfere(ta: Token, tb: Token)
    returns (stillLocked: bool, stillOwned: bool, taken: Result<bool, LockError>,
             released: bool, lockedAfter: bool, otherOwns: bool)
    requires ta != tb
    ensures stillLocked && !stillOwned && taken == Success(true)
    ensures !released && !lockedAfter && otherOwns
  {
    var store := new Store();
    var expiring := NewLock(store, Options(Some(100), 0, 10));
    var other := NewLock(store, Defaults);
    var _ := expiring.Lock([ta], [Idle]);
    store.Expire(TestKey);
    stillLocked := expiring.Locked();
    stillOwned := expiring.KeyOwned();
    taken := other.TryLock(tb);
    released := expiring.Unlock();
    lockedAfter := expiring.Locked();
    otherOwns := other.KeyOwned();
  }

  /**
    `synchronize` holds and owns the lock inside the critical section, where
    another instance's `try_lock` for the key returns false, and releases it
    afterwards, so that the other instance's `try_lock` then succeeds.
   */
  method SynchronizeScopesTheLock(ta: Token, tb: Token, tc: Token)
    returns (released: Result<bool, LockError>, ghost heldInside: bool, ghost ownedInside: bool,
             ghost blockedInside: bool, lockedAfter: bool, later: Result<bool, LockError>)
    requires ta != tc && tb != tc
    ensures released == Success(true) && heldInside && ownedInside && blockedInside && !lockedAfter
    ensures later == Success(true)
  {
    var store := new Store();
    var lock := NewLock(store, Defaults);
    var other := NewLock(store, Defaults);
    ghost var v0 := View(lock.token, store.data);
    var critSec: nat -> Event := _ => ForeignSetNX(TestKey, tb, None);
    SynchronizeReleases(v0, TestKey, None, 10, 1, [ta], [Idle], critSec, None, tb);
    ghost var run := RunLock(v0, TestKey, None, 10, 1, 0, [ta], [Idle]);
    blockedInside := TryLockStep(View(None, run.view.data), TestKey, None, tb).result == Success(false);
    released, heldInside, ownedInside := lock.Synchronize([ta], [Idle], critSec);
    lockedAfter := lock.Locked();
    assert tc !in Issued([Idle]);
    later := other.TryLock(tc);
  }

  /**
    Options are not range-checked at construction: an expiry under one
    millisecond makes the store refuse `try_lock`'s `SET`, and a negative
    retry interval makes `lock` raise from `sleep` after its first failed
    attempt, before any retry and before TooManyLockAttempts.
   */
  method UncheckedOptionsFailOnUse(ta: Token, tb: Token, tc: Token)
    returns (refused: Result<bool, LockError>, sleepFailed: Result<nat, LockError>, stillOwned: bool)
    requires ta != tb && ta != tc
    ensures refused == Failure(CommandError) && sleepFailed == Failure(NegativeSleep) && stillOwned
  {
    var store := new Store();
    var zeroExpiry := NewLock(store, Options(Some(0), 0, 10));
    refused := zeroExpiry.TryLock(tb);
    var holder := NewLock(store, Defaults);
    var _ := holder.Lock([ta], [Idle]);
    var negativeSleep := NewLock(store, Options(None, 3, -10));
    LockBlockedByPermanentHolder(View(None, store.data), TestKey, None, -10, 4, 0,
                                 [tc, tc, tc, tc], [Idle, Idle, Idle, Idle]);
    sleepFailed := negativeSleep.Lock([tc, tc, tc, tc], [Idle, Idle, Idle, Idle]);
    stillOwned := holder.KeyOwned();
  }

  /**
    When another valid instance on the same store acquires with a token no
    client has stored, the two instances hold different tokens, and the first
    instance's local state is untouched.
   */
  method AcquiredTokenIsNew(a: RedisExpLock, b: RedisExpLock, t: Token) returns (r: Result<bool, LockError>)
    requires a.Valid() && b.Valid() && a != b && a.store == b.store
    requires b.token.None? && t !in b.store.written
    modifies b, b.store
    ensures r == Success(true) ==> b.token == Some(t) && a.token != b.token
    ensures a.token == old(a.token) && a.Valid()
  {
    UnissuedTokenIsNotHeld(a, t);
    r := b.TryLock(t);
  }
}

# RedisExpLock in Dafny

A model of `RedisExpLock`, a client-side expiring mutual-exclusion lock over a
shared Redis store. A lock instance has one key and a local belief, its
token, which is nil while unlocked. The store has the ground truth: the key
maps to the token of whoever holds the lock, possibly with a TTL. The two can
disagree: a record can expire while its holder still believes it is locked.

Modules:

- `Wrappers`: `Option` (nil or a value) and `Result` (a value or a raised error).
- `KeyValue`: the store. Records carry the TTL they were set with.
  - The pure semantics of `SET NX PX` (`SetIfAbsent`), `GET` (`Lookup`), `DEL` and the `delequal` server-side script (`CompareAndDelete`).
  - TTL eviction (`Expired`), which only removes a record that has a TTL.
  - `Event`: what other clients and the store's clock may do between two steps of one instance.
  - The class `Store` offers `SetNX`, `Get`, `Exists`, `DelEqual`, `Expire` and `Perform` (one environment event). It keeps a ghost history `written` of every token ever stored.
- `LockProtocol`: the protocol on values.
  - A `View` pairs an instance's token with the store content.
  - `TryLockStep`, `UnlockStep`, `RunLock` (the retry loop) and `RunSynchronize` say what each operation does to a view.
  - Lemmas state the properties of these functions.
- `ExpiringLock`: the class `RedisExpLock`.
  - Its one mutable field is `token`. The key, expiry, retries and retry interval are constants.
  - `Create` validates the key. `Locked` is `locked?`. `KeyLocked` and `KeyOwned` query the store.
  - `TryLock`, `Lock`, `Unlock` and `Synchronize` are proved equal, state for state, to the `LockProtocol` functions. `Lock` keeps the source's `while attempts <= retries` loop.
- `LockScenarios`: the repository's RSpec examples replayed on the classes, with two instances sharing one store.

Inputs that stand for what the model cannot see:

- **Token generation.** `SecureRandom.uuid` becomes a caller-supplied token. `TryLock` takes one token. `Lock` and `Synchronize` take one token per attempt.
- **Token freshness.** A token must never have been stored before, and no environment event may store it (`Unissued`, over the store's `written` history).
  - "Not currently in the store" would be too weak.
  - An expired holder's stale token is no longer in the store. A new holder could then receive that same token, and the stale holder's `unlock` would delete the new holder's record.
  - `RedisExpLock.Valid` records that a held token was stored at some point. So a token no client has stored differs from every held token (`UnissuedTokenIsNotHeld`), and two instances that both acquired hold different tokens (`AcquiredTokenIsNew`).
- **The sleep between attempts.** In the sleep after a failed attempt `i`, the rest of the world performs `env[i]`. That event may be a TTL eviction, or another client's `SET NX` or compare-and-delete.
- **The critical section.** Its effect on the store is the event `critSec(attempts)`.

Options are not range-checked, and the model keeps every value the code accepts:

- `retries` is meant as a non-negative count, but the loop `while attempts <= @retries` (lib/redis_exp_lock.rb:76) accepts any integer. With a negative value `lock` makes no attempt and raises `TooManyLockAttemptsError` (`MaxAttempts`).
- An expiry of under one millisecond, or a negative one, gives a PX that is not positive (lib/redis_exp_lock.rb:64). Redis refuses that `SET` with a command error, which `try_lock` lets through (`CommandError`).
- A negative retry interval makes `sleep` (lib/redis_exp_lock.rb:79) raise after the first failed attempt. `lock` then raises that error (`NegativeSleep`) instead of retrying, even with `retries = 0`.

## Model

| member | source | states |
|---|---|---|
| `KeyValue.SetIfAbsent` | lib/redis_exp_lock.rb:61-66 | the conditional set is refused with an error iff the PX is not positive; otherwise it succeeds iff the key is absent; it never overwrites an existing record; on success the key holds the new token with the requested TTL |
| `KeyValue.CompareAndDelete` | lib/redis_exp_lock.rb:11-17 | the script reports 1 iff the key currently holds the expected token, and then the store is exactly the old one without that key; otherwise it reports 0 and changes nothing; no other key is touched and a record holding any other token survives |
| `KeyValue.PermanentRecordSurvives` | lib/redis_exp_lock.rb:64 | a record set without a TTL (expiry nil) stays unchanged through any sequence of evictions and foreign requests, except its own holder's compare-and-delete |
| `KeyValue.Store.SetNX` | lib/redis_exp_lock.rb:66 | the store's atomic `SET NX PX` request has exactly the reply and effect of `SetIfAbsent`; a successful set records the token as written |
| `KeyValue.Store.Get` | lib/redis_exp_lock.rb:52 | `GET` returns the stored token, or nil exactly when the key is absent |
| `KeyValue.Store.Exists` | lib/redis_exp_lock.rb:48 | `EXISTS` is true exactly when the key has a record |
| `KeyValue.Store.DelEqual` | lib/redis_exp_lock.rb:86 | running the `delequal` script has exactly the effect of `CompareAndDelete`, as one atomic step |
| `KeyValue.Store.Expire` | lib/redis_exp_lock.rb:64 | the store's TTL eviction removes the record only if it was set with a PX value |
| `KeyValue.Store.Perform` | lib/redis_exp_lock.rb:79 | one step of the rest of the world during a sleep, applied atomically; the store invariant is kept |
| `LockProtocol.TryLockStep` | lib/redis_exp_lock.rb:57-72 | raises AlreadyAcquired iff locked, and otherwise raises the store's CommandError iff the PX is not positive, changing nothing either way; otherwise returns true iff the key was absent, and then the local token and the store both hold the new token (`key_owned?`); on false nothing changes |
| `LockProtocol.UnlockStep` | lib/redis_exp_lock.rb:84-89 | the local token is always cleared; the result is true iff the instance owned the key, in which case exactly that key is deleted; when unlocked the store is untouched; no record holding another token is ever removed |
| `LockProtocol.MaxAttempts` | lib/redis_exp_lock.rb:75-76 | the number of loop passes is the first value of the counter, starting from 0, that fails the test `attempts <= retries`: `retries + 1`, or 0 when `retries` is negative |
| `LockProtocol.RunLock` | lib/redis_exp_lock.rb:74-82 | the `lock` loop on values: on success the key is owned; on every failure the local token is unchanged; its attempt count, exhaustion and the scenarios are the lemmas below |
| `LockProtocol.LockAttemptsBounded` | lib/redis_exp_lock.rb:74-82 | `lock` makes at most `MaxAttempts(retries)` attempts (`retries + 1`, or none when `retries` is negative) and at least one when that is positive; on success it returns the 1-based number of the successful attempt, and that attempt's token is held locally and in the store |
| `LockProtocol.LockExhaustion` | lib/redis_exp_lock.rb:76-81 | when `lock` raises TooManyLockAttempts it has made exactly `MaxAttempts(retries)` attempts, the local token is unchanged (an unlocked instance stays unlocked), and the store is exactly what the environment's events made of it |
| `LockProtocol.LockWhileLocked` | lib/redis_exp_lock.rb:58 | when `retries >= 0`, `lock` on a locked instance raises AlreadyAcquired at its first attempt and changes nothing |
| `LockProtocol.LockBlockedByPermanentHolder` | spec/redis_exp_lock_spec.rb:118-121 | for an unlocked instance, against a holder without TTL that does not release, `lock` raises TooManyLockAttempts after exactly `MaxAttempts(retries)` attempts, unless its first `SET` is refused (PX not positive) or its first sleep raises (negative interval), each after one attempt |
| `LockProtocol.LockRetriesAfterRelease` | spec/redis_exp_lock_spec.rb:123-135 | when the holder releases during the first sleep and at least one retry is allowed, `lock` succeeds at attempt 2 with its second token, unless the PX is refused or the interval is negative |
| `LockProtocol.LockRetriesAfterReleaseAt` | spec/redis_exp_lock_spec.rb:123-135 | when the holder keeps its record through the first `j` sleeps and releases it in sleep `j`, with `j + 2` attempts allowed, a valid PX and a non-negative interval, `lock` succeeds at attempt `j + 2` with that attempt's token |
| `LockProtocol.RunSynchronize` | lib/redis_exp_lock.rb:91-95 | `synchronize` on values: on success the critical section started with the key owned and the instance ends unlocked; on a lock error the critical section did not run: the token and the store are exactly those the `lock` loop left |
| `LockProtocol.SynchronizeReleases` | lib/redis_exp_lock.rb:91-95 | on the normal path the critical section starts with `locked?` and `key_owned?` true, so another instance's `try_lock` there returns false; afterwards `locked?` is false; a lock error is passed through; if the critical section leaves the record alone, `synchronize` returns true, the key is free and another instance's `try_lock` succeeds |
| `ExpiringLock.RedisExpLock.constructor` | lib/redis_exp_lock.rb:30-40 | a new instance holds the given key and options and is unlocked |
| `ExpiringLock.RedisExpLock.Locked` | lib/redis_exp_lock.rb:43-45 | `locked?` is true iff the local token is set; it reads only the instance, never the store |
| `ExpiringLock.LockedIsLocalBelief` | lib/redis_exp_lock.rb:43-53 | when `locked?` is false, `key_owned?` is false; when it is true, the token is one a successful `SET` once stored, though the store may since have dropped it |
| `ExpiringLock.RedisExpLock.KeyLocked` | lib/redis_exp_lock.rb:47-49 | `key_locked?` is true iff the store has a record for the key, whoever holds it |
| `ExpiringLock.RedisExpLock.KeyOwned` | lib/redis_exp_lock.rb:51-53 | `key_owned?` is true iff the instance is locked and the store holds its token; it implies `locked?` and `key_locked?` |
| `ExpiringLock.RedisExpLock.TryLock` | lib/redis_exp_lock.rb:57-72 | the new token and store are those of `TryLockStep`; only a successful set adds to the written tokens |
| `ExpiringLock.RedisExpLock.Lock` | lib/redis_exp_lock.rb:74-82 | the retry loop's result, token and store are those of `RunLock` with `MaxAttempts(retries)` attempts; on success the attempt number lies in 1..`MaxAttempts(retries)` and the key is owned |
| `ExpiringLock.RedisExpLock.Unlock` | lib/redis_exp_lock.rb:84-89 | the result, token and store are those of `UnlockStep` |
| `ExpiringLock.RedisExpLock.Synchronize` | lib/redis_exp_lock.rb:91-95 | the result, token, store and the `locked?` and `key_owned?` seen at the start of the critical section are those of `RunSynchronize` |
| `ExpiringLock.UnissuedTokenIsNotHeld` | lib/redis_exp_lock.rb:60 | a token no client has stored is not the token of any valid instance on that store |
| `ExpiringLock.Create` | lib/redis_exp_lock.rb:22-41 | construction fails with InvalidKey iff the key is empty; otherwise the new instance is unlocked and keeps the key and options |
| `LockScenarios.FreshLockHoldsNothing` | lib/redis_exp_lock.rb:30-53 | on an empty store a new lock is not `locked?`, not `key_locked?` and not `key_owned?`; an empty key is refused |
| `LockScenarios.TryLockTakesFreeKey` | spec/redis_exp_lock_spec.rb:80-92 | `try_lock` on a free key returns true with `locked?`, `key_locked?` and `key_owned?` all true; a second `try_lock` raises AlreadyAcquired |
| `LockScenarios.UnlockLetsOthersIn` | spec/redis_exp_lock_spec.rb:139-174 | while held, another instance's `try_lock` returns false and its `lock` raises; `unlock` returns true and clears every query; afterwards the other `try_lock` succeeds |
| `LockScenarios.PermanentHolderBlocksLock` | spec/redis_exp_lock_spec.rb:101-121 | a holder set without a TTL keeps the key through evictions, and another instance's `lock` raises TooManyLockAttempts |
| `LockScenarios.RetryAfterRelease` | spec/redis_exp_lock_spec.rb:123-135 | a lock with 10 retries succeeds at attempt 2 when the holder releases during the first sleep |
| `LockScenarios.RetryAfterLaterRelease` | spec/redis_exp_lock_spec.rb:123-135 | with the example's timing (release after 15 ms, 10 ms interval), the release falls in the second sleep and a lock with 10 retries succeeds at attempt 3 and owns the key |
| `LockScenarios.ExpiredHolderDoesNotInterfere` | spec/redis_exp_lock_spec.rb:176-191 | after expiry the holder is still `locked?` but not `key_owned?`; another instance's `try_lock` succeeds; the stale `unlock` returns false, clears `locked?` and leaves the new holder owning the key |
| `LockScenarios.SynchronizeScopesTheLock` | spec/redis_exp_lock_spec.rb:195-208 | inside `synchronize` the lock is held and owned, and another instance's `try_lock` returns false there; afterwards `synchronize` has returned true, the instance is unlocked and another instance's `try_lock` succeeds |
| `LockScenarios.UncheckedOptionsFailOnUse` | lib/redis_exp_lock.rb:38-79 | an expiry of 0 ms makes `try_lock` raise the store's CommandError; a negative retry interval makes `lock` against a held key raise from `sleep` instead of retrying; the holder keeps the key |
| `LockScenarios.AcquiredTokenIsNew` | lib/redis_exp_lock.rb:60-67 | when a second instance acquires with a token no client has stored, its token differs from the first instance's, whose state is untouched |

## Left out

- The Redis client, `Shavaluator` script loading and SHA caching (lib/redis_exp_lock.rb:1, 34-36). They are foreign code. The in-memory class `Store` stands in for them.
- Transport failures of the store. The source does not handle them either.
- `SecureRandom.uuid` is not modelled. Tokens are inputs, and a precondition requires each one to be fresh.
- Wall-clock TTLs are not modelled. The float conversion `Integer(@expiry * 1000)` is not modelled either. Expiry is an optional millisecond value, and its running out is the explicit `Expire` event.
- Option values are modelled as integers in milliseconds. Fractional values are not modelled: a fractional `retries`, which gives floor(retries) + 1 attempts; the float conversion of `expiry`; and sub-millisecond sleeps. Only the errors that a non-positive PX and a negative sleep raise are modelled.
- The option hash merge (lib/redis_exp_lock.rb:23-28) is not modelled. `Create` takes a complete `Options` value, and `Defaults` holds the defaults. Options set to nil or to non-numeric values are not modelled.
- `lock_key.to_s` is not modelled: keys are already strings.
- `sleep @retry_interval` does not sleep. The interval is kept as a constant, and each sleep is one environment event.
- The test's background `Thread` (spec/redis_exp_lock_spec.rb:127-130) becomes a store event. Its clearing of the other instance's local token is not modelled.
- ExpiringLock.RedisExpLock.Synchronize: models the normal path only. An exception raised inside the callback, which in the source skips `unlock`, is not modelled. A callback that calls this same lock instance is not modelled either.
- ExpiringLock.RedisExpLock.Synchronize: the callback's effect on the store is a single event.
- The test harness (YAML configuration, `flushdb`, RSpec) is not modelled.

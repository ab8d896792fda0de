/**
  The `RedisExpLock` class: a lock instance over a shared store. Its only
  mutable state is the local token; everything it does to the store goes
  through the store's atomic requests. Token generation, the sleep between
  attempts and the critical section's work are inputs.
 */
module ExpiringLock {
  import opened Wrappers
  import opened KeyValue
  import opened LockProtocol

  /**
    Construction options: expiry in milliseconds (nil: never expires),
    retries, retry interval in milliseconds. None of them is range-checked:
    the store refuses a PX that is not positive and `sleep` a negative
    interval, when they are first used.
   */
  datatype Options = Options(expiryMs: Option<int>, retries: int, retryIntervalMs: int)

  /** The defaults the options are merged over. */
  const Defaults := Options(None, 0, 10)

  /** A token no client has stored yet and that no step of the rest of the world will store. */
  ghost predicate Unissued(t: Token, written: set<Token>, env: seq<Event>)
  {
    t !in written && t !in Issued(env)
  }

  class RedisExpLock {
    const store: Store
    const key: Key
    const expiryMs: Option<int>
    const retries: int
    const retryIntervalMs: int
    var token: Option<Token>

    /** The key is non-empty and a held token is one that was stored at some point. */
    ghost predicate Valid()
      reads this, store
    {
      |key| > 0 && store.Valid() && (token.Some? ==> token.value in store.written)
    }

    constructor (key: Key, store: Store, opts: Options)
      requires |key| > 0 && store.Valid()
      ensures Valid() && token.None?
      ensures this.key == key && this.store == store
      ensures expiryMs == opts.expiryMs && retries == opts.retries
      ensures retryIntervalMs == opts.retryIntervalMs
    {
      this.key := key;
      this.store := store;
      expiryMs := opts.expiryMs;
      retries := opts.retries;
      retryIntervalMs := opts.retryIntervalMs;
      token := None;
    }

    /** `locked?`: the local belief only; it reads nothing from the store. */
    predicate Locked()
      reads this
      ensures Locked() <==> token != None
    {
      token.Some?
    }

    /** `key_locked?`: whether anyone, this instance included, holds a record for the key. */
    method KeyLocked() returns (b: bool)
      ensures b <==> key in store.data
    {
      b := store.Exists(key);
    }

    /** `key_owned?`: locally locked and the store holds this instance's token. */
    method KeyOwned() returns (b: bool)
      ensures b <==> Owns(token, store.data, key)
      ensures b ==> Locked() && key in store.data
    {
      if token.None? {
        return false;
      }
      var current := store.Get(key);
      b := token == current;
    }

    method TryLock(newToken: Token) returns (r: Result<bool, LockError>)
      requires Valid()
      requires token.None? ==> newToken !in store.written
      modifies this, store
      ensures Valid()
      ensures TryLockOutcome(r, View(token, store.data))
           == TryLockStep(View(old(token), old(store.data)), key, expiryMs, newToken)
      ensures store.written == if r == Success(true) then old(store.written) + {newToken} else old(store.written)
    {
      if Locked() {
        return Failure(AlreadyAcquired);
      }
      var reply := store.SetNX(key, newToken, expiryMs);
      if reply.Failure? {
        return Failure(CommandError);
      }
      if reply.value {
        token := Some(newToken);
      }
      r := Success(reply.value);
    }

    /**
      `lock`: `try_lock` until it succeeds or `MaxAttempts(retries)` attempts
      have failed. Attempt i uses `tokens[i]`; in the sleep after a failed attempt
      i, a negative interval makes `sleep` raise; otherwise the rest of the
      world performs `env[i]` during it.
     */
    method Lock(tokens: seq<Token>, env: seq<Event>) returns (r: Result<nat, LockError>)
      requires Valid()
      requires |tokens| >= MaxAttempts(retries) && |env| >= MaxAttempts(retries)
      requires token.None? ==> forall i | 0 <= i < |tokens| :: Unissued(tokens[i], store.written, env)
      modifies this, store
      ensures Valid()
      ensures var run := RunLock(View(old(token), old(store.data)), key, expiryMs, retryIntervalMs, MaxAttempts(retries), 0, tokens, env);
        r == run.result && View(token, store.data) == run.view
      ensures r.Success? ==> 1 <= r.value <= MaxAttempts(retries) && Owns(token, store.data, key)
      ensures old(store.written) <= store.written <= old(store.written) + Issued(env) + (set t | t in tokens)
    {
      ghost var v0 := View(token, store.data);
      ghost var budget := MaxAttempts(retries);
      var attempts := 0;
      while attempts <= retries
        invariant 0 <= attempts <= budget
        invariant Valid()
        invariant RunLock(v0, key, expiryMs, retryIntervalMs, budget, 0, tokens, env)
               == RunLock(View(token, store.data), key, expiryMs, retryIntervalMs, budget - attempts, attempts,
                          tokens[attempts..], env[attempts..])
        invariant attempts > 0 ==> token.None?
        invariant token.None? ==> forall i | attempts <= i < |tokens| :: Unissued(tokens[i], store.written, env)
        invariant old(store.written) <= store.written <= old(store.written) + Issued(env)
        decreases budget - attempts
      {
        ghost var before := View(token, store.data);
        assert tokens[attempts..][0] == tokens[attempts];
        assert tokens[attempts..][1..] == tokens[attempts + 1..];
        assert env[attempts..][0] == env[attempts];
        assert env[attempts..][1..] == env[attempts + 1..];
        attempts := attempts + 1;
        var t := TryLock(tokens[attempts - 1]);
        if t.Failure? {
          LockAttemptsBounded(v0, key, expiryMs, retryIntervalMs, budget, 0, tokens, env);
          return Failure(t.error);
        }
        if t.value {
          LockAttemptsBounded(v0, key, expiryMs, retryIntervalMs, budget, 0, tokens, env);
          return Success(attempts);
        }
        if retryIntervalMs < 0 {
          LockAttemptsBounded(v0, key, expiryMs, retryIntervalMs, budget, 0, tokens, env);
          return Failure(NegativeSleep);
        }
        store.Perform(env[attempts - 1]);
      }
      assert tokens[attempts..] == tokens[budget..];
      r := Failure(TooManyLockAttempts);
    }

    /**
      `unlock`: a no-op answering false when unlocked; otherwise the atomic
      compare-and-delete against the local token, which is then cleared.
     */
    method Unlock() returns (released: bool)
      requires Valid()
      modifies this, store
      ensures Valid() && store.written == old(store.written)
      ensures UnlockOutcome(released, View(token, store.data)) == UnlockStep(View(old(token), old(store.data)), key)
    {
      if !Locked() {
        return false;
      }
      var deleted := store.DelEqual(key, token.value);
      token := None;
      released := deleted == 1;
    }

    /**
      `synchronize`, normal path: `lock`, the critical section (whose effect on
      the store is `critSec` of the attempt count), `unlock`. `heldInside` and
      `ownedInside` are what `locked?` and `key_owned?` answer when the
      critical section starts.
     */
    method Synchronize(tokens: seq<Token>, env: seq<Event>, critSec: nat -> Event)
      returns (r: Result<bool, LockError>, ghost heldInside: bool, ghost ownedInside: bool)
      requires Valid()
      requires |tokens| >= MaxAttempts(retries) && |env| >= MaxAttempts(retries)
      requires token.None? ==> forall i | 0 <= i < |tokens| :: Unissued(tokens[i], store.written, env)
      modifies this, store
      ensures Valid()
      ensures var sync := RunSynchronize(View(old(token), old(store.data)), key, expiryMs, retryIntervalMs, MaxAttempts(retries),
                                         tokens, env, critSec);
        && r == sync.result && heldInside == sync.heldInside && ownedInside == sync.ownedInside
        && View(token, store.data) == sync.view
      ensures var run := RunLock(View(old(token), old(store.data)), key, expiryMs, retryIntervalMs, MaxAttempts(retries), 0, tokens, env);
        old(store.written) <= store.written
        <= old(store.written) + Issued(env) + (set t | t in tokens)
           + (if run.result.Success? then Issued([critSec(run.result.value)]) else {})
    {
      var attempts := Lock(tokens, env);
      if attempts.Failure? {
        return Failure(attempts.error), false, false;
      }
      ownedInside := Owns(token, store.data, key);
      ghost var e := critSec(attempts.value);
      ghost var held := store.data;
      store.Perform(critSec(attempts.value));
      assert Writes(held, e) <= Issued([e]) by {
        if e.ForeignSetNX? { assert [e][0] == e; }
      }
      heldInside := Locked();
      var released := Unlock();
      r := Success(released);
    }
  }

  /**
    A token no client has stored yet differs from the token of every valid
    instance on that store: two instances that both acquired never hold the
    same token, so one's compare-and-delete cannot match the other's record.
   */
  lemma UnissuedTokenIsNotHeld(a: RedisExpLock, t: Token)
    requires a.Valid() && t !in a.store.written
    ensures a.token != Some(t)
  {
  }

  /**
    `locked?` is only the instance's belief: when it is false, `key_owned?` is
    false too; when it is true, the token is one a successful `SET` stored
    at some point, though the store may since have dropped it.
   */
  lemma LockedIsLocalBelief(a: RedisExpLock)
    requires a.Valid()
    ensures !a.Locked() ==> !Owns(a.token, a.store.data, a.key)
    ensures a.Locked() ==> a.token.value in a.store.written
  {
  }

  /** `RedisExpLock.new`: refuses an empty key; a new instance is unlocked. */
  method Create(key: Key, store: Store, opts: Options) returns (r: Result<RedisExpLock, LockError>)
    requires store.Valid()
    ensures r.Failure? <==> |key| == 0
    ensures r.Failure? ==> r.error == InvalidKey
    ensures r.Success? ==>
      && fresh(r.value) && r.value.Valid() && !r.value.Locked()
      && r.value.key == key && r.value.store == store
      && r.value.expiryMs == opts.expiryMs && r.value.retries == opts.retries
      && r.value.retryIntervalMs == opts.retryIntervalMs
  {
    if |key| == 0 {
      return Failure(InvalidKey);
    }
    var lock := new RedisExpLock(key, store, opts);
    r := Success(lock);
  }
}

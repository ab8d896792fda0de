/**
  The shared key-value store, as far as the lock uses it: a map from keys to
  records, the atomic `SET key value NX [PX ms]`, `GET`, `EXISTS`, the
  server-side `delequal` script, and TTL eviction as an explicit event.
  Other clients act on the store only through `Event`s.
 */
module KeyValue {
  import opened Wrappers

  type Key = string
  type Token = string

  /** A stored value and the TTL in milliseconds it was set with, if any. */
  datatype Record = Record(value: Token, pxMs: Option<int>)

  /** The store refuses a `SET` whose PX is not positive ("invalid expire time"). */
  datatype StoreError = InvalidExpireTime

  predicate ValidPx(pxMs: Option<int>)
  {
    pxMs.None? || pxMs.value > 0
  }

  type Data = map<Key, Record>

  /** `GET key`: the stored value, or nil when the key is absent. */
  function Lookup(d: Data, key: Key): Option<Token>
  {
    if key in d then Some(d[key].value) else None
  }

  datatype SetOutcome = SetOutcome(reply: Result<bool, StoreError>, data: Data)

  /**
    `SET key value NX [PX pxMs]`: one atomic conditional create. A PX that
    is not positive is refused with an error before anything is looked at.
   */
  function SetIfAbsent(d: Data, key: Key, value: Token, pxMs: Option<int>): (r: SetOutcome)
    ensures r.reply.Failure? <==> !ValidPx(pxMs)
    ensures r.reply == Success(true) <==> ValidPx(pxMs) && key !in d
    ensures forall k | k in d :: k in r.data && r.data[k] == d[k]
    ensures r.reply == Success(true) ==> r.data == d[key := Record(value, pxMs)]
    ensures r.reply != Success(true) ==> r.data == d
  {
    if !ValidPx(pxMs) then SetOutcome(Failure(InvalidExpireTime), d)
    else if key in d then SetOutcome(Success(false), d)
    else SetOutcome(Success(true), d[key := Record(value, pxMs)])
  }

  datatype DelOutcome = DelOutcome(deleted: nat, data: Data)

  /** `DEL key`: the number of keys removed. */
  function Del(d: Data, key: Key): DelOutcome
  {
    if key in d then DelOutcome(1, d - {key}) else DelOutcome(0, d)
  }

  /**
    The `delequal` script, run by the server as one atomic step: delete the
    key only when its current value equals `expected`. No other key is
    touched, and a record holding any other value survives.
   */
  function CompareAndDelete(d: Data, key: Key, expected: Token): (r: DelOutcome)
    ensures r.deleted == 1 <==> Lookup(d, key) == Some(expected)
    ensures r.deleted != 1 ==> r.deleted == 0 && r.data == d
    ensures r.data == if r.deleted == 1 then d - {key} else d
    ensures forall k | k in d && Lookup(d, k) != Some(expected) :: k in r.data && r.data[k] == d[k]
  {
    if Lookup(d, key) == Some(expected) then Del(d, key) else DelOutcome(0, d)
  }

  /** The store's own TTL eviction of `key`: only a record set with a TTL can expire. */
  function Expired(d: Data, key: Key): Data
  {
    if key in d && d[key].pxMs.Some? then d - {key} else d
  }

  /**
    What the rest of the world may do to the store between two steps of one
    lock instance: nothing, a TTL eviction, or another client's
    `try_lock` / `unlock` store request.
   */
  datatype Event =
    | Idle
    | Expire(key: Key)
    | ForeignSetNX(key: Key, value: Token, pxMs: Option<int>)
    | ForeignDelEqual(key: Key, value: Token)

  function Step(d: Data, e: Event): Data
  {
    match e
    case Idle => d
    case Expire(k) => Expired(d, k)
    case ForeignSetNX(k, t, px) => SetIfAbsent(d, k, t, px).data
    case ForeignDelEqual(k, t) => CompareAndDelete(d, k, t).data
  }

  /** The store after the events `es`, in order. */
  function Replay(d: Data, es: seq<Event>): Data
    decreases |es|
  {
    if es == [] then d else Replay(Step(d, es[0]), es[1..])
  }

  /** The tokens an event may bring into the store. */
  function Issued(es: seq<Event>): set<Token>
  {
    set i | 0 <= i < |es| && es[i].ForeignSetNX? :: es[i].value
  }

  /** The tokens an event does bring into the store `d`. */
  function Writes(d: Data, e: Event): set<Token>
  {
    if e.ForeignSetNX? && e.key !in d && ValidPx(e.pxMs) then {e.value} else {}
  }

  /** An event that neither expires nor deletes the record under `key`. */
  predicate KeepsKey(e: Event, key: Key)
  {
    !((e.Expire? || e.ForeignDelEqual?) && e.key == key)
  }

  lemma StepKeepsRecord(d: Data, e: Event, key: Key)
    requires key in d && KeepsKey(e, key)
    ensures key in Step(d, e) && Step(d, e)[key] == d[key]
  {
  }

  /**
    A record set without a TTL stays, whatever evictions and other clients
    do, until its own holder deletes it.
   */
  lemma {:induction false} PermanentRecordSurvives(d: Data, key: Key, es: seq<Event>)
    requires key in d && d[key].pxMs.None?
    requires forall i | 0 <= i < |es| :: es[i] != ForeignDelEqual(key, d[key].value)
    ensures key in Replay(d, es) && Replay(d, es)[key] == d[key]
    decreases |es|
  {
    if es != [] {
      var d1 := Step(d, es[0]);
      assert key in d1 && d1[key] == d[key];
      assert forall i | 0 <= i < |es[1..]| :: es[1..][i] == es[i + 1];
      PermanentRecordSurvives(d1, key, es[1..]);
    }
  }

  /**
    The store server. `data` is its content; `written` is a history variable
    holding every token ever stored, so that a freshly generated token can be
    required to be one that no client has used.
   */
  class Store {
    var data: Data
    ghost var written: set<Token>

    ghost predicate Valid()
      reads this
    {
      forall k | k in data :: data[k].value in written
    }

    constructor ()
      ensures Valid() && data == map[] && written == {}
    {
      data := map[];
      written := {};
    }

    method SetNX(key: Key, value: Token, pxMs: Option<int>) returns (r: Result<bool, StoreError>)
      requires Valid()
      modifies this
      ensures Valid()
      ensures SetOutcome(r, data) == SetIfAbsent(old(data), key, value, pxMs)
      ensures written == if r == Success(true) then old(written) + {value} else old(written)
    {
      if !ValidPx(pxMs) {
        return Failure(InvalidExpireTime);
      }
      r := Success(key !in data);
      if key !in data {
        data := data[key := Record(value, pxMs)];
        written := written + {value};
      }
    }

    method Get(key: Key) returns (v: Option<Token>)
      ensures v.Some? <==> key in data
      ensures v.Some? ==> v.value == data[key].value
    {
      v := if key in data then Some(data[key].value) else None;
    }

    method Exists(key: Key) returns (b: bool)
      ensures b <==> key in data
    {
      b := key in data;
    }

    method DelEqual(key: Key, expected: Token) returns (deleted: nat)
      requires Valid()
      modifies this
      ensures Valid() && written == old(written)
      ensures DelOutcome(deleted, data) == CompareAndDelete(old(data), key, expected)
    {
      var current := Get(key);
      if current == Some(expected) {
        data := data - {key};
        deleted := 1;
      } else {
        deleted := 0;
      }
    }

    /** The TTL of the record under `key` has run out. */
    method Expire(key: Key)
      requires Valid()
      modifies this
      ensures Valid() && written == old(written)
      ensures data == Expired(old(data), key)
    {
      if key in data && data[key].pxMs.Some? {
        data := data - {key};
      }
    }

    /** One step of the rest of the world. */
    method Perform(e: Event)
      requires Valid()
      modifies this
      ensures Valid()
      ensures data == Step(old(data), e)
      ensures written == old(written) + Writes(old(data), e)
    {
      match e
      case Idle =>
      case Expire(k) =>
        Expire(k);
      case ForeignSetNX(k, t, px) =>
        var _ := SetNX(k, t, px);
      case ForeignDelEqual(k, t) =>
        var _ := DelEqual(k, t);
    }
  }
}

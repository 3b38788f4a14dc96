/**
 * The throttling middleware.  Every incoming message or callback query is
 * passed on to its handler; when a Redis connection is configured the
 * middleware first updates a per-user bucket (a Redis hash with the fields
 * last_call, last_reset and throttle_count, expiring 60 seconds after each
 * reset).  The update never blocks the event: a call that comes too fast is
 * only left uncounted.
 *
 * The Redis hashes the manager writes are a map from bucket name to bucket,
 * with a second map for the expiry deadlines; a bucket whose deadline has
 * passed reads as absent.  The clock reading and whether Redis raises are
 * parameters.
 */
module Throttling {
  import opened Wrappers
  import opened PyStr

  /** An incoming update: a message or a callback query, from one user. */
  datatype Event = Message(userId: int) | Callback(userId: int)

  /** The throttle key of on_process_event, one per user and kind of event. */
  function ThrottleKey(e: Event): string {
    match e
    case Message(u) => "throttle_message_" + IntToString(u)
    case Callback(u) => "throttle_callback_" + IntToString(u)
  }

  /** The name of the Redis hash for a key. */
  function BucketName(userId: int, key: string): string {
    "throttle:" + IntToString(userId) + ":" + key
  }

  /** The stored fields of a bucket; `None` is a field that is not set. */
  datatype Bucket = Bucket(lastCall: Option<real>, lastReset: Option<real>, count: Option<int>)

  const Absent: Bucket := Bucket(None, None, None)

  /** The length of a throttling window and the lifetime of a bucket, in seconds. */
  const Window: real := 60.0

  /** A bucket as the first call of a window writes it. */
  function Fresh(now: real): Bucket {
    Bucket(Some(now), Some(now), Some(1))
  }

  /** What one throttle call does to its bucket. */
  datatype Action = Keep | Write(bucket: Bucket, refreshTtl: bool)

  /**
   * The decision of ThrottleManager.throttle for the bucket as read, at
   * time `now`, with minimum spacing `rate` between counted calls.
   */
  function Decide(stored: Bucket, now: real, rate: int): (a: Action)
    ensures stored == Absent ==> a == Write(Fresh(now), true)
    ensures a.Write? && a.refreshTtl ==> a.bucket == Fresh(now)
    ensures a.Write? && !a.refreshTtl ==>
      && stored != Absent
      && a.bucket.lastCall == Some(now)
      && a.bucket.lastReset == stored.lastReset
      && a.bucket.count == Some(stored.count.GetOr(0) + 1)
    ensures a.Keep? <==>
      && stored != Absent
      && !(now - stored.lastReset.GetOr(now) > Window)
      && now - stored.lastCall.GetOr(now) < rate as real
    ensures stored != Absent && now - stored.lastReset.GetOr(now) > Window ==> a == Write(Fresh(now), true)
    ensures (&& stored != Absent
             && !(now - stored.lastReset.GetOr(now) > Window)
             && !(now - stored.lastCall.GetOr(now) < rate as real)) ==> a.Write? && !a.refreshTtl
  {
    if stored == Absent then Write(Fresh(now), true)
    else
      var lastCall := stored.lastCall.GetOr(now);
      var lastReset := stored.lastReset.GetOr(now);
      var count := stored.count.GetOr(0);
      if now - lastReset > Window then Write(Fresh(now), true)
      else if now - lastCall < rate as real then Keep
      else Write(Bucket(Some(now), stored.lastReset, Some(count + 1)), false)
  }

  /**
   * A bucket as the manager leaves it: every field set, at least one counted
   * call, the last counted call inside the window, and (for a non-negative
   * rate) every counted call after the first at least `rate` seconds after
   * the one before it.
   */
  predicate BucketOk(b: Bucket, rate: int) {
    && b.lastCall.Some? && b.lastReset.Some? && b.count.Some?
    && b.count.value >= 1
    && b.lastReset.value <= b.lastCall.value <= b.lastReset.value + Window
    && b.lastCall.value - b.lastReset.value >= (b.count.value - 1) as real * rate as real
  }

  /** Every write of the manager leaves a well-formed bucket. */
  lemma DecideKeepsBucketOk(stored: Bucket, now: real, rate: int)
    requires rate >= 0
    requires stored == Absent || BucketOk(stored, rate)
    ensures Decide(stored, now, rate).Write? ==> BucketOk(Decide(stored, now, rate).bucket, rate)
  {
    var a := Decide(stored, now, rate);
    if a.Write? && !a.refreshTtl {
      var c := stored.count.value;
      assert (c + 1 - 1) as real * rate as real == (c - 1) as real * rate as real + rate as real;
    }
  }

  /** At rate `rate` > 0 a window counts at most 1 + 60 / rate calls. */
  lemma CountBounded(b: Bucket, rate: int)
    requires rate > 0 && BucketOk(b, rate)
    ensures (b.count.value - 1) as real <= Window / rate as real
  {
    var n := (b.count.value - 1) as real;
    var r := rate as real;
    assert n * r <= Window;
    assert n <= Window / r by {
      assert n == (n * r) / r;
    }
  }

  class ThrottleManager {
    /** The bucket hashes in Redis, by name. */
    var hashes: map<string, Bucket>
    /** Their expiry deadlines. */
    var deadlines: map<string, real>

    constructor()
      ensures hashes == map[] && deadlines == map[]
    {
      hashes := map[];
      deadlines := map[];
    }

    /**
     * Every bucket is well formed and expires exactly one window after its
     * last reset (the counting update does not refresh the deadline).
     */
    predicate Valid(rate: int)
      reads this
    {
      forall name :: name in hashes ==>
        && BucketOk(hashes[name], rate)
        && name in deadlines
        && deadlines[name] == hashes[name].lastReset.value + Window
    }

    /** HMGET at time `now`: an expired or missing hash reads as all fields unset. */
    function Read(name: string, now: real): (b: Bucket)
      reads this
      ensures name !in hashes ==> b == Absent
      ensures name in hashes && name in deadlines && now < deadlines[name] ==> b == hashes[name]
    {
      if name in hashes && !(name in deadlines && deadlines[name] <= now) then hashes[name] else Absent
    }

    /**
     * throttle(key, rate, user_id) at time `now`; `redisFails` is an
     * exception from Redis, which is logged and leaves the store as it was.
     */
    method Throttle(key: string, rate: int, userId: int, now: real, redisFails: bool)
      modifies this
      ensures var name := BucketName(userId, key);
        if redisFails then hashes == old(hashes) && deadlines == old(deadlines)
        else match Decide(old(Read(name, now)), now, rate)
          case Keep => hashes == old(hashes) && deadlines == old(deadlines)
          case Write(b, refresh) =>
            && hashes == old(hashes)[name := b]
            && deadlines == (if refresh then old(deadlines)[name := now + Window] else old(deadlines))
      ensures rate >= 0 && old(Valid(rate)) ==> Valid(rate)
    {
      var name := BucketName(userId, key);
      if redisFails {
        return;
      }
      ghost var wasValid := Valid(rate);
      var stored := Read(name, now);
      var a := Decide(stored, now, rate);
      if rate >= 0 && wasValid {
        DecideKeepsBucketOk(stored, now, rate);
      }
      match a
      case Keep =>
      case Write(b, refresh) =>
        if !refresh && rate >= 0 && wasValid {
          assert name in hashes && hashes[name] == stored;
        }
        hashes := hashes[name := b];
        if refresh {
          deadlines := deadlines[name := now + Window];
        }
    }

    /**
     * In this model a bucket expires one window after its reset, so a bucket
     * that is still there is never old enough for the reset branch of
     * throttle.  This rests on the single clock reading and on the Redis
     * writes of a call taking effect together.
     */
    lemma ResetBranchNeverTaken(name: string, now: real, rate: int)
      requires Valid(rate)
      requires Read(name, now) != Absent
      ensures !(now - Read(name, now).lastReset.GetOr(now) > Window)
    {
    }
  }

  /** A bucket name determines the user and the kind of event it throttles. */
  lemma BucketNameInjective(e1: Event, e2: Event)
    requires BucketName(e1.userId, ThrottleKey(e1)) == BucketName(e2.userId, ThrottleKey(e2))
    ensures e1 == e2
  {
    BucketNameParts(e1);
    BucketNameParts(e2);
    var parts := Split(BucketName(e1.userId, ThrottleKey(e1)), ':');
    ParseIntLiteralToString(e1.userId);
    ParseIntLiteralToString(e2.userId);
    assert e1.userId == e2.userId;
    var k := parts[2];
    assert k[9] == (if e1.Message? then 'm' else 'c');
    assert k[9] == (if e2.Message? then 'm' else 'c');
  }

  lemma NoColonIn(u: int)
    ensures forall k :: 0 <= k < |IntToString(u)| ==> IntToString(u)[k] != ':'
  {
    var s := IntToString(u);
    var d := if u < 0 then NatToString(-u) else NatToString(u);
    forall k | 0 <= k < |s|
      ensures s[k] != ':'
    {
      if u < 0 && k >= 1 {
        assert s[k] == d[k - 1];
      }
    }
  }

  lemma BucketNameParts(e: Event)
    ensures Split(BucketName(e.userId, ThrottleKey(e)), ':') == ["throttle", IntToString(e.userId), ThrottleKey(e)]
  {
    var u := IntToString(e.userId);
    var key := ThrottleKey(e);
    NoColonIn(e.userId);
    var prefix := if e.Message? then "throttle_message_" else "throttle_callback_";
    assert key == prefix + u;
    forall k | 0 <= k < |key|
      ensures key[k] != ':'
    {
      if k >= |prefix| {
        assert key[k] == u[k - |prefix|];
      }
    }
    assert BucketName(e.userId, key) == "throttle" + [':'] + u + [':'] + key;
    SplitThree("throttle", u, key, ':');
  }

  class ThrottlingMiddleware {
    const hasRedis: bool
    const rateLimit: int
    /** None exactly when no Redis connection is configured. */
    const manager: ThrottleManager?
    /** The events handed to their handlers, in order. */
    var handled: seq<Event>

    /** A manager exists exactly when Redis is configured. */
    predicate Valid()
    {
      (manager == null) == !hasRedis
    }

    constructor(hasRedis: bool, rateLimit: int)
      ensures Valid()
      ensures this.hasRedis == hasRedis && this.rateLimit == rateLimit
      ensures manager != null ==> fresh(manager) && manager.hashes == map[] && manager.deadlines == map[]
      ensures handled == []
    {
      this.hasRedis := hasRedis;
      this.rateLimit := rateLimit;
      if hasRedis {
        var m := new ThrottleManager();
        manager := m;
      } else {
        manager := null;
      }
      handled := [];
    }

    /**
     * __call__: throttle (when Redis is configured), then always run the
     * handler, whose work is recorded as the event being handled.
     */
    method Call(event: Event, now: real, redisFails: bool)
      modifies this, manager
      requires Valid()
      ensures handled == old(handled) + [event]
      ensures manager != null ==>
        var name := BucketName(event.userId, ThrottleKey(event));
        if redisFails then manager.hashes == old(manager.hashes)
        else match Decide(old(manager.Read(name, now)), now, rateLimit)
          case Keep => manager.hashes == old(manager.hashes)
          case Write(b, _) => manager.hashes == old(manager.hashes)[name := b]
      ensures manager != null && rateLimit >= 0 && old(manager.Valid(rateLimit)) ==> manager.Valid(rateLimit)
    {
      if hasRedis && manager != null {
        manager.Throttle(ThrottleKey(event), rateLimit, event.userId, now, redisFails);
      }
      handled := handled + [event];
    }
  }
}

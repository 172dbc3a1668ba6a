// A database table read through per-process caches whose keys carry a five-second time bucket:
// the pattern that agentic_configs.py and sources.py share.
//
// Every operation is one atomic step of one process.  Each process has its own cache; entries
// can be evicted at any time; the clock never goes back.
module CachedTable {
  import opened Basics
  import Text

  datatype Key = Key(account: string, kbid: string, id: string)

  // f"{account}:{kbid}:{id}"
  function Joined(k: Key): string {
    k.account + ":" + k.kbid + ":" + k.id
  }

  // int(time()) // 5
  function Bucket(now: real): nat
    requires now >= 0.0
  {
    now.Floor / 5
  }

  // A bucket lasts five seconds: times of one bucket are less than that apart, and five seconds
  // on it is the next.
  lemma BucketSpan(s: real, t: real)
    requires 0.0 <= s <= t
    ensures Bucket(s) == Bucket(t) ==> t - s < 5.0
    ensures Bucket(s) <= Bucket(t) && (t == s + 5.0 ==> Bucket(t) == Bucket(s) + 1)
    ensures Bucket(0.0) == 0
  {
  }

  // f"{account}:{kbid}:{id}:{int(time()) // 5}"
  function CacheKey(k: Key, bucket: nat): string {
    Joined(k) + ":" + Text.Dec(bucket)
  }

  type Cache<V> = map<string, V>

  // The rows a read may return, and what every process has cached.
  datatype Store<V> = Store(now: real, rows: map<Key, V>, caches: seq<Cache<V>>)

  datatype Op<V> =
    | Write(p: nat, key: Key, value: V)  // create or patch: change the row, then cache it
    | Remove(p: nat, key: Key)           // delete the row, then drop the current cache entry
    | Read(p: nat, key: Key)
    | Evict(p: nat, entry: string)
    | Tick(later: real)
    | Skip                               // a step elsewhere in the system

  predicate Valid<V>(s: Store<V>) { s.now >= 0.0 }

  predicate Enabled<V>(s: Store<V>, op: Op<V>) {
    match op
    case Tick(later) => later >= s.now
    case Skip => true
    case Remove(p, key) => p < |s.caches| && key in s.rows
    case _ => op.p < |s.caches|
  }

  // What a read returns: the cached value if there is one, else the row.
  function Answer<V>(s: Store<V>, p: nat, key: Key): Option<V>
    requires Valid(s) && p < |s.caches|
  {
    var ck := CacheKey(key, Bucket(s.now));
    if ck in s.caches[p] then Some(s.caches[p][ck])
    else if key in s.rows then Some(s.rows[key])
    else None
  }

  function Next<V>(s: Store<V>, op: Op<V>): (s': Store<V>)
    requires Valid(s) && Enabled(s, op)
    ensures Valid(s') && |s'.caches| == |s.caches|
  {
    var b := Bucket(s.now);
    match op
    case Write(p, key, v) =>
      s.(rows := s.rows[key := v], caches := s.caches[p := s.caches[p][CacheKey(key, b) := v]])
    case Remove(p, key) =>
      s.(rows := s.rows - {key}, caches := s.caches[p := s.caches[p] - {CacheKey(key, b)}])
    case Read(p, key) =>
      (match Answer(s, p, key)
       case Some(v) => s.(caches := s.caches[p := s.caches[p][CacheKey(key, b) := v]])
       case None => s)
    case Evict(p, entry) =>
      s.(caches := s.caches[p := s.caches[p] - {entry}])
    case Tick(later) =>
      s.(now := later)
    case Skip => s
  }

  // The states of a run, first to last.
  ghost predicate Run<V>(states: seq<Store<V>>, ops: seq<Op<V>>) {
    && |states| == |ops| + 1 && Valid(states[0])
    && (forall p :: 0 <= p < |states[0].caches| ==> states[0].caches[p] == map[])
    && forall i :: 0 <= i < |ops| ==>
      Valid(states[i]) && Enabled(states[i], ops[i]) &&
      states[i + 1] == Next(states[i], ops[i])
  }

  // ----- cache keys -----

  // No two of the keys in use print alike.
  ghost predicate Unambiguous(keys: set<Key>) {
    forall k, l :: k in keys && l in keys && Joined(k) == Joined(l) ==> k == l
  }

  ghost predicate ColonFree(k: Key) { ':' !in k.account && ':' !in k.kbid }

  // The last separator splits the bucket off, whatever the ids hold.
  lemma CacheKeyParts(k: Key, b: nat, l: Key, c: nat)
    ensures CacheKey(k, b) == CacheKey(l, c) <==> Joined(k) == Joined(l) && b == c
  {
    if CacheKey(k, b) == CacheKey(l, c) {
      SplitLast(Joined(k), Text.Dec(b), Joined(l), Text.Dec(c));
      Text.DecInjective(b, c);
    }
  }

  lemma SplitLast(x: string, d: string, y: string, e: string)
    requires x + ":" + d == y + ":" + e && Text.AllDigits(d) && Text.AllDigits(e)
    ensures x == y && d == e
  {
    var s := x + ":" + d;
    assert forall i :: |x| < i < |s| ==> s[i] == d[i - |x| - 1];
    assert forall i :: |y| < i < |s| ==> s[i] == e[i - |y| - 1];
    assert s[|x|] == ':' && s[|y|] == ':';
    assert |x| == |y|;
    assert s[..|x|] == x && s[..|y|] == y;
    assert s[|x| + 1..] == d && s[|y| + 1..] == e;
  }

  // Accounts and knowledge boxes without a colon make keys unambiguous, for any config id.
  lemma ColonFreeUnambiguous(keys: set<Key>)
    requires forall k :: k in keys ==> ColonFree(k)
    ensures Unambiguous(keys)
  {
    forall k, l | k in keys && l in keys && Joined(k) == Joined(l)
      ensures k == l
    {
      assert Joined(k) == k.account + ":" + (k.kbid + ":" + k.id);
      assert Joined(l) == l.account + ":" + (l.kbid + ":" + l.id);
      SplitFirst(k.account, k.kbid + ":" + k.id, l.account, l.kbid + ":" + l.id);
      SplitFirst(k.kbid, k.id, l.kbid, l.id);
    }
  }

  lemma SplitFirst(x: string, d: string, y: string, e: string)
    requires x + ":" + d == y + ":" + e && ':' !in x && ':' !in y
    ensures x == y && d == e
  {
    var s := x + ":" + d;
    assert forall i :: 0 <= i < |x| ==> s[i] == x[i];
    assert forall i :: 0 <= i < |y| ==> s[i] == y[i];
    assert s[|x|] == ':' && s[|y|] == ':';
    assert |x| == |y|;
    assert s[..|x|] == x && s[..|y|] == y;
    assert s[|x| + 1..] == d && s[|y| + 1..] == e;
  }

  // ----- many processes: a read is never older than its bucket -----

  ghost predicate KeysIn<V(!new)>(ops: seq<Op<V>>, keys: set<Key>) {
    forall i :: 0 <= i < |ops| && (ops[i].Write? || ops[i].Read?) ==> ops[i].key in keys
  }

  // In state s the row of `key` holds v, and the entry is that key's in the bucket of s.
  ghost predicate SeenAt<V(!new)>(s: Store<V>, keys: set<Key>, entry: string, v: V, key: Key) {
    key in keys && Valid(s) && entry == CacheKey(key, Bucket(s.now)) && key in s.rows && s.rows[key] == v
  }

  ghost predicate Seen<V(!new)>(states: seq<Store<V>>, keys: set<Key>, n: nat, entry: string, v: V)
    requires n < |states|
  {
    exists i, key :: 0 <= i <= n && SeenAt(states[i], keys, entry, v, key)
  }

  ghost predicate AllSeen<V(!new)>(states: seq<Store<V>>, keys: set<Key>, n: nat)
    requires n < |states|
  {
    forall p, entry :: 0 <= p < |states[n].caches| && entry in states[n].caches[p] ==>
      Seen(states, keys, n, entry, states[n].caches[p][entry])
  }

  lemma {:induction false} RunSeen<V(!new)>(states: seq<Store<V>>, ops: seq<Op<V>>, keys: set<Key>, n: nat)
    requires Run(states, ops) && KeysIn(ops, keys) && Unambiguous(keys) && n < |states|
    ensures AllSeen(states, keys, n)
  {
    if n > 0 {
      assert Valid(states[n - 1]);
      RunSeen(states, ops, keys, n - 1);
      var s, op, s' := states[n - 1], ops[n - 1], states[n];
      assert s' == Next(s, op);
      forall p, entry | 0 <= p < |s'.caches| && entry in s'.caches[p]
        ensures Seen(states, keys, n, entry, s'.caches[p][entry])
      {
        var v := s'.caches[p][entry];
        if entry in s.caches[p] && s.caches[p][entry] == v {
          assert Seen(states, keys, n - 1, entry, v);
        } else if op.Write? {
          assert SeenAt(s', keys, entry, v, op.key);
        } else {
          assert op.Read?;
          assert SeenAt(s, keys, entry, v, op.key);
        }
      }
    }
  }

  // At `earlier`, in the same bucket as s and no later than s, the row held v.
  ghost predicate HeldInBucket<V>(earlier: Store<V>, s: Store<V>, key: Key, v: V)
    requires Valid(s)
  {
    && Valid(earlier) && Bucket(earlier.now) == Bucket(s.now) && earlier.now <= s.now
    && key in earlier.rows && earlier.rows[key] == v
  }

  // Bounded staleness: what process p reads at step n is a value that row had at some earlier
  // (or the present) moment of the same five-second bucket.
  lemma BoundedStaleness<V(!new)>(states: seq<Store<V>>, ops: seq<Op<V>>, keys: set<Key>, n: nat, v: V)
    requires Run(states, ops) && KeysIn(ops, keys) && Unambiguous(keys)
    requires n < |ops| && ops[n].Read? && Answer(states[n], ops[n].p, ops[n].key) == Some(v)
    ensures exists i :: 0 <= i <= n && HeldInBucket(states[i], states[n], ops[n].key, v)
  {
    RunSeen(states, ops, keys, n);
    var s, key := states[n], ops[n].key;
    var entry := CacheKey(key, Bucket(s.now));
    if entry in s.caches[ops[n].p] {
      assert Seen(states, keys, n, entry, v);
      var i, k :| 0 <= i <= n && SeenAt(states[i], keys, entry, v, k);
      CacheKeyParts(k, Bucket(states[i].now), key, Bucket(s.now));
      ClockMonotone(states, ops, i, n);
      assert HeldInBucket(states[i], s, key, v);
    } else {
      assert HeldInBucket(s, s, key, v);
    }
  }

  lemma {:induction false} ClockMonotone<V(!new)>(states: seq<Store<V>>, ops: seq<Op<V>>, i: nat, n: nat)
    requires Run(states, ops) && i <= n < |states|
    ensures states[i].now <= states[n].now
    decreases n - i
  {
    if i < n {
      assert states[n] == Next(states[n - 1], ops[n - 1]);
      ClockMonotone(states, ops, i, n - 1);
    }
  }

  // ----- one process: every read is the row -----

  ghost predicate Coherent<V>(s: Store<V>, keys: set<Key>)
    requires Valid(s) && |s.caches| == 1
  {
    && (forall k :: k in keys && CacheKey(k, Bucket(s.now)) in s.caches[0] ==>
          k in s.rows && s.rows[k] == s.caches[0][CacheKey(k, Bucket(s.now))])
    && (forall k, b :: k in keys && b > Bucket(s.now) ==> CacheKey(k, b) !in s.caches[0])
  }

  lemma CoherentStep<V>(s: Store<V>, op: Op<V>, keys: set<Key>)
    requires Valid(s) && Enabled(s, op) && |s.caches| == 1 && Unambiguous(keys) && Coherent(s, keys)
    requires op.Write? || op.Remove? || op.Read? ==> op.key in keys
    ensures Coherent(Next(s, op), keys)
  {
    var s' := Next(s, op);
    if op.Write? || op.Remove? || op.Read? {
      forall k, b | k in keys
        ensures CacheKey(k, b) == CacheKey(op.key, Bucket(s.now)) <==> k == op.key && b == Bucket(s.now)
      {
        CacheKeyParts(k, b, op.key, Bucket(s.now));
      }
    } else if op.Tick? {
      assert Bucket(s'.now) >= Bucket(s.now);
    }
  }

  // With a single process a read at any point of any run is exactly the row, absent rows included.
  lemma {:induction false} OneProcessExact<V(!new)>(states: seq<Store<V>>, ops: seq<Op<V>>, keys: set<Key>, n: nat,
      key: Key)
    requires Run(states, ops) && KeysIn(ops, keys) && Unambiguous(keys) && n < |states| && key in keys
    requires |states[0].caches| == 1
    requires forall i :: 0 <= i < |ops| && ops[i].Remove? ==> ops[i].key in keys
    ensures |states[n].caches| == 1 && Valid(states[n]) && Coherent(states[n], keys)
    ensures Answer(states[n], 0, key) == if key in states[n].rows then Some(states[n].rows[key]) else None
  {
    if n > 0 {
      OneProcessExact(states, ops, keys, n - 1, key);
      assert states[n] == Next(states[n - 1], ops[n - 1]);
      CoherentStep(states[n - 1], ops[n - 1], keys);
    }
  }

  // ----- when reads are exact -----

  // With a second process a read can return a row that the first one has deleted.
  lemma ManyProcessesReadStale<V(!new)>(n: nat, key: Key, v: V) returns (states: seq<Store<V>>, ops: seq<Op<V>>)
    requires n >= 2
    ensures Run(states, ops) && |states| == 4 && |states[0].caches| == n && OpsIn(ops, {key})
    ensures Valid(states[3]) && |states[3].caches| == n
    ensures key !in states[3].rows && Answer(states[3], 1, key) == Some(v)
  {
    var s0 := Store(0.0, map[], seq(n, _ => map[]));
    ops := [Write(0, key, v), Read(1, key), Remove(0, key)];
    var s1 := Next(s0, ops[0]);
    var s2 := Next(s1, ops[1]);
    var s3 := Next(s2, ops[2]);
    hide CacheKey, Bucket;
    states := [s0, s1, s2, s3];
  }

  // Two keys that print alike let one read the other's row, even in a single process.
  lemma AmbiguousLeaks<V(!new)>(n: nat, k: Key, l: Key, v: V) returns (states: seq<Store<V>>, ops: seq<Op<V>>)
    requires n >= 1 && k != l && Joined(k) == Joined(l)
    ensures Run(states, ops) && |states| == 2 && |states[0].caches| == n && OpsIn(ops, {k, l})
    ensures Valid(states[1]) && |states[1].caches| == n
    ensures l !in states[1].rows && Answer(states[1], 0, l) == Some(v)
  {
    var s0 := Store(0.0, map[], seq(n, _ => map[]));
    ops := [Write(0, k, v)];
    states := [s0, Next(s0, ops[0])];
  }

  ghost predicate OpsIn<V(!new)>(ops: seq<Op<V>>, keys: set<Key>) {
    forall i :: 0 <= i < |ops| && (ops[i].Write? || ops[i].Read? || ops[i].Remove?) ==> ops[i].key in keys
  }

  // In every run of n processes over these keys, whichever process reads whichever key at
  // whatever moment, it gets the row as it is.
  ghost predicate ReadsAreRows<V(!new)>(keys: set<Key>, n: nat) {
    forall states: seq<Store<V>>, ops: seq<Op<V>>, i: nat, p: nat, key: Key ::
      Run(states, ops) && OpsIn(ops, keys) && |states[0].caches| == n && key in keys ==>
        i < |states| && Valid(states[i]) && p < |states[i].caches| ==>
          Answer(states[i], p, key) == RowOf(states[i], key)
  }

  function RowOf<V>(s: Store<V>, key: Key): Option<V> {
    if key in s.rows then Some(s.rows[key]) else None
  }

  // That is so exactly when no two of the keys print alike and, unless there is nothing to read,
  // there is only one process.
  lemma ReadsExactly<V(!new)>(keys: set<Key>, n: nat, v: V)
    requires n >= 1
    ensures ReadsAreRows<V>(keys, n) <==> Unambiguous(keys) && (n == 1 || keys == {})
  {
    hide Next, Answer, OpsIn, Joined;
    if !Unambiguous(keys) {
      var k, l :| k in keys && l in keys && Joined(k) == Joined(l) && k != l;
      var states, ops := AmbiguousLeaks(n, k, l, v);
      OpsInMore(ops, {k, l}, keys);
      assert Answer(states[1], 0, l) != RowOf(states[1], l);
    } else if n > 1 && keys != {} {
      var key :| key in keys;
      var states, ops := ManyProcessesReadStale(n, key, v);
      OpsInMore(ops, {key}, keys);
      assert Answer(states[3], 1, key) != RowOf(states[3], key);
    } else if n == 1 {
      forall states: seq<Store<V>>, ops: seq<Op<V>>, i: nat, p: nat, key: Key |
        Run(states, ops) && OpsIn(ops, keys) && |states[0].caches| == n && key in keys
        && i < |states| && Valid(states[i]) && p < |states[i].caches|
        ensures Answer(states[i], p, key) == RowOf(states[i], key)
      {
        OpsKeys(ops, keys);
        OneProcessExact(states, ops, keys, i, key);
      }
    }
  }

  lemma OpsInMore<V(!new)>(ops: seq<Op<V>>, keys: set<Key>, more: set<Key>)
    requires OpsIn(ops, keys) && keys <= more
    ensures OpsIn(ops, more)
  {
  }

  lemma OpsKeys<V(!new)>(ops: seq<Op<V>>, keys: set<Key>)
    requires OpsIn(ops, keys)
    ensures KeysIn(ops, keys) && forall i :: 0 <= i < |ops| && ops[i].Remove? ==> ops[i].key in keys
  {
  }

  // Such keys exist as soon as an account or a knowledge box may hold a colon.
  lemma ColonsCollide(a: string, b: string, c: string, id: string)
    ensures Joined(Key(a + ":" + b, c, id)) == Joined(Key(a, b + ":" + c, id))
    ensures Key(a + ":" + b, c, id) != Key(a, b + ":" + c, id)
  {
    assert |a + ":" + b| > |a|;
  }
}

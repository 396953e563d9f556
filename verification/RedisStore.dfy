/**
 The part of Redis the firewall uses: a keyspace of values with optional expiry, and a clock.

 One boundary convention holds everywhere: a key is live strictly before its deadline. A dead entry stays in
 the map until it is overwritten, and every operation treats it as absent.

 `Store` also carries the history of INCR commands. A key's incarnation (creation to expiry) is named by the
 position in that history of the INCR that created it, so names are never reused.
 */
module RedisStore {
  import opened Wrappers

  // Time is counted in milliseconds, the resolution of Redis deadlines.
  const SECOND := 1000
  const TEN_SECONDS := 10 * SECOND
  const SIXTY_SECONDS := 60 * SECOND
  const FIFTEEN_MINUTES := 900 * SECOND

  // The three counter calls one request makes.
  datatype Call = Ten | Sixty | Streak

  datatype Value = Num(n: int) | Text(s: string)

  // `inc` names the creating INCR for a counter, and the write in the block-write log for a blocklist key.
  datatype Entry = Entry(value: Value, deadline: Option<int>, inc: nat)

  // One INCR: who issued it, which incarnation it met, the value it handed out, and when.
  datatype Hit = Hit(key: string, rid: nat, call: Call, inc: nat, n: int, time: int)

  datatype Store = Store(now: int, db: map<string, Entry>, hits: seq<Hit>)

  // ---------- Keys ----------

  predicate IsBlockKey(k: string) { |k| > 0 && k[0] == 'b' }

  predicate IsCountKey(k: string) { |k| > 0 && k[0] == 'c' }

  predicate IsStreakKey(k: string) { |k| > 0 && k[0] == 'f' }

  predicate IsCounterKey(k: string) { IsCountKey(k) || IsStreakKey(k) }

  function BlockKey(ip: string): (k: string)
    ensures IsBlockKey(k)
  {
    "blocklist:" + ip
  }

  function CountKey(ip: string, endpoint: string): (k: string)
    ensures IsCountKey(k)
  {
    "count:" + ip + ":" + endpoint
  }

  function StreakKey(identity: string): (k: string)
    ensures IsStreakKey(k)
  {
    "failstreak:" + identity
  }

  // The key of a window call. The code omits the window length (`shared`); the other reading gives each
  // window its own key.
  function WindowKey(shared: bool, ip: string, endpoint: string, call: Call): (k: string)
    ensures IsCountKey(k)
  {
    if shared then CountKey(ip, endpoint)
    else CountKey(ip, endpoint) + if call == Ten then ":10" else ":60"
  }

  lemma BlockKeyInjective(a: string, b: string)
    ensures BlockKey(a) == BlockKey(b) ==> a == b
  {
    if BlockKey(a) == BlockKey(b) {
      assert a == BlockKey(a)[10..] == BlockKey(b)[10..] == b;
    }
  }

  predicate HasColonSlash(s: string) {
    exists i :: 0 <= i < |s| - 1 && s[i] == ':' && s[i + 1] == '/'
  }

  lemma CountKeyParts(ip: string, path: string, ip': string, path': string)
    requires |ip| == |ip'| && CountKey(ip, path) == CountKey(ip', path')
    ensures ip == ip' && path == path'
  {
    var k, k' := CountKey(ip, path), CountKey(ip', path');
    assert ip == k[6..6 + |ip|] == k'[6..6 + |ip'|] == ip';
    assert path == k[7 + |ip|..] == k'[7 + |ip'|..] == path';
  }

  // Request paths start with '/', so a count key names one (ip, path) pair as long as the ip text, which is
  // taken from a header, contains no ":/".
  lemma CountKeyUnambiguous(ip: string, path: string, ip': string, path': string)
    requires 0 < |path| && path[0] == '/' && 0 < |path'| && path'[0] == '/'
    requires CountKey(ip, path) == CountKey(ip', path')
    ensures (ip == ip' && path == path') || HasColonSlash(ip) || HasColonSlash(ip')
  {
    var k, k' := CountKey(ip, path), CountKey(ip', path');
    assert forall i :: 0 <= i < |ip| ==> k[6 + i] == ip[i];
    assert forall i :: 0 <= i < |ip'| ==> k'[6 + i] == ip'[i];
    assert k[6 + |ip|] == ':' && k[7 + |ip|] == '/';
    assert k'[6 + |ip'|] == ':' && k'[7 + |ip'|] == '/';
    if |ip| < |ip'| {
      assert ip'[|ip|] == ':';
      assert |ip| + 1 < |ip'| ==> ip'[|ip| + 1] == '/';
    } else if |ip'| < |ip| {
      assert ip[|ip'|] == ':';
      assert |ip'| + 1 < |ip| ==> ip[|ip'| + 1] == '/';
    } else {
      CountKeyParts(ip, path, ip', path');
    }
  }

  // Exactly the ambiguous pairs: another pair shares the key of (ip, path) if and only if one of the two texts
  // contains ":/".
  lemma CountKeyAmbiguousExactly(ip: string, path: string)
    requires 0 < |path| && path[0] == '/'
    ensures (exists ip', path' :: Collides(ip, path, ip', path')) <==> HasColonSlash(ip) || HasColonSlash(path)
  {
    if ip', path' :| Collides(ip, path, ip', path') {
      CollisionHasColonSlash(ip, path, ip', path');
    }
    if HasColonSlash(ip) {
      var i :| 0 <= i < |ip| - 1 && ip[i] == ':' && ip[i + 1] == '/';
      CutIp(ip, path, i);
    }
    if HasColonSlash(path) {
      var i :| 0 <= i < |path| - 1 && path[i] == ':' && path[i + 1] == '/';
      CutPath(ip, path, i);
    }
  }

  // The same key cut at a colon inside the ip, or inside the path.
  lemma CutIp(ip: string, path: string, i: nat)
    requires i < |ip| - 1 && ip[i] == ':' && ip[i + 1] == '/'
    ensures Collides(ip, path, ip[..i], ip[i + 1..] + ":" + path)
  {
    assert ip == ip[..i] + ":" + ip[i + 1..];
    assert CountKey(ip[..i], ip[i + 1..] + ":" + path) == CountKey(ip, path);
  }

  lemma CutPath(ip: string, path: string, i: nat)
    requires i < |path| - 1 && path[i] == ':' && path[i + 1] == '/'
    ensures Collides(ip, path, ip + ":" + path[..i], path[i + 1..])
  {
    assert path == path[..i] + ":" + path[i + 1..];
    assert CountKey(ip + ":" + path[..i], path[i + 1..]) == CountKey(ip, path);
  }

  // A different pair, with a path that starts with '/', and the same count key.
  ghost predicate Collides(ip: string, path: string, ip': string, path': string) {
    && 0 < |path'| && path'[0] == '/' && (ip != ip' || path != path')
    && CountKey(ip', path') == CountKey(ip, path)
  }

  lemma CollisionHasColonSlash(ip: string, path: string, ip': string, path': string)
    requires 0 < |path| && path[0] == '/' && Collides(ip, path, ip', path')
    ensures HasColonSlash(ip) || HasColonSlash(path)
  {
    var k, k' := CountKey(ip, path), CountKey(ip', path');
    assert forall i :: 0 <= i < |ip| ==> k[6 + i] == ip[i];
    assert forall i :: 0 <= i < |path| ==> k[7 + |ip| + i] == path[i];
    assert k'[6 + |ip'|] == ':' && k'[7 + |ip'|] == '/';
    if |ip'| < |ip| {
      assert ip[|ip'|] == ':';
      assert |ip'| + 1 < |ip| ==> ip[|ip'| + 1] == '/';
    } else if |ip| < |ip'| {
      var i := |ip'| - |ip| - 1;
      assert |k| == 7 + |ip| + |path| == 7 + |ip'| + |path'|;
      assert path[i] == ':' && path[i + 1] == '/';
    } else {
      CountKeyParts(ip, path, ip', path');
    }
  }

  // One such collision.
  lemma CountKeyAmbiguous()
    ensures CountKey("a", "/b:/c") == CountKey("a:/b", "/c")
  {
    assert CountKey("a", "/b:/c") == "count:a:/b:/c" == CountKey("a:/b", "/c");
  }

  // ---------- Operations ----------

  predicate Live(st: Store, k: string) {
    k in st.db && (st.db[k].deadline.None? || st.now < st.db[k].deadline.value)
  }

  // INCR answers with an error on a key that holds text; the key families make that unreachable.
  predicate Countable(st: Store, k: string) {
    Live(st, k) ==> st.db[k].value.Num?
  }

  // The value the next INCR of `k` returns.
  function NextCount(st: Store, k: string): int
    requires Countable(st, k)
  {
    if Live(st, k) then st.db[k].value.n + 1 else 1
  }

  // INCR: a missing or dead key becomes 1 with no deadline; a live one keeps its deadline.
  function Incr(st: Store, k: string, rid: nat, call: Call): Store
    requires Countable(st, k)
  {
    var n := NextCount(st, k);
    var inc := if Live(st, k) then st.db[k].inc else |st.hits|;
    var deadline := if Live(st, k) then st.db[k].deadline else None;
    st.(db := st.db[k := Entry(Num(n), deadline, inc)],
        hits := st.hits + [Hit(k, rid, call, inc, n, st.now)])
  }

  // EXPIRE: no effect on a missing or dead key.
  function Expire(st: Store, k: string, ttl: int): Store {
    if Live(st, k) then st.(db := st.db[k := st.db[k].(deadline := Some(st.now + ttl))]) else st
  }

  // SET with a TTL.
  function SetEx(st: Store, k: string, text: string, ttl: int, id: nat): Store {
    st.(db := st.db[k := Entry(Text(text), Some(st.now + ttl), id)])
  }

  function Delete(st: Store, k: string): Store {
    st.(db := st.db - {k})
  }

  function Advance(st: Store, d: nat): Store {
    st.(now := st.now + d)
  }

  /** The server as a mutable object. Each command is proved equal to its function above. */
  class Redis {
    var now: int
    var db: map<string, Entry>
    var hits: seq<Hit>  // the history, kept with the data so that incarnations have names

    ghost function View(): Store
      reads this
    {
      Store(now, db, hits)
    }

    constructor (start: int)
      ensures View() == Store(start, map[], [])
    {
      now, db, hits := start, map[], [];
    }

    predicate IsLive(k: string)
      reads this
      ensures IsLive(k) == Live(View(), k)
    {
      k in db && (db[k].deadline.None? || now < db[k].deadline.value)
    }

    method HasKey(k: string) returns (present: bool)
      ensures present == Live(View(), k)
    {
      present := IsLive(k);
    }

    method Increment(k: string, rid: nat, call: Call) returns (count: int)
      requires Countable(View(), k)
      modifies this
      ensures View() == Incr(old(View()), k, rid, call)
      ensures count == NextCount(old(View()), k)
    {
      ghost var before := View();
      if IsLive(k) {
        count := db[k].value.n + 1;
        db := db[k := db[k].(value := Num(count))];
      } else {
        count := 1;
        db := db[k := Entry(Num(1), None, |hits|)];
      }
      hits := hits + [Hit(k, rid, call, db[k].inc, count, now)];
    }

    method SetExpiry(k: string, ttl: int)
      modifies this
      ensures View() == Expire(old(View()), k, ttl)
    {
      if IsLive(k) {
        db := db[k := db[k].(deadline := Some(now + ttl))];
      }
    }

    method Set(k: string, text: string, ttl: int, id: nat)
      modifies this
      ensures View() == SetEx(old(View()), k, text, ttl, id)
    {
      db := db[k := Entry(Text(text), Some(now + ttl), id)];
    }

    method Remove(k: string)
      modifies this
      ensures View() == Delete(old(View()), k)
    {
      db := db - {k};
    }
  }
}

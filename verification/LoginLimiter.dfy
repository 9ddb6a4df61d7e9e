/**
 The sliding-window login limiter. It keeps only pruned deques for a bounded number of clients; the claim is
 that it decides as if it counted every attempt it ever granted in the last fifteen minutes.
 */
module LoginLimiter {
  import opened Prelude

  datatype Client = Client(address: string)

  const WINDOW: Time := 900
  const MAX_ATTEMPTS: nat := 8
  const MAX_CLIENTS: nat := 4096

  predicate Sorted(h: seq<Time>) {
    forall i, j :: 0 <= i < j < |h| ==> h[i] <= h[j]
  }

  /** How many of the attempts fall into the window that ends now. */
  function CountSince(h: seq<Time>, now: Time): nat {
    if h == [] then 0
    else CountSince(h[..|h| - 1], now) + if h[|h| - 1] >= now - WINDOW then 1 else 0
  }

  /** Any nine attempts in a row take longer than the window. */
  predicate Spaced(h: seq<Time>) {
    forall i :: 0 <= i && i + MAX_ATTEMPTS < |h| ==> h[i + MAX_ATTEMPTS] - h[i] > WINDOW
  }

  /** A deque `w` stands for the history `h`: it is the history's end, and all that was dropped is too old to count. */
  predicate Stands(h: seq<Time>, w: seq<Time>, clock: Time) {
    && Sorted(h) && Spaced(h) && |w| <= |h| && |w| <= MAX_ATTEMPTS
    && w == h[|h| - |w|..]
    && (forall k :: 0 <= k < |h| ==> h[k] <= clock)
    && (forall k :: 0 <= k < |h| - |w| ==> h[k] < clock - WINDOW)
  }

  lemma {:induction false} CountNone(h: seq<Time>, now: Time)
    requires forall k :: 0 <= k < |h| ==> h[k] < now - WINDOW
    ensures CountSince(h, now) == 0
  {
    if h != [] { CountNone(h[..|h| - 1], now); }
  }

  lemma {:induction false} CountAll(h: seq<Time>, w: seq<Time>, now: Time)
    requires forall k :: 0 <= k < |w| ==> w[k] >= now - WINDOW
    ensures CountSince(h + w, now) == CountSince(h, now) + |w|
    decreases |w|
  {
    if w == [] {
      assert h + w == h;
    } else {
      assert (h + w)[..|h + w| - 1] == h + w[..|w| - 1];
      CountAll(h, w[..|w| - 1], now);
    }
  }

  /** A pruned deque has as many entries as the history has attempts in the window. */
  lemma PrunedCount(h: seq<Time>, w: seq<Time>, now: Time)
    requires Stands(h, w, now) && (w != [] ==> w[0] >= now - WINDOW)
    ensures |w| == CountSince(h, now)
  {
    var dropped := h[..|h| - |w|];
    assert h == dropped + w;
    assert Sorted(w);
    CountNone(dropped, now);
    CountAll(dropped, w, now);
  }

  lemma GrantSpaced(h: seq<Time>, w: seq<Time>, now: Time)
    requires Stands(h, w, now) && |w| < MAX_ATTEMPTS
    ensures Spaced(h + [now])
  {
    var h' := h + [now];
    forall i | 0 <= i && i + MAX_ATTEMPTS < |h'| ensures h'[i + MAX_ATTEMPTS] - h'[i] > WINDOW {
      if i + MAX_ATTEMPTS == |h| {
        assert h[i] < now - WINDOW;
      } else {
        assert h[i + MAX_ATTEMPTS] - h[i] > WINDOW;
      }
    }
  }

  lemma GrantStands(h: seq<Time>, w: seq<Time>, now: Time)
    requires Stands(h, w, now) && |w| < MAX_ATTEMPTS
    ensures Stands(h + [now], w + [now], now)
  {
    GrantSpaced(h, w, now);
    assert (h + [now])[|h| - |w|..] == w + [now];
    assert Sorted(h + [now]);
  }

  lemma LaterStands(h: seq<Time>, w: seq<Time>, clock: Time, now: Time)
    requires Stands(h, w, clock) && clock <= now
    ensures Stands(h, w, now)
  {
  }

  /** Old attempts leave the deque at its front. */
  method DropOld(deque: seq<Time>, now: Time, ghost h: seq<Time>) returns (window: seq<Time>)
    requires Stands(h, deque, now)
    ensures Stands(h, window, now) && (window != [] ==> window[0] >= now - WINDOW)
    ensures |window| == CountSince(h, now) && (deque == [] ==> window == [])
  {
    window := deque;
    while window != [] && window[0] < now - WINDOW
      invariant Stands(h, window, now) && (deque == [] ==> window == [])
      decreases |window|
    {
      PopStands(h, window, now);
      window := window[1..];
    }
    PrunedCount(h, window, now);
  }

  lemma PopStands(h: seq<Time>, w: seq<Time>, now: Time)
    requires Stands(h, w, now) && w != [] && w[0] < now - WINDOW
    ensures Stands(h, w[1..], now)
  {
  }

  predicate Distinct(s: seq<Client>) {
    forall i, j :: 0 <= i < j < |s| ==> s[i] != s[j]
  }

  type Deques = map<Client, seq<Time>>

  function WindowIn(m: Deques, ip: Client): seq<Time> {
    if ip in m then m[ip] else []
  }

  /** `order` lists the tracked clients. */
  ghost predicate Lists(order: seq<Client>, attempts: Deques) {
    Distinct(order) && forall ip :: ip in order <==> ip in attempts
  }

  /** Every deque stands for its client's history, and a client without one has nothing recent. */
  ghost predicate Represents(attempts: Deques, granted: Deques, clock: Time) {
    && (forall ip :: ip in attempts ==> attempts[ip] != [] && ip in granted)
    && forall ip :: ip in granted ==> Stands(granted[ip], WindowIn(attempts, ip), clock)
  }

  /** Replacing one client's deque by another that stands for the same history. */
  lemma PutWindow(attempts: Deques, granted: Deques, clock: Time, ip: Client, window: seq<Time>)
    requires Represents(attempts, granted, clock)
    requires Stands(WindowIn(granted, ip), window, clock)
    ensures Represents(if window == [] then attempts - {ip} else attempts[ip := window], granted, clock)
  {
    var after := if window == [] then attempts - {ip} else attempts[ip := window];
    forall other | other in granted ensures Stands(granted[other], WindowIn(after, other), clock) {
      if other != ip { assert WindowIn(after, other) == WindowIn(attempts, other); }
    }
  }

  lemma LaterRepresents(attempts: Deques, granted: Deques, clock: Time, now: Time)
    requires Represents(attempts, granted, clock) && clock <= now
    ensures Represents(attempts, granted, now)
  {
    forall ip | ip in granted ensures Stands(granted[ip], WindowIn(attempts, ip), now) {
      LaterStands(granted[ip], WindowIn(attempts, ip), clock, now);
    }
  }

  lemma StandsEmpty(h: seq<Time>, w: seq<Time>, now: Time)
    requires Stands(h, w, now) && w != [] && w[|w| - 1] < now - WINDOW
    ensures Stands(h, [], now) && CountSince(h, now) == 0
  {
    assert w[|w| - 1] == h[|h| - 1];
    assert forall k :: 0 <= k < |h| ==> h[k] <= h[|h| - 1];
    PrunedCount(h, [], now);
  }

  /** Without the deque of a client whose attempts are all too old, the deques still stand for the histories. */
  lemma DropExpired(attempts: Deques, granted: Deques, clock: Time, ip: Client)
    requires Represents(attempts, granted, clock) && ip in attempts
    requires attempts[ip][|attempts[ip]| - 1] < clock - WINDOW
    ensures Represents(attempts - {ip}, granted, clock)
    ensures CountSince(WindowIn(granted, ip), clock) == 0
  {
    StandsEmpty(granted[ip], attempts[ip], clock);
    PutWindow(attempts, granted, clock, ip, []);
  }

  lemma {:induction false} NewestCounts(h: seq<Time>, w: seq<Time>, now: Time)
    requires Stands(h, w, now) && w != [] && w[|w| - 1] >= now - WINDOW
    ensures CountSince(h, now) > 0
  {
    assert w[|w| - 1] == h[|h| - 1];
  }

  /** Evicting a client forgets its deque and its history. */
  lemma Forget(attempts: Deques, granted: Deques, clock: Time, ip: Client)
    requires Represents(attempts, granted, clock)
    ensures Represents(attempts - {ip}, granted - {ip}, clock)
  {
    forall other | other in granted - {ip} ensures Stands(granted[other], WindowIn(attempts - {ip}, other), clock) {
      assert WindowIn(attempts - {ip}, other) == WindowIn(attempts, other);
    }
  }

  lemma Grant(attempts: Deques, granted: Deques, now: Time, ip: Client)
    requires Represents(attempts, granted, now) && |WindowIn(attempts, ip)| < MAX_ATTEMPTS
    ensures Represents(attempts[ip := WindowIn(attempts, ip) + [now]],
                       granted[ip := WindowIn(granted, ip) + [now]], now)
  {
    var a, g := attempts[ip := WindowIn(attempts, ip) + [now]], granted[ip := WindowIn(granted, ip) + [now]];
    GrantStands(WindowIn(granted, ip), WindowIn(attempts, ip), now);
    forall other | other in g ensures Stands(g[other], WindowIn(a, other), now) {
      if other != ip { assert WindowIn(a, other) == WindowIn(attempts, other); }
    }
  }

  lemma RemovedMembers(s: seq<Client>, k: nat, x: Client)
    requires Distinct(s) && k < |s|
    ensures x in s[..k] + s[k + 1..] <==> x in s && x != s[k]
  {
    if x in s && x != s[k] {
      var i :| 0 <= i < |s| && s[i] == x;
      if i < k { assert s[..k][i] == x; } else { assert s[k + 1..][i - k - 1] == x; }
    }
    if x in s[..k] {
      var i :| 0 <= i < k && s[..k][i] == x;
      assert s[i] == x;
    }
    if x in s[k + 1..] {
      var i :| 0 <= i < |s| - k - 1 && s[k + 1..][i] == x;
      assert s[k + 1 + i] == x;
    }
  }

  lemma Unlist(order: seq<Client>, attempts: Deques, k: nat)
    requires Lists(order, attempts) && k < |order|
    ensures Lists(order[..k] + order[k + 1..], attempts - {order[k]})
  {
    forall ip ensures ip in order[..k] + order[k + 1..] <==> ip in attempts - {order[k]} {
      RemovedMembers(order, k, ip);
    }
  }

  /** Each of these clients has an attempt in the window. */
  ghost predicate AllCount(clients: seq<Client>, granted: Deques, now: Time) {
    forall ip :: ip in clients ==> CountSince(WindowIn(granted, ip), now) > 0
  }

  ghost predicate AllRecent(clients: set<Client>, granted: Deques, now: Time) {
    forall ip :: ip in clients ==> CountSince(WindowIn(granted, ip), now) > 0
  }

  lemma AllCountSnoc(clients: seq<Client>, i: nat, granted: Deques, now: Time)
    requires i < |clients| && AllCount(clients[..i], granted, now) && CountSince(WindowIn(granted, clients[i]), now) > 0
    ensures AllCount(clients[..i + 1], granted, now)
  {
    assert clients[..i + 1] == clients[..i] + [clients[i]];
  }

  /** The clients are listed in the order in which tracking them began; `joined` counts these beginnings. */
  ghost predicate Aged(order: seq<Client>, since: map<Client, nat>, joined: nat) {
    && (forall k :: 0 <= k < |order| ==> order[k] in since && since[order[k]] < joined)
    && (forall i, j :: 0 <= i < j < |order| ==> since[order[i]] < since[order[j]])
  }

  lemma AgedWithout(order: seq<Client>, since: map<Client, nat>, joined: nat, k: nat)
    requires Aged(order, since, joined) && k < |order|
    ensures Aged(order[..k] + order[k + 1..], since, joined)
  {
    var rest := order[..k] + order[k + 1..];
    assert forall i :: 0 <= i < |rest| ==> rest[i] == order[if i < k then i else i + 1];
  }

  lemma AgedSnoc(order: seq<Client>, since: map<Client, nat>, joined: nat, ip: Client)
    requires Aged(order, since, joined) && ip !in order
    ensures Aged(order + [ip], since[ip := joined], joined + 1)
  {
    var longer := order + [ip];
    assert forall i :: 0 <= i < |order| ==> longer[i] == order[i] && order[i] in order;
  }

  /** The first one listed has been tracked longest. */
  lemma FirstIsOldest(order: seq<Client>, since: map<Client, nat>, joined: nat, ip: Client)
    requires Aged(order, since, joined) && order != [] && ip in order
    ensures ip == order[0] || since[order[0]] < since[ip]
  {
    var k :| 0 <= k < |order| && order[k] == ip;
  }

  /** The clients in `gone` have been tracked for longer than any of the others. */
  ghost predicate TrackedLongest(gone: set<Client>, others: set<Client>, since: map<Client, nat>) {
    forall v, w :: v in gone && w in others ==> v in since && w in since && since[v] < since[w]
  }

  lemma OldestGoes(order: seq<Client>, attempts: Deques, since: map<Client, nat>, joined: nat)
    requires Lists(order, attempts) && Aged(order, since, joined) && order != []
    ensures TrackedLongest({order[0]}, attempts.Keys - {order[0]}, since)
  {
    forall w | w in attempts.Keys - {order[0]} ensures w in since && since[order[0]] < since[w] {
      assert w in order;
      FirstIsOldest(order, since, joined, w);
    }
  }

  lemma TrackedKnown(order: seq<Client>, attempts: Deques, since: map<Client, nat>, joined: nat)
    requires Lists(order, attempts) && Aged(order, since, joined)
    ensures attempts.Keys <= since.Keys
  {
    forall ip | ip in attempts ensures ip in since {
      assert ip in order;
    }
  }

  predicate SameSince(clients: set<Client>, a: map<Client, nat>, b: map<Client, nat>) {
    forall ip :: ip in clients ==> ip in a && ip in b && a[ip] == b[ip]
  }

  function RecentAt(h: seq<Time>, now: Time): set<nat> {
    set k: nat | k < |h| && h[k] >= now - 900
  }

  /** Counting is what it says: the attempts not before the last 900 seconds. */
  lemma {:induction false} CountIs(h: seq<Time>, now: Time)
    ensures CountSince(h, now) == |RecentAt(h, now)|
  {
    if h == [] {
      assert RecentAt(h, now) == {};
    } else {
      var n := |h| - 1;
      CountIs(h[..n], now);
      assert RecentAt(h, now) == if h[n] >= now - 900 then RecentAt(h[..n], now) + {n} else RecentAt(h[..n], now);
    }
  }

  class Limiter {
    /** The deques, and their keys in insertion order. */
    var attempts: Deques
    var order: seq<Client>
    /** Every attempt granted to a client since it was last cleared or evicted for capacity, and the last time seen. */
    ghost var granted: Deques
    ghost var clock: Time
    /** For each client, as the how manieth it was when tracking it began, and how many there were. */
    ghost var since: map<Client, nat>
    ghost var joined: nat

    ghost predicate Ordered()
      reads this
    {
      Lists(order, attempts) && Aged(order, since, joined)
    }

    ghost function History(ip: Client): seq<Time>
      reads this
    {
      WindowIn(granted, ip)
    }

    ghost predicate Valid()
      reads this
    {
      Ordered() && Represents(attempts, granted, clock) && |order| <= MAX_CLIENTS
    }

    constructor (now: Time)
      ensures Valid() && granted == map[] && clock == now
    {
      attempts, order, granted, clock := map[], [], map[], now;
      since, joined := map[], 0;
    }

    method RemoveAt(k: nat)
      requires Ordered() && k < |order|
      modifies this`attempts, this`order
      ensures Ordered() && attempts == old(attempts) - {old(order)[k]}
      ensures order == old(order)[..k] + old(order)[k + 1..]
    {
      Unlist(order, attempts, k);
      AgedWithout(order, since, joined, k);
      attempts := attempts - {order[k]};
      order := order[..k] + order[k + 1..];
    }

    method Append(ip: Client, now: Time)
      requires Ordered()
      modifies this`attempts, this`order, this`since, this`joined
      ensures Ordered() && attempts == old(attempts)[ip := WindowIn(old(attempts), ip) + [now]]
      ensures |order| == |old(order)| + if ip in old(attempts) then 0 else 1
      ensures since == if ip in old(attempts) then old(since) else old(since)[ip := old(joined)]
    {
      if ip !in attempts {
        AgedSnoc(order, since, joined, ip);
        order := order + [ip];
        since, joined := since[ip := joined], joined + 1;
      }
      attempts := attempts[ip := WindowIn(attempts, ip) + [now]];
    }

    method Remove(ip: Client)
      requires Ordered() && ip in attempts
      modifies this`attempts, this`order
      ensures Ordered() && attempts == old(attempts) - {ip} && |order| == |old(order)| - 1
    {
      var k := 0;
      while order[k] != ip
        invariant 0 <= k < |order| && forall i :: 0 <= i < k ==> order[i] != ip
        decreases |order| - k
      {
        assert exists i :: 0 <= i < |order| && order[i] == ip;
        k := k + 1;
      }
      RemoveAt(k);
    }

    method Store(ip: Client, window: seq<Time>)
      requires Ordered()
      requires window != [] ==> ip in attempts
      modifies this`attempts, this`order
      ensures Ordered() && |order| <= |old(order)|
      ensures attempts == if window == [] then old(attempts) - {ip} else old(attempts)[ip := window]
    {
      if window != [] {
        attempts := attempts[ip := window];
      } else if ip in attempts {
        Remove(ip);
      } else {
        assert attempts - {ip} == attempts;
      }
    }

    method Prune(ip: Client, now: Time) returns (window: seq<Time>)
      requires Valid() && now >= clock
      modifies this`attempts, this`order, this`clock
      ensures Valid() && clock == now && |order| <= |old(order)| && attempts.Keys <= old(attempts.Keys)
      ensures window == WindowIn(attempts, ip) && |window| == CountSince(History(ip), now)
    {
      LaterRepresents(attempts, granted, clock, now);
      clock := now;
      window := DropOld(WindowIn(attempts, ip), now, History(ip));
      PutWindow(attempts, granted, now, ip, window);
      Store(ip, window);
    }

    /** Drops the `i`-th tracked client if its newest attempt is too old to count. */
    method SweepOne(i: nat, now: Time) returns (dropped: bool)
      requires Valid() && now == clock && i < |order|
      modifies this`attempts, this`order
      ensures Valid()
      ensures dropped <==> CountSince(WindowIn(granted, old(order)[i]), now) == 0
      ensures dropped ==> attempts == old(attempts) - {old(order)[i]} && order == old(order)[..i] + old(order)[i + 1..]
      ensures !dropped ==> attempts == old(attempts) && order == old(order)
    {
      var ip := order[i];
      var w := attempts[ip];
      dropped := w[|w| - 1] < now - WINDOW;
      if dropped {
        DropExpired(attempts, granted, clock, ip);
        RemoveAt(i);
      } else {
        NewestCounts(granted[ip], w, now);
      }
    }

    /** Drops every client without an attempt that counts; their histories go on standing. */
    method SweepExpired(now: Time)
      requires Valid() && now == clock
      modifies this`attempts, this`order
      ensures Valid() && |order| <= |old(order)| && attempts.Keys <= old(attempts.Keys)
      ensures AllCount(order, granted, now)
    {
      var i := 0;
      while i < |order|
        invariant 0 <= i <= |order| <= |old(order)| && Valid()
        invariant AllCount(order[..i], granted, now) && attempts.Keys <= old(attempts.Keys)
        decreases |order| - i
      {
        ghost var before := order;
        var dropped := SweepOne(i, now);
        if dropped {
          assert order[..i] == before[..i];
        } else {
          AllCountSnoc(order, i, granted, now);
          i := i + 1;
        }
      }
      assert order[..i] == order;
    }

    /** Makes room for one more client: at the limit, the one tracked longest goes. */
    method Evict()
      requires Valid()
      modifies this`attempts, this`order, this`granted
      ensures Valid() && |order| < MAX_CLIENTS
      ensures |old(order)| < MAX_CLIENTS ==> attempts == old(attempts) && granted == old(granted)
      ensures |old(order)| == MAX_CLIENTS ==>
                attempts == old(attempts) - {old(order)[0]} && granted == old(granted) - {old(order)[0]}
    {
      while |order| >= MAX_CLIENTS
        invariant Valid()
        invariant (order == old(order) && attempts == old(attempts) && granted == old(granted))
               || (|old(order)| == MAX_CLIENTS && |order| == MAX_CLIENTS - 1
                   && attempts == old(attempts) - {old(order)[0]} && granted == old(granted) - {old(order)[0]})
        decreases |order|
      {
        Forget(attempts, granted, clock, order[0]);
        granted := granted - {order[0]};
        RemoveAt(0);
      }
    }

    /** Room for an untracked client: the clients whose attempts no longer count go, or else the oldest. */
    method MakeRoom(ip: Client, now: Time) returns (ghost evicted: set<Client>)
      requires Valid() && now == clock && ip !in attempts
      modifies this`attempts, this`order, this`granted
      ensures Valid() && |order| < MAX_CLIENTS && ip !in attempts
      ensures attempts.Keys <= old(attempts.Keys) && TrackedLongest(evicted, attempts.Keys, since)
      ensures granted == old(granted) - evicted
      ensures |evicted| <= 1 && ip !in evicted && AllRecent(evicted, old(granted), now)
      ensures evicted != {} ==> |old(order)| == MAX_CLIENTS
    {
      evicted := {};
      assert granted - {} == granted;
      if |order| >= MAX_CLIENTS {
        SweepExpired(now);
        if |order| == MAX_CLIENTS {
          evicted := {order[0]};
          assert AllRecent(evicted, granted, now);
          OldestGoes(order, attempts, since, joined);
        }
        Evict();
      }
    }

    method Book(ip: Client, now: Time)
      requires Valid() && now == clock && |WindowIn(attempts, ip)| < MAX_ATTEMPTS
      requires ip in attempts || |order| < MAX_CLIENTS
      modifies this`attempts, this`order, this`granted, this`since, this`joined
      ensures Valid() && granted == old(granted)[ip := old(History(ip)) + [now]]
      ensures attempts.Keys == old(attempts.Keys) + {ip}
      ensures since == if ip in old(attempts) then old(since) else old(since)[ip := old(joined)]
    {
      Grant(attempts, granted, now, ip);
      granted := granted[ip := History(ip) + [now]];
      Append(ip, now);
    }

    /** Books an attempt, after making room for a client that is not tracked. */
    method Admit(ip: Client, now: Time) returns (ghost evicted: set<Client>)
      requires Valid() && now == clock && |WindowIn(attempts, ip)| < MAX_ATTEMPTS
      modifies this`attempts, this`order, this`granted, this`since, this`joined
      ensures Valid() && granted == (old(granted) - evicted)[ip := old(History(ip)) + [now]]
      ensures evicted != {} ==> |old(order)| == MAX_CLIENTS && ip !in old(attempts)
      ensures |evicted| <= 1 && ip !in evicted && AllRecent(evicted, old(granted), now)
      ensures TrackedLongest(evicted, attempts.Keys - {ip}, old(since))
      ensures SameSince(attempts.Keys - {ip}, since, old(since))
      ensures ip !in old(attempts) ==> ip in since && since[ip] == old(joined)
    {
      evicted := {};
      if ip !in attempts {
        evicted := MakeRoom(ip, now);
      } else {
        assert granted - {} == granted;
      }
      TrackedKnown(order, attempts, since, joined);
      Book(ip, now);
    }

    /**
     Grants an attempt exactly if fewer than eight were granted in the window, and books it. At most one other
     client is forgotten for it, and only when as many clients as can be tracked have attempts that still count.
     */
    method Reserve(ip: Client, now: Time) returns (ok: bool, ghost evicted: set<Client>)
      requires Valid() && now >= clock
      modifies this
      ensures Valid() && clock == now
      ensures ok <==> CountSince(old(History(ip)), now) < 8
      ensures granted == if ok then (old(granted) - evicted)[ip := old(History(ip)) + [now]] else old(granted)
      ensures evicted != {} ==> |old(order)| == 4096 && CountSince(old(History(ip)), now) == 0
      ensures |evicted| <= 1 && ip !in evicted && AllRecent(evicted, old(granted), now)
      ensures TrackedLongest(evicted, attempts.Keys - {ip}, old(since))
      ensures SameSince(attempts.Keys - {ip}, since, old(since))
      ensures ok && ip !in old(attempts) ==> ip in since && since[ip] == old(joined)
    {
      var window := Prune(ip, now);
      TrackedKnown(order, attempts, since, joined);
      ok := |window| < MAX_ATTEMPTS;
      evicted := {};
      if ok {
        evicted := Admit(ip, now);
      }
    }

    method Allowed(ip: Client, now: Time) returns (ok: bool)
      requires Valid() && now >= clock
      modifies this`attempts, this`order, this`clock
      ensures Valid() && clock == now
      ensures ok <==> CountSince(History(ip), now) < 8
    {
      var window := Prune(ip, now);
      ok := |window| < MAX_ATTEMPTS;
    }

    method Clear(ip: Client)
      requires Valid()
      modifies this
      ensures Valid() && clock == old(clock) && granted == old(granted) - {ip} && ip !in attempts
    {
      Forget(attempts, granted, clock, ip);
      granted := granted - {ip};
      if ip in attempts {
        Remove(ip);
      } else {
        assert attempts - {ip} == attempts;
      }
    }
  }

  /** Any nine attempts granted to a client, with no clearing or eviction between, span more than the window. */
  lemma NineGrantsSpan(l: Limiter, ip: Client, i: nat)
    requires l.Valid() && i + 8 < |l.History(ip)|
    ensures l.History(ip)[i + 8] - l.History(ip)[i] > 900
  {
    assert Stands(l.granted[ip], WindowIn(l.attempts, ip), l.clock);
  }

  /** At most 4096 clients are tracked, each with between one and eight attempts in order of time. */
  lemma TrackedBounds(l: Limiter)
    requires l.Valid()
    ensures |l.attempts| <= 4096
    ensures forall ip :: ip in l.attempts ==> 1 <= |l.attempts[ip]| <= 8 && Sorted(l.attempts[ip])
  {
    DistinctSize(l.order, l.attempts.Keys);
    forall ip | ip in l.attempts ensures 1 <= |l.attempts[ip]| <= MAX_ATTEMPTS && Sorted(l.attempts[ip]) {
      assert Stands(l.granted[ip], WindowIn(l.attempts, ip), l.clock);
    }
  }

  lemma {:induction false} DistinctSize(s: seq<Client>, keys: set<Client>)
    requires Distinct(s) && forall x :: x in s <==> x in keys
    ensures |keys| == |s|
  {
    if s == [] {
      assert keys == {};
    } else {
      var last := s[|s| - 1];
      assert s == s[..|s| - 1] + [last];
      assert last !in s[..|s| - 1];
      DistinctSize(s[..|s| - 1], keys - {last});
    }
  }
}

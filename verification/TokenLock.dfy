/** The Redis lock: SET NX PX with a fresh token, a compare-and-delete release, and a clock. */
module TokenLock {
  import opened Tables

  type Key = nat
  type Token = nat

  datatype Held = Held(token: Token, expires: nat)

  /** What one successful acquisition was given; `released` once its owner called release. */
  datatype Grant = Grant(key: Key, token: Token, expires: nat, released: bool)

  datatype State = State(now: nat, locks: map<Key, Held>, grants: seq<Grant>)

  /** A key whose TTL has run out is as good as absent. */
  predicate Live(s: State, key: Key) {
    key in s.locks && s.now < s.locks[key].expires
  }

  datatype Action = Acquire(key: Key, token: Token, ttl: nat) | Release(key: Key, token: Token) | Pass(ms: nat)

  /** Tokens are UUIDs: never drawn twice. */
  predicate Enabled(s: State, a: Action) {
    a.Acquire? ==> forall g | g in s.grants :: g.token != a.token
  }

  function MarkReleased(grants: seq<Grant>, key: Key, token: Token): seq<Grant> {
    seq(|grants|, k requires 0 <= k < |grants| =>
      if grants[k].key == key && grants[k].token == token then grants[k].(released := true) else grants[k])
  }

  function Next(s: State, a: Action): State
    requires Enabled(s, a)
  {
    match a
    case Acquire(key, token, ttl) =>
      if Live(s, key) then s
      else s.(locks := s.locks[key := Held(token, s.now + ttl)],
              grants := s.grants + [Grant(key, token, s.now + ttl, false)])
    case Release(key, token) =>
      s.(locks := if Live(s, key) && s.locks[key].token == token then s.locks - {key} else s.locks,
         grants := MarkReleased(s.grants, key, token))
    case Pass(ms) => s.(now := s.now + ms)
  }

  const INITIAL := State(0, map[], [])

  /** An owner still entitled to its lock. */
  predicate Entitled(s: State, g: Grant) { !g.released && s.now < g.expires }

  /** The lock table and the grants agree: an entitled owner has its token stored, and a live token has an entitled
      owner. */
  ghost predicate Inv(s: State) {
    && (forall i, j | 0 <= i < j < |s.grants| :: s.grants[i].token != s.grants[j].token)
    && (forall g | g in s.grants && Entitled(s, g) :: g.key in s.locks && s.locks[g.key] == Held(g.token, g.expires))
    && (forall key | Live(s, key) :: Grant(key, s.locks[key].token, s.locks[key].expires, false) in s.grants)
  }

  lemma MarkedCases(grants: seq<Grant>, key: Key, token: Token)
    ensures forall g | g in MarkReleased(grants, key, token) ::
      if g.key == key && g.token == token then g.released else g in grants
    ensures forall g | g in grants && !(g.key == key && g.token == token) :: g in MarkReleased(grants, key, token)
  {
    var marked := MarkReleased(grants, key, token);
    forall g | g in grants && !(g.key == key && g.token == token)
      ensures g in marked
    {
      var k :| 0 <= k < |grants| && grants[k] == g;
      assert marked[k] == g;
    }
  }

  lemma AcquireKeepsInv(s: State, key: Key, token: Token, ttl: nat)
    requires Inv(s) && Enabled(s, Acquire(key, token, ttl))
    ensures Inv(Next(s, Acquire(key, token, ttl)))
  {
    if !Live(s, key) {
      var s' := Next(s, Acquire(key, token, ttl));
      var granted := Grant(key, token, s.now + ttl, false);
      assert s'.grants[|s.grants|] == granted;
      forall i, j | 0 <= i < j < |s'.grants|
        ensures s'.grants[i].token != s'.grants[j].token
      {
        if j == |s.grants| { assert s.grants[i] in s.grants; }
      }
    }
  }

  lemma ReleaseKeepsInv(s: State, key: Key, token: Token)
    requires Inv(s)
    ensures Inv(Next(s, Release(key, token)))
  {
    var s' := Next(s, Release(key, token));
    MarkedCases(s.grants, key, token);
    forall k | Live(s', k)
      ensures Grant(k, s'.locks[k].token, s'.locks[k].expires, false) in s'.grants
    {
      assert Live(s, k);
    }
  }

  lemma NextKeepsInv(s: State, a: Action)
    requires Inv(s) && Enabled(s, a)
    ensures Inv(Next(s, a))
  {
    match a
    case Acquire(key, token, ttl) => AcquireKeepsInv(s, key, token, ttl);
    case Release(key, token) => ReleaseKeepsInv(s, key, token);
    case Pass(ms) =>
      forall key | Live(Next(s, a), key)
        ensures Grant(key, s.locks[key].token, s.locks[key].expires, false) in s.grants
      {
        assert Live(s, key);
      }
  }

  predicate Feasible(s: State, actions: seq<Action>)
    decreases |actions|
  {
    actions != [] ==> Enabled(s, actions[0]) && Feasible(Next(s, actions[0]), actions[1..])
  }

  function Play(s: State, actions: seq<Action>): State
    requires Feasible(s, actions)
    decreases |actions|
  {
    if actions == [] then s else Play(Next(s, actions[0]), actions[1..])
  }

  lemma {:induction false} PlayKeepsInv(s: State, actions: seq<Action>)
    requires Inv(s) && Feasible(s, actions)
    ensures Inv(Play(s, actions))
    decreases |actions|
  {
    if actions != [] {
      NextKeepsInv(s, actions[0]);
      PlayKeepsInv(Next(s, actions[0]), actions[1..]);
    }
  }

  /** In every run, an owner whose TTL has not run out and who has not released still holds its key,
      and no two entitled owners ever share a key. */
  lemma OwnersExclude(actions: seq<Action>, g: Grant, h: Grant)
    requires Feasible(INITIAL, actions)
    requires g in Play(INITIAL, actions).grants && Entitled(Play(INITIAL, actions), g)
    ensures var s := Play(INITIAL, actions);
            && Live(s, g.key) && s.locks[g.key] == Held(g.token, g.expires)
            && (h in s.grants && Entitled(s, h) && h.key == g.key ==> h == g)
  {
    PlayKeepsInv(INITIAL, actions);
  }

  /** A release by an owner whose TTL has run out removes nobody's lock. */
  lemma LateReleaseIsHarmless(actions: seq<Action>, g: Grant, key: Key)
    requires Feasible(INITIAL, actions) && g in Play(INITIAL, actions).grants && Play(INITIAL, actions).now >= g.expires
    ensures var s := Play(INITIAL, actions);
            var s' := Next(s, Release(g.key, g.token));
            s'.locks == s.locks && (Live(s', key) <==> Live(s, key))
  {
    PlayKeepsInv(INITIAL, actions);
    var s := Play(INITIAL, actions);
    if Live(s, g.key) && s.locks[g.key].token == g.token {
      TokenNamesGrant(s, g, Grant(g.key, g.token, s.locks[g.key].expires, false));
    }
  }

  lemma TokenNamesGrant(s: State, g: Grant, h: Grant)
    requires Inv(s) && g in s.grants && h in s.grants && g.token == h.token
    ensures g == h
  {
    var i :| 0 <= i < |s.grants| && s.grants[i] == g;
    var j :| 0 <= j < |s.grants| && s.grants[j] == h;
    assert i == j;
  }

  // ----- How long a lock lasts -----

  /** An acquisition of a free key succeeds, and holds it for its TTL. */
  lemma AcquireExactly(s: State, key: Key, token: Token, ttl: nat)
    requires Enabled(s, Acquire(key, token, ttl))
    ensures var s' := Next(s, Acquire(key, token, ttl));
            if Live(s, key) then s' == s
            else s'.now == s.now && s'.locks == s.locks[key := Held(token, s.now + ttl)]
  {}

  /** Whether a token was ever given out. */
  predicate Drawn(s: State, token: Token) {
    exists g | g in s.grants :: g.token == token
  }

  lemma DrawnStays(s: State, a: Action, token: Token)
    requires Drawn(s, token) && Enabled(s, a)
    ensures Drawn(Next(s, a), token)
  {
    var g :| g in s.grants && g.token == token;
    match a
    case Acquire(_, _, _) => assert g in Next(s, a).grants;
    case Release(key, given) =>
      var k :| 0 <= k < |s.grants| && s.grants[k] == g;
      assert MarkReleased(s.grants, key, given)[k] in Next(s, a).grants;
    case Pass(_) => assert g in Next(s, a).grants;
  }

  /** Whether a key is held under a token until some time. */
  predicate HeldBy(s: State, key: Key, token: Token, expires: nat) {
    Live(s, key) && s.locks[key] == Held(token, expires)
  }

  /** The token names the key until `expires`, and no longer. */
  predicate Timed(s: State, key: Key, token: Token, expires: nat) {
    && Drawn(s, token)
    && (s.now < expires ==> HeldBy(s, key, token, expires))
    && (key in s.locks && s.locks[key].token == token ==> s.locks[key].expires == expires)
  }

  lemma NextKeepsTimed(s: State, a: Action, key: Key, token: Token, expires: nat)
    requires Timed(s, key, token, expires) && Enabled(s, a) && a != Release(key, token)
    ensures Timed(Next(s, a), key, token, expires)
  {
    DrawnStays(s, a, token);
  }

  lemma {:induction false} PlayKeepsTimed(s: State, actions: seq<Action>, key: Key, token: Token, expires: nat)
    requires Timed(s, key, token, expires) && Feasible(s, actions) && Release(key, token) !in actions
    ensures Timed(Play(s, actions), key, token, expires)
    decreases |actions|
  {
    if actions != [] {
      assert actions[0] in actions;
      NextKeepsTimed(s, actions[0], key, token, expires);
      PlayKeepsTimed(Next(s, actions[0]), actions[1..], key, token, expires);
    }
  }

  /** After an acquisition of a free key, whatever follows short of its owner's release, the key is the owner's if and
      only if less than the TTL has passed; until then every other acquisition of it gets nothing. */
  lemma LockLastsItsTtl(s: State, key: Key, token: Token, ttl: nat, actions: seq<Action>, other: Token, otherTtl: nat)
    requires Enabled(s, Acquire(key, token, ttl)) && !Live(s, key)
    requires Feasible(Next(s, Acquire(key, token, ttl)), actions) && Release(key, token) !in actions
    ensures var s' := Play(Next(s, Acquire(key, token, ttl)), actions);
            && ((Live(s', key) && s'.locks[key].token == token) <==> s'.now < s.now + ttl)
            && (s'.now < s.now + ttl && Enabled(s', Acquire(key, other, otherTtl)) ==>
                  Next(s', Acquire(key, other, otherTtl)) == s')
  {
    var s1 := Next(s, Acquire(key, token, ttl));
    assert s1.grants[|s.grants|].token == token;
    assert s1.grants[|s.grants|] in s1.grants;
    PlayKeepsTimed(s1, actions, key, token, s.now + ttl);
  }

  /** With nobody else about, the key can be taken again exactly from the TTL on. */
  lemma FreeFromItsTtlOn(s: State, key: Key, token: Token, ttl: nat, ms: nat, other: Token, otherTtl: nat)
    requires Enabled(s, Acquire(key, token, ttl)) && !Live(s, key)
    requires Enabled(Next(Next(s, Acquire(key, token, ttl)), Pass(ms)), Acquire(key, other, otherTtl)) && otherTtl > 0
    ensures var s' := Next(Next(Next(s, Acquire(key, token, ttl)), Pass(ms)), Acquire(key, other, otherTtl));
            (Live(s', key) && s'.locks[key].token == other) <==> ms >= ttl
  {
    var s1 := Next(s, Acquire(key, token, ttl));
    assert s1.grants[|s.grants|].token == token;
    assert s1.grants[|s.grants|] in s1.grants;
  }

  /** A release frees the key of its token at once, and no other key or token. */
  lemma ReleaseExactly(s: State, key: Key, token: Token, k: Key)
    ensures var s' := Next(s, Release(key, token));
            && s'.now == s.now
            && (Live(s', k) <==> Live(s, k) && !(k == key && s.locks[k].token == token))
            && (Live(s', k) ==> s'.locks[k] == s.locks[k])
  {}

  // ----- The client -----

  /** The Redis client's lock calls on the stored keys. */
  class Redis {
    var now: nat
    var locks: map<Key, Held>
    ghost var grants: seq<Grant>

    constructor ()
      ensures Contents() == INITIAL
    {
      now, locks, grants := 0, map[], [];
    }

    ghost function Contents(): State
      reads this
    {
      State(now, locks, grants)
    }

    method AcquireLock(key: Key, token: Token, ttl: nat) returns (owned: Option<Token>)
      requires Inv(Contents()) && Enabled(Contents(), Acquire(key, token, ttl))
      modifies this`locks, this`grants
      ensures Contents() == Next(old(Contents()), Acquire(key, token, ttl)) && Inv(Contents())
      ensures owned == if old(Live(Contents(), key)) then None else Some(token)
      ensures owned.Some? ==> now == old(now) && locks == old(locks)[key := Held(token, old(now) + ttl)]
    {
      NextKeepsInv(Contents(), Acquire(key, token, ttl));
      if key in locks && now < locks[key].expires {
        return None;
      }
      locks := locks[key := Held(token, now + ttl)];
      grants := grants + [Grant(key, token, now + ttl, false)];
      owned := Some(token);
    }

    method ReleaseLock(key: Key, token: Token)
      requires Inv(Contents())
      modifies this`locks, this`grants
      ensures Contents() == Next(old(Contents()), Release(key, token)) && Inv(Contents())
    {
      NextKeepsInv(Contents(), Release(key, token));
      if key in locks && now < locks[key].expires && locks[key].token == token {
        locks := locks - {key};
      }
      grants := MarkReleased(grants, key, token);
    }

    method Elapse(ms: nat)
      requires Inv(Contents())
      modifies this`now
      ensures Contents() == Next(old(Contents()), Pass(ms)) && Inv(Contents())
      ensures now == old(now) + ms && locks == old(locks)
    {
      NextKeepsInv(Contents(), Pass(ms));
      now := now + ms;
    }
  }
}

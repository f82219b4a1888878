/**
 * A Redis key with an owner token and a time to live, as the automation cycle lock and the stream leases use it.
 *
 * A holder must act again (finish, or renew) by its deadline: the cycle's run timeout, or the stream's next
 * renewal. Time does not pass a live holder's deadline; a crashed holder has none. If the call that renews raises,
 * the renewing ends but the stream goes on: its holder is adrift, at work with no deadline.
 */
module TimedKey {
  import opened Wrappers

  datatype Key = Free | Held(token: nat, expires: int)

  /** `live` maps each holder with a deadline, by its token, to that deadline. Tokens are never used twice. */
  datatype State = State(now: int, key: Key, nextToken: nat, live: map<nat, int>, adrift: set<nat>)

  const START := State(0, Free, 0, map[], {})

  predicate AtWork(s: State, token: nat) {
    token in s.live || token in s.adrift
  }

  /** How far ahead deadlines are, and whether renewing calls may raise. */
  datatype Rules = Rules(patience: nat, raises: bool)

  datatype Action =
    | Acquire(deadline: int)
    | Renew(token: nat, deadline: int)
    | RenewRaises(token: nat)
    | Release(token: nat)
    | Crash(token: nat)
    | StaleRenew(token: nat)
    | StaleRelease(token: nat)
    | Tick(delta: nat)

  /** The key as Redis answers for it at `now`: an expired one is gone. */
  function Current(key: Key, now: int): Key {
    if key.Held? && key.expires <= now then Free else key
  }

  /** `SET key token NX EX ttl` */
  function SetIfFree(key: Key, now: int, token: nat, ttl: nat): Key {
    if Current(key, now).Free? then Held(token, now + ttl) else key
  }

  /** The renewing script: only the owner's token extends the key. */
  function RenewedBy(key: Key, now: int, token: nat, ttl: nat): Key {
    if Current(key, now).Held? && key.token == token then Held(token, now + ttl) else key
  }

  /** The releasing script: only the owner's token deletes the key. */
  function ReleasedBy(key: Key, now: int, token: nat): Key {
    if Current(key, now).Held? && key.token == token then Free else key
  }

  /** What may happen: holders keep their deadlines, and set new ones at most `patience` ahead. */
  predicate Enabled(s: State, rules: Rules, a: Action) {
    match a
    case Acquire(deadline) => s.now <= deadline <= s.now + rules.patience
    case Renew(token, deadline) => token in s.live && s.now <= deadline <= s.now + rules.patience
    case RenewRaises(token) => rules.raises && token in s.live
    case Release(token) => AtWork(s, token)
    case Crash(token) => AtWork(s, token)
    case StaleRenew(token) => !AtWork(s, token) && token < s.nextToken
    case StaleRelease(token) => !AtWork(s, token) && token < s.nextToken
    case Tick(delta) => forall token :: token in s.live ==> s.now + delta <= s.live[token]
  }

  function Stopped(s: State, token: nat): State {
    s.(live := s.live - {token}, adrift := s.adrift - {token})
  }

  function Step(s: State, ttl: nat, a: Action): State {
    match a
    case Acquire(deadline) =>
      if Current(s.key, s.now).Held? then s
      else s.(key := SetIfFree(s.key, s.now, s.nextToken, ttl), nextToken := s.nextToken + 1,
              live := s.live[s.nextToken := deadline])
    case Renew(token, deadline) =>
      // A holder whose renewal fails stops its stream.
      if Current(s.key, s.now).Held? && s.key.token == token then
        s.(key := RenewedBy(s.key, s.now, token, ttl), live := s.live[token := deadline])
      else Stopped(s, token)
    // Whether the script ran before the call raised makes no difference but in the key's favour.
    case RenewRaises(token) => s.(live := s.live - {token}, adrift := s.adrift + {token})
    case Release(token) => Stopped(s, token).(key := ReleasedBy(s.key, s.now, token))
    case Crash(token) => Stopped(s, token)
    case StaleRenew(token) => s.(key := RenewedBy(s.key, s.now, token, ttl))
    case StaleRelease(token) => s.(key := ReleasedBy(s.key, s.now, token))
    case Tick(delta) => s.(now := s.now + delta)
  }

  function Run(ttl: nat, actions: seq<Action>): State {
    if actions == [] then START else Step(Run(ttl, actions[..|actions| - 1]), ttl, actions[|actions| - 1])
  }

  predicate Legal(ttl: nat, rules: Rules, actions: seq<Action>) {
    actions == []
    || (Legal(ttl, rules, actions[..|actions| - 1])
        && Enabled(Run(ttl, actions[..|actions| - 1]), rules, actions[|actions| - 1]))
  }

  // ------------------------------------------------------------- the three scripts

  /** A key that is set and has not run out yet belongs to its token. */
  predicate OwnedAt(key: Key, now: int, token: nat) {
    key.Held? && now < key.expires && key.token == token
  }

  /** Taking the key works exactly if nobody owns it, for the time to live from now; it leaves an owned one alone. */
  lemma SetExactly(key: Key, now: int, token: nat, ttl: nat)
    ensures SetIfFree(key, now, token, ttl) == if exists t :: OwnedAt(key, now, t) then key else Held(token, now + ttl)
  {
    if key.Held? && now < key.expires {
      assert OwnedAt(key, now, key.token);
    }
  }

  /** Renewing and releasing work exactly for the owner: a renewed key lives for the whole time again, a released one is free. */
  lemma OwnerOnly(key: Key, now: int, token: nat, ttl: nat)
    ensures RenewedBy(key, now, token, ttl) == if OwnedAt(key, now, token) then Held(token, now + ttl) else key
    ensures ReleasedBy(key, now, token) == if OwnedAt(key, now, token) then Free else key
  {
  }

  // ------------------------------------------------------------- owner tokens

  /** Whatever its state, a renewal or release never changes a key held by another token. */
  lemma OthersUntouched(s: State, ttl: nat, token: nat)
    requires Current(s.key, s.now).Held? && s.key.token != token
    ensures RenewedBy(s.key, s.now, token, ttl) == s.key == ReleasedBy(s.key, s.now, token)
    ensures Step(s, ttl, StaleRenew(token)).key == Step(s, ttl, StaleRelease(token)).key == s.key
    ensures Step(s, ttl, Release(token)).key == Step(s, ttl, Renew(token, s.now)).key == s.key
  {
  }

  // ------------------------------------------------------------- mutual exclusion

  /** Every holder with a deadline owns the key, and will act before it expires. */
  ghost predicate Owned(s: State) {
    && (s.key.Held? ==> s.key.token < s.nextToken)
    && (forall token :: token in s.live ==>
          && token < s.nextToken
          && s.key.Held? && s.key.token == token
          && s.now <= s.live[token] < s.key.expires)
    && (forall token :: token in s.adrift ==> token < s.nextToken && token !in s.live)
  }

  lemma StepOwned(s: State, ttl: nat, rules: Rules, a: Action)
    requires Owned(s) && rules.patience < ttl && Enabled(s, rules, a)
    ensures Owned(Step(s, ttl, a))
    ensures !rules.raises && s.adrift == {} ==> Step(s, ttl, a).adrift == {}
  {
    if a.Tick? {
      forall token | token in s.live ensures s.now + a.delta <= s.live[token] {
      }
    }
  }

  /** At most one holder with a deadline, and its key does not expire under it, even if renewals raise. */
  lemma {:induction false} AlwaysOwned(ttl: nat, rules: Rules, actions: seq<Action>)
    requires rules.patience < ttl && Legal(ttl, rules, actions)
    ensures Owned(Run(ttl, actions))
    ensures !rules.raises ==> Run(ttl, actions).adrift == {}
  {
    hide Step, Owned, Enabled;
    if actions == [] {
      StartOwned();
    } else {
      AlwaysOwned(ttl, rules, actions[..|actions| - 1]);
      StepOwned(Run(ttl, actions[..|actions| - 1]), ttl, rules, actions[|actions| - 1]);
    }
  }

  lemma StartOwned()
    ensures Owned(START)
  {
  }

  ghost predicate Exclusive(ttl: nat, rules: Rules) {
    forall actions :: Legal(ttl, rules, actions) ==> OneAtWork(Run(ttl, actions))
  }

  ghost predicate OneAtWork(s: State) {
    forall x, y :: AtWork(s, x) && AtWork(s, y) ==> x == y
  }

  lemma OwnedOneAtWork(s: State)
    requires Owned(s) && s.adrift == {}
    ensures OneAtWork(s)
  {
  }

  lemma NothingYet(ttl: nat, rules: Rules)
    ensures Run(ttl, []) == START && Legal(ttl, rules, [])
  {
  }

  lemma RunNext(ttl: nat, rules: Rules, actions: seq<Action>, a: Action)
    ensures Run(ttl, actions + [a]) == Step(Run(ttl, actions), ttl, a)
    ensures Legal(ttl, rules, actions + [a]) <==> Legal(ttl, rules, actions) && Enabled(Run(ttl, actions), rules, a)
  {
    hide Step, Enabled;
    assert (actions + [a])[..|actions|] == actions;
  }

  /** A holder that may be at work for a whole time to live can be joined by a second one. */
  lemma TwoHolders(ttl: nat, rules: Rules)
    requires rules.patience >= ttl
    ensures var actions := [Acquire(rules.patience), Tick(ttl), Acquire(ttl + rules.patience)];
            Legal(ttl, rules, actions) && !OneAtWork(Run(ttl, actions))
  {
    hide Run, Legal;
    var patience := rules.patience;
    var actions := [Acquire(patience), Tick(ttl), Acquire(ttl + patience)];
    var one, two := [Acquire(patience)], [Acquire(patience), Tick(ttl)];
    assert one == [] + [one[0]] && two == one + [two[1]] && actions == two + [actions[2]];
    NothingYet(ttl, rules);
    RunNext(ttl, rules, [], one[0]);
    RunNext(ttl, rules, one, two[1]);
    RunNext(ttl, rules, two, actions[2]);
    assert Run(ttl, one) == State(0, Held(0, ttl), 1, map[0 := patience], {});
    assert Run(ttl, two) == State(ttl, Held(0, ttl), 1, map[0 := patience], {});
    var s := Run(ttl, actions);
    assert AtWork(s, 0) && AtWork(s, 1);
  }

  /** So can one whose renewing call raised, whatever its patience: it works on after its key has expired. */
  lemma JoinedAdrift(ttl: nat, rules: Rules)
    requires rules.raises && 0 < ttl
    ensures var actions := [Acquire(0), RenewRaises(0), Tick(ttl), Acquire(ttl)];
            Legal(ttl, rules, actions) && !OneAtWork(Run(ttl, actions))
  {
    hide Run, Legal;
    var actions := [Acquire(0), RenewRaises(0), Tick(ttl), Acquire(ttl)];
    var one, two, three := [Acquire(0)], [Acquire(0), RenewRaises(0)], [Acquire(0), RenewRaises(0), Tick(ttl)];
    assert one == [] + [one[0]] && two == one + [two[1]] && three == two + [three[2]] && actions == three + [actions[3]];
    NothingYet(ttl, rules);
    RunNext(ttl, rules, [], one[0]);
    RunNext(ttl, rules, one, two[1]);
    RunNext(ttl, rules, two, three[2]);
    RunNext(ttl, rules, three, actions[3]);
    assert Run(ttl, one) == State(0, Held(0, ttl), 1, map[0 := 0], {});
    assert Run(ttl, two) == State(0, Held(0, ttl), 1, map[], {0});
    assert Run(ttl, three) == State(ttl, Held(0, ttl), 1, map[], {0});
    var s := Run(ttl, actions);
    assert AtWork(s, 0) && AtWork(s, 1);
  }

  /**
   * At most one holder is ever at work, over all runs with crashes and stale owners, exactly if a holder's
   * patience is shorter than the time to live and no renewing call raises. The cycle lock is never renewed, and its
   * patience is the run timeout, which the configuration does not compare with the lock's time to live.
   */
  lemma ExclusiveExactly(ttl: nat, rules: Rules)
    requires 0 < ttl
    ensures Exclusive(ttl, rules) <==> rules.patience < ttl && !rules.raises
  {
    hide Run, Legal, OneAtWork;
    if rules.patience >= ttl {
      TwoHolders(ttl, rules);
    } else if rules.raises {
      JoinedAdrift(ttl, rules);
    } else {
      forall actions | Legal(ttl, rules, actions) ensures OneAtWork(Run(ttl, actions)) {
        AlwaysOwned(ttl, rules, actions);
        OwnedOneAtWork(Run(ttl, actions));
      }
    }
  }

  /** While its key has not expired, a holder adrift is not joined by one with a deadline. */
  lemma AdriftAloneUntilExpiry(ttl: nat, rules: Rules, actions: seq<Action>)
    requires rules.patience < ttl && Legal(ttl, rules, actions)
    ensures var s := Run(ttl, actions);
            s.key.Held? && s.key.token in s.adrift ==>
              s.live == map[] && (Current(s.key, s.now).Held? ==> Step(s, ttl, Acquire(s.now)) == s)
  {
    hide Run, Legal;
    AlwaysOwned(ttl, rules, actions);
    var s := Run(ttl, actions);
    if s.key.Held? && s.key.token in s.adrift {
      forall token ensures token !in s.live {
      }
    }
  }

  /**
   * A lease renewed every `interval`, each time at most `lag` late, never expires while its holder has a deadline,
   * if `interval + lag` is shorter than its time to live: every renewal that does not raise finds its own token and
   * succeeds.
   */
  lemma RenewalsSucceed(ttl: nat, interval: nat, lag: nat, raises: bool, actions: seq<Action>, token: nat)
    requires interval + lag < ttl && Legal(ttl, Rules(interval + lag, raises), actions) && token in Run(ttl, actions).live
    ensures var s := Run(ttl, actions);
            && s.key.Held? && s.key.token == token && Current(s.key, s.now) == s.key
            && token in Step(s, ttl, Renew(token, s.now + interval + lag)).live
            && Step(s, ttl, Renew(token, s.now + interval + lag)).key == Held(token, s.now + ttl)
  {
    hide Run;
    AlwaysOwned(ttl, Rules(interval + lag, raises), actions);
  }

  /** After a crash the key blocks others for the rest of its time to live and not a moment longer. */
  lemma CrashBlocksUntilExpiry(s: State, ttl: nat, token: nat, deadline: int, wait: nat)
    requires Owned(s) && token in s.live && s.now + wait <= deadline
    ensures var t := Step(Step(s, ttl, Crash(token)), ttl, Tick(wait));
            (Step(t, ttl, Acquire(deadline)).live != t.live) <==> s.now + wait >= s.key.expires
  {
    var t := Step(Step(s, ttl, Crash(token)), ttl, Tick(wait));
    if s.now + wait >= s.key.expires {
      assert t.nextToken in Step(t, ttl, Acquire(deadline)).live && t.nextToken !in t.live;
    }
  }

  // ------------------------------------------------------------- the scripts

  /** One key of Redis. */
  class RedisKey {
    var owner: Option<nat>
    var expires: int

    constructor ()
      ensures Stored() == Free
    {
      owner, expires := None, 0;
    }

    function Stored(): Key
      reads this
    {
      if owner.Some? then Held(owner.value, expires) else Free
    }

    /** `acquire` */
    method Acquire(token: nat, now: int, ttl: nat) returns (acquired: bool)
      modifies this
      ensures Stored() == SetIfFree(old(Stored()), now, token, ttl)
      ensures acquired <==> Current(old(Stored()), now).Free?
    {
      acquired := owner.None? || expires <= now;
      if acquired {
        owner, expires := Some(token), now + ttl;
      }
    }

    /** `renew` */
    method Renew(token: nat, now: int, ttl: nat) returns (renewed: bool)
      modifies this
      ensures Stored() == RenewedBy(old(Stored()), now, token, ttl)
      ensures renewed <==> Current(old(Stored()), now).Held? && old(Stored()).token == token
    {
      renewed := owner == Some(token) && now < expires;
      if renewed {
        expires := now + ttl;
      }
    }

    /** `release` */
    method Release(token: nat, now: int) returns (released: bool)
      modifies this
      ensures Stored() == ReleasedBy(old(Stored()), now, token)
      ensures released <==> Current(old(Stored()), now).Held? && old(Stored()).token == token
    {
      released := owner == Some(token) && now < expires;
      if released {
        owner := None;
      }
    }
  }
}

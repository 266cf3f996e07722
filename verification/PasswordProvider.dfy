/**
 The database password cache and the one retry that relies on it. Calls and
 invalidations take turns under one lock; the fetch keeps the lock across its await.
 Every step is stamped with a tick, so that "before" and "after" have a meaning.
 */
module PasswordProvider {
  import opened Common

  type CallId = nat
  type OpenerId = nat

  /** A password with the tick at which its fetch began and the clock when it ended. */
  datatype Password = Password(secret: string, begunAt: nat, fetchedAt: real)

  // ---------------------------------------------------------- the provider itself

  predicate Hit(cached: Option<Password>, ttl: real, now: real) {
    cached.Some? && now - cached.value.fetchedAt < ttl
  }

  /** The cache after a call: untouched by a hit and by a fetch that raises. */
  function CacheAfter(cached: Option<Password>, ttl: real, checkedAt: real,
          fetched: Option<Password>): Option<Password> {
    if Hit(cached, ttl, checkedAt) || fetched.None? then cached else fetched
  }

  class SecretsManagerPasswordProvider {
    const ttl: real
    var cached: Option<Password>

    constructor (ttl: real)
      ensures this.ttl == ttl && cached == None
    {
      this.ttl := ttl;
      cached := None;
    }

    /** One whole call under the lock; `fetched` is what a fetch would bring, None when it raises. */
    method Call(checkedAt: real, fetched: Option<Password>) returns (password: Option<Password>)
      modifies this
      ensures cached == CacheAfter(old(cached), ttl, checkedAt, fetched)
      ensures password == if Hit(old(cached), ttl, checkedAt) then old(cached) else fetched
      ensures
        if old(cached).Some? && checkedAt - old(cached).value.fetchedAt < ttl
        then password == cached == old(cached)
        else password == fetched && cached == if fetched.Some? then fetched else old(cached)
    {
      if cached.Some? && checkedAt - cached.value.fetchedAt < ttl {
        return cached;
      }
      if fetched.None? {
        return None;
      }
      cached := fetched;
      return cached;
    }

    method Invalidate()
      modifies this
      ensures cached == None
    {
      cached := None;
    }
  }

  // ---------------------------------------------------------------- all the users

  datatype Call =
    | Queued
    | Fetching(lockedAt: nat)
    | Returned(lockedAt: nat, checkedAt: real, hit: bool, password: Password)
    | FetchRaised

  /** `_open_session`: first connection, refresh after an authentication error, one retry. */
  datatype Opener =
    | FirstTry
    | MustRefresh(failedAt: nat)
    | Refreshed(failedAt: nat, invalidatedAt: nat)
    | Retrying(failedAt: nat, invalidatedAt: nat, call: CallId)
    | Retried(failedAt: nat, password: Password)
    | Opened
    | GaveUp

  datatype ConnectResult = Connected | AuthError | OtherError

  datatype State = State(
    tick: nat,
    now: real,
    ttl: real,
    cached: Option<Password>,
    holder: Option<CallId>,
    calls: map<CallId, Call>,
    openers: map<OpenerId, Opener>,
    invalidations: set<nat>)

  datatype Action =
    | TimePasses(d: Delay)
    | Ask(c: CallId)
    | Enter(c: CallId)
    | FetchEnds(c: CallId, secret: Option<string>)
    | Invalidate
    | Open(o: OpenerId)
    | FirstResult(o: OpenerId, result: ConnectResult)
    | Refresh(o: OpenerId)
    | Retry(o: OpenerId, c: CallId)
    | RetryConnects(o: OpenerId)

  function Init(ttl: real): State {
    State(0, 0.0, ttl, None, None, map[], map[], {})
  }

  function SetCall(s: State, c: CallId, call: Call): State {
    s.(calls := s.calls[c := call])
  }

  function SetOpener(s: State, o: OpenerId, opener: Opener): State {
    s.(openers := s.openers[o := opener])
  }

  /** The lock is taken: a hit returns at once and lets go, a miss keeps it for the fetch. */
  function EnterStep(s: State, c: CallId): State {
    if c in s.calls && s.calls[c].Queued? && s.holder.None? then
      if Hit(s.cached, s.ttl, s.now) then SetCall(s, c, Returned(s.tick, s.now, true, s.cached.value))
      else SetCall(s, c, Fetching(s.tick)).(holder := Some(c))
    else s
  }

  function FetchEndsStep(s: State, c: CallId, secret: Option<string>): State {
    if c in s.calls && s.calls[c].Fetching? then
      match secret
      case None => SetCall(s, c, FetchRaised).(holder := None)
      case Some(text) =>
        var lockedAt := s.calls[c].lockedAt;
        var password := Password(text, lockedAt, s.now);
        SetCall(s, c, Returned(lockedAt, s.now, false, password)).(holder := None, cached := Some(password))
    else s
  }

  function InvalidateStep(s: State): State {
    if s.holder.None? then s.(cached := None, invalidations := s.invalidations + {s.tick}) else s
  }

  function OpenerStep(s: State, a: Action): State {
    match a
    case Open(o) => if o in s.openers then s else SetOpener(s, o, FirstTry)
    case FirstResult(o, result) =>
      if o in s.openers && s.openers[o].FirstTry?
      then SetOpener(s, o, match result {
                             case Connected => Opened
                             case AuthError => MustRefresh(s.tick)
                             case OtherError => GaveUp
                           })
      else s
    case Refresh(o) =>
      if o in s.openers && s.openers[o].MustRefresh? && s.holder.None?
      then SetOpener(InvalidateStep(s), o, Refreshed(s.openers[o].failedAt, s.tick))
      else s
    case Retry(o, c) =>
      if o in s.openers && s.openers[o].Refreshed? && c !in s.calls
      then SetOpener(SetCall(s, c, Queued), o, Retrying(s.openers[o].failedAt, s.openers[o].invalidatedAt, c))
      else s
    case RetryConnects(o) =>
      if o in s.openers && s.openers[o].Retrying? && s.openers[o].call in s.calls then
        match s.calls[s.openers[o].call]
        case Returned(_, _, _, password) => SetOpener(s, o, Retried(s.openers[o].failedAt, password))
        case FetchRaised => SetOpener(s, o, GaveUp)
        case _ => s
      else s
    case _ => s
  }

  function Step(s: State, a: Action): State {
    var t :=
      match a
      case TimePasses(d) => s.(now := s.now + d)
      case Ask(c) => if c in s.calls then s else SetCall(s, c, Queued)
      case Enter(c) => EnterStep(s, c)
      case FetchEnds(c, secret) => FetchEndsStep(s, c, secret)
      case Invalidate => InvalidateStep(s)
      case _ => OpenerStep(s, a);
    t.(tick := s.tick + 1)
  }

  function Play(ttl: real, schedule: seq<Action>): State {
    if schedule == [] then Init(ttl)
    else Step(Play(ttl, schedule[..|schedule| - 1]), schedule[|schedule| - 1])
  }

  // ---------------------------------------------------------------- invariant

  /** Begun no earlier than any invalidation so far. */
  ghost predicate Fresh(s: State, begunAt: nat) {
    begunAt < s.tick && forall i | i in s.invalidations :: i <= begunAt
  }

  ghost predicate CallOk(s: State, c: CallId)
    requires c in s.calls
  {
    match s.calls[c]
    case Fetching(lockedAt) => s.holder == Some(c) && Fresh(s, lockedAt)
    case Returned(lockedAt, checkedAt, hit, password) =>
      && lockedAt < s.tick
      && (forall i | i in s.invalidations && i <= lockedAt :: i <= password.begunAt)
      && (hit ==> checkedAt - password.fetchedAt < s.ttl)
    case _ => true
  }

  /** The call of a retry takes the lock only after the refresh. */
  ghost predicate OpenerOk(s: State, o: OpenerId)
    requires o in s.openers
  {
    match s.openers[o]
    case MustRefresh(failedAt) => failedAt < s.tick
    case Refreshed(failedAt, invalidatedAt) => failedAt < invalidatedAt < s.tick && invalidatedAt in s.invalidations
    case Retrying(failedAt, invalidatedAt, c) =>
      && failedAt < invalidatedAt < s.tick && invalidatedAt in s.invalidations && c in s.calls
      && (s.calls[c].Fetching? || s.calls[c].Returned? ==> invalidatedAt < s.calls[c].lockedAt)
    case Retried(failedAt, password) => failedAt < password.begunAt
    case _ => true
  }

  ghost predicate Inv(s: State) {
    && (s.cached.Some? ==> Fresh(s, s.cached.value.begunAt))
    && (s.holder.Some? ==> s.holder.value in s.calls && s.calls[s.holder.value].Fetching?)
    && (forall i :: i in s.invalidations ==> i < s.tick)
    && (forall c :: c in s.calls ==> CallOk(s, c))
    && (forall o :: o in s.openers ==> OpenerOk(s, o))
  }

  lemma EnterKeepsInv(s: State, c: CallId)
    requires Inv(s)
    ensures Inv(Step(s, Enter(c)))
  {
    var t := Step(s, Enter(c));
    assert t.invalidations == s.invalidations && t.openers == s.openers;
    forall b | b in t.calls
      ensures CallOk(t, b)
    {
      assert CallOk(s, b);
    }
    forall o | o in t.openers
      ensures OpenerOk(t, o)
    {
      assert OpenerOk(s, o);
    }
  }

  lemma FetchEndsKeepsInv(s: State, c: CallId, secret: Option<string>)
    requires Inv(s)
    ensures Inv(Step(s, FetchEnds(c, secret)))
  {
    var t := Step(s, FetchEnds(c, secret));
    assert c in s.calls ==> CallOk(s, c);
    forall b | b in t.calls
      ensures CallOk(t, b)
    {
      assert CallOk(s, b);
    }
    forall o | o in t.openers
      ensures OpenerOk(t, o)
    {
      assert OpenerOk(s, o);
    }
  }

  lemma InvalidateKeepsInv(s: State)
    requires Inv(s)
    ensures Inv(Step(s, Invalidate))
  {
    var t := Step(s, Invalidate);
    forall c | c in t.calls
      ensures CallOk(t, c)
    {
      assert CallOk(s, c);
    }
    forall o | o in t.openers
      ensures OpenerOk(t, o)
    {
      assert OpenerOk(s, o);
    }
  }

  predicate IsOpenerAction(a: Action) {
    a.Open? || a.FirstResult? || a.Refresh? || a.Retry? || a.RetryConnects?
  }

  lemma OpenerKeepsCalls(s: State, a: Action, c: CallId)
    requires Inv(s) && IsOpenerAction(a) && c in Step(s, a).calls
    ensures CallOk(Step(s, a), c)
  {
    if c in s.calls { assert CallOk(s, c); }
  }

  lemma OpenerExtends(s: State, a: Action)
    requires IsOpenerAction(a)
    ensures
      var t := Step(s, a);
      && t.tick == s.tick + 1
      && (forall i :: i in s.invalidations ==> i in t.invalidations)
      && (forall c :: c in s.calls ==> c in t.calls && t.calls[c] == s.calls[c])
  {
  }

  lemma IdleOpenerStaysOk(s: State, t: State, o: OpenerId)
    requires o in s.openers && OpenerOk(s, o)
    requires o in t.openers && t.openers[o] == s.openers[o] && t.tick >= s.tick
    requires forall i :: i in s.invalidations ==> i in t.invalidations
    requires forall c :: c in s.calls ==> c in t.calls && t.calls[c] == s.calls[c]
    ensures OpenerOk(t, o)
  {
  }

  lemma OpenerKeepsOpeners(s: State, a: Action, o: OpenerId)
    requires Inv(s) && IsOpenerAction(a) && o in Step(s, a).openers
    ensures OpenerOk(Step(s, a), o)
  {
    if o in s.openers && Step(s, a).openers[o] == s.openers[o] {
      OpenerExtends(s, a);
      IdleOpenerStaysOk(s, Step(s, a), o);
    } else if o in s.openers {
      assert OpenerOk(s, o);
      if s.openers[o].Retrying? { assert CallOk(s, s.openers[o].call); }
    }
  }

  lemma OpenerKeepsCache(s: State, a: Action)
    requires Inv(s) && IsOpenerAction(a)
    ensures
      var t := Step(s, a);
      && (t.cached.Some? ==> Fresh(t, t.cached.value.begunAt))
      && (t.holder.Some? ==> t.holder.value in t.calls && t.calls[t.holder.value].Fetching?)
      && (forall i :: i in t.invalidations ==> i < t.tick)
  {
  }

  lemma OpenerKeepsInv(s: State, a: Action)
    requires Inv(s) && IsOpenerAction(a)
    ensures Inv(Step(s, a))
  {
    OpenerKeepsCache(s, a);
    forall c | c in Step(s, a).calls { OpenerKeepsCalls(s, a, c); }
    forall o | o in Step(s, a).openers { OpenerKeepsOpeners(s, a, o); }
  }

  lemma {:induction false} PlayKeepsInv(ttl: real, schedule: seq<Action>)
    ensures Inv(Play(ttl, schedule))
  {
    if schedule != [] {
      var before := schedule[..|schedule| - 1];
      PlayKeepsInv(ttl, before);
      var s := Play(ttl, before);
      match schedule[|schedule| - 1]
      case TimePasses(_) => QuietKeepsInv(s, schedule[|schedule| - 1]);
      case Ask(_) => QuietKeepsInv(s, schedule[|schedule| - 1]);
      case Enter(c) => EnterKeepsInv(s, c);
      case FetchEnds(c, secret) => FetchEndsKeepsInv(s, c, secret);
      case Invalidate => InvalidateKeepsInv(s);
      case _ => OpenerKeepsInv(s, schedule[|schedule| - 1]);
    }
  }

  lemma QuietKeepsInv(s: State, a: Action)
    requires Inv(s) && (a.TimePasses? || a.Ask?)
    ensures Inv(Step(s, a))
  {
    var t := Step(s, a);
    forall c | c in t.calls
      ensures CallOk(t, c)
    {
      if c in s.calls { assert CallOk(s, c); }
    }
    forall o | o in t.openers
      ensures OpenerOk(t, o)
    {
      assert OpenerOk(s, o);
    }
  }

  // ------------------------------------------------------------- main results

  /**
   Whatever interleaves, the fetch of a returned password began after every
   invalidation that had finished when the call took the lock; and a password that
   came from the cache was younger than the TTL when it was checked.
   */
  lemma ReturnedPasswordsAreFresh(ttl: real, schedule: seq<Action>, c: CallId)
    requires c in Play(ttl, schedule).calls && Play(ttl, schedule).calls[c].Returned?
    ensures
      var s := Play(ttl, schedule);
      var call := s.calls[c];
      && (forall i | i in s.invalidations && i <= call.lockedAt :: i <= call.password.begunAt)
      && (call.hit ==> call.checkedAt - call.password.fetchedAt < s.ttl)
  {
    PlayKeepsInv(ttl, schedule);
    assert CallOk(Play(ttl, schedule), c);
  }

  /** The single retry never uses a password whose fetch began before the authentication failure. */
  lemma RetryUsesNewPassword(ttl: real, schedule: seq<Action>, o: OpenerId)
    requires o in Play(ttl, schedule).openers && Play(ttl, schedule).openers[o].Retried?
    ensures
      var opener := Play(ttl, schedule).openers[o];
      opener.failedAt < opener.password.begunAt
  {
    PlayKeepsInv(ttl, schedule);
    assert OpenerOk(Play(ttl, schedule), o);
  }

  /** Fetches never overlap: whoever fetches holds the lock. */
  lemma OneFetchAtATime(ttl: real, schedule: seq<Action>, b: CallId, c: CallId)
    ensures
      var s := Play(ttl, schedule);
      b in s.calls && c in s.calls && s.calls[b].Fetching? && s.calls[c].Fetching? ==> b == c
  {
    PlayKeepsInv(ttl, schedule);
    var s := Play(ttl, schedule);
    if b in s.calls && c in s.calls {
      assert CallOk(s, b) && CallOk(s, c);
    }
  }

  // ------------------------------------------------- what steps achieve

  /** A cached password younger than the TTL is returned at once; otherwise one is fetched under the lock. */
  lemma YoungPasswordIsReused(s: State, c: CallId)
    requires c in s.calls && s.calls[c].Queued? && s.holder.None?
    ensures
      var t := Step(s, Enter(c));
      && t.cached == s.cached
      && if s.cached.Some? && s.now - s.cached.value.fetchedAt < s.ttl
         then t.calls[c] == Returned(s.tick, s.now, true, s.cached.value) && t.holder == None
         else t.calls[c] == Fetching(s.tick) && t.holder == Some(c)
  {
  }

  /** Time and new calls come from outside: the clock moves by what passes, and a new call waits for the lock. */
  lemma TimePassesAndCallsQueue(s: State, d: Delay, c: CallId)
    ensures Step(s, TimePasses(d)) == s.(now := s.now + d, tick := s.tick + 1)
    ensures
      Step(s, Ask(c)) == s.(calls := if c in s.calls then s.calls else s.calls[c := Queued], tick := s.tick + 1)
  {
  }

  /** Nobody enters, and nothing is invalidated, while somebody else holds the lock. */
  lemma LockKeepsOthersOut(s: State, c: CallId)
    requires s.holder.Some?
    ensures Step(s, Enter(c)) == s.(tick := s.tick + 1) == Step(s, Invalidate)
  {
  }

  /** A fetch that succeeds is returned and cached, one that raises leaves the cache; both let go of the lock. */
  lemma FetchedPasswordIsCached(s: State, c: CallId, secret: Option<string>)
    requires c in s.calls && s.calls[c].Fetching?
    ensures
      var t := Step(s, FetchEnds(c, secret));
      && t.holder == None && t.invalidations == s.invalidations
      && if secret.None? then t.calls[c] == FetchRaised && t.cached == s.cached
         else
           var password := Password(secret.value, s.calls[c].lockedAt, s.now);
           t.calls[c] == Returned(s.calls[c].lockedAt, s.now, false, password) && t.cached == Some(password)
  {
  }

  /** An invalidation empties the cache, so that the next call fetches. */
  lemma InvalidatedCallFetches(s: State, c: CallId)
    requires s.holder.None? && c in s.calls && s.calls[c].Queued?
    ensures
      var t := Step(s, Invalidate);
      t.cached == None && s.tick in t.invalidations && Step(t, Enter(c)).calls[c] == Fetching(s.tick + 1)
  {
  }

  /** The first connection decides: it is used, or refreshed after an authentication error, or given up. */
  lemma FirstTryDecides(s: State, o: OpenerId, result: ConnectResult)
    requires o !in s.openers
    ensures
      var t := Step(Step(s, Open(o)), FirstResult(o, result));
      t.openers == s.openers[o := match result
                                  case Connected => Opened
                                  case AuthError => MustRefresh(s.tick + 1)
                                  case OtherError => GaveUp]
    ensures forall p | p in s.openers && !s.openers[p].FirstTry? ::
      Step(s, FirstResult(p, result)).openers == s.openers == Step(s, Open(p)).openers
  {
  }

  lemma Then(ttl: real, schedule: seq<Action>, a: Action) returns (longer: seq<Action>)
    ensures longer == schedule + [a] && Play(ttl, longer) == Step(Play(ttl, schedule), a)
  {
    longer := schedule + [a];
    assert longer[..|schedule|] == schedule;
  }

  /** A run in which the second call is served from the cache, and the third fetches because the TTL has passed. */
  lemma CacheIsUsed(ttl: real) returns (schedule: seq<Action>)
    requires ttl > 0.0
    ensures
      var s := Play(ttl, schedule);
      && 1 in s.calls && s.calls[1].Returned? && s.calls[1].hit && s.calls[1].password.secret == "first"
      && 2 in s.calls && s.calls[2].Fetching? && s.now == ttl
  {
    schedule := Then(ttl, [], Ask(0));
    schedule := Then(ttl, schedule, Enter(0));
    schedule := Then(ttl, schedule, FetchEnds(0, Some("first")));
    assert Play(ttl, schedule).cached == Some(Password("first", 1, 0.0));
    schedule := Then(ttl, schedule, Ask(1));
    schedule := Then(ttl, schedule, Enter(1));
    schedule := Then(ttl, schedule, TimePasses(ttl));
    schedule := Then(ttl, schedule, Ask(2));
    schedule := Then(ttl, schedule, Enter(2));
  }

  /**
   Left alone after an authentication error, `_open_session` empties the cache, fetches
   anew and retries with what it fetched; or gives up when that fetch raises.
   */
  lemma RetryFetchesAnew(s: State, o: OpenerId, c: CallId, secret: Option<string>)
    requires o in s.openers && s.openers[o].MustRefresh? && s.holder.None? && c !in s.calls
    ensures
      var asked := Step(Step(s, Refresh(o)), Retry(o, c));
      var fetched := Step(Step(asked, Enter(c)), FetchEnds(c, secret));
      var t := Step(fetched, RetryConnects(o));
      && asked.cached == None && o in t.openers && t.holder == None
      && if secret.None? then t.openers[o] == GaveUp && t.cached == None
         else
           && t.cached == Some(Password(secret.value, s.tick + 2, s.now))
           && t.openers[o] == Retried(s.openers[o].failedAt, t.cached.value)
  {
    var asked := Step(Step(s, Refresh(o)), Retry(o, c));
    assert asked.calls == s.calls[c := Queued] && asked.tick == s.tick + 2 && asked.holder == None;
    var entered := Step(asked, Enter(c));
    assert entered.calls[c] == Fetching(s.tick + 2) && entered.openers == asked.openers;
    assert asked.openers[o] == Retrying(s.openers[o].failedAt, s.tick, c);
  }
}

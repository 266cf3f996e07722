/**
 The Redis list that feeds user messages to a chat session. `push` looks at the
 length and appends in two separate commands, so pushers overtake one another.
 */
module InputQueue {
  const MAX_QUEUE_DEPTH := 200

  class TaskInputQueue {
    var items: seq<string>

    constructor ()
      ensures items == []
    {
      items := [];
    }

    /** `push` with nobody else in between. */
    method Push(content: string) returns (queued: bool)
      modifies this
      ensures queued <==> |old(items)| < MAX_QUEUE_DEPTH
      ensures items == if queued then old(items) + [content] else old(items)
    {
      var depth := |items|;
      if depth >= MAX_QUEUE_DEPTH { return false; }
      items := items + [content];
      return true;
    }

    method Clear()
      modifies this
      ensures items == []
    {
      items := [];
    }
  }

  // ------------------------------------------------ concurrent pushers

  /**
   `cleared` pushers have seen room and are about to append; `accepted` and
   `popped` record the current epoch, which a `clear` starts afresh.
   */
  datatype State = State(
    items: seq<string>,
    cleared: map<nat, string>,
    accepted: seq<string>,
    popped: seq<string>)

  datatype Action =
    | Check(pusher: nat, content: string)
    | Append(pusher: nat)
    | Pop
    | Clear

  const EMPTY := State([], map[], [], [])

  /** One command; only the pushers below `pushers` exist, each with one push at a time. */
  function Step(pushers: nat, s: State, a: Action): State {
    match a
    case Check(p, content) =>
      if p < pushers && p !in s.cleared && |s.items| < MAX_QUEUE_DEPTH
      then s.(cleared := s.cleared[p := content]) else s
    case Append(p) =>
      if p in s.cleared
      then State(s.items + [s.cleared[p]], s.cleared - {p}, s.accepted + [s.cleared[p]], s.popped) else s
    case Pop => if s.items == [] then s else s.(items := s.items[1..], popped := s.popped + [s.items[0]])
    case Clear => s.(items := [], accepted := [], popped := [])
  }

  function Play(pushers: nat, s: State, schedule: seq<Action>): State {
    if schedule == [] then s
    else Step(pushers, Play(pushers, s, schedule[..|schedule| - 1]), schedule[|schedule| - 1])
  }

  ghost predicate Inv(pushers: nat, s: State) {
    && (forall p :: p in s.cleared ==> p < pushers)
    && |s.items| + |s.cleared| <= MAX_QUEUE_DEPTH - 1 + pushers
    && s.popped + s.items == s.accepted
  }

  lemma {:induction false} Below(keys: set<nat>, n: nat)
    requires forall k :: k in keys ==> k < n
    ensures |keys| <= n
  {
    if n > 0 {
      Below(keys - {n - 1}, n - 1);
    } else {
      assert keys == {};
    }
  }

  lemma CheckKeepsInv(pushers: nat, s: State, p: nat, content: string)
    requires Inv(pushers, s)
    ensures Inv(pushers, Step(pushers, s, Check(p, content)))
  {
    var t := Step(pushers, s, Check(p, content));
    Below(t.cleared.Keys, pushers);
    assert |t.cleared| == |t.cleared.Keys|;
  }

  lemma AppendKeepsInv(pushers: nat, s: State, p: nat)
    requires Inv(pushers, s)
    ensures Inv(pushers, Step(pushers, s, Append(p)))
  {
    if p in s.cleared {
      var t := Step(pushers, s, Append(p));
      assert t.cleared.Keys == s.cleared.Keys - {p};
      assert |t.cleared.Keys| == |t.cleared| && |s.cleared.Keys| == |s.cleared|;
    }
  }

  lemma StepKeepsInv(pushers: nat, s: State, a: Action)
    requires Inv(pushers, s)
    ensures Inv(pushers, Step(pushers, s, a))
  {
    match a
    case Check(p, content) => CheckKeepsInv(pushers, s, p, content);
    case Append(p) => AppendKeepsInv(pushers, s, p);
    case Pop =>
    case Clear =>
  }

  /**
   However pushes, pops and clears interleave, the depth plus the pushers past the
   check never exceeds 199 plus the number of pushers, and what is popped plus what
   is queued is what was accepted, in order.
   */
  lemma {:induction false} DepthBound(pushers: nat, schedule: seq<Action>)
    requires pushers >= 1
    ensures
      var s := Play(pushers, EMPTY, schedule);
      && Inv(pushers, s)
      && |s.items| + |s.cleared| <= 199 + pushers
      && s.popped + s.items == s.accepted
  {
    if schedule != [] {
      DepthBound(pushers, schedule[..|schedule| - 1]);
      StepKeepsInv(pushers, Play(pushers, EMPTY, schedule[..|schedule| - 1]), schedule[|schedule| - 1]);
    }
  }

  // ------------------------------------------------ the bound is reached

  lemma OneMore(pushers: nat, s: State, schedule: seq<Action>, a: Action)
    ensures Play(pushers, s, schedule + [a]) == Step(pushers, Play(pushers, s, schedule), a)
  {
    assert (schedule + [a])[..|schedule|] == schedule;
  }

  /** A lone pusher fills the queue up to `n` items. */
  lemma {:induction false} Fill(pushers: nat, n: nat) returns (schedule: seq<Action>)
    requires pushers >= 1 && n <= MAX_QUEUE_DEPTH
    ensures Play(pushers, EMPTY, schedule).cleared == map[] && |Play(pushers, EMPTY, schedule).items| == n
  {
    if n == 0 {
      schedule := [];
    } else {
      var before := Fill(pushers, n - 1);
      OneMore(pushers, EMPTY, before, Check(0, "m"));
      OneMore(pushers, EMPTY, before + [Check(0, "m")], Append(0));
      schedule := before + [Check(0, "m")] + [Append(0)];
    }
  }

  /** With one slot left, any number of pushers pass the check one after the other. */
  lemma {:induction false} AllPass(pushers: nat, n: nat) returns (schedule: seq<Action>)
    requires pushers >= 1 && n <= pushers
    ensures
      var s := Play(pushers, EMPTY, schedule);
      |s.items| == MAX_QUEUE_DEPTH - 1 && forall p :: p in s.cleared <==> 0 <= p < n
  {
    if n == 0 {
      schedule := Fill(pushers, MAX_QUEUE_DEPTH - 1);
    } else {
      var before := AllPass(pushers, n - 1);
      OneMore(pushers, EMPTY, before, Check(n - 1, "m"));
      schedule := before + [Check(n - 1, "m")];
    }
  }

  lemma {:induction false} AllAppend(pushers: nat, n: nat) returns (schedule: seq<Action>)
    requires pushers >= 1 && n <= pushers
    ensures
      var s := Play(pushers, EMPTY, schedule);
      |s.items| == MAX_QUEUE_DEPTH - 1 + n && forall p :: p in s.cleared <==> n <= p < pushers
  {
    if n == 0 {
      schedule := AllPass(pushers, pushers);
    } else {
      var before := AllAppend(pushers, n - 1);
      OneMore(pushers, EMPTY, before, Append(n - 1));
      schedule := before + [Append(n - 1)];
    }
  }

  /** The bound is exact: for every number of pushers some schedule reaches it, so only one pusher keeps to the cap. */
  lemma BoundIsReached(pushers: nat) returns (schedule: seq<Action>)
    requires pushers >= 1
    ensures |Play(pushers, EMPTY, schedule).items| == 199 + pushers
  {
    schedule := AllAppend(pushers, pushers);
  }

  // ------------------------------------------------ what comes out

  /** A pusher passes the check exactly below the cap, and then appends its own message at the end. */
  lemma PassedCheckAppends(pushers: nat, s: State, p: nat, content: string)
    requires p < pushers && p !in s.cleared
    ensures
      var t := Step(pushers, s, Check(p, content));
      && (p in t.cleared <==> |s.items| < 200) && t.items == s.items
      && (p in t.cleared ==>
            var u := Step(pushers, t, Append(p));
            u.items == s.items + [content] && u.accepted == s.accepted + [content] && u.cleared == s.cleared)
  {
    if |s.items| < MAX_QUEUE_DEPTH {
      assert s.cleared[p := content] - {p} == s.cleared;
    }
  }

  function Pops(n: nat): seq<Action> {
    seq(n, i => Pop)
  }

  /** The queue drains in order: `n` pops take the first `n` items, one after the other. */
  lemma {:induction false} Drains(pushers: nat, s: State, n: nat)
    requires n <= |s.items|
    ensures Play(pushers, s, Pops(n)) == s.(items := s.items[n..], popped := s.popped + s.items[..n])
  {
    if n > 0 {
      Drains(pushers, s, n - 1);
      assert Pops(n)[..n - 1] == Pops(n - 1);
      assert s.popped + s.items[..n - 1] + [s.items[n - 1]] == s.popped + s.items[..n];
    } else {
      assert s.popped + s.items[..0] == s.popped;
    }
  }

  /** A clear empties the queue, but not the hands of pushers past the check. */
  lemma ClearEmpties(pushers: nat, s: State)
    ensures Step(pushers, s, Clear) == State([], s.cleared, [], [])
    ensures Step(pushers, Step(pushers, s, Clear), Pop) == Step(pushers, s, Clear)
  {
  }
}

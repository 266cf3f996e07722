/**
 What the runs of a chat session have in common, whatever their script: the statuses
 they write form exactly one language, the loop never spins, and a session ends for a
 reason.
 */
module SessionRuns {
  import opened Common
  import opened StatusLanguage
  import opened ChatSession
  import L = Lifecycle

  // ------------------------------------------------- every run is in the language

  /** The stages in which the loop begins a round. */
  predicate AtHead(q: Stage) {
    q in {Resumed, InTurn, HasPublished, Waiting}
  }

  lemma TailAccepted(turn: Turn)
    ensures StageFrom(InTurn, TurnTail(turn)) in {InTurn, InApproval, HasPublished}
    ensures turn.streamOk ==> StageFrom(InTurn, TurnTail(turn)) in {InTurn, HasPublished}
  {
    OneMore(InTurn, [], AwaitingApproval);
    OneMore(InTurn, [], Publishing);
    assert [] + [AwaitingApproval] == [AwaitingApproval] && [] + [Publishing] == [Publishing];
  }

  lemma TurnTraceAccepted(q: Stage, turn: Turn, isInitial: bool)
    requires q == Fresh || q == Waiting
    ensures
      var e := StageFrom(q, TurnTrace(turn, isInitial));
      Open(e) && (TurnOk(turn, isInitial) ==> e in {InTurn, HasPublished})
  {
    assert StageFrom(q, [Running]) == InTurn;
    if turn.announced && (isInitial || turn.userPersisted) {
      var rounds := Repeat([AwaitingApproval, Running], turn.approvals);
      ApprovalsAccepted(turn.approvals);
      StageFromConcat(q, [Running], rounds);
      StageFromConcat(q, [Running] + rounds, TurnTail(turn));
      TailAccepted(turn);
    }
  }

  lemma ApprovalsAccepted(n: nat)
    ensures StageFrom(InTurn, Repeat([AwaitingApproval, Running], n)) == InTurn
  {
    assert [AwaitingApproval, Running][..1] == [AwaitingApproval];
    assert StageFrom(InTurn, [AwaitingApproval]) == InApproval;
    RepeatStays(InTurn, [AwaitingApproval, Running], n);
  }

  /** A course fits the stage its statuses lead to. */
  predicate Fits(course: Course, q: Stage) {
    if course.Throw? then Open(q) else AtHead(q)
  }

  lemma BudgetAccepted(c: Clocks, l: Loop, round: Round)
    ensures
      var t := BudgetTrace(c, l, round);
      Fits(t.course, StageFrom(Waiting, t.word)) && !t.course.Finish?
  {
    TurnTraceAccepted(Waiting, round.turn, false);
  }

  lemma WaitedAccepted(q: Stage, b: Trace)
    requires AtHead(q) && Fits(b.course, StageFrom(Waiting, b.word))
    ensures Fits(b.course, StageFrom(q, [AwaitingUserMessage] + b.word))
  {
    StageFromConcat(q, [AwaitingUserMessage], b.word);
    assert StageFrom(q, [AwaitingUserMessage]) == Waiting;
  }

  /** The three ways of a round: the end, a broadcast that raises, or the budget. */
  lemma RoundSplit(c: Clocks, l: Loop, round: Round)
    ensures
      var t := RoundTrace(c, l, round);
      var b := BudgetTrace(c, Checked(l, round), round);
      || (t.course.Finish? && t.word == [])
      || (!Checked(l, round).closed && Checked(l, round).now < DeadlineOf(c, l)
          && ((!round.announced && t.course.Throw? && t.word == [AwaitingUserMessage])
              || (round.announced && t == b.(word := [AwaitingUserMessage] + b.word))))
  {
  }

  lemma RoundAccepted(c: Clocks, l: Loop, round: Round, q: Stage)
    requires AtHead(q)
    ensures
      var t := RoundTrace(c, l, round);
      Fits(t.course, StageFrom(q, t.word)) && (t.course.Finish? ==> t.word == [])
  {
    RoundSplit(c, l, round);
    BudgetAccepted(c, Checked(l, round), round);
    WaitedAccepted(q, BudgetTrace(c, Checked(l, round), round));
    assert StageFrom(q, [AwaitingUserMessage]) == Waiting;
  }

  lemma {:induction false} RoundsAccepted(c: Clocks, l: Loop, rounds: seq<Round>, q: Stage)
    requires AtHead(q)
    ensures
      var t := RoundsTrace(c, l, rounds);
      Fits(t.course, StageFrom(q, t.word))
  {
    if rounds != [] {
      var n := |rounds| - 1;
      var t := RoundsTrace(c, l, rounds[..n]);
      RoundsAccepted(c, l, rounds[..n], q);
      if t.course.GoOn? {
        var r := RoundTrace(c, t.after, rounds[n]);
        RoundAccepted(c, t.after, rounds[n], StageFrom(q, t.word));
        StageFromConcat(q, t.word, r.word);
      }
    }
  }

  lemma LoopAccepted(c: Clocks, l: Loop, isResumed: bool, script: Script)
    ensures
      var t := LoopTrace(c, l, isResumed, script);
      Fits(t.course, StageFrom(Start(isResumed), t.word)) && t.course != Finish(Error)
  {
    FinishesInOrder(c, l, script.rounds);
    if isResumed {
      RoundsAccepted(c, l, script.rounds, Resumed);
    } else {
      var word := TurnTrace(script.first, true);
      TurnTraceAccepted(Fresh, script.first, true);
      if TurnOk(script.first, true) {
        RoundsAccepted(c, l, script.rounds, StageFrom(Fresh, word));
        StageFromConcat(Fresh, word, RoundsTrace(c, l, script.rounds).word);
      }
    }
  }

  lemma TwoMore(q: Stage, word: seq<TaskStatus>)
    ensures StageFrom(q, word + [Completed, Failed]) == Next(Next(StageFrom(q, word), Completed), Failed)
  {
    OneMore(q, word, Completed);
    OneMore(q, word + [Completed], Failed);
    assert word + [Completed] + [Failed] == word + [Completed, Failed];
  }

  /** Where the ending leads from the stage `e` in which the loop left off. */
  function AfterEnd(e: Stage, course: Course, script: Script): Stage {
    match course
    case GoOn => e
    case Throw => EndFailed
    case Finish(_) =>
      if !script.ending.announced then EndFailed
      else if script.ending.statusAnnounced then EndCompleted
      else CompletedThenFailed
  }

  lemma EndAccepted(q: Stage, word: seq<TaskStatus>, course: Course, script: Script)
    requires Fits(course, StageFrom(q, word))
    ensures StageFrom(q, word + EndWord(course, script)) == AfterEnd(StageFrom(q, word), course, script)
  {
    OpenEnds(StageFrom(q, word));
    if course.GoOn? {
      assert word + [] == word;
    } else if course.Throw? || !script.ending.announced {
      OneMore(q, word, Failed);
    } else if script.ending.statusAnnounced {
      OneMore(q, word, Completed);
    } else {
      TwoMore(q, word);
    }
  }

  lemma OpenEnds(stage: Stage)
    ensures Open(stage) ==> Next(stage, Failed) == EndFailed
    ensures AtHead(stage) ==> Next(stage, Completed) == EndCompleted && Next(stage, Failed) == EndFailed
  {
  }

  /**
   Whatever raises and whenever messages come, the statuses of a connected session
   bring the automaton to one of its three ends, or keep it at the head of the loop
   while the session runs: FAILED after what raised, COMPLETED after an orderly end, and
   both exactly when the broadcast after the committed COMPLETED raises.
   */
  lemma RunAccepted(c: Clocks, l: Loop, isResumed: bool, script: Script)
    ensures
      var course := LoopTrace(c, l, isResumed, script).course;
      var e := StageFrom(Start(isResumed), RunWord(c, l, isResumed, script));
      && (course.GoOn? <==> AtHead(e))
      && (e == EndFailed <==> course.Throw? || (course.Finish? && !script.ending.announced))
      && (e == EndCompleted <==> course.Finish? && script.ending.announced && script.ending.statusAnnounced)
      && (e == CompletedThenFailed <==> course.Finish? && script.ending.announced && !script.ending.statusAnnounced)
  {
    var t := LoopTrace(c, l, isResumed, script);
    LoopAccepted(c, l, isResumed, script);
    EndAccepted(Start(isResumed), t.word, t.course, script);
  }

  // ---------------------------------------------------------- the loop never spins

  predicate AllChat(items: seq<Item>) {
    forall item | item in items :: item.Chat?
  }

  predicate OnlyChat(rounds: seq<Round>) {
    forall r | r in rounds :: AllChat(r.arrivals)
  }

  predicate EndsInWait(word: seq<TaskStatus>) {
    word != [] && word[|word| - 1] == AwaitingUserMessage
  }

  /** No three AWAITING_USER_MESSAGE in a row. */
  predicate ShortWaits(word: seq<TaskStatus>) {
    forall i :: 0 <= i && i + 2 < |word| ==>
      !(word[i] == AwaitingUserMessage && word[i + 1] == AwaitingUserMessage && word[i + 2] == AwaitingUserMessage)
  }

  /** The number of AWAITING_USER_MESSAGE at the end of the word. */
  function TrailingWaits(word: seq<TaskStatus>): nat {
    if EndsInWait(word) then 1 + TrailingWaits(word[..|word| - 1]) else 0
  }

  /** After one fruitless wait at most half a second is left, after two nothing. */
  predicate Rested(waits: nat, left: real) {
    waits == 0 || (waits == 1 && left <= 0.5) || (waits == 2 && left <= 0.0)
  }

  /** Few waits at the end, and no time left to add a third. */
  predicate Calm(word: seq<TaskStatus>, left: real) {
    ShortWaits(word) && Rested(TrailingWaits(word), left)
  }

  lemma WaitAdded(word: seq<TaskStatus>)
    requires ShortWaits(word) && TrailingWaits(word) <= 1
    ensures
      ShortWaits(word + [AwaitingUserMessage]) && TrailingWaits(word + [AwaitingUserMessage]) == TrailingWaits(word) + 1
  {
    var longer := word + [AwaitingUserMessage];
    assert longer[..|word|] == word;
    if |word| >= 2 && EndsInWait(word) {
      assert !EndsInWait(word[..|word| - 1]);
      assert word[|word| - 2] != AwaitingUserMessage;
    }
  }

  lemma WorkAdded(word: seq<TaskStatus>, work: seq<TaskStatus>)
    requires ShortWaits(word) && AwaitingUserMessage !in work
    ensures ShortWaits(word + work) && (work != [] ==> TrailingWaits(word + work) == 0)
  {
    var longer := word + work;
    forall i | 0 <= i && i + 2 < |longer|
      ensures
        !(longer[i] == AwaitingUserMessage && longer[i + 1] == AwaitingUserMessage
          && longer[i + 2] == AwaitingUserMessage)
    {
      if i + 2 >= |word| { assert longer[i + 2] in work; }
    }
    if work != [] { assert work[|work| - 1] in work; }
  }

  lemma {:induction false} RepeatHasNoWait(n: nat)
    ensures AwaitingUserMessage !in Repeat([AwaitingApproval, Running], n)
  {
    if n > 0 { RepeatHasNoWait(n - 1); }
  }

  lemma TurnHasNoWait(turn: Turn, isInitial: bool)
    ensures AwaitingUserMessage !in TurnTrace(turn, isInitial) && TurnTrace(turn, isInitial) != []
  {
    RepeatHasNoWait(turn.approvals);
  }

  /** The budget after an announced wait: what is left allows for it, or nothing is left. */
  lemma BudgetCalm(c: Clocks, l: Loop, round: Round, waits: nat)
    requires l.now < DeadlineOf(c, l) && Rested(waits, DeadlineOf(c, l) - l.now)
    requires AllChat(l.queue) && AllChat(round.arrivals)
    ensures
      var t := BudgetTrace(c, l, round);
      && waits <= 1 && AllChat(t.after.queue)
      && (t.word == [] && t.course.GoOn? ==> Rested(waits + 1, DeadlineOf(c, t.after) - t.after.now))
      && (t.word != [] ==> t.word == TurnTrace(round.turn, false))
  {
    var budget := DeadlineOf(c, l) - (l.now + round.beforeBudget);
    if budget > 0.0 { L.TimeoutOvershoot(budget); }
    TurnHasNoWait(round.turn, false);
  }

  lemma WaitedCalm(word: seq<TaskStatus>, b: Trace, left: real)
    requires ShortWaits(word) && TrailingWaits(word) <= 1 && AwaitingUserMessage !in b.word
    requires b.word == [] && b.course.GoOn? ==> Rested(TrailingWaits(word) + 1, left)
    ensures ShortWaits(word + ([AwaitingUserMessage] + b.word))
    ensures b.course.GoOn? ==> Calm(word + ([AwaitingUserMessage] + b.word), left)
  {
    var waited := word + [AwaitingUserMessage];
    WaitAdded(word);
    WorkAdded(waited, b.word);
    Associative(word, [AwaitingUserMessage], b.word);
    assert b.word == [] ==> waited + b.word == waited;
  }

  lemma RoundCalm(c: Clocks, l: Loop, round: Round, word: seq<TaskStatus>)
    requires Calm(word, DeadlineOf(c, l) - l.now) && AllChat(l.queue) && AllChat(round.arrivals)
    ensures
      var t := RoundTrace(c, l, round);
      && ShortWaits(word + t.word)
      && (t.course.GoOn? ==> Calm(word + t.word, DeadlineOf(c, t.after) - t.after.now) && AllChat(t.after.queue))
  {
    var t := RoundTrace(c, l, round);
    var b := BudgetTrace(c, Checked(l, round), round);
    RoundSplit(c, l, round);
    if t.course.Finish? {
      assert word + t.word == word;
    } else {
      BudgetCalm(c, Checked(l, round), round, TrailingWaits(word));
      TurnHasNoWait(round.turn, false);
      WaitAdded(word);
      WaitedCalm(word, b, DeadlineOf(c, b.after) - b.after.now);
    }
  }

  lemma {:induction false} RoundsCalm(c: Clocks, l: Loop, rounds: seq<Round>, word: seq<TaskStatus>)
    requires Calm(word, DeadlineOf(c, l) - l.now) && AllChat(l.queue) && OnlyChat(rounds)
    ensures
      var t := RoundsTrace(c, l, rounds);
      && ShortWaits(word + t.word)
      && (t.course.GoOn? ==> Calm(word + t.word, DeadlineOf(c, t.after) - t.after.now) && AllChat(t.after.queue))
  {
    if rounds == [] {
      assert word + [] == word;
    } else {
      var n := |rounds| - 1;
      var t := RoundsTrace(c, l, rounds[..n]);
      RoundsCalm(c, l, rounds[..n], word);
      if t.course.GoOn? {
        assert rounds[n] in rounds;
        RoundCalm(c, t.after, rounds[n], word + t.word);
        Associative(word, t.word, RoundTrace(c, t.after, rounds[n]).word);
      }
    }
  }

  /**
   The loop never spins: as long as every queue entry is a chat message, no session
   announces its wait three times without a turn in between, for at most half a second
   is left after one fruitless wait and nothing after two.
   */
  lemma NeverSpins(c: Clocks, l: Loop, isResumed: bool, script: Script)
    requires AllChat(l.queue) && OnlyChat(script.rounds)
    ensures ShortWaits(RunWord(c, l, isResumed, script))
  {
    var t := LoopTrace(c, l, isResumed, script);
    LoopIsShort(c, l, isResumed, script);
    WorkAdded(t.word, EndWord(t.course, script));
  }

  lemma LoopIsShort(c: Clocks, l: Loop, isResumed: bool, script: Script)
    requires AllChat(l.queue) && OnlyChat(script.rounds)
    ensures ShortWaits(LoopTrace(c, l, isResumed, script).word)
  {
    if isResumed {
      var word := RoundsTrace(c, l, script.rounds).word;
      RoundsCalm(c, l, script.rounds, []);
      assert [] + word == word;
    } else {
      var first := TurnTrace(script.first, true);
      TurnHasNoWait(script.first, true);
      WorkAdded([], first);
      assert [] + first == first;
      RoundsCalm(c, l, script.rounds, first);
    }
  }

  // --------------------------------------------- and every word has a run

  const QUICK: Delay := 0.0

  /** A turn in which nothing raises. */
  function TurnFor(t: TurnShape): Turn {
    Turn(true, true, t.approvals, false, true, "", true, t.published)
  }

  /** A turn that breaks off while an approval is pending. */
  function BrokenTurn(approvals: nat): Turn {
    Turn(true, true, approvals, true, false, "", true, false)
  }

  const NO_TURN := TurnFor(TurnShape(0, false))

  /** A round in which a message is there at once. */
  function Served(turn: Turn): Round {
    Round(false, QUICK, true, QUICK, [Chat("go on")], true, QUICK, turn)
  }

  /** A wait in which nobody writes. */
  function Quiet(): Round {
    Round(false, QUICK, true, QUICK, [], true, QUICK, NO_TURN)
  }

  function Close(): Round {
    Quiet().(close := true)
  }

  /** An entry that does not parse makes a wait that costs no time. */
  function Malformed(): Round {
    Quiet().(arrivals := [Garbage])
  }

  /** The budget of a wait that is over before the idle clock is. */
  function ShortBudget(c: Clocks): real {
    if c.idle < 1.25 then c.idle else 1.25
  }

  /** A wait whose budget is read so late that its timeout is rounded down. */
  function Pause(c: Clocks): Round {
    Quiet().(beforeBudget := c.idle - ShortBudget(c))
  }

  /** A wait after which another one is possible; `fed` excludes entries that do not parse. */
  function Fruitless(c: Clocks, fed: bool): Round {
    if fed then Pause(c) else Malformed()
  }

  /** Time is left, and nothing is queued. */
  predicate Ready(c: Clocks, l: Loop) {
    !l.closed && l.queue == [] && l.now < DeadlineOf(c, l)
  }

  /** And the idle clock has just been reset. */
  predicate Ample(c: Clocks, l: Loop) {
    Ready(c, l) && l.lastInput == l.now
  }

  lemma QuietTrace(c: Clocks, l: Loop)
    requires Ready(c, l)
    ensures
      var t := RoundTrace(c, l, Quiet());
      t.word == [AwaitingUserMessage] && t.course == GoOn && !t.after.closed
  {
    L.TimeoutOvershoot(DeadlineOf(c, l) - l.now);
  }

  lemma ServedTrace(c: Clocks, l: Loop, turn: Turn)
    requires Ready(c, l)
    ensures
      RoundTrace(c, l, Served(turn)) ==
      Trace([AwaitingUserMessage] + TurnTrace(turn, false),
            if TurnOk(turn, false) then GoOn else Throw, l.(lastInput := l.now))
  {
    L.TimeoutOvershoot(DeadlineOf(c, l) - l.now);
  }

  lemma MalformedTrace(c: Clocks, l: Loop)
    requires Ready(c, l)
    ensures RoundTrace(c, l, Malformed()) == Trace([AwaitingUserMessage], GoOn, l)
  {
    L.TimeoutOvershoot(DeadlineOf(c, l) - l.now);
  }

  lemma PauseTrace(c: Clocks, l: Loop)
    requires Ample(c, l) && c.idle > 1.0 && l.now + c.idle <= c.hardEnd
    ensures
      var t := RoundTrace(c, l, Pause(c));
      && t.word == [AwaitingUserMessage] && t.course == GoOn && Ready(c, t.after)
      && l.now <= t.after.now < l.now + c.idle
  {
    assert L.BlpopTimeout(ShortBudget(c)) == 1;
    var late := AtBudget(Checked(l, Pause(c)), Pause(c));
    assert DeadlineOf(c, late) - late.now == ShortBudget(c);
  }

  lemma TurnForTrace(t: TurnShape, isInitial: bool)
    ensures TurnTrace(TurnFor(t), isInitial) == TurnWord(t) && TurnOk(TurnFor(t), isInitial)
  {
  }

  lemma RoundsSnoc(c: Clocks, l: Loop, rounds: seq<Round>, round: Round)
    ensures
      var t := RoundsTrace(c, l, rounds);
      RoundsTrace(c, l, rounds + [round]) ==
        if t.course.GoOn? then var r := RoundTrace(c, t.after, round); r.(word := t.word + r.word) else t
  {
    assert (rounds + [round])[..|rounds|] == rounds;
  }

  /** The rounds write `word`, and the loop is ready for more at `at`. */
  predicate Writes(c: Clocks, l: Loop, rounds: seq<Round>, word: seq<TaskStatus>, at: Loop) {
    RoundsTrace(c, l, rounds) == Trace(word, GoOn, at) && Ready(c, at)
  }

  /** So long the idle clock runs for `n` pairs of waits. */
  function Span(c: Clocks, n: nat): real {
    if n == 0 then 0.0 else Span(c, n - 1) + c.idle
  }

  /** What the clocks must allow: a second wait in a row takes the time of the idle clock. */
  predicate TimeFor(c: Clocks, now: real, pairs: nat) {
    pairs > 0 ==> c.idle > 1.0 && now + Span(c, pairs) <= c.hardEnd
  }

  lemma RepeatOnto<T>(front: seq<T>, x: T, n: nat)
    requires n > 0
    ensures front + Repeat([x], n) == front + Repeat([x], n - 1) + [x]
  {
  }

  lemma MalformedNext(c: Clocks, l: Loop, rounds: seq<Round>, word: seq<TaskStatus>, at: Loop)
    requires Writes(c, l, rounds, word, at)
    ensures Writes(c, l, rounds + [Malformed()], word + [AwaitingUserMessage], at)
  {
    RoundsSnoc(c, l, rounds, Malformed());
    MalformedTrace(c, at);
  }

  lemma PauseNext(c: Clocks, l: Loop, rounds: seq<Round>, word: seq<TaskStatus>, at: Loop) returns (next: Loop)
    requires Writes(c, l, rounds, word, at) && Ample(c, at) && TimeFor(c, at.now, 1)
    ensures Writes(c, l, rounds + [Pause(c)], word + [AwaitingUserMessage], next)
    ensures at.now <= next.now <= at.now + c.idle
  {
    assert Span(c, 1) == c.idle;
    RoundsSnoc(c, l, rounds, Pause(c));
    PauseTrace(c, at);
    next := RoundTrace(c, at, Pause(c)).after;
  }

  lemma {:induction false} MalformedWritten(c: Clocks, l: Loop, rounds: seq<Round>, word: seq<TaskStatus>, at: Loop,
          n: nat)
    requires Writes(c, l, rounds, word, at)
    ensures Writes(c, l, rounds + Repeat([Malformed()], n), word + Repeat([AwaitingUserMessage], n), at)
  {
    if n == 0 {
      assert rounds + Repeat([Malformed()], n) == rounds && word + Repeat([AwaitingUserMessage], n) == word;
    } else {
      MalformedWritten(c, l, rounds, word, at, n - 1);
      MalformedNext(c, l, rounds + Repeat([Malformed()], n - 1), word + Repeat([AwaitingUserMessage], n - 1), at);
      RepeatOnto(rounds, Malformed(), n);
      RepeatOnto(word, AwaitingUserMessage, n);
    }
  }

  /** `n` waits that are followed by one more. */
  lemma FruitlessWritten(c: Clocks, l: Loop, fed: bool, rounds: seq<Round>, word: seq<TaskStatus>, at: Loop, n: nat)
    returns (next: Loop)
    requires Writes(c, l, rounds, word, at) && Ample(c, at) && (fed ==> n <= 1 && TimeFor(c, at.now, n))
    ensures Writes(c, l, rounds + Repeat([Fruitless(c, fed)], n), word + Repeat([AwaitingUserMessage], n), next)
    ensures at.now <= next.now && (fed ==> next.now <= at.now + Span(c, n))
  {
    next := at;
    if !fed || n == 0 {
      MalformedWritten(c, l, rounds, word, at, n);
      assert n == 0 ==> Repeat([Fruitless(c, fed)], n) == Repeat([Malformed()], n);
    } else {
      next := PauseNext(c, l, rounds, word, at);
      assert Repeat([Pause(c)], 1) == [Pause(c)] && Repeat([AwaitingUserMessage], 1) == [AwaitingUserMessage];
    }
  }

  lemma ServedWritten(c: Clocks, l: Loop, rounds: seq<Round>, word: seq<TaskStatus>, at: Loop, turn: Turn)
    requires Writes(c, l, rounds, word, at) && c.idle > 0.0
    ensures
      var t := RoundsTrace(c, l, rounds + [Served(turn)]);
      && t.word == word + [AwaitingUserMessage] + TurnTrace(turn, false)
      && t.course == (if TurnOk(turn, false) then GoOn else Throw)
      && Ample(c, t.after) && t.after.now == at.now
  {
    RoundsSnoc(c, l, rounds, Served(turn));
    ServedTrace(c, at, turn);
    Associative(word, [AwaitingUserMessage], TurnTrace(turn, false));
  }

  /** The waits of a cycle: all but the last are fruitless, and the last one brings the message. */
  function CycleRounds(c: Clocks, fed: bool, waits: nat, turn: Turn): seq<Round>
    requires waits >= 1
  {
    Repeat([Fruitless(c, fed)], waits - 1) + [Served(turn)]
  }

  lemma CycleEnds(c: Clocks, fed: bool, rounds: seq<Round>, waits: nat, turn: Turn)
    requires waits >= 1
    ensures
      rounds + CycleRounds(c, fed, waits, turn) == rounds + Repeat([Fruitless(c, fed)], waits - 1) + [Served(turn)]
  {
  }

  lemma CycleWritten(c: Clocks, l: Loop, fed: bool, rounds: seq<Round>, word: seq<TaskStatus>, at: Loop, waits: nat,
          turn: Turn)
    requires Writes(c, l, rounds, word, at) && Ample(c, at)
    requires waits >= 1 && (fed ==> waits <= 2 && TimeFor(c, at.now, waits - 1))
    ensures
      var t := RoundsTrace(c, l, rounds + CycleRounds(c, fed, waits, turn));
      && t.word == word + Repeat([AwaitingUserMessage], waits) + TurnTrace(turn, false)
      && t.course == (if TurnOk(turn, false) then GoOn else Throw)
      && Ample(c, t.after) && (fed ==> t.after.now <= at.now + Span(c, waits - 1))
  {
    var idle := Repeat([Fruitless(c, fed)], waits - 1);
    var next := FruitlessWritten(c, l, fed, rounds, word, at, waits - 1);
    ServedWritten(c, l, rounds + idle, word + Repeat([AwaitingUserMessage], waits - 1), next, turn);
    CycleEnds(c, fed, rounds, waits, turn);
    RepeatOnto(word, AwaitingUserMessage, waits);
  }

  /** The cycles with two waits. */
  function Pairs(cycles: seq<Cycle>): nat {
    if cycles == [] then 0
    else Pairs(cycles[..|cycles| - 1]) + if cycles[|cycles| - 1].waits >= 2 then 1 else 0
  }

  /** At least one wait in each cycle, and at most two if `fed`. */
  predicate FewWaits(cycles: seq<Cycle>, fed: bool) {
    cycles == [] ||
    var last := cycles[|cycles| - 1];
    last.waits >= 1 && (fed ==> last.waits <= 2) && FewWaits(cycles[..|cycles| - 1], fed)
  }

  function CyclesRounds(c: Clocks, fed: bool, cycles: seq<Cycle>): seq<Round>
    requires FewWaits(cycles, fed)
  {
    if cycles == [] then []
    else
      var last := cycles[|cycles| - 1];
      CyclesRounds(c, fed, cycles[..|cycles| - 1]) + CycleRounds(c, fed, last.waits, TurnFor(last.turn))
  }

  lemma {:induction false} SpanGrows(c: Clocks, m: nat, n: nat)
    requires c.idle > 0.0
    ensures Span(c, m + n) == Span(c, m) + Span(c, n)
  {
    if n > 0 { SpanGrows(c, m, n - 1); }
  }

  lemma {:induction false} CyclesWritten(c: Clocks, l: Loop, fed: bool, cycles: seq<Cycle>) returns (at: Loop)
    requires Ample(c, l) && FewWaits(cycles, fed) && (fed ==> TimeFor(c, l.now, Pairs(cycles)))
    ensures Writes(c, l, CyclesRounds(c, fed, cycles), CyclesWord(cycles), at) && Ample(c, at)
    ensures fed ==> at.now <= l.now + Span(c, Pairs(cycles))
    decreases |cycles|, 0
  {
    at := l;
    if cycles != [] {
      var front, last := CyclesRounds(c, fed, cycles[..|cycles| - 1]), cycles[|cycles| - 1];
      at := FrontWritten(c, l, fed, cycles);
      CycleWritten(c, l, fed, front, CyclesWord(cycles[..|cycles| - 1]), at, last.waits, TurnFor(last.turn));
      TurnForTrace(last.turn, false);
      at := RoundsTrace(c, l, CyclesRounds(c, fed, cycles)).after;
    }
  }

  /** All cycles but the last, which leave the time for the last. */
  lemma FrontWritten(c: Clocks, l: Loop, fed: bool, cycles: seq<Cycle>) returns (at: Loop)
    requires cycles != []
    requires Ample(c, l) && FewWaits(cycles, fed) && (fed ==> TimeFor(c, l.now, Pairs(cycles)))
    ensures
      var front, waits := cycles[..|cycles| - 1], cycles[|cycles| - 1].waits;
      && Writes(c, l, CyclesRounds(c, fed, front), CyclesWord(front), at) && Ample(c, at)
      && (fed ==> waits <= 2 && TimeFor(c, at.now, waits - 1))
      && (fed ==> at.now + Span(c, waits - 1) <= l.now + Span(c, Pairs(cycles)))
    decreases |cycles| - 1, 1
  {
    var front, waits := cycles[..|cycles| - 1], cycles[|cycles| - 1].waits;
    assert 0.0 < c.idle && Span(c, 1) == c.idle;
    if waits >= 2 { SpanGrows(c, Pairs(front), 1); }
    at := CyclesWritten(c, l, fed, front);
  }

  /** The trailing waits of a session. */
  function LastRounds(c: Clocks, fed: bool, waits: nat): seq<Round> {
    if waits == 0 then [] else Repeat([Fruitless(c, fed)], waits - 1) + [Quiet()]
  }

  predicate FewAtTheEnd(shape: Shape, fed: bool) {
    FewWaits(shape.cycles, fed) && (fed ==> shape.waits <= 2)
  }

  /** All pairs of waits in the shape. */
  function AllPairs(shape: Shape): nat {
    Pairs(shape.cycles) + if shape.waits >= 2 then 1 else 0
  }

  lemma LastEnds(c: Clocks, fed: bool, rounds: seq<Round>, waits: nat)
    requires waits >= 1
    ensures rounds + LastRounds(c, fed, waits) == rounds + Repeat([Fruitless(c, fed)], waits - 1) + [Quiet()]
  {
  }

  lemma QuietWritten(c: Clocks, l: Loop, rounds: seq<Round>, word: seq<TaskStatus>, at: Loop)
    requires Writes(c, l, rounds, word, at)
    ensures
      var t := RoundsTrace(c, l, rounds + [Quiet()]);
      t.word == word + [AwaitingUserMessage] && t.course == GoOn && !t.after.closed
  {
    RoundsSnoc(c, l, rounds, Quiet());
    QuietTrace(c, at);
  }

  lemma LastWritten(c: Clocks, l: Loop, fed: bool, rounds: seq<Round>, word: seq<TaskStatus>, at: Loop, waits: nat)
    requires Writes(c, l, rounds, word, at) && Ample(c, at)
    requires fed ==> waits <= 2 && TimeFor(c, at.now, if waits == 2 then 1 else 0)
    ensures
      var t := RoundsTrace(c, l, rounds + LastRounds(c, fed, waits));
      t.word == word + Repeat([AwaitingUserMessage], waits) && t.course == GoOn && !t.after.closed
  {
    if waits == 0 {
      assert rounds + LastRounds(c, fed, waits) == rounds && word + Repeat([AwaitingUserMessage], waits) == word;
    } else {
      var idle := Repeat([Fruitless(c, fed)], waits - 1);
      var next := FruitlessWritten(c, l, fed, rounds, word, at, waits - 1);
      QuietWritten(c, l, rounds + idle, word + Repeat([AwaitingUserMessage], waits - 1), next);
      LastEnds(c, fed, rounds, waits);
      RepeatOnto(word, AwaitingUserMessage, waits);
    }
  }

  /** The script of a shape: its turns, its waits, and a close request. */
  function ScriptFor(c: Clocks, fed: bool, shape: Shape, ending: Ending): Script
    requires FewAtTheEnd(shape, fed)
  {
    Script(
      TurnFor(if shape.first.Some? then shape.first.value else TurnShape(0, false)),
      CyclesRounds(c, fed, shape.cycles) + LastRounds(c, fed, shape.waits) + [Close()],
      ending,
      Ending(true, true))
  }

  /** The first turn of a shape, or none, before what its rounds write. */
  lemma WithFirstTurn(c: Clocks, l: Loop, isResumed: bool, shape: Shape, script: Script, rest: seq<TaskStatus>)
    requires WellShaped(shape, isResumed)
    requires shape.first.Some? ==> script.first == TurnFor(shape.first.value)
    requires RoundsTrace(c, l, script.rounds).word == CyclesWord(shape.cycles) + rest
    ensures
      var first := if shape.first.Some? then TurnWord(shape.first.value) else [];
      LoopTrace(c, l, isResumed, script).word == first + CyclesWord(shape.cycles) + rest
    ensures LoopTrace(c, l, isResumed, script).course == RoundsTrace(c, l, script.rounds).course
  {
    if shape.first.Some? {
      TurnForTrace(shape.first.value, true);
      Associative(TurnWord(shape.first.value), CyclesWord(shape.cycles), rest);
    } else {
      assert [] + CyclesWord(shape.cycles) == CyclesWord(shape.cycles);
    }
  }

  lemma ShapeRun(c: Clocks, l: Loop, isResumed: bool, fed: bool, shape: Shape, ending: Ending)
    requires Ample(c, l) && WellShaped(shape, isResumed)
    requires FewAtTheEnd(shape, fed) && (fed ==> TimeFor(c, l.now, AllPairs(shape)))
    ensures fed ==> OnlyChat(ScriptFor(c, fed, shape, ending).rounds)
    ensures
      var t := LoopTrace(c, l, isResumed, ScriptFor(c, fed, shape, ending));
      t.word == Word(shape) && t.course == Finish(UserClosed)
  {
    var waits := Repeat([AwaitingUserMessage], shape.waits);
    ShapeRounds(c, l, fed, shape);
    if fed { ShapeIsFed(c, shape); }
    WithFirstTurn(c, l, isResumed, shape, ScriptFor(c, fed, shape, ending), waits);
    assert Word(shape) == (if shape.first.Some? then TurnWord(shape.first.value) else [])
      + CyclesWord(shape.cycles) + waits;
  }

  lemma ShapeIsFed(c: Clocks, shape: Shape)
    requires FewAtTheEnd(shape, true)
    ensures OnlyChat(CyclesRounds(c, true, shape.cycles) + LastRounds(c, true, shape.waits) + [Close()])
  {
    CyclesAreFed(c, shape.cycles);
    OnePause(c, if shape.waits == 2 then 1 else 0);
  }

  lemma OnePause(c: Clocks, n: nat)
    requires n <= 1
    ensures OnlyChat(Repeat([Fruitless(c, true)], n))
  {
    assert n == 1 ==> Repeat([Pause(c)], n) == [Pause(c)];
  }

  lemma ShapeRounds(c: Clocks, l: Loop, fed: bool, shape: Shape)
    requires Ample(c, l) && FewAtTheEnd(shape, fed) && (fed ==> TimeFor(c, l.now, AllPairs(shape)))
    ensures
      var t := RoundsTrace(c, l, CyclesRounds(c, fed, shape.cycles) + LastRounds(c, fed, shape.waits) + [Close()]);
      && t.word == CyclesWord(shape.cycles) + Repeat([AwaitingUserMessage], shape.waits)
      && t.course == Finish(UserClosed)
  {
    var rounds := CyclesRounds(c, fed, shape.cycles);
    var word := CyclesWord(shape.cycles) + Repeat([AwaitingUserMessage], shape.waits);
    if shape.waits >= 2 && c.idle > 0.0 { SpanGrows(c, Pairs(shape.cycles), 1); }
    var at := CyclesWritten(c, l, fed, shape.cycles);
    LastWritten(c, l, fed, rounds, CyclesWord(shape.cycles), at, shape.waits);
    RoundsSnoc(c, l, rounds + LastRounds(c, fed, shape.waits), Close());
    assert word + [] == word;
  }

  lemma {:induction false} CyclesAreFed(c: Clocks, cycles: seq<Cycle>)
    requires FewWaits(cycles, true)
    ensures OnlyChat(CyclesRounds(c, true, cycles))
  {
    if cycles != [] {
      var last := cycles[|cycles| - 1];
      CyclesAreFed(c, cycles[..|cycles| - 1]);
      OnePause(c, last.waits - 1);
    }
  }

  lemma BrokenTurnTrace(approvals: nat, isInitial: bool)
    ensures TurnTrace(BrokenTurn(approvals), isInitial) == TurnWord(TurnShape(approvals, false)) + [AwaitingApproval]
    ensures !TurnOk(BrokenTurn(approvals), isInitial)
  {
    var rounds := Repeat([AwaitingApproval, Running], approvals);
    assert [Running] + rounds + [] == [Running] + rounds;
  }

  /** The rounds of cycles whose last turn breaks off at one more approval. */
  function BrokenCycles(c: Clocks, fed: bool, cycles: seq<Cycle>): seq<Round>
    requires cycles != [] && FewWaits(cycles, fed)
  {
    var front, last := cycles[..|cycles| - 1], cycles[|cycles| - 1];
    CyclesRounds(c, fed, front) + CycleRounds(c, fed, last.waits, BrokenTurn(last.turn.approvals))
  }

  lemma BrokenAreFed(c: Clocks, cycles: seq<Cycle>)
    requires cycles != [] && FewWaits(cycles, true)
    ensures OnlyChat(BrokenCycles(c, true, cycles))
  {
    CyclesAreFed(c, cycles[..|cycles| - 1]);
    OnePause(c, cycles[|cycles| - 1].waits - 1);
  }

  lemma BrokenRounds(c: Clocks, l: Loop, fed: bool, cycles: seq<Cycle>)
    requires Ample(c, l) && cycles != [] && !cycles[|cycles| - 1].turn.published
    requires FewWaits(cycles, fed) && (fed ==> TimeFor(c, l.now, Pairs(cycles)))
    ensures
      var t := RoundsTrace(c, l, BrokenCycles(c, fed, cycles));
      t.word == CyclesWord(cycles) + [AwaitingApproval] && t.course == Throw
  {
    var front, last := cycles[..|cycles| - 1], cycles[|cycles| - 1];
    var at := FrontWritten(c, l, fed, cycles);
    CycleWritten(c, l, fed, CyclesRounds(c, fed, front), CyclesWord(front), at, last.waits,
      BrokenTurn(last.turn.approvals));
    BrokenTurnTrace(last.turn.approvals, false);
    Associative(CyclesWord(front) + Repeat([AwaitingUserMessage], last.waits), TurnWord(last.turn), [AwaitingApproval]);
  }

  /** A shape that ends in an unpublished turn, whose stream breaks off at one more approval. */
  lemma BrokenRun(c: Clocks, l: Loop, isResumed: bool, fed: bool, shape: Shape) returns (script: Script)
    requires Ample(c, l) && WellShaped(shape, isResumed) && StageOf(shape) == InTurn
    requires FewAtTheEnd(shape, fed) && (fed ==> TimeFor(c, l.now, AllPairs(shape)))
    ensures fed ==> OnlyChat(script.rounds)
    ensures
      var t := LoopTrace(c, l, isResumed, script);
      t.word == Word(shape) + [AwaitingApproval] && t.course == Throw
  {
    if shape.cycles == [] {
      var broken := BrokenTurn(shape.first.value.approvals);
      script := Script(broken, [], Ending(true, true), Ending(true, true));
      BrokenTurnTrace(shape.first.value.approvals, true);
      assert Word(shape) == TurnWord(shape.first.value);
    } else {
      BrokenRounds(c, l, fed, shape.cycles);
      if fed { BrokenAreFed(c, shape.cycles); }
      var first := if shape.first.Some? then shape.first.value else TurnShape(0, false);
      script := Script(TurnFor(first), BrokenCycles(c, fed, shape.cycles), Ending(true, true), Ending(true, true));
      WithFirstTurn(c, l, isResumed, shape, script, [AwaitingApproval]);
      assert Word(shape) + [] == Word(shape);
    }
  }

  // ---------------------------------------------- waits in a word and in its shape

  /** How often a wait follows a wait. */
  function Doubles(word: seq<TaskStatus>): nat {
    if |word| < 2 then 0
    else
      var n := |word| - 1;
      Doubles(word[..n]) + if word[n - 1] == word[n] == AwaitingUserMessage then 1 else 0
  }

  lemma {:induction false} DoublesAdd(a: seq<TaskStatus>, b: seq<TaskStatus>)
    ensures Doubles(a + b) >= Doubles(a) + Doubles(b)
  {
    if b == [] {
      assert a + b == a;
    } else {
      assert (a + b)[..|a + b| - 1] == a + b[..|b| - 1];
      DoublesAdd(a, b[..|b| - 1]);
    }
  }

  lemma ShortParts(a: seq<TaskStatus>, b: seq<TaskStatus>)
    requires ShortWaits(a + b)
    ensures ShortWaits(a) && ShortWaits(b)
  {
    var word := a + b;
    assert forall i :: 0 <= i < |a| ==> a[i] == word[i];
    assert forall i :: 0 <= i < |b| ==> b[i] == word[|a| + i];
  }

  lemma {:induction false} RepeatIsConstant<T>(x: T, n: nat)
    ensures |Repeat([x], n)| == n && forall i :: 0 <= i < n ==> Repeat([x], n)[i] == x
  {
    if n > 0 { RepeatIsConstant(x, n - 1); }
  }

  lemma LongRepeat(n: nat)
    requires n >= 3
    ensures !ShortWaits(Repeat([AwaitingUserMessage], n))
  {
    var word := Repeat([AwaitingUserMessage], n);
    RepeatIsConstant(AwaitingUserMessage, n);
    assert word[0] == word[0 + 1] == word[0 + 2] == AwaitingUserMessage;
  }

  lemma ShortRepeat(n: nat)
    requires ShortWaits(Repeat([AwaitingUserMessage], n))
    ensures n <= 2 && Doubles(Repeat([AwaitingUserMessage], n)) >= if n >= 2 then 1 else 0
  {
    if n >= 3 {
      LongRepeat(n);
    } else {
      RepeatIsConstant(AwaitingUserMessage, n);
    }
  }

  /** Waits between what comes before and after them. */
  lemma ShortBetween(before: seq<TaskStatus>, n: nat, after: seq<TaskStatus>)
    requires ShortWaits(before + Repeat([AwaitingUserMessage], n) + after)
    ensures ShortWaits(before) && n <= 2
    ensures
      Doubles(before + Repeat([AwaitingUserMessage], n) + after) >= Doubles(before) + if n >= 2 then 1 else 0
  {
    var waits := Repeat([AwaitingUserMessage], n);
    ShortParts(before + waits, after);
    ShortParts(before, waits);
    DoublesAdd(before + waits, after);
    DoublesAdd(before, waits);
    ShortRepeat(n);
  }

  lemma {:induction false} ShortCycles(cycles: seq<Cycle>)
    requires ShortWaits(CyclesWord(cycles)) && FewWaits(cycles, false)
    ensures FewWaits(cycles, true) && Pairs(cycles) <= Doubles(CyclesWord(cycles))
  {
    if cycles != [] {
      var front, last := cycles[..|cycles| - 1], cycles[|cycles| - 1];
      ShortBetween(CyclesWord(front), last.waits, TurnWord(last.turn));
      ShortCycles(front);
    }
  }

  /** A shape followed by some ending, with no three waits in a row. */
  lemma ShortShape(shape: Shape, isResumed: bool, ending: seq<TaskStatus>)
    requires WellShaped(shape, isResumed) && ShortWaits(Word(shape) + ending)
    ensures FewAtTheEnd(shape, true) && AllPairs(shape) <= Doubles(Word(shape) + ending)
  {
    var first := if shape.first.Some? then TurnWord(shape.first.value) else [];
    var cycles := CyclesWord(shape.cycles);
    ShortBetween(first + cycles, shape.waits, ending);
    ShortParts(first, cycles);
    DoublesAdd(first, cycles);
    SomeWait(shape.cycles);
    ShortCycles(shape.cycles);
  }

  lemma TimeForFewer(c: Clocks, now: real, few: nat, many: nat)
    requires few <= many && c.idle > 0.0 && TimeFor(c, now, many)
    ensures TimeFor(c, now, few)
  {
    SpanGrows(c, few, many - few);
    SpanPositive(c, many - few);
  }

  lemma {:induction false} SpanPositive(c: Clocks, n: nat)
    requires c.idle > 0.0
    ensures Span(c, n) >= 0.0
  {
    if n > 0 { SpanPositive(c, n - 1); }
  }

  // ------------------------------------------------------------- main results

  /** The run reaches its orderly end, and all of it succeeds. */
  predicate Completes(c: Clocks, l: Loop, isResumed: bool, script: Script) {
    LoopTrace(c, l, isResumed, script).course.Finish? && script.ending.announced && script.ending.statusAnnounced
  }

  /** Something raises before a final status is committed. */
  predicate Fails(c: Clocks, l: Loop, isResumed: bool, script: Script) {
    var course := LoopTrace(c, l, isResumed, script).course;
    course.Throw? || (course.Finish? && !script.ending.announced)
  }

  /** What arrives is what `push` stores, if `fed`. */
  predicate Fed(fed: bool, script: Script) {
    fed ==> OnlyChat(script.rounds)
  }

  /**
   The statuses of sessions that complete, when the queue is filled by `push` alone, are
   exactly the words of the grammar in which no three waits follow each other, followed
   by COMPLETED: every run that completes writes one, and each is written by some run if
   the clocks leave the time for its double waits. With entries that do not parse
   besides, they are all words of the grammar.
   */
  lemma CompletedSessions(c: Clocks, l: Loop, isResumed: bool, fed: bool, word: seq<TaskStatus>)
    requires Ample(c, l)
    ensures
      var written :=
        exists script :: Fed(fed, script) && Completes(c, l, isResumed, script)
          && RunWord(c, l, isResumed, script) == word;
      var spelled := (exists shape :: IsCompleted(isResumed, shape, word)) && (fed ==> ShortWaits(word));
      && (written ==> spelled)
      && (spelled && (fed ==> TimeFor(c, l.now, Doubles(word))) ==> written)
  {
    CompletedWords(isResumed, word);
    if script :| Fed(fed, script) && Completes(c, l, isResumed, script) && RunWord(c, l, isResumed, script) == word {
      RunAccepted(c, l, isResumed, script);
      if fed { NeverSpins(c, l, isResumed, script); }
    }
    if shape :| IsCompleted(isResumed, shape, word) && (fed ==> ShortWaits(word) && TimeFor(c, l.now, Doubles(word))) {
      var script := CompletingRun(c, l, isResumed, fed, shape, word);
      assert Fed(fed, script) && Completes(c, l, isResumed, script) && RunWord(c, l, isResumed, script) == word;
    }
  }

  lemma {:induction false} SomeWait(cycles: seq<Cycle>)
    requires forall x | x in cycles :: x.waits >= 1
    ensures FewWaits(cycles, false)
  {
    if cycles != [] {
      assert cycles[|cycles| - 1] in cycles;
      SomeWait(cycles[..|cycles| - 1]);
    }
  }

  lemma RoomForShape(c: Clocks, l: Loop, isResumed: bool, fed: bool, shape: Shape, ending: seq<TaskStatus>)
    requires Ample(c, l) && WellShaped(shape, isResumed)
    requires fed ==> ShortWaits(Word(shape) + ending) && TimeFor(c, l.now, Doubles(Word(shape) + ending))
    ensures FewAtTheEnd(shape, fed) && (fed ==> TimeFor(c, l.now, AllPairs(shape)))
  {
    SomeWait(shape.cycles);
    if fed {
      ShortShape(shape, isResumed, ending);
      TimeForFewer(c, l.now, AllPairs(shape), Doubles(Word(shape) + ending));
    }
  }

  /** Clocks that leave the time for any number of double waits. */
  lemma PatientClocks(pairs: nat) returns (c: Clocks, l: Loop)
    ensures Ample(c, l) && TimeFor(c, l.now, pairs)
  {
    var end := Span(Clocks(2.0, 0.0), pairs) + 1.0;
    SpanPositive(Clocks(2.0, 0.0), pairs);
    c, l := Clocks(2.0, end), Loop([], 0.0, 0.0, false);
    SameSpan(Clocks(2.0, 0.0), c, pairs);
  }

  lemma {:induction false} SameSpan(a: Clocks, b: Clocks, n: nat)
    requires a.idle == b.idle
    ensures Span(a, n) == Span(b, n)
  {
    if n > 0 { SameSpan(a, b, n - 1); }
  }

  /** A completing run that `push` alone feeds, and its statuses. */
  predicate ChatRun(c: Clocks, l: Loop, isResumed: bool, script: Script, word: seq<TaskStatus>) {
    && Ample(c, l) && OnlyChat(script.rounds)
    && Completes(c, l, isResumed, script) && RunWord(c, l, isResumed, script) == word
  }

  /** Over all clocks, then, the language of such sessions is exact. */
  lemma ChatLanguage(isResumed: bool, word: seq<TaskStatus>)
    ensures
      (exists c, l, script :: ChatRun(c, l, isResumed, script, word)) <==>
      (exists shape :: IsCompleted(isResumed, shape, word)) && ShortWaits(word)
  {
    if c, l, script :| ChatRun(c, l, isResumed, script, word) {
      assert Fed(true, script);
      CompletedSessions(c, l, isResumed, true, word);
    }
    if shape :| IsCompleted(isResumed, shape, word) && ShortWaits(word) {
      var c, l := PatientClocks(Doubles(word));
      var script := CompletingRun(c, l, isResumed, true, shape, word);
      assert ChatRun(c, l, isResumed, script, word);
    }
  }

  lemma CompletingRun(c: Clocks, l: Loop, isResumed: bool, fed: bool, shape: Shape, word: seq<TaskStatus>)
    returns (script: Script)
    requires Ample(c, l) && IsCompleted(isResumed, shape, word)
    requires fed ==> ShortWaits(word) && TimeFor(c, l.now, Doubles(word))
    ensures Fed(fed, script) && Completes(c, l, isResumed, script) && RunWord(c, l, isResumed, script) == word
  {
    script := RunOf(c, l, isResumed, fed, shape, [Completed], Ending(true, true));
  }

  /** The run of a shape, with the end that `ending` makes of it. */
  lemma RunOf(c: Clocks, l: Loop, isResumed: bool, fed: bool, shape: Shape, end: seq<TaskStatus>, ending: Ending)
    returns (script: Script)
    requires Ample(c, l) && WellShaped(shape, isResumed)
    requires fed ==> ShortWaits(Word(shape) + end) && TimeFor(c, l.now, Doubles(Word(shape) + end))
    ensures Fed(fed, script) && script.ending == ending
    ensures
      var t := LoopTrace(c, l, isResumed, script);
      t.word == Word(shape) && t.course == Finish(UserClosed)
  {
    RoomForShape(c, l, isResumed, fed, shape, end);
    script := ScriptFor(c, fed, shape, ending);
    ShapeRun(c, l, isResumed, fed, shape, ending);
  }

  /** And so are those of sessions that fail, cut short where something raised. */
  lemma FailedSessions(c: Clocks, l: Loop, isResumed: bool, fed: bool, word: seq<TaskStatus>)
    requires Ample(c, l)
    ensures
      var written :=
        exists script :: Fed(fed, script) && Fails(c, l, isResumed, script) && RunWord(c, l, isResumed, script) == word;
      var spelled := (exists shape :: IsFailed(isResumed, shape, word)) && (fed ==> ShortWaits(word));
      && (written ==> spelled)
      && (spelled && (fed ==> TimeFor(c, l.now, Doubles(word))) ==> written)
  {
    FailedWords(isResumed, word);
    if script :| Fed(fed, script) && Fails(c, l, isResumed, script) && RunWord(c, l, isResumed, script) == word {
      RunAccepted(c, l, isResumed, script);
      if fed { NeverSpins(c, l, isResumed, script); }
    }
    if shape :| IsFailed(isResumed, shape, word) && (fed ==> ShortWaits(word) && TimeFor(c, l.now, Doubles(word))) {
      var script := FailingRun(c, l, isResumed, fed, shape, word);
      assert Fed(fed, script) && Fails(c, l, isResumed, script) && RunWord(c, l, isResumed, script) == word;
    }
  }

  lemma FailingRun(c: Clocks, l: Loop, isResumed: bool, fed: bool, shape: Shape, word: seq<TaskStatus>)
    returns (script: Script)
    requires Ample(c, l) && IsFailed(isResumed, shape, word)
    requires fed ==> ShortWaits(word) && TimeFor(c, l.now, Doubles(word))
    ensures Fed(fed, script) && Fails(c, l, isResumed, script) && RunWord(c, l, isResumed, script) == word
  {
    if word == Word(shape) + [Failed] {
      script := RunOf(c, l, isResumed, fed, shape, [Failed], Ending(false, true));
    } else {
      Associative(Word(shape), [AwaitingApproval], [Failed]);
      RoomForShape(c, l, isResumed, fed, shape, [AwaitingApproval] + [Failed]);
      script := BrokenRun(c, l, isResumed, fed, shape);
    }
  }

  // ------------------------------------------------- how sessions end

  /** A session completes exactly when the run returns a reason other than ERROR, and says which. */
  lemma CompletesForAReason(c: Clocks, l: Loop, isResumed: bool, script: Script)
    ensures
      var o := RunOutcome(c, l, isResumed, script);
      var a := LoopTrace(c, l, isResumed, script).after;
      && (Completes(c, l, isResumed, script) <==> o.Ended? && o.reason != Error)
      && (Completes(c, l, isResumed, script) ==>
            && (o == Ended(UserClosed) <==> a.closed)
            && (o == Ended(HardTimeout) <==> !a.closed && c.hardEnd <= a.now)
            && (o == Ended(IdleTimeout) <==> !a.closed && a.now < c.hardEnd && a.lastInput + c.idle <= a.now))
      && (o.StillRunning? <==> LoopTrace(c, l, isResumed, script).course.GoOn?)
  {
    OutcomeTells(c, l, isResumed, script);
    FinishesInOrder(c, l, script.rounds);
  }

  /** Something in the turn raises. */
  predicate TurnRaises(turn: Turn) {
    !turn.announced || !turn.userPersisted || !turn.streamOk || (turn.reply != "" && !turn.replyPersisted)
  }

  /**
   A round ends the loop exactly when a close request is there, or one of the clocks has
   run out, the hard one first; and it raises exactly when what it reaches raises: the
   announcement, the wait if there is budget left, the turn if a message came.
   */
  lemma RoundEndsExactly(c: Clocks, l: Loop, round: Round)
    ensures
      var t := RoundTrace(c, l, round);
      var closed, at := l.closed || round.close, l.now + round.beforeCheck;
      var late := at + round.beforeBudget;
      && (t.course == Finish(UserClosed) <==> closed)
      && (t.course == Finish(HardTimeout) <==> !closed && c.hardEnd <= at)
      && (t.course == Finish(IdleTimeout) <==> !closed && at < c.hardEnd && l.lastInput + c.idle <= at)
      && (t.course.Throw? <==>
            && !closed && at < DeadlineOf(c, l)
            && (|| !round.announced
                || (late < DeadlineOf(c, l)
                    && (!round.waitOk || (HeadIsChat(l.queue + round.arrivals) && TurnRaises(round.turn))))))
      && t.course != Finish(Error)
  {
  }

  // ------------------------------------------------- a wait before COMPLETED

  /** The round gets as far as the BLPOP and takes a user message from the queue. */
  predicate Takes(c: Clocks, l: Loop, round: Round) {
    var late := l.now + round.beforeCheck + round.beforeBudget;
    && !l.closed && !round.close && round.announced && round.waitOk
    && late < DeadlineOf(c, l) && HeadIsChat(l.queue + round.arrivals)
  }

  lemma TurnTraceEnds(turn: Turn, isInitial: bool)
    ensures TurnTrace(turn, isInitial) != [] && !EndsInWait(TurnTrace(turn, isInitial))
  {
    if turn.announced && (isInitial || turn.userPersisted) && turn.approvals > 0 {
      var rounds := Repeat([AwaitingApproval, Running], turn.approvals);
      assert rounds[|rounds| - 1] == Running;
    }
  }

  /** A round that goes on leaves a wait at the end exactly when it took no message. */
  lemma RoundEndsInWait(c: Clocks, l: Loop, round: Round)
    requires RoundTrace(c, l, round).course.GoOn?
    ensures RoundTrace(c, l, round).word != []
    ensures EndsInWait(RoundTrace(c, l, round).word) <==> !Takes(c, l, round)
  {
    TurnTraceEnds(round.turn, false);
  }

  lemma EndsInWaitConcat(a: seq<TaskStatus>, b: seq<TaskStatus>)
    ensures EndsInWait(a + b) <==> if b == [] then EndsInWait(a) else EndsInWait(b)
  {
  }

  /** The round that ends the loop: the ones before it went on. */
  lemma {:induction false} FinishingRound(c: Clocks, l: Loop, rounds: seq<Round>) returns (k: nat)
    requires RoundsTrace(c, l, rounds).course.Finish?
    ensures k < |rounds| && RoundsTrace(c, l, rounds[..k]).course.GoOn?
    ensures RoundsTrace(c, l, rounds) == RoundsTrace(c, l, rounds[..k + 1])
    ensures RoundsTrace(c, l, rounds).word == RoundsTrace(c, l, rounds[..k]).word
  {
    var n := |rounds| - 1;
    assert rounds[..n + 1] == rounds;
    if RoundsTrace(c, l, rounds[..n]).course.GoOn? {
      k := n;
      var t := RoundsTrace(c, l, rounds[..n]);
      var r := RoundTrace(c, t.after, rounds[n]);
      assert r.word == [] && t.word + [] == t.word;
    } else {
      k := FinishingRound(c, l, rounds[..n]);
      assert rounds[..n][..k] == rounds[..k] && rounds[..n][..k + 1] == rounds[..k + 1];
    }
  }

  /**
   A session that completes writes a wait right before COMPLETED exactly when the check
   that ends it comes after a round that took no user message: neither as the first
   thing of the loop, nor right after a turn.
   */
  lemma WaitBeforeCompleted(c: Clocks, l: Loop, isResumed: bool, script: Script) returns (k: nat)
    requires Completes(c, l, isResumed, script)
    ensures k < |script.rounds| && RoundsTrace(c, l, script.rounds[..k]).course.GoOn?
    ensures RoundTrace(c, RoundsTrace(c, l, script.rounds[..k]).after, script.rounds[k]).course.Finish?
    ensures
      var word := RunWord(c, l, isResumed, script);
      && |word| >= 1 && word[|word| - 1] == Completed
      && (EndsInWait(word[..|word| - 1]) <==>
            k > 0 && !Takes(c, RoundsTrace(c, l, script.rounds[..k - 1]).after, script.rounds[k - 1]))
  {
    var rounds := script.rounds;
    k := FinishingRound(c, l, rounds);
    RoundsNext(c, l, rounds, k);
    var t := LoopTrace(c, l, isResumed, script);
    var word := RunWord(c, l, isResumed, script);
    assert word[..|word| - 1] == t.word;
    LoopEndsInWait(c, l, isResumed, script, k);
  }

  lemma RoundsEndInWait(c: Clocks, l: Loop, rounds: seq<Round>, k: nat)
    requires 0 < k <= |rounds| && RoundsTrace(c, l, rounds[..k]).course.GoOn?
    ensures RoundsTrace(c, l, rounds[..k]).word != []
    ensures
      EndsInWait(RoundsTrace(c, l, rounds[..k]).word) <==>
      !Takes(c, RoundsTrace(c, l, rounds[..k - 1]).after, rounds[k - 1])
  {
    assert rounds[..k][..k - 1] == rounds[..k - 1];
    var t := RoundsTrace(c, l, rounds[..k - 1]);
    assert t.course.GoOn?;
    RoundsNext(c, l, rounds, k - 1);
    RoundEndsInWait(c, t.after, rounds[k - 1]);
    EndsInWaitConcat(t.word, RoundTrace(c, t.after, rounds[k - 1]).word);
  }

  lemma LoopEndsInWait(c: Clocks, l: Loop, isResumed: bool, script: Script, k: nat)
    requires isResumed || TurnOk(script.first, true)
    requires k <= |script.rounds| && RoundsTrace(c, l, script.rounds[..k]).course.GoOn?
    requires RoundsTrace(c, l, script.rounds).word == RoundsTrace(c, l, script.rounds[..k]).word
    ensures
      EndsInWait(LoopTrace(c, l, isResumed, script).word) <==>
      k > 0 && !Takes(c, RoundsTrace(c, l, script.rounds[..k - 1]).after, script.rounds[k - 1])
  {
    TurnTraceEnds(script.first, true);
    if k > 0 { RoundsEndInWait(c, l, script.rounds, k); }
    if !isResumed { EndsInWaitConcat(TurnTrace(script.first, true), RoundsTrace(c, l, script.rounds).word); }
  }

  /** The shortest such session: one turn, a wait in which nobody writes, a close request. */
  lemma ClosedWhileWaiting(c: Clocks, l: Loop) returns (script: Script)
    requires Ample(c, l)
    ensures Completes(c, l, false, script) && forall r | r in script.rounds :: r.arrivals == []
    ensures RunWord(c, l, false, script) == [Running, AwaitingUserMessage, Completed]
  {
    var shape := Shape(Some(TurnShape(0, false)), [], 1);
    script := ScriptFor(c, true, shape, Ending(true, true));
    ShapeRun(c, l, false, true, shape, Ending(true, true));
    assert Repeat([AwaitingUserMessage], 1) == [AwaitingUserMessage];
    assert Word(shape) == [Running, AwaitingUserMessage];
  }

  /** And one in which the broadcast after COMPLETED raises: FAILED overwrites it. */
  lemma CompletedThenOverwritten(c: Clocks, l: Loop) returns (script: Script)
    requires Ample(c, l)
    ensures RunWord(c, l, false, script) == [Running, Completed, Failed]
    ensures RunOutcome(c, l, false, script) == Ended(Error)
  {
    var shape := Shape(Some(TurnShape(0, false)), [], 0);
    script := ScriptFor(c, true, shape, Ending(true, false));
    ShapeRun(c, l, false, true, shape, Ending(true, false));
    assert Word(shape) == [Running];
  }

  // ------------------------------------------------- runs in which nothing raises

  /** Nothing in the round raises. */
  predicate Smooth(round: Round) {
    round.announced && round.waitOk && TurnOk(round.turn, false)
  }

  /** Nothing in the whole run raises. */
  predicate SmoothRun(isResumed: bool, script: Script) {
    && (isResumed || TurnOk(script.first, true))
    && (forall i :: 0 <= i < |script.rounds| ==> Smooth(script.rounds[i]))
    && script.ending.announced && script.ending.statusAnnounced
  }

  lemma {:induction false} SmoothRoundsGoOn(c: Clocks, l: Loop, rounds: seq<Round>)
    requires forall i :: 0 <= i < |rounds| ==> Smooth(rounds[i])
    ensures !RoundsTrace(c, l, rounds).course.Throw?
  {
    if rounds != [] {
      var n := |rounds| - 1;
      SmoothRoundsGoOn(c, l, rounds[..n]);
      assert Smooth(rounds[n]);
    }
  }

  /** Then the session completes, or still runs. */
  lemma SmoothRunsComplete(c: Clocks, l: Loop, isResumed: bool, script: Script)
    requires SmoothRun(isResumed, script)
    ensures Completes(c, l, isResumed, script) || RunOutcome(c, l, isResumed, script).StillRunning?
  {
    SmoothRoundsGoOn(c, l, script.rounds);
  }

  predicate NoneCloses(rounds: seq<Round>) {
    forall i :: 0 <= i < |rounds| ==> !rounds[i].close
  }

  /** A loop that goes on was not asked to close, and one that ends gives that reason exactly when it was. */
  predicate Heeds(t: Trace) {
    && (t.course.GoOn? ==> !t.after.closed)
    && (t.course.Finish? ==> (t.after.closed <==> t.course.reason == UserClosed))
  }

  /** A close request ends the session at the next check, for that reason. */
  lemma {:induction false} ClosedSessionsEnd(c: Clocks, l: Loop, rounds: seq<Round>)
    requires rounds != []
    ensures Heeds(RoundsTrace(c, l, rounds))
    ensures RoundsTrace(c, l, rounds).course.GoOn? ==> NoneCloses(rounds) && !l.closed
  {
    var front, last := rounds[..|rounds| - 1], rounds[|rounds| - 1];
    assert rounds == front + [last];
    RoundsSnoc(c, l, front, last);
    if front != [] { ClosedSessionsEnd(c, l, front); }
    RoundCloses(c, RoundsTrace(c, l, front).after, last);
  }

  lemma RoundCloses(c: Clocks, l: Loop, round: Round)
    ensures
      var t := RoundTrace(c, l, round);
      Heeds(t) && (t.course.GoOn? ==> !l.closed && !round.close)
  {
    RoundSplit(c, l, round);
  }
}

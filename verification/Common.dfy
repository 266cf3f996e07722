/** Small datatypes shared by the models. */
module Common {

  datatype Option<+T> = None | Some(value: T)

  /** The task life cycle persisted in the `tasks` table. */
  datatype TaskStatus =
    | Running
    | AwaitingApproval
    | AwaitingUserMessage
    | Publishing
    | AwaitingCi
    | Fixing
    | Completed
    | NeedsHuman
    | Failed

  /** Seconds that pass at some point of a coroutine; the clock is monotone. */
  type Delay = d: real | d >= 0.0

  /** Two strings cut at the first separator are equal exactly part by part. */
  lemma CutAt(sep: char, a: string, x: string, b: string, y: string)
    requires sep !in a && sep !in b
    requires a + [sep] + x == b + [sep] + y
    ensures a == b && x == y
  {
    var s := a + [sep] + x;
    var t := b + [sep] + y;
    assert s[|a|] == sep && t[|b|] == sep;
    assert forall i | 0 <= i < |a| :: s[i] == a[i] != sep;
    assert forall i | 0 <= i < |b| :: t[i] == b[i] != sep;
    assert a == s[..|a|] && b == t[..|b|];
    assert x == s[|a| + 1..] && y == t[|b| + 1..];
  }
}

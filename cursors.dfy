/** The flat cursor that both `CoroutineTask` types advance with `step`
    (src/interpreter/coroutine.rs and src/analyzer/task_table.rs): a status and a
    position into the task's statement list. */
module Cursors {

  /** `CoroutineStatus` / `TaskStatus`: the two enums have the same four variants. */
  datatype Status = Ready | Running | Paused | Completed

  datatype Cursor = Cursor(status: Status, position: nat)

  /** A fresh task: Ready at position 0, whatever the length of its body. */
  const Fresh: Cursor := Cursor(Ready, 0)

  /** `step` over a body of `len` statements. */
  function Step(c: Cursor, len: nat): Cursor {
    var p := c.position + 1;
    Cursor(if p >= len then Completed else c.status, p)
  }

  /** `n` consecutive steps. */
  function Steps(c: Cursor, len: nat, n: nat): Cursor
    decreases n
  {
    if n == 0 then c else Steps(Step(c, len), len, n - 1)
  }

  /** One step moves the position forward by exactly one, and the status becomes
      Completed exactly when the new position reaches the length; otherwise it is kept. */
  lemma StepSpec(c: Cursor, len: nat)
    ensures Step(c, len).position == c.position + 1
    ensures Step(c, len).status == Completed <==> c.position + 1 >= len || c.status == Completed
    ensures c.position + 1 < len ==> Step(c, len).status == c.status
  {
  }

  /** Completed is absorbing. */
  lemma CompletedAbsorbing(c: Cursor, len: nat, n: nat)
    requires c.status == Completed
    ensures Steps(c, len, n).status == Completed
    ensures Steps(c, len, n).position == c.position + n
    decreases n
  {
    if n > 0 {
      CompletedAbsorbing(Step(c, len), len, n - 1);
    }
  }

  /** After `n` steps the position has moved by `n`; the status is Completed when it was
      already, or when at least one step was taken and the position reached the length,
      and is unchanged otherwise. */
  lemma {:induction false} StepsSpec(c: Cursor, len: nat, n: nat)
    ensures Steps(c, len, n).position == c.position + n
    ensures Steps(c, len, n).status ==
      if c.status == Completed || (n >= 1 && c.position + n >= len) then Completed else c.status
    decreases n
  {
    if n > 0 {
      StepsSpec(Step(c, len), len, n - 1);
    }
  }

  /** A fresh task over `len >= 1` statements is Completed after exactly `len` steps and
      not before; before that it is still Ready. */
  lemma FreshCompletesAfterLength(len: nat, n: nat)
    requires len >= 1
    ensures Steps(Fresh, len, n).status == Completed <==> n >= len
    ensures n < len ==> Steps(Fresh, len, n).status == Ready
  {
    StepsSpec(Fresh, len, n);
  }

  /** A task over an empty body is Ready until its first step, which completes it. */
  lemma EmptyBodyReadyUntilFirstStep(n: nat)
    ensures Steps(Fresh, 0, n).status == if n == 0 then Ready else Completed
  {
    StepsSpec(Fresh, 0, n);
  }
}

/** Sequences of health-check statuses, and what a heartbeat loop that receives
    every one of them, in order, would do. */
module Statuses {

  // Every status other than Serving stops heartbeats, whatever its code.
  datatype Status = Serving | Down(code: int)

  function Last(s: seq<Status>): Status
    requires s != []
  {
    s[|s| - 1]
  }

  function Init(s: seq<Status>): seq<Status>
    requires s != []
  {
    s[..|s| - 1]
  }

  // One received status: is the ticker on afterwards?
  function React(on: bool, status: Status): bool {
    if !status.Serving? && on then false
    else if status.Serving? && !on then true
    else on
  }

  // All statuses delivered in order to a loop whose ticker starts as `on`.
  function OnAfter(on: bool, statuses: seq<Status>): bool {
    if statuses == [] then on else React(OnAfter(on, Init(statuses)), Last(statuses))
  }

  // How often that loop switches its ticker on: the rising edges to Serving.
  function Rises(on: bool, statuses: seq<Status>): nat {
    if statuses == [] then 0
    else Rises(on, Init(statuses))
         + if Last(statuses).Serving? && !OnAfter(on, Init(statuses)) then 1 else 0
  }

  // `a` is what remains of `b` after some statuses were dropped.
  predicate Subsequence(a: seq<Status>, b: seq<Status>)
    decreases |b|
  {
    || a == []
    || (b != [] && Last(a) == Last(b) && Subsequence(Init(a), Init(b)))
    || (b != [] && Subsequence(a, Init(b)))
  }

  lemma OnAfterIsLast(on: bool, statuses: seq<Status>)
    ensures OnAfter(on, statuses) == if statuses == [] then on else Last(statuses).Serving?
  {
  }

  // Dropping the last status of a subsequence leaves a subsequence.
  lemma {:induction false} SubsequenceInit(a: seq<Status>, b: seq<Status>)
    requires a != [] && Subsequence(a, b)
    ensures Subsequence(Init(a), b)
    decreases |b|
  {
    if Last(a) == Last(b) && Subsequence(Init(a), Init(b)) {
    } else {
      SubsequenceInit(a, Init(b));
    }
  }

  lemma {:induction false} DropBeforeLast(a: seq<Status>, x: Status, y: Status, b: seq<Status>)
    requires Subsequence(a + [x, y], b)
    ensures Subsequence(a + [y], b)
    decreases |b|
  {
    var whole := a + [x, y];
    assert Init(whole) == a + [x] && Init(a + [x]) == a && Init(a + [y]) == a;
    if Last(whole) == Last(b) && Subsequence(Init(whole), Init(b)) {
      SubsequenceInit(a + [x], Init(b));
    } else {
      DropBeforeLast(a, x, y, Init(b));
    }
  }

  function Bit(b: bool): nat {
    if b then 1 else 0
  }

  // How often the loop switches its ticker off.
  function Falls(on: bool, statuses: seq<Status>): int {
    Rises(on, statuses) + Bit(on) - Bit(OnAfter(on, statuses))
  }

  lemma {:induction false} FallsNonNegative(on: bool, statuses: seq<Status>)
    ensures 0 <= Falls(on, statuses)
    decreases |statuses|
  {
    if statuses != [] {
      FallsNonNegative(on, Init(statuses));
    }
  }

  // Dropping statuses never adds an edge of either kind.
  lemma {:induction false} DroppingAddsNoEdges(on: bool, a: seq<Status>, b: seq<Status>)
    requires Subsequence(a, b)
    ensures Rises(on, a) <= Rises(on, b)
    ensures Falls(on, a) <= Falls(on, b)
    decreases |b|
  {
    if a == [] {
      FallsNonNegative(on, b);
    } else if Last(a) == Last(b) && Subsequence(Init(a), Init(b)) {
      DroppingAddsNoEdges(on, Init(a), Init(b));
    } else {
      DroppingAddsNoEdges(on, a, Init(b));
    }
  }

  // A loop that is already on switches on at most as often as one that is off.
  lemma {:induction false} StartingOnRisesLess(b: seq<Status>)
    ensures Rises(true, b) <= Rises(false, b) <= Rises(true, b) + 1
    ensures b != [] ==> OnAfter(true, b) == OnAfter(false, b)
    decreases |b|
  {
    if b != [] {
      StartingOnRisesLess(Init(b));
      OnAfterIsLast(true, b);
      OnAfterIsLast(false, b);
      OnAfterIsLast(true, Init(b));
      OnAfterIsLast(false, Init(b));
    }
  }
}

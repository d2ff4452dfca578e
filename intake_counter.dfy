/**
 * The intake counter: the day's running total and its two transitions,
 * "Drank" (one more cup) and "Peed" (one cup fewer, never below zero).
 * The window's buttons and the tray menu both call the same two transitions.
 */
module IntakeCounter {

  datatype Action = Drank | Peed

  /** The counter after one action: `drank_water` adds one, `peed` removes one only above zero. */
  function Apply(total: int, a: Action): int {
    match a
    case Drank => total + 1
    case Peed => if total > 0 then total - 1 else total
  }

  /** The counter after a run of actions, applied in order. */
  function Replay(total: int, actions: seq<Action>): int
    decreases |actions|
  {
    if actions == [] then total else Replay(Apply(total, actions[0]), actions[1..])
  }

  /** The number of actions equal to `a`. */
  function Count(actions: seq<Action>, a: Action): nat {
    if actions == [] then 0 else (if actions[0] == a then 1 else 0) + Count(actions[1..], a)
  }

  /** Starting from a non-negative total, no sequence of actions makes it negative. */
  lemma {:induction false} ReplayNeverNegative(total: int, actions: seq<Action>)
    requires total >= 0
    ensures Replay(total, actions) >= 0
    decreases |actions|
  {
    if actions != [] {
      ReplayNeverNegative(Apply(total, actions[0]), actions[1..]);
    }
  }

  /**
   * The total rises by at most one per drink and falls by at most one per
   * void.
   */
  lemma {:induction false} ReplayBounds(total: int, actions: seq<Action>)
    ensures total - Count(actions, Peed) <= Replay(total, actions) <= total + Count(actions, Drank)
    decreases |actions|
  {
    if actions != [] {
      ReplayBounds(Apply(total, actions[0]), actions[1..]);
    }
  }

  /** Drinks only, from whichever surface: the total grows by exactly the number of drinks. */
  lemma {:induction false} ReplayDrinks(total: int, actions: seq<Action>)
    requires forall i :: 0 <= i < |actions| ==> actions[i] == Drank
    ensures Replay(total, actions) == total + |actions|
    decreases |actions|
  {
    if actions != [] {
      ReplayDrinks(total + 1, actions[1..]);
    }
  }

  /** At the floor, voids change nothing: any number of them leaves 0 at 0. */
  lemma {:induction false} ReplayVoidsAtFloor(actions: seq<Action>)
    requires forall i :: 0 <= i < |actions| ==> actions[i] == Peed
    ensures Replay(0, actions) == 0
    decreases |actions|
  {
    if actions != [] {
      ReplayVoidsAtFloor(actions[1..]);
    }
  }
}

/** The knock-down point counter: an input system that scores a point for
    side one on every press of o and for side two on every press of p. It
    runs beside the player input system on the same events and does not look
    at the action latch. */
module KnockDown {
  import opened Input

  /** The score after one event. */
  function Score(ko1: int, ko2: int, e: Event): (r: (int, int))
    ensures r.0 == ko1 + (if e == KeyDown(KeyO) then 1 else 0)
    ensures r.1 == ko2 + (if e == KeyDown(KeyP) then 1 else 0)
  {
    match e
    case KeyDown(KeyO) => (ko1 + 1, ko2)
    case KeyDown(KeyP) => (ko1, ko2 + 1)
    case _ => (ko1, ko2)
  }

  /** The score after a sequence of events, from a fresh system. */
  function Tally(events: seq<Event>): (int, int)
    decreases |events|
  {
    if events == [] then (0, 0)
    else
      var (ko1, ko2) := Tally(events[..|events| - 1]);
      Score(ko1, ko2, events[|events| - 1])
  }

  /** Each counter is exactly the number of presses of its key, in any
      order of events. */
  lemma {:induction false} TallyCountsPresses(events: seq<Event>)
    ensures Tally(events) == (multiset(events)[KeyDown(KeyO)], multiset(events)[KeyDown(KeyP)])
    decreases |events|
  {
    if events != [] {
      var init := events[..|events| - 1];
      TallyCountsPresses(init);
      assert events == init + [events[|events| - 1]];
      assert multiset(events) == multiset(init) + multiset{events[|events| - 1]};
    }
  }

  class KnockDownPointSystem {
    var ko1: int
    var ko2: int

    constructor ()
      ensures ko1 == 0 && ko2 == 0
    {
      ko1, ko2 := 0, 0;
    }

    method Run(e: Event)
      modifies this
      ensures (ko1, ko2) == Score(old(ko1), old(ko2), e)
    {
      match e {
        case KeyDown(k) =>
          if k == KeyO {
            Point1();
          } else if k == KeyP {
            Point2();
          }
        case KeyUp(_) =>
        case OtherEvent =>
      }
    }

    method Point1()
      modifies this
      ensures ko1 == old(ko1) + 1 && ko2 == old(ko2)
    {
      ko1 := ko1 + 1;
    }

    method Point2()
      modifies this
      ensures ko2 == old(ko2) + 1 && ko1 == old(ko1)
    {
      ko2 := ko2 + 1;
    }
  }
}

/**
 * The "about" section's counters.  The first time the section is seen, four
 * counters start, each on its own 20 ms timer: a timer adds target/100 to
 * its running total and shows the total's floor, until the total reaches the
 * target, when it shows the target itself and stops.  A one-shot flag keeps
 * the counters from starting a second time.
 */
module Stats {

  datatype StatKey = Projects | Years | Clients | Awards

  /** The four numbers the section shows. */
  datatype Stats = Stats(projects: int, years: int, clients: int, awards: int)
  {
    function Get(key: StatKey): int
    {
      match key
      case Projects => projects
      case Years => years
      case Clients => clients
      case Awards => awards
    }
  }

  /** What the section shows before any counter has run. */
  const Zero: Stats := Stats(0, 0, 0, 0)

  /** Period of a counter's timer. */
  const TickMs: nat := 20

  /** The counters in the order they are started. */
  const Order: seq<StatKey> := [Projects, Years, Clients, Awards]

  /** The value each counter runs up to. */
  function TargetOf(key: StatKey): nat
  {
    match key
    case Projects => 50
    case Years => 7
    case Clients => 30
    case Awards => 15
  }

  /** The state updater a counter hands to the stats setter: one number
      replaced, the other three kept. */
  function WithStat(prev: Stats, key: StatKey, value: int): (r: Stats)
    ensures r.Get(key) == value
    ensures forall k :: k != key ==> r.Get(k) == prev.Get(k)
  {
    match key
    case Projects => prev.(projects := value)
    case Years => prev.(years := value)
    case Clients => prev.(clients := value)
    case Awards => prev.(awards := value)
  }

  /** The value a timer tick shows once its running total is `current`: the
      target once the total has reached it, the total's floor before. */
  function Shown(target: nat, current: real): (v: int)
    requires 0.0 <= current
    ensures 0 <= v <= target
    ensures current < target as real ==> v as real <= current < v as real + 1.0
    ensures current >= target as real ==> v == target
  {
    if current >= target as real then target else current.Floor
  }

  /** A larger running total never shows a smaller number. */
  lemma ShownMonotone(target: nat, c: real, d: real)
    requires 0.0 <= c <= d
    ensures Shown(target, c) <= Shown(target, d)
  {
    if d < target as real {
      assert c.Floor as real <= c <= d < d.Floor as real + 1.0;
    }
  }

  /** The numbers a counter writes in at most n timer callbacks, starting
      from running total `current`; the timer is cleared after it writes the
      target, so nothing follows that write.  Each element is the `written`
      result of one StatCounter.Tick: the step is the counter's increment and
      the value is Shown of the new total, exactly as Tick's ensures state. */
  function Writes(target: nat, current: real, n: nat): seq<int>
    requires 0.0 <= current
    decreases n
  {
    if n == 0 then []
    else
      var next := current + target as real / 100.0;
      if next >= target as real then [target]
      else [Shown(target, next)] + Writes(target, next, n - 1)
  }

  /** Over any run of ticks the shown number never decreases, never falls
      below the floor of a starting total short of the target, and the target is written at
      most once: only the final write may equal it. */
  lemma {:induction false} WritesRise(target: nat, current: real, n: nat)
    requires 0.0 <= current <= target as real
    ensures |Writes(target, current, n)| <= n
    ensures forall i :: 0 <= i < |Writes(target, current, n)| ==>
      current.Floor <= Writes(target, current, n)[i] <= target
    ensures forall i, j :: 0 <= i <= j < |Writes(target, current, n)| ==>
      Writes(target, current, n)[i] <= Writes(target, current, n)[j]
    ensures forall i :: 0 <= i < |Writes(target, current, n)| - 1 ==>
      Writes(target, current, n)[i] < target
    decreases n
  {
    if n > 0 {
      var next := current + target as real / 100.0;
      if next < target as real {
        var w, rest := Writes(target, current, n), Writes(target, next, n - 1);
        WritesRise(target, next, n - 1);
        ShownMonotone(target, current, next);
        assert w == [Shown(target, next)] + rest;
        assert Shown(target, next) == next.Floor;
        forall i | 0 <= i < |w| ensures current.Floor <= w[i] <= target {
          if i > 0 { assert w[i] == rest[i - 1]; }
        }
        forall i, j | 0 <= i <= j < |w| ensures w[i] <= w[j] {
          if i > 0 { assert w[i] == rest[i - 1] && w[j] == rest[j - 1]; }
          else if j > 0 { assert w[j] == rest[j - 1]; }
        }
        forall i | 0 <= i < |w| - 1 ensures w[i] < target {
          if i > 0 { assert w[i] == rest[i - 1]; }
        }
      }
    }
  }

  /** Enough ticks reach the target: from a total short of a positive
      target, n ticks whose steps cover the remaining distance end with the
      timer writing the target. */
  lemma {:induction false} WritesReachTarget(target: nat, current: real, n: nat)
    requires 0 < target && 0.0 <= current <= target as real
    requires 1 <= n && n as real * (target as real / 100.0) >= target as real - current
    ensures var w := Writes(target, current, n); 1 <= |w| <= n && w[|w| - 1] == target
    decreases n
  {
    var step := target as real / 100.0;
    var next := current + step;
    if next < target as real {
      assert (n - 1) as real * step >= target as real - next;
      WritesReachTarget(target, next, n - 1);
      var rest := Writes(target, next, n - 1);
      assert Writes(target, current, n) == [Shown(target, next)] + rest;
    }
  }

  /** Every counter with a positive target eventually writes its target and
      stops; started from zero, as the section's counters are, it does so in
      exact arithmetic within 100 ticks. */
  lemma CounterFinishes(target: nat)
    requires 0 < target
    ensures exists n: nat :: (1 <= n <= 100 && |Writes(target, 0.0, n)| >= 1 &&
      Writes(target, 0.0, n)[|Writes(target, 0.0, n)| - 1] == target)
  {
    WritesReachTarget(target, 0.0, 100);
  }

  /** The board holding the shown numbers and the one-shot flag. */
  class StatsBoard {
    var stats: Stats
    var hasAnimated: bool

    constructor ()
      ensures stats == Zero && !hasAnimated
    {
      stats := Zero;
      hasAnimated := false;
    }

    /** The visibility callback for one observed entry.  The counters start
        only when the section is in view and they have never started; in
        every other case nothing happens. */
    method OnEntry(isIntersecting: bool) returns (started: seq<StatCounter>)
      modifies this`hasAnimated
      ensures hasAnimated == (old(hasAnimated) || isIntersecting)
      ensures old(hasAnimated) || !isIntersecting ==> started == []
      ensures isIntersecting && !old(hasAnimated) ==>
        |started| == |Order| &&
        forall k :: 0 <= k < |started| ==>
          fresh(started[k]) && started[k].Valid() && started[k].running &&
          started[k].current == 0.0 && started[k].shown == 0 &&
          started[k].key == Order[k] && started[k].target == TargetOf(Order[k])
    {
      started := [];
      if isIntersecting && !hasAnimated {
        hasAnimated := true;
        var projects := new StatCounter(Projects, TargetOf(Projects));
        var years := new StatCounter(Years, TargetOf(Years));
        var clients := new StatCounter(Clients, TargetOf(Clients));
        var awards := new StatCounter(Awards, TargetOf(Awards));
        started := [projects, years, clients, awards];
      }
    }
  }

  /** One counter's timer: the running total and whether the timer is still
      set.  `shown` is the number this counter last put on the board (0, the
      board's initial value, before its first tick). */
  class StatCounter {
    const key: StatKey
    const target: nat
    const increment: real
    var current: real
    var running: bool
    ghost var shown: int

    ghost predicate Valid()
      reads this
    {
      increment == target as real / 100.0 &&
      0.0 <= current &&
      (running ==> shown == current.Floor && shown <= target) &&
      (!running ==> shown == target)
    }

    constructor (key: StatKey, target: nat)
      ensures this.key == key && this.target == target
      ensures current == 0.0 && running && shown == 0
      ensures Valid()
    {
      this.key := key;
      this.target := target;
      increment := target as real / 100.0;
      current := 0.0;
      running := true;
      shown := 0;
    }

    /** One timer callback.  It fires only while the timer is set; it writes
        one number to the board, never a smaller one than the last, and
        clears the timer exactly when it writes the target. */
    method Tick(board: StatsBoard) returns (written: int)
      requires Valid() && running
      modifies this`current, this`running, this`shown, board`stats
      ensures Valid()
      ensures current == old(current) + increment
      ensures written == Shown(target, current) && written == shown
      ensures board.stats == WithStat(old(board.stats), key, written)
      ensures old(shown) <= written <= target
      ensures running <==> written < target
      ensures !running <==> current >= target as real
    {
      current := current + increment;
      if current >= target as real {
        written := target;
        running := false;
      } else {
        written := current.Floor;
      }
      shown := written;
      board.stats := WithStat(board.stats, key, written);
    }
  }
}

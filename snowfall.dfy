/**
 * The DOM snowfall layer: every 200 ms a timer appends one snowflake to the
 * pool and keeps only the last 50, so the pool is a bounded FIFO whose oldest
 * entries are evicted first (by insertion order, never by expiry).
 */
module Snowfall {

  /** One falling glyph.  `id` is the clock reading at spawn time in
      milliseconds, so two flakes spawned in the same millisecond share it. */
  datatype Snowflake = Snowflake(
    id: int,
    left: real,      // horizontal position, percent
    size: real,      // font size
    duration: real,  // fall time, seconds
    opacity: real,
    symbol: char)

  /** The three snowflake glyphs.  In the source file these literals appear
      mis-decoded (the UTF-8 bytes of each glyph read as three Mac Roman
      characters); the model takes the intended single code points U+2744,
      U+2745 and U+2746. */
  const Glyphs: seq<char> := ['\U{2744}', '\U{2745}', '\U{2746}']

  /** The pool keeps at most this many flakes. */
  const PoolLimit: nat := 50

  /** Period of the spawn timer. */
  const SpawnIntervalMs: nat := 200

  function Min(a: int, b: int): int { if a < b then a else b }

  /** The flake a timer tick creates from the clock and five draws of a
      uniform random number in [0, 1). */
  function NewFlake(now: int, rLeft: real, rSize: real, rDuration: real, rOpacity: real, rSymbol: real): (f: Snowflake)
    requires 0.0 <= rLeft < 1.0 && 0.0 <= rSize < 1.0 && 0.0 <= rDuration < 1.0
    requires 0.0 <= rOpacity < 1.0 && 0.0 <= rSymbol < 1.0
    ensures f.id == now
    ensures 0.0 <= f.left < 100.0
    ensures 10.0 <= f.size < 20.0
    ensures 7.0 <= f.duration < 10.0
    ensures 0.4 <= f.opacity < 1.0
    ensures f.symbol in Glyphs
  {
    Snowflake(now, rLeft * 100.0, rSize * 10.0 + 10.0, rDuration * 3.0 + 7.0,
              rOpacity * 0.6 + 0.4, Glyphs[(rSymbol * 3.0).Floor])
  }

  /** The last n elements of s (all of s when it is shorter), as a negative
      `slice(-n)` gives them for n > 0. */
  function Last<T>(s: seq<T>, n: nat): (r: seq<T>)
    ensures |r| == Min(|s|, n)
    ensures r == s[|s| - |r|..]
  {
    if |s| <= n then s else s[|s| - n..]
  }

  /** The pool updater run by each timer tick: append, then keep the last 50. */
  function Spawn(prev: seq<Snowflake>, flake: Snowflake): (next: seq<Snowflake>)
    ensures |next| == Min(|prev| + 1, PoolLimit)
    ensures next[|next| - 1] == flake
    ensures next[..|next| - 1] == prev[|prev| + 1 - |next|..]
  {
    var grown := prev + [flake];
    if |grown| <= PoolLimit then grown else grown[|grown| - PoolLimit..]
  }

  /** The pool after one timer tick per flake of `flakes`, in order. */
  function SpawnAll(pool: seq<Snowflake>, flakes: seq<Snowflake>): seq<Snowflake>
    decreases |flakes|
  {
    if flakes == [] then pool else SpawnAll(Spawn(pool, flakes[0]), flakes[1..])
  }

  /** Keeping the last n twice is keeping the last n once. */
  lemma LastOfLast<T>(a: seq<T>, b: seq<T>, n: nat)
    ensures Last(Last(a, n) + b, n) == Last(a + b, n)
  {
    var l := Last(a, n);
    var u, v := Last(l + b, n), Last(a + b, n);
    assert |u| == |v|;
    forall k | 0 <= k < |u| ensures u[k] == v[k] {
      var i := |l + b| - |u| + k;
      var i' := |a + b| - |v| + k;
      assert u[k] == (l + b)[i] && v[k] == (a + b)[i'];
      if i < |l| {
        assert (l + b)[i] == l[i] == a[|a| - |l| + i];
      } else {
        assert (l + b)[i] == b[i - |l|];
      }
    }
  }

  lemma SpawnIsLast(prev: seq<Snowflake>, flake: Snowflake)
    ensures Spawn(prev, flake) == Last(prev + [flake], PoolLimit)
  {
  }

  /** From a pool within the limit (every pool the timer produces is), any
      run of spawns leaves exactly the 50 most recent flakes of the old pool
      followed by the new ones, oldest first. */
  lemma {:induction false} SpawnAllKeepsNewest(pool: seq<Snowflake>, flakes: seq<Snowflake>)
    requires |pool| <= PoolLimit
    ensures SpawnAll(pool, flakes) == Last(pool + flakes, PoolLimit)
    decreases |flakes|
  {
    if flakes == [] {
      assert pool + flakes == pool;
    } else {
      var f, rest := flakes[0], flakes[1..];
      var next := Spawn(pool, f);
      calc {
        SpawnAll(pool, flakes);
        SpawnAll(next, rest);
        { SpawnAllKeepsNewest(next, rest); }
        Last(next + rest, PoolLimit);
        { SpawnIsLast(pool, f); }
        Last(Last(pool + [f], PoolLimit) + rest, PoolLimit);
        { LastOfLast(pool + [f], rest, PoolLimit); }
        Last(pool + [f] + rest, PoolLimit);
        { assert pool + [f] + rest == pool + flakes; }
        Last(pool + flakes, PoolLimit);
      }
    }
  }

  /** From an empty pool, n spawns leave min(n, 50) flakes: the last ones
      spawned, in spawn order. */
  lemma SpawnsFromEmpty(flakes: seq<Snowflake>)
    ensures |SpawnAll([], flakes)| == Min(|flakes|, PoolLimit)
    ensures SpawnAll([], flakes) == flakes[|flakes| - Min(|flakes|, PoolLimit)..]
  {
    SpawnAllKeepsNewest([], flakes);
    assert [] + flakes == flakes;
  }

  /** Ten spawns on an empty pool keep all ten flakes. */
  lemma TenSpawns(flakes: seq<Snowflake>)
    requires |flakes| == 10
    ensures SpawnAll([], flakes) == flakes
  {
    SpawnsFromEmpty(flakes);
  }

  /** Sixty spawns on an empty pool keep 50 flakes: the oldest ten are gone. */
  lemma SixtySpawns(flakes: seq<Snowflake>)
    requires |flakes| == 60
    ensures |SpawnAll([], flakes)| == PoolLimit
    ensures SpawnAll([], flakes) == flakes[10..]
  {
    SpawnsFromEmpty(flakes);
  }
}

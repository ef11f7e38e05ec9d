/** The "sticky for N calls" rotation of `get_random_proxy_per_count`, as a pure
    state machine. Each call takes the proxy that a random draw would give at that
    moment; it is used only when the call redraws. */
module StickyRotation {
  import opened Wrappers
  import opened ProxyTable

  /** The rotation fields of a Proxy: calls made so far, the repeat interval
      and the sticky proxy (None before the first draw, or after a draw on an empty list). */
  datatype RotationState = RotationState(count: nat, interval: int, sticky: Option<ProxyRecord>)

  /** The redraw test once a sticky proxy exists, made on the already incremented count.
      An interval of 0 raises ZeroDivisionError in the source, which is caught: no redraw.
      Whether `count` is a multiple of `interval` does not depend on the sign convention
      of the remainder, so Dafny's `%` gives the source's answer for negative intervals too. */
  predicate RedrawDue(count: nat, interval: int) {
    interval != 0 && count % interval == 0
  }

  /** Whether the next call draws a new proxy: always when none is held, otherwise when due. */
  predicate Draws(s: RotationState) {
    s.sticky.None? || RedrawDue(s.count + 1, s.interval)
  }

  /** The state after one call whose draw, if it happens, gives `draw`. */
  function Next(s: RotationState, draw: Option<ProxyRecord>): RotationState {
    RotationState(s.count + 1, s.interval, if Draws(s) then draw else s.sticky)
  }

  /** The state after one call per element of `draws`. */
  function Run(s: RotationState, draws: seq<Option<ProxyRecord>>): RotationState
    decreases |draws|
  {
    if draws == [] then s else Run(Next(s, draws[0]), draws[1..])
  }

  /** What successive calls return: the sticky proxy after each call. */
  function Trace(s: RotationState, draws: seq<Option<ProxyRecord>>): (t: seq<Option<ProxyRecord>>)
    ensures |t| == |draws|
    decreases |draws|
  {
    if draws == [] then [] else [Next(s, draws[0]).sticky] + Trace(Next(s, draws[0]), draws[1..])
  }

  /** A positive interval taken at least once is at least the interval. */
  lemma {:induction false} MulAtLeast(n: int, d: int)
    requires n > 0 && d >= 1
    ensures n * d >= n
    decreases d
  {
    if d > 1 {
      MulAtLeast(n, d - 1);
      assert n * d == n * (d - 1) + n;
    }
  }

  /** Euclidean division by a positive interval has a unique quotient and remainder. */
  lemma ModUnique(a: int, n: int, q: int, r: int)
    requires n > 0 && a == n * q + r && 0 <= r < n
    ensures a % n == r
  {
    var q', r' := a / n, a % n;
    assert a == n * q' + r';
    assert n * (q - q') == n * q - n * q';
    if q > q' {
      MulAtLeast(n, q - q');
      assert false;
    } else if q < q' {
      MulAtLeast(n, q' - q);
      assert false;
    }
  }

  /** One more call moves the remainder up by one, wrapping to 0 at the interval. */
  lemma ModSucc(c: nat, n: int)
    requires n > 0
    ensures c % n + 1 < n ==> (c + 1) % n == c % n + 1
    ensures c % n + 1 == n ==> (c + 1) % n == 0
  {
    var q := c / n;
    if c % n + 1 < n {
      ModUnique(c + 1, n, q, c % n + 1);
    } else if c % n + 1 == n {
      ModUnique(c + 1, n, q + 1, 0);
    }
  }

  /** Every call adds exactly one to the count and leaves the interval alone. */
  lemma {:induction false} RunCounts(s: RotationState, draws: seq<Option<ProxyRecord>>)
    ensures Run(s, draws).count == s.count + |draws|
    ensures Run(s, draws).interval == s.interval
    decreases |draws|
  {
    if draws != [] {
      RunCounts(Next(s, draws[0]), draws[1..]);
    }
  }

  /** The calls still to come before the next redraw, counting the redrawing call. */
  function Gap(s: RotationState): (g: nat)
    requires s.interval > 0
    ensures 1 <= g <= s.interval
  {
    s.interval - s.count % s.interval
  }

  /** Once a proxy is held with a positive interval, the calls before the next due
      count keep it: the state only counts calls. */
  lemma {:induction false} StickyHolds(s: RotationState, draws: seq<Option<ProxyRecord>>)
    requires s.interval > 0 && s.sticky.Some?
    requires |draws| < Gap(s)
    ensures Run(s, draws) == RotationState(s.count + |draws|, s.interval, s.sticky)
    ensures (s.count + |draws|) % s.interval == s.count % s.interval + |draws|
    decreases |draws|
  {
    if draws != [] {
      ModSucc(s.count, s.interval);
      assert !Draws(s);
      StickyHolds(Next(s, draws[0]), draws[1..]);
    }
  }

  /** The call that reaches the next multiple of the interval redraws. */
  lemma RedrawAfterGap(s: RotationState, draws: seq<Option<ProxyRecord>>)
    requires s.interval > 0 && s.sticky.Some?
    requires |draws| == Gap(s) - 1
    ensures Run(s, draws).sticky == s.sticky
    ensures Draws(Run(s, draws))
  {
    StickyHolds(s, draws);
    ModSucc(s.count + |draws|, s.interval);
  }

  /** Right after a redraw (the count is a multiple of the interval) the new proxy
      is returned by exactly the next `interval - 1` calls, and the call after them redraws. */
  lemma AfterRedraw(s: RotationState, draws: seq<Option<ProxyRecord>>)
    requires s.interval > 0 && s.sticky.Some? && s.count % s.interval == 0
    requires |draws| == s.interval - 1
    ensures Run(s, draws) == RotationState(s.count + |draws|, s.interval, s.sticky)
    ensures Draws(Run(s, draws))
  {
    StickyHolds(s, draws);
    RedrawAfterGap(s, draws);
  }

  /** With an interval of 0 a held proxy is kept for ever. */
  lemma {:induction false} ZeroIntervalKeeps(s: RotationState, draws: seq<Option<ProxyRecord>>)
    requires s.interval == 0 && s.sticky.Some?
    ensures Run(s, draws) == RotationState(s.count + |draws|, 0, s.sticky)
    decreases |draws|
  {
    if draws != [] {
      ZeroIntervalKeeps(Next(s, draws[0]), draws[1..]);
    }
  }

  /** With the default interval 2, the first proxy serves one call only: the first call
      draws by the first-call rule and the second because 2 is a multiple of 2. */
  lemma DefaultIntervalTrace(a: ProxyRecord, b: ProxyRecord, c: ProxyRecord, d: ProxyRecord)
    ensures Trace(RotationState(0, 2, None), [Some(a), Some(b), Some(c), Some(d)])
         == [Some(a), Some(b), Some(b), Some(d)]
  {
    var draws := [Some(a), Some(b), Some(c), Some(d)];
    var s0 := RotationState(0, 2, None);
    var s1 := Next(s0, Some(a));
    var s2 := Next(s1, Some(b));
    var s3 := Next(s2, Some(c));
    assert s1.sticky == Some(a) && s2.sticky == Some(b) && s3.sticky == Some(b);
    assert Next(s3, Some(d)).sticky == Some(d);
    assert Trace(s3, draws[3..]) == [Some(d)];
    assert Trace(s2, draws[2..]) == [Some(b), Some(d)];
    assert Trace(s1, draws[1..]) == [Some(b), Some(b), Some(d)];
  }
}

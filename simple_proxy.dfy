/** The `Proxy` object: a lazily populated cache of proxy records, random selection
    over it, and the sticky rotation state. The page fetch and the table lookup are
    outside the model: an operation that populates the cache receives the table the
    page would give as a parameter `page` (None when the page has no table with the
    expected id). */
module SimpleProxy {
  import opened Wrappers
  import opened ProxyTable
  import opened StickyRotation

  /** The message of the ValueError that `random.sample` raises for a bad sample size. */
  const SampleSizeError := "Sample larger than population or is negative"

  /** What one random pick from `list` may give: None on an empty list, otherwise one of its elements. */
  ghost predicate IsDraw(list: seq<ProxyRecord>, p: Option<ProxyRecord>) {
    if list == [] then p == None else p.Some? && p.value in list
  }

  /** `picks` are the elements of `list` at positions `pos`, no position taken twice. */
  ghost predicate PicksAt(list: seq<ProxyRecord>, picks: seq<ProxyRecord>, pos: seq<nat>) {
    && |pos| == |picks|
    && (forall j :: 0 <= j < |pos| ==> pos[j] < |list| && picks[j] == list[pos[j]])
    && (forall i, j :: 0 <= i < j < |pos| ==> pos[i] != pos[j])
  }

  /** Samples are non-repeating: every pick is an element of the list, and when the list
      holds no record twice neither does the sample. */
  lemma SampleNonRepeating(list: seq<ProxyRecord>, picks: seq<ProxyRecord>, pos: seq<nat>)
    requires PicksAt(list, picks, pos)
    ensures forall j :: 0 <= j < |picks| ==> picks[j] in list
    ensures (forall i, j :: 0 <= i < j < |list| ==> list[i] != list[j])
            ==> forall i, j :: 0 <= i < j < |picks| ==> picks[i] != picks[j]
  {
    if forall i, j :: 0 <= i < j < |list| ==> list[i] != list[j] {
      forall i, j | 0 <= i < j < |picks|
        ensures picks[i] != picks[j]
      {
        if pos[i] < pos[j] {
          assert list[pos[i]] != list[pos[j]];
        } else {
          assert list[pos[j]] != list[pos[i]];
        }
      }
    }
  }

  /** The positions of a list of length `n`. */
  function Positions(n: nat): (r: set<nat>)
    ensures forall i: nat :: i in r <==> i < n
    ensures |r| == n
  {
    if n == 0 then {} else Positions(n - 1) + {n - 1}
  }

  /** The cached list after one population from `page`: kept when no table is found,
      the table's records otherwise, and empty when the table has no body (the source
      stores its failure value False there). */
  function Populated(current: seq<ProxyRecord>, page: Option<Table>): seq<ProxyRecord>
    requires page.Some? ==> WellFormed(page.value)
  {
    match page
    case None => current
    case Some(t) => if t.tbody.None? then [] else ProxiesOf(t.tbody.value)
  }

  class Proxy {
    var proxyList: seq<ProxyRecord>
    var count: nat
    var perCountProxy: Option<ProxyRecord>
    var repeatRandomProxy: int
    /** How many times the page has been fetched; the model's stand-in for the network. */
    ghost var fetches: nat

    /** The rotation fields, as the pure state machine sees them. */
    function State(): RotationState
      reads this
    {
      RotationState(count, repeatRandomProxy, perCountProxy)
    }

    /** An empty cache, no call made, no sticky proxy; the interval is taken as given. */
    constructor (repeatRandomProxy: int := 2)
      ensures proxyList == [] && count == 0 && perCountProxy == None
      ensures this.repeatRandomProxy == repeatRandomProxy && fetches == 0
    {
      proxyList := [];
      count := 0;
      perCountProxy := None;
      this.repeatRandomProxy := repeatRandomProxy;
      fetches := 0;
    }

    /** k records taken from pairwise distinct positions of the list, in an arbitrary
        order; a size below 0 or above the list's length is refused. */
    method GetProxySampling(k: int) returns (r: Result<seq<ProxyRecord>, string>, ghost pos: seq<nat>)
      ensures r.Ok? <==> 0 <= k <= |proxyList|
      ensures r.Err? ==> r.error == SampleSizeError
      ensures r.Ok? ==> |r.value| == k && PicksAt(proxyList, r.value, pos)
    {
      if k < 0 || k > |proxyList| {
        return Err(SampleSizeError), [];
      }
      var picks: seq<ProxyRecord> := [];
      pos := [];
      var free := Positions(|proxyList|);
      while |picks| < k
        invariant |picks| <= k
        invariant PicksAt(proxyList, picks, pos)
        invariant forall i: nat :: i in free <==> i < |proxyList| && i !in pos
        invariant |free| == |proxyList| - |pos|
      {
        assert free != {};
        var i :| i in free;
        picks := picks + [proxyList[i]];
        pos := pos + [i];
        free := free - {i};
      }
      r := Ok(picks);
    }

    /** Populates the cache again, whatever it holds. */
    method RefreshProxies(page: Option<Table>)
      requires page.Some? ==> WellFormed(page.value)
      modifies this`proxyList, this`fetches
      ensures proxyList == Populated(old(proxyList), page)
      ensures fetches == old(fetches) + 1
    {
      var _ := GetProxyListInitial(page);
    }

    /** One random element of the list, or None when the list is empty. */
    method GetRandomProxy() returns (p: Option<ProxyRecord>)
      ensures IsDraw(proxyList, p)
    {
      if |proxyList| > 0 {
        var i :| 0 <= i < |proxyList|;
        p := Some(proxyList[i]);
      } else {
        p := None;
      }
    }

    /** The cached list when it is non-empty (no fetch); a fresh population otherwise. */
    method GetProxyList(page: Option<Table>) returns (list: seq<ProxyRecord>)
      requires page.Some? ==> WellFormed(page.value)
      modifies this`proxyList, this`fetches
      ensures old(proxyList) != [] ==> proxyList == old(proxyList) && fetches == old(fetches)
      ensures old(proxyList) == [] ==> proxyList == Populated(old(proxyList), page) && fetches == old(fetches) + 1
      ensures list == proxyList
    {
      if |proxyList| > 0 {
        list := proxyList;
      } else {
        list := GetProxyListInitial(page);
      }
    }

    /** Fetches the page and, when the table is found, replaces the whole list by the
        table's records; without a table the list is left as it was. */
    method GetProxyListInitial(page: Option<Table>) returns (list: seq<ProxyRecord>)
      requires page.Some? ==> WellFormed(page.value)
      modifies this`proxyList, this`fetches
      ensures proxyList == Populated(old(proxyList), page)
      ensures fetches == old(fetches) + 1
      ensures list == proxyList
    {
      fetches := fetches + 1;
      if page.Some? {
        var saved := SaveProxies(page.value);
        proxyList := if saved.Some? then saved.value else [];
      }
      list := proxyList;
    }

    /** The records of a table, one per body row in row order; None (the source's False)
        when the table has no body. */
    static method SaveProxies(table: Table) returns (r: Option<seq<ProxyRecord>>)
      requires WellFormed(table)
      ensures r.None? <==> table.tbody.None?
      ensures r.Some? ==> r.value == ProxiesOf(table.tbody.value)
    {
      if table.tbody.None? {
        return None;
      }
      var rows := table.tbody.value;
      var proxies: seq<ProxyRecord> := [];
      var i := 0;
      while i < |rows|
        invariant 0 <= i <= |rows|
        invariant |proxies| == i
        invariant forall j :: 0 <= j < i ==> proxies[j] == RecordOf(rows[j])
      {
        proxies := proxies + [RecordOf(rows[i])];
        i := i + 1;
      }
      r := Some(proxies);
    }

    /** Sets the interval when it is positive; any other value changes nothing. */
    method SetRandomProxyPerCount(x: int)
      modifies this`repeatRandomProxy
      ensures repeatRandomProxy == if x > 0 then x else old(repeatRandomProxy)
    {
      if x > 0 {
        repeatRandomProxy := x;
      }
    }

    /** One call of the sticky rotation: counts the call, draws a new proxy when none is
        held or when the count has reached a multiple of the interval, and returns the
        proxy held afterwards. */
    method GetRandomProxyPerCount() returns (p: Option<ProxyRecord>)
      modifies this`count, this`perCountProxy
      ensures Draws(old(State())) ==> IsDraw(proxyList, p)
      ensures State() == Next(old(State()), p)
      ensures p == perCountProxy
    {
      count := count + 1;
      if perCountProxy == None {
        perCountProxy := GetRandomProxy();
        return perCountProxy;
      }
      if repeatRandomProxy != 0 && count % repeatRandomProxy == 0 {
        perCountProxy := GetRandomProxy();
      }
      p := perCountProxy;
    }
  }

  /** Two list requests in a row: the second never fetches when the first left a
      non-empty list, and a list already cached is never fetched at all. */
  method GetProxyListTwice(proxy: Proxy, first: Option<Table>, second: Option<Table>)
    returns (a: seq<ProxyRecord>, b: seq<ProxyRecord>)
    requires first.Some? ==> WellFormed(first.value)
    requires second.Some? ==> WellFormed(second.value)
    modifies proxy`proxyList, proxy`fetches
    ensures a == if old(proxy.proxyList) != [] then old(proxy.proxyList) else Populated([], first)
    ensures b == if a != [] then a else Populated([], second)
    ensures b == proxy.proxyList
    ensures proxy.fetches == old(proxy.fetches)
                           + (if old(proxy.proxyList) != [] then 0 else if a != [] then 1 else 2)
  {
    a := proxy.GetProxyList(first);
    b := proxy.GetProxyList(second);
  }
}

# simpleproxy — a Dafny model of the `Proxy` class

`simpleproxy.py` keeps an in-memory list of free HTTP proxies, read from the proxies
table of sslproxies.org, and hands them out in three ways: one random proxy, a sample
of k proxies from distinct positions, and a "sticky" proxy that changes only when the
number of calls reaches a multiple of a configurable interval. This project models the
`Proxy` class without its network and HTML glue and proves what its methods promise.

- `wrappers.dfy` — `Option` (Python's None / the failure value False) and `Result`
  (an operation that raises).
- `proxy_table.dfy` — module `ProxyTable`: a proxy record `{ip, port}`, a table given as
  its body rows of cell text (or no body), and `ProxiesOf`, the records a table body
  yields, with its order and round-trip lemmas.
- `sticky_rotation.dfy` — module `StickyRotation`: the rotation fields (`count`,
  interval, sticky proxy) as a pure state machine `Next`/`Run`, and lemmas on how long
  a proxy stays and when it is redrawn.
- `simple_proxy.dfy` — module `SimpleProxy`: class `Proxy` with the source's four
  mutable fields, each method of the class as a Dafny method over them, and a client
  method on the cache.

The page fetch and the table lookup are represented by a parameter `page: Option<Table>`
of the operations that populate the list: None when the page has no table with the
expected id, otherwise the table. A ghost field `fetches` counts populations, so that
"does not fetch" can be stated. Random choices are unconstrained choices (`:|`), so the
contracts state membership and distinct positions, not a distribution.

Behaviour of the code that the model keeps as it is:
- `get_proxy_list` fetches again whenever the list is still empty (simpleproxy.py:50-53):
  after a page without the table, or after a table whose body has no rows.
  `GetProxyListTwice` states how many fetches two requests make.
- An empty-list draw prints and returns None (simpleproxy.py:31-34), and a setter value
  of 0 or less prints and keeps the old interval (simpleproxy.py:103-106); neither raises.
- The docstring at simpleproxy.py:100 asks for a positive interval, but the constructor
  accepts any value (simpleproxy.py:10, 16), and an interval of 0 never redraws because
  the ZeroDivisionError is caught (simpleproxy.py:118-122).

## Model

| member | source | states |
|---|---|---|
| SimpleProxy.Proxy.constructor | simpleproxy.py:10-16 | a new object has an empty list, count 0, no sticky proxy and the given interval (default 2) |
| SimpleProxy.Proxy.GetProxySampling | simpleproxy.py:18-22 | succeeds exactly when 0 <= k <= list length, and then returns k elements of the list taken at pairwise distinct positions; otherwise the ValueError of random.sample; the list is not changed |
| SimpleProxy.SampleNonRepeating | simpleproxy.py:18-22 | every sampled record is in the list, and a list without duplicate records gives a sample without duplicates |
| SimpleProxy.Proxy.RefreshProxies | simpleproxy.py:24-25 | always fetches once and repopulates the list, whatever it held |
| SimpleProxy.Proxy.GetRandomProxy | simpleproxy.py:27-34 | None exactly when the list is empty, otherwise an element of the list; reads only |
| SimpleProxy.Proxy.GetProxyList | simpleproxy.py:46-53 | a non-empty cache is returned unchanged without a fetch; an empty one triggers exactly one population |
| SimpleProxy.GetProxyListTwice | simpleproxy.py:46-53 | two requests in a row fetch 0 times when a list was cached (both return it); otherwise the first returns the records of the first page (the empty list when it has no table), and the second returns that list again when it is non-empty (one fetch) or the records of the second page (two fetches); the second result is the final list, and only the list and the fetch count change |
| SimpleProxy.Proxy.GetProxyListInitial | simpleproxy.py:55-67 | fetches once; without a table the list stays exactly as it was, with one it is replaced wholesale by the table's records (empty when the table has no body); returns the new list |
| SimpleProxy.Proxy.SaveProxies | simpleproxy.py:81-96 | None (the source's False) exactly when the table has no body; otherwise one record per body row in row order, ip from cell 0 and port from cell 1 |
| ProxyTable.ProxiesOf | simpleproxy.py:87-96 | one record per row, same length, record j has ip = cell 0 and port = cell 1 of row j |
| ProxyTable.ProxiesOfAppend | simpleproxy.py:89-93 | parsing preserves row order: the records of rows a + b are those of a followed by those of b |
| ProxyTable.ProxiesOfRowsOf | simpleproxy.py:89-93 | every list of records is recovered by parsing the table made of them |
| ProxyTable.RowsOfProxiesOf | simpleproxy.py:89-93 | parsing reads only the first two cells of each row, and loses nothing from a table of two-cell rows |
| ProxyTable.TwoRowTable | simpleproxy.py:87-96 | rows (1.2.3.4, 8080), (5.6.7.8, 3128) give those two records in that order |
| SimpleProxy.Proxy.SetRandomProxyPerCount | simpleproxy.py:98-106 | x > 0 becomes the interval; any other x leaves the interval and every other field unchanged |
| SimpleProxy.Proxy.GetRandomProxyPerCount | simpleproxy.py:108-123 | count goes up by exactly 1; a draw happens when no proxy is held, or when interval != 0 and the new count is a multiple of it, and yields an element of the list (None if empty); otherwise the held proxy is returned unchanged |
| StickyRotation.RunCounts | simpleproxy.py:114 | over any number of calls the count grows by exactly the number of calls and the interval is untouched |
| StickyRotation.StickyHolds | simpleproxy.py:118-123 | with a positive interval, a held proxy is kept by every call before the count reaches the next multiple of the interval |
| StickyRotation.RedrawAfterGap | simpleproxy.py:118-123 | the call that brings the count to the next multiple of the interval redraws |
| StickyRotation.AfterRedraw | simpleproxy.py:118-123 | after a redraw, the new proxy is returned by exactly the next interval - 1 calls and the call after them redraws |
| StickyRotation.ZeroIntervalKeeps | simpleproxy.py:118-122 | with interval 0 a held proxy is never replaced and no call fails |
| StickyRotation.DefaultIntervalTrace | simpleproxy.py:108-123 | with the default interval 2, four calls return A, B, B, D for draws A, B, C, D: the first-call rule and the count rule both draw on calls 1 and 2 |

## Left out

- The HTTP request, its User-Agent header and the `url`/`ua` fields (simpleproxy.py:36-44): network I/O and a foreign library. The page's table is a parameter; a failing request (an uncaught exception in the source) is not modelled.
- `get_table_using_id` (simpleproxy.py:69-79): a BeautifulSoup lookup, modelled as the table being present or absent.
- Cell text: BeautifulSoup's `.string` is taken to be the cell's plain string; its None for cells with several children is not modelled.
- The distributions of `random.randint` and `random.sample`: picks are arbitrary choices with membership and distinctness contracts only.
- The `print` diagnostics (simpleproxy.py:34, 64, 66, 106, 122): only the non-printing behaviour is modelled.
- Short rows: a body row with fewer than two cells raises an uncaught IndexError in the source; `WellFormed` excludes it as a precondition.
- SimpleProxy.Proxy.GetProxyListInitial: when the table has no body the source stores and returns the value False; the model stores and returns the empty list. The source's later `len(False)` and `random.sample(False, k)` raise TypeError, while the model treats the list as empty (so `GetProxyList` populates again).
- SimpleProxy.GetProxyListTwice: its two-fetch case includes a first page whose table has no body; there the source stores False (simpleproxy.py:62, 94-95) and the second `get_proxy_list` raises TypeError at `len(self.proxy_list)` (simpleproxy.py:50) instead of fetching.
- Aliasing: `get_proxy_list` and `get_proxy_list_initial` return the cached list object itself (simpleproxy.py:51, 67), and `get_random_proxy` returns the dict stored in it (simpleproxy.py:32), so a caller that mutates them changes the cache; the model returns immutable sequences and records, and does not capture this sharing.
- Concurrent use: the check-then-fetch in `get_proxy_list` and the read-increment-compare-write in `get_random_proxy_per_count` are modelled as sequential steps only.

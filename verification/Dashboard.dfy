/**
 The fleet dashboard cache. Five workers share `lastDashboardHash` under a mutex; each
 critical section compares a digest, then creates or updates one ConfigMap. An interleaving
 of workers is a sequence of critical sections, each with the page its worker rendered
 earlier, so theorems about all call sequences cover all interleavings.
 */
module Dashboard {
  import opened Prelude

  /** Which API calls of one critical section fail. */
  datatype Attempt = Attempt(getFails: bool, createFails: bool, updateFails: bool)

  datatype Cache<P> = Cache(last: string, page: Option<P>)

  datatype Call<P> = Call(html: P, attempt: Attempt)

  /** One critical section; note that the digest is recorded before a create is known to succeed. */
  function Cached<P>(hash: P -> string, c: Cache<P>, call: Call<P>): Cache<P> {
    if hash(call.html) == c.last || call.attempt.getFails then c
    else if c.page.None? then
      Cache(hash(call.html), if call.attempt.createFails then None else Some(call.html))
    else if call.attempt.updateFails then c
    else Cache(hash(call.html), Some(call.html))
  }

  /** The same critical section without the digest: it always tries to write. */
  function Always<P>(page: Option<P>, call: Call<P>): Option<P> {
    if call.attempt.getFails then page
    else if page.None? then (if call.attempt.createFails then None else Some(call.html))
    else if call.attempt.updateFails then page
    else Some(call.html)
  }

  /** The page after every call of a run, newest last. */
  function CachedRun<P>(hash: P -> string, c: Cache<P>, calls: seq<Call<P>>): (pages: seq<Option<P>>)
    ensures |pages| == |calls|
    decreases |calls|
  {
    if calls == [] then []
    else var c' := Cached(hash, c, calls[0]); [c'.page] + CachedRun(hash, c', calls[1..])
  }

  function AlwaysRun<P>(page: Option<P>, calls: seq<Call<P>>): (pages: seq<Option<P>>)
    ensures |pages| == |calls|
    decreases |calls|
  {
    if calls == [] then []
    else var page' := Always(page, calls[0]); [page'] + AlwaysRun(page', calls[1..])
  }

  ghost predicate Injective<P(!new)>(hash: P -> string) {
    forall p, q :: hash(p) == hash(q) ==> p == q
  }

  /** Whatever page the digest stands for is the page that is stored. */
  ghost predicate Faithful<P(!new)>(hash: P -> string, c: Cache<P>) {
    forall p :: hash(p) == c.last ==> c.page == Some(p)
  }

  predicate CreatesSucceed<P>(calls: seq<Call<P>>) {
    forall i :: 0 <= i < |calls| ==> !calls[i].attempt.createFails
  }

  ghost predicate Refines<P(!new)>(hash: P -> string, c: Cache<P>) {
    forall calls :: CreatesSucceed(calls) ==> CachedRun(hash, c, calls) == AlwaysRun(c.page, calls)
  }

  /** From a faithful cache one call writes what an uncached call would have written. */
  lemma OneCallAgrees<P(!new)>(hash: P -> string, c: Cache<P>, call: Call<P>)
    requires Faithful(hash, c)
    ensures Cached(hash, c, call).page == Always(c.page, call)
  {
  }

  /** A call keeps the cache faithful exactly unless its create was attempted and failed. */
  lemma FaithfulAfter<P(!new)>(hash: P -> string, c: Cache<P>, call: Call<P>)
    requires Faithful(hash, c) && Injective(hash)
    ensures Faithful(hash, Cached(hash, c, call))
            <==> !(c.page.None? && call.attempt.createFails && !call.attempt.getFails)
  {
    if c.page.None? && call.attempt.createFails && !call.attempt.getFails {
      assert hash(call.html) != c.last;
      assert hash(call.html) == Cached(hash, c, call).last;
    }
  }

  lemma {:induction false} FaithfulRun<P(!new)>(hash: P -> string, c: Cache<P>, calls: seq<Call<P>>)
    requires Faithful(hash, c) && Injective(hash) && CreatesSucceed(calls)
    ensures CachedRun(hash, c, calls) == AlwaysRun(c.page, calls)
    decreases |calls|
  {
    if calls != [] {
      OneCallAgrees(hash, c, calls[0]);
      FaithfulAfter(hash, c, calls[0]);
      FaithfulRun(hash, Cached(hash, c, calls[0]), calls[1..]);
    }
  }

  /**
   The cache refines always-write over every interleaving with successful creates iff it
   starts faithful. A fresh process is faithful: no digest equals the empty string.
   */
  lemma CacheRefinesExactly<P(!new)>(hash: P -> string, c: Cache<P>)
    requires Injective(hash)
    ensures Refines(hash, c) <==> Faithful(hash, c)
    ensures (forall p :: hash(p) != "") ==> Faithful(hash, Cache("", c.page))
  {
    if Faithful(hash, c) {
      forall calls | CreatesSucceed(calls) ensures CachedRun(hash, c, calls) == AlwaysRun(c.page, calls) {
        FaithfulRun(hash, c, calls);
      }
    }
    if Refines(hash, c) {
      forall p | hash(p) == c.last ensures c.page == Some(p) {
        var call := Call(p, Attempt(false, false, false));
        assert CachedRun(hash, c, [call]) == AlwaysRun(c.page, [call]);
        assert CachedRun(hash, c, [call])[0] == Cached(hash, c, call).page;
        assert AlwaysRun(c.page, [call])[0] == Always(c.page, call);
      }
    }
  }

  /** The digest is not kept per namespace: an unchanged page is never written to a second one. */
  lemma SecondNamespaceStarves<P(!new)>(hash: P -> string, html: P, attempt: Attempt)
    requires hash(html) != "" && !attempt.getFails && !attempt.createFails
    ensures var first := Cached(hash, Cache("", None), Call(html, attempt));
            && first.page == Some(html)
            && Cached(hash, Cache(first.last, None), Call(html, attempt)).page == None
            && Always(None, Call(html, attempt)) == Some(html)
  {
  }
}

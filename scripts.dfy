/**
 * What `Y.jsonp.clean(url)` (js/jsonp.js:84-101) does to the `src` values of
 * the `head > script[src]` nodes, in document order: the scan runs from the
 * end, removes the first node whose `src` equals `url` exactly, and stops.
 */
module Scripts {
  import opened Wrappers

  /** The position of the last `src` equal to `url`, the first one a backward scan meets. */
  function LastIndex(srcs: seq<string>, url: string): (r: Option<nat>)
    ensures r.Some? ==> r.value < |srcs| && srcs[r.value] == url
    ensures r.Some? ==> forall j :: r.value < j < |srcs| ==> srcs[j] != url
    ensures r.None? <==> url !in srcs
  {
    if |srcs| == 0 then None
    else if srcs[|srcs| - 1] == url then Some(|srcs| - 1)
    else LastIndex(srcs[..|srcs| - 1], url)
  }

  /**
   * The script list after the clean-up for `url`: unchanged when no `src`
   * equals `url`, and otherwise the list without the last element that does.
   */
  function RemoveLast(srcs: seq<string>, url: string): (r: seq<string>)
    ensures url !in srcs ==> r == srcs
    ensures url in srcs ==>
      exists k :: 0 <= k < |srcs| && srcs[k] == url && (forall j :: k < j < |srcs| ==> srcs[j] != url)
                  && r == srcs[..k] + srcs[k + 1..]
  {
    match LastIndex(srcs, url)
    case None => srcs
    case Some(k) => srcs[..k] + srcs[k + 1..]
  }

  /**
   * With no matching `src` nothing changes; otherwise exactly one element
   * goes, one copy of `url`, and the length drops by one.
   */
  lemma RemoveLastCount(srcs: seq<string>, url: string)
    ensures url !in srcs ==> RemoveLast(srcs, url) == srcs
    ensures url in srcs ==> |RemoveLast(srcs, url)| == |srcs| - 1
    ensures url in srcs ==> multiset(RemoveLast(srcs, url)) + multiset{url} == multiset(srcs)
  {
    if url in srcs {
      var k := LastIndex(srcs, url).value;
      assert srcs == srcs[..k] + [srcs[k]] + srcs[k + 1..];
    }
  }

  /**
   * The element removed is the last one equal to `url`, and the others keep
   * their relative order: the result is the list without position `k`.
   */
  lemma RemoveLastOrder(srcs: seq<string>, url: string, k: nat)
    requires k < |srcs| && srcs[k] == url
    requires forall j :: k < j < |srcs| ==> srcs[j] != url
    ensures |RemoveLast(srcs, url)| == |srcs| - 1
    ensures forall i :: 0 <= i < k ==> RemoveLast(srcs, url)[i] == srcs[i]
    ensures forall i :: k <= i < |srcs| - 1 ==> RemoveLast(srcs, url)[i] == srcs[i + 1]
  {
  }
}

/**
 * The "recently visited" list shown while a crawl runs: a FIFO that keeps at most
 * `Capacity` URLs, appending at the tail and dropping the head on overflow.
 */
module VisitedWindow {

  /** The bound checked before the oldest URL is shifted out. */
  const Capacity: nat := 3

  function Min(a: int, b: int): int { if a <= b then a else b }

  /** The last `n` elements of `s`, in their original order. */
  function LastN<T>(s: seq<T>, n: nat): seq<T>
    requires n <= |s|
  {
    s[|s| - n..]
  }

  predicate IsSuffix<T(==)>(r: seq<T>, s: seq<T>)
  {
    |r| <= |s| && r == s[|s| - |r|..]
  }

  /**
   * The window after one URL is recorded: a copy of the previous window with the
   * URL appended, whose first element is removed when the copy is longer than the bound.
   */
  function Record(prev: seq<string>, newUrl: string): (r: seq<string>)
    ensures |r| > 0 && r[|r| - 1] == newUrl
    ensures IsSuffix(r, prev + [newUrl])
    ensures |prev| <= Capacity ==> |r| <= Capacity
    ensures |prev| < Capacity ==> r == prev + [newUrl]
    ensures |prev| >= Capacity ==> |r| == |prev|
  {
    var updated := prev + [newUrl];
    if |updated| > Capacity then updated[1..] else updated
  }

  /** Within the bound, recording keeps exactly the last min(3, |prev| + 1) URLs of prev ++ [newUrl]. */
  lemma RecordKeepsLastN(prev: seq<string>, newUrl: string)
    requires |prev| <= Capacity
    ensures Record(prev, newUrl) == LastN(prev + [newUrl], Min(Capacity, |prev| + 1))
  {
  }

  /** Taking a suffix of `a`, appending `t` and taking a suffix again is a suffix of `a + t`. */
  lemma LastNOfSuffix<T>(a: seq<T>, t: seq<T>, k: nat, m: nat)
    requires k <= |a| && m <= k + |t|
    ensures LastN(LastN(a, k) + t, m) == LastN(a + t, m)
  {
    var left := LastN(a, k) + t;
    assert left == (a + t)[|a| - k..];
  }

  lemma AppendAssociative<T>(a: seq<T>, b: seq<T>, c: seq<T>)
    ensures a + (b + c) == (a + b) + c
  {
  }

  /** Keeping the last three, then appending more and keeping the last three again, loses nothing recent. */
  lemma LastThreeThenMore<T>(a: seq<T>, t: seq<T>)
    ensures var k := Min(Capacity, |a|);
      LastN(LastN(a, k) + t, Min(Capacity, k + |t|)) == LastN(a + t, Min(Capacity, |a| + |t|))
  {
    var k := Min(Capacity, |a|);
    assert Min(Capacity, k + |t|) == Min(Capacity, |a| + |t|);
    LastNOfSuffix(a, t, k, Min(Capacity, k + |t|));
  }

  /** The URLs that count as visits: an empty string is falsy and is not recorded. */
  function Truthy(urls: seq<string>): seq<string>
  {
    if |urls| == 0 then [] else (if urls[0] != "" then [urls[0]] else []) + Truthy(urls[1..])
  }

  /** The window after each URL in turn has been offered to `updateVisitedUrls` (empty ones skipped). */
  function RecordAll(w: seq<string>, urls: seq<string>): seq<string>
    decreases |urls|
  {
    if |urls| == 0 then w
    else RecordAll(if urls[0] != "" then Record(w, urls[0]) else w, urls[1..])
  }

  /**
   * From a window within the bound, recording a list of URLs leaves the last URLs of the
   * old window followed by the recorded ones, at most three, oldest first.
   */
  lemma {:induction false} RecordAllKeepsLastThree(w: seq<string>, urls: seq<string>)
    requires |w| <= Capacity
    ensures var all := w + Truthy(urls);
      RecordAll(w, urls) == LastN(all, Min(Capacity, |all|))
    decreases |urls|
  {
    if |urls| == 0 {
      assert w + Truthy(urls) == w;
    } else {
      var u, t := urls[0], Truthy(urls[1..]);
      var w' := if u != "" then Record(w, u) else w;
      assert Truthy(urls) == (if u != "" then [u] else []) + t;
      assert |w'| <= Capacity;
      RecordAllKeepsLastThree(w', urls[1..]);
      if u != "" {
        assert w' == LastN(w + [u], Min(Capacity, |w| + 1)) by { RecordKeepsLastN(w, u); }
        assert Truthy(urls) == [u] + t;
        AppendAssociative(w, [u], t);
        LastThreeThenMore(w + [u], t);
      } else {
        assert Truthy(urls) == t;
      }
    }
  }

  /** When no URL is empty, every one of them counts as a visit. */
  lemma {:induction false} TruthyKeepsNonEmpty(urls: seq<string>)
    requires forall i :: 0 <= i < |urls| ==> urls[i] != ""
    ensures Truthy(urls) == urls
    decreases |urls|
  {
    if |urls| > 0 {
      TruthyKeepsNonEmpty(urls[1..]);
      assert [urls[0]] + urls[1..] == urls;
    }
  }
}

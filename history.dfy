/** The bounded reading history that both collectors keep in memory
    (`all_readings`): each save appends the new snapshot and then keeps
    only the most recent `MaxReadings` entries. */
module History {

  /** "Keep only last 1000 readings". */
  const MaxReadings: nat := 1000

  /** `h[-1000:]` when `h` is longer than 1000, `h` itself otherwise:
      the suffix of `h` of length min(|h|, MaxReadings). */
  function KeepRecent<T>(h: seq<T>): (r: seq<T>)
    ensures |r| == if |h| <= MaxReadings then |h| else MaxReadings
    ensures r == h[|h| - |r|..]
  {
    if |h| > MaxReadings then h[|h| - MaxReadings..] else h
  }

  /** The in-memory effect of one `save_local(snapshot)`: append, then truncate. */
  function Append<T>(h: seq<T>, x: T): (r: seq<T>)
    ensures 0 < |r| <= MaxReadings
    ensures r[|r| - 1] == x
    ensures |h| < MaxReadings ==> r == h + [x]
    ensures |h| >= MaxReadings ==> r == h[|h| - (MaxReadings - 1)..] + [x]
  {
    var r := KeepRecent(h + [x]);
    assert |h| >= MaxReadings ==> r == h[|h| - (MaxReadings - 1)..] + [x] by {
      if |h| >= MaxReadings {
        var k := |h| + 1 - MaxReadings;
        assert r == (h + [x])[k..];
        assert (h + [x])[k..] == h[k..] + [x];
      }
    }
    r
  }

  /** A run of saves, oldest first. */
  function AppendAll<T>(h: seq<T>, xs: seq<T>): (r: seq<T>)
    ensures xs == [] ==> r == h
    ensures xs != [] ==> 0 < |r| <= MaxReadings && r[|r| - 1] == xs[|xs| - 1]
    decreases |xs|
  {
    if xs == [] then h else AppendAll(KeepRecent(h + [xs[0]]), xs[1..])
  }

  /** Truncating a suffix that is at least as long as what would be kept
      gives the same result as truncating the whole sequence. */
  lemma {:induction false} KeepRecentOfLongSuffix<T>(t: seq<T>, k: nat)
    requires k <= |t|
    requires |t| - k >= (if |t| <= MaxReadings then |t| else MaxReadings)
    ensures KeepRecent(t[k..]) == KeepRecent(t)
  {
    var s := t[k..];
    var n := |KeepRecent(t)|;
    assert |KeepRecent(s)| == n;
    assert KeepRecent(s) == s[|s| - n..];
    assert s[|s| - n..] == t[|t| - n..];
  }

  /** Truncating twice is truncating once: the history after a save depends
      only on everything appended so far. */
  lemma {:induction false} KeepRecentAbsorbs<T>(a: seq<T>, b: seq<T>)
    ensures KeepRecent(KeepRecent(a) + b) == KeepRecent(a + b)
  {
    var k := |a| - |KeepRecent(a)|;
    assert KeepRecent(a) + b == (a + b)[k..];
    KeepRecentOfLongSuffix(a + b, k);
  }

  /** Starting from a history within the bound, any run of saves leaves exactly
      the most recent MaxReadings of everything seen, oldest evicted first. */
  lemma {:induction false} AppendAllKeepsMostRecent<T>(h: seq<T>, xs: seq<T>)
    requires |h| <= MaxReadings
    ensures AppendAll(h, xs) == KeepRecent(h + xs)
    decreases |xs|
  {
    if xs == [] {
      assert h + xs == h;
    } else {
      var x, rest := xs[0], xs[1..];
      var h' := KeepRecent(h + [x]);
      calc {
        AppendAll(h, xs);
        AppendAll(h', rest);
        { AppendAllKeepsMostRecent(h', rest); }
        KeepRecent(h' + rest);
        { KeepRecentAbsorbs(h + [x], rest); }
        KeepRecent(h + [x] + rest);
        { assert h + [x] + rest == h + xs; }
        KeepRecent(h + xs);
      }
    }
  }

  /** From an empty history, after `n >= MaxReadings` saves exactly the last
      MaxReadings snapshots remain, in order. */
  lemma {:induction false} FromEmptyKeepsLastThousand<T>(xs: seq<T>)
    requires |xs| >= MaxReadings
    ensures AppendAll([], xs) == xs[|xs| - MaxReadings..]
  {
    calc {
      AppendAll([], xs);
      { AppendAllKeepsMostRecent([], xs); }
      KeepRecent([] + xs);
      { assert [] + xs == xs; }
      KeepRecent(xs);
    }
  }
}

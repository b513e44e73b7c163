/**
 * The bounded sample buffer each graph reads: a `deque(maxlen=...)` that keeps the most
 * recent `maxlen` appended samples, oldest first, dropping the oldest one on overflow.
 */
module SampleBuffer {
  import opened Smoothing

  /** The last `cap` entries of `s`, or all of `s` when it is shorter. */
  function Recent<T>(s: seq<T>, cap: nat): (r: seq<T>)
    ensures |r| == if |s| <= cap then |s| else cap
    ensures r == s[|s| - |r|..]
  {
    if |s| <= cap then s else s[|s| - cap..]
  }

  /** One more append keeps "the last `cap` entries": the new one joins, the oldest leaves on overflow. */
  lemma RecentAppend<T>(s: seq<T>, v: T, cap: nat)
    ensures Recent(s + [v], cap)
      == if |Recent(s, cap)| == cap then (Recent(s, cap) + [v])[1..] else Recent(s, cap) + [v]
  {
    var r := Recent(s, cap);
    if |s| >= cap {
      assert (s + [v])[|s| + 1 - cap..] == (r + [v])[1..];
    }
  }

  /** The buffer after one append: the new sample at the end, the oldest dropped once full. */
  function Pushed(items: seq<Sample>, maxlen: nat, v: Sample): seq<Sample> {
    if |items| == maxlen then (items + [v])[1..] else items + [v]
  }

  class SampleWindow {
    const maxlen: nat
    var items: seq<Sample>
    /** Everything appended since the buffer was created. */
    ghost var appended: seq<Sample>

    ghost predicate Valid()
      reads this
    {
      items == Recent(appended, maxlen)
    }

    constructor (maxlen: nat)
      ensures Valid() && this.maxlen == maxlen && items == [] && appended == []
    {
      this.maxlen := maxlen;
      items := [];
      appended := [];
    }

    /** `deque.append`: add on the right, evict from the left once `maxlen` is exceeded. */
    method Append(v: Sample)
      requires Valid()
      modifies this
      ensures Valid() && appended == old(appended) + [v]
      ensures items == Pushed(old(items), maxlen, v)
    {
      RecentAppend(appended, v, maxlen);
      if |items| == maxlen {
        items := (items + [v])[1..];
      } else {
        items := items + [v];
      }
      appended := appended + [v];
    }
  }
}

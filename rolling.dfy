/** Sequence views used by the policy's rolling state: the tail a bounded
    window keeps, the append of a `deque` created with a `maxlen`, and Python's
    negative-start slice `s[-n:]`. */
module Rolling {

  /** The last min(n, |s|) elements of s. */
  function Last<T>(s: seq<T>, n: nat): (r: seq<T>)
    ensures |r| == if |s| <= n then |s| else n
    ensures r == s[|s| - |r|..]
  {
    if |s| <= n then s else s[|s| - n..]
  }

  /** `w.append(x)` on a deque whose maxlen is cap: x joins on the right and,
      when the deque is full, the leftmost (oldest) element is dropped. */
  function DequeAppend<T>(w: seq<T>, x: T, cap: nat): seq<T>
  {
    if |w| < cap then w + [x]
    else if cap == 0 then []
    else w[|w| - cap + 1..] + [x]
  }

  /** The deque keeps the newest elements: the result is the last
      min(cap, |w| + 1) elements of w + [x]. */
  lemma DequeAppendKeepsNewest<T>(w: seq<T>, x: T, cap: nat)
    ensures DequeAppend(w, x, cap) == Last(w + [x], cap)
    ensures |DequeAppend(w, x, cap)| <= cap
  {
    if |w| >= cap && cap > 0 {
      assert w[|w| - cap + 1..] + [x] == (w + [x])[|w| + 1 - cap..];
    }
  }

  /** Appending to a deque that holds the tail of a history gives the tail
      of the extended history: the window stays the last `cap` entries. */
  lemma {:induction false} DequeAppendTracksHistory<T>(h: seq<T>, x: T, cap: nat)
    ensures DequeAppend(Last(h, cap), x, cap) == Last(h + [x], cap)
  {
    var w := Last(h, cap);
    DequeAppendKeepsNewest(w, x, cap);
    if |h| >= cap && cap > 0 {
      assert w + [x] == (h + [x])[|h| - cap..];
    }
  }

  /** Python's `s[-n:]` for a non-negative n: the last n elements, the whole
      sequence when n exceeds its length, and also the whole sequence when n
      is zero, since `-0` is `0`. */
  function PyTail<T>(s: seq<T>, n: nat): (r: seq<T>)
    ensures 0 < n <= |s| ==> |r| == n && r == s[|s| - n..]
    ensures (n == 0 || n > |s|) ==> r == s
  {
    if n == 0 then s else Last(s, n)
  }
}

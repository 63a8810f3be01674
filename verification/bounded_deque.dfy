/** `collections.deque(maxlen=n)` as the filter uses it: `append` adds on the
    right, and when that makes the deque longer than `n` the leftmost (oldest)
    element is dropped. With `n == 0` the deque therefore stays empty. */
module BoundedDeque {

  /** The last `min(|s|, n)` elements of `s`: the declarative meaning of a
      deque of capacity `n` that has been fed the elements of `s` in order. */
  function LastN<T>(s: seq<T>, n: nat): seq<T>
  {
    if |s| <= n then s else s[|s| - n..]
  }

  /** One `append` on a deque with capacity `maxlen`: grow on the right, then
      drop the leftmost element if the deque has become too long. */
  function Append<T>(buf: seq<T>, x: T, maxlen: nat): seq<T>
  {
    var grown := buf + [x];
    if |grown| > maxlen then grown[1..] else grown
  }

  /** A deque within its capacity stays within it after an append, keeps the
      newest element last, and is the last `maxlen` elements of what it held
      followed by the new element: the oldest element is evicted exactly when
      the deque was full. */
  lemma AppendIsLastN<T>(buf: seq<T>, x: T, maxlen: nat)
    requires |buf| <= maxlen
    ensures Append(buf, x, maxlen) == LastN(buf + [x], maxlen)
    ensures |Append(buf, x, maxlen)| == if |buf| < maxlen then |buf| + 1 else maxlen
    ensures maxlen > 0 ==> Append(buf, x, maxlen)[|Append(buf, x, maxlen)| - 1] == x
    ensures 0 < |buf| == maxlen ==> Append(buf, x, maxlen) == buf[1..] + [x]
  {
  }

  /** Feeding one more element to a deque that holds the last `n` elements of
      a history leaves it holding the last `n` elements of the longer history:
      the deque is a sliding window over everything ever appended. */
  lemma AppendSlides<T>(history: seq<T>, x: T, n: nat)
    ensures Append(LastN(history, n), x, n) == LastN(history + [x], n)
  {
  }
}

/** Python list slicing with a possibly negative start, as the two context
    builders use it: `items[-n:] if len(items) > n else items`. */
module PyList {

  /** `items[start:]` for any integer `start`: a negative start counts from
      the end, and both kinds are clipped to the list. */
  function SliceFrom<T>(items: seq<T>, start: int): (r: seq<T>)
    ensures |r| <= |items|
    ensures r == items[|items| - |r|..]
    ensures start < 0 ==> |r| == if -start < |items| then -start else |items|
    ensures start >= 0 ==> |r| == if start < |items| then |items| - start else 0
  {
    if start < 0 then
      (if |items| + start < 0 then items else items[|items| + start..])
    else if start <= |items| then items[start..]
    else []
  }

  /** `items[-n:] if len(items) > n else items`. */
  function RecentWindow<T>(items: seq<T>, n: int): (r: seq<T>)
    ensures |r| <= |items|
    ensures r == items[|items| - |r|..]
  {
    if |items| > n then SliceFrom(items, -n) else items
  }

  /** For a positive bound the window is the last `min(n, len)` items. */
  lemma RecentWindowPositive<T>(items: seq<T>, n: int)
    requires n >= 1
    ensures |RecentWindow(items, n)| == if |items| < n then |items| else n
  {
  }

  /** A zero bound keeps everything, because `items[-0:]` is `items[0:]`. */
  lemma RecentWindowZero<T>(items: seq<T>)
    ensures RecentWindow(items, 0) == items
  {
  }

  /** A negative bound drops the first `-n` items instead. */
  lemma RecentWindowNegative<T>(items: seq<T>, n: int)
    requires n < 0
    ensures RecentWindow(items, n) == if -n <= |items| then items[-n..] else []
  {
  }
}

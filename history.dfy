/**
 * The capped event history: every new event is put in front and the history
 * keeps at most fifty entries, newest first (`[event, ...prev.slice(0, 49)]`).
 */
module History {

  /** How many events the history keeps. */
  const Capacity: nat := 50

  /** `[e, ...prev.slice(0, 49)]` */
  function Prepend<T>(e: T, prev: seq<T>): (r: seq<T>)
    ensures |r| == if |prev| < Capacity then |prev| + 1 else Capacity
    ensures r[0] == e
    ensures forall i :: 0 <= i < |r| - 1 ==> r[i + 1] == prev[i]
  {
    [e] + (if |prev| < Capacity then prev else prev[..Capacity - 1])
  }

  /** The first `Capacity` entries of `s`, or all of them when there are fewer. */
  function Newest<T>(s: seq<T>): seq<T> {
    if |s| <= Capacity then s else s[..Capacity]
  }

  /** `s` back to front. */
  function Reversed<T>(s: seq<T>): (r: seq<T>)
    ensures |r| == |s|
    ensures forall k :: 0 <= k < |s| ==> r[k] == s[|s| - 1 - k]
  {
    if s == [] then [] else [s[|s| - 1]] + Reversed(s[..|s| - 1])
  }

  /** Prepending the events of `es` one after the other, first to last. */
  function PrependAll<T>(h: seq<T>, es: seq<T>): seq<T> {
    if es == [] then h else Prepend(es[|es| - 1], PrependAll(h, es[..|es| - 1]))
  }

  lemma PrependIsNewest<T>(e: T, prev: seq<T>)
    ensures Prepend(e, prev) == Newest([e] + prev)
  {
    if |prev| >= Capacity {
      assert ([e] + prev)[..Capacity] == [e] + prev[..Capacity - 1];
    }
  }

  lemma NewestOfNewest<T>(x: T, s: seq<T>)
    ensures Newest([x] + Newest(s)) == Newest([x] + s)
  {
    if |s| > Capacity {
      assert ([x] + s[..Capacity])[..Capacity] == ([x] + s)[..Capacity];
    }
  }

  /**
   * Prepending a batch of events one by one leaves the newest fifty of
   * the batch, last event first, followed by the older history.
   */
  lemma {:induction false} PrependAllIsNewest<T>(h: seq<T>, es: seq<T>)
    requires |h| <= Capacity
    ensures PrependAll(h, es) == Newest(Reversed(es) + h)
  {
    if es == [] {
      assert Reversed(es) + h == h;
    } else {
      var x, init := es[|es| - 1], es[..|es| - 1];
      PrependAllIsNewest(h, init);
      PrependIsNewest(x, PrependAll(h, init));
      NewestOfNewest(x, Reversed(init) + h);
      assert Reversed(es) == [x] + Reversed(init);
      assert [x] + (Reversed(init) + h) == Reversed(es) + h;
    }
  }

  /**
   * Sixty (or any number of at least fifty) qualifying detections in a row
   * leave exactly fifty events: the newest fifty, newest first.
   */
  lemma ManyDetectionsKeepNewestFifty<T>(es: seq<T>)
    requires |es| >= Capacity
    ensures |PrependAll([], es)| == Capacity
    ensures forall i :: 0 <= i < Capacity ==> PrependAll([], es)[i] == es[|es| - 1 - i]
  {
    PrependAllIsNewest([], es);
    assert Reversed(es) + [] == Reversed(es);
  }

  /** The history never holds more than `Capacity` events. */
  lemma {:induction false} PrependAllBounded<T>(h: seq<T>, es: seq<T>)
    requires |h| <= Capacity
    ensures |PrependAll(h, es)| <= Capacity
    ensures es != [] ==> PrependAll(h, es)[0] == es[|es| - 1]
  {
    if es != [] {
      PrependAllBounded(h, es[..|es| - 1]);
    }
  }

  /** Prepending one more event to a run of prepends extends the run. */
  lemma PrependAllSnoc<T>(h: seq<T>, es: seq<T>, e: T)
    ensures PrependAll(h, es + [e]) == Prepend(e, PrependAll(h, es))
  {
    assert (es + [e])[..|es + [e]| - 1] == es;
  }
}

/**
 * The bounded frame queues of the fan-out (video.py:124, video.py:264-269): Python
 * queue.Queue objects of maxsize 1, one per consumer. The producer drops the oldest entry
 * of a full queue before putting the new frame, so it never blocks.
 */
module FrameQueues {
  import opened Wrappers
  import opened FrameCodec

  /** What a queue holds after `if q.full(): q.get(False)` followed by `q.put(f)`. */
  function DropOldestPut(items: seq<Frame>, f: Frame, maxsize: nat): (r: seq<Frame>)
    ensures r != [] && r[|r| - 1] == f
    ensures maxsize > 0 && |items| <= maxsize ==> |r| <= maxsize
    ensures |r| <= |items| + 1 && r[..|r| - 1] == items[|items| + 1 - |r|..]
    ensures (maxsize == 0 || |items| < maxsize) ==> |r| == |items| + 1
    ensures 0 < maxsize <= |items| ==> |r| == |items|
  {
    if 0 < maxsize <= |items| then items[1..] + [f] else items + [f]
  }

  /** The contents after the producer has published the frames fs, in order. */
  function PutAll(items: seq<Frame>, fs: seq<Frame>, maxsize: nat): seq<Frame>
    decreases |fs|
  {
    if fs == [] then items else DropOldestPut(PutAll(items, fs[..|fs| - 1], maxsize), fs[|fs| - 1], maxsize)
  }

  /** With capacity one, whatever the queue held, it holds exactly the newest frame published. */
  lemma {:induction false} PutAllCapacityOne(items: seq<Frame>, fs: seq<Frame>)
    requires |items| <= 1 && fs != []
    ensures PutAll(items, fs, 1) == [fs[|fs| - 1]]
  {
    var before := PutAll(items, fs[..|fs| - 1], 1);
    if |fs| > 1 {
      PutAllCapacityOne(items, fs[..|fs| - 1]);
    }
    assert |before| <= 1;
  }

  class FrameQueue {
    const maxsize: nat
    var items: seq<Frame>

    /** queue.Queue never holds more than maxsize items (0 means unbounded). */
    ghost predicate Valid()
      reads this
    {
      maxsize == 0 || |items| <= maxsize
    }

    constructor (maxsize: nat)
      ensures Valid() && this.maxsize == maxsize && items == []
    {
      this.maxsize := maxsize;
      items := [];
    }

    predicate Full()
      reads this
    {
      0 < maxsize <= |items|
    }

    predicate Empty()
      reads this
    {
      |items| == 0
    }

    /** `q.queue[0]`: looks at the oldest item without taking it (IndexError when empty). */
    function Peek(): (r: Option<Frame>)
      reads this
      ensures r.Some? <==> !Empty()
      ensures r.Some? ==> r.value == items[0]
    {
      if items == [] then None else Some(items[0])
    }

    /** `q.get(False)` and `q.get(True, timeout)` when nothing arrives: None stands for queue.Empty. */
    method Get() returns (r: Option<Frame>)
      modifies this
      ensures old(items) == [] ==> r == None && items == []
      ensures old(items) != [] ==> r == Some(old(items)[0]) && items == old(items)[1..]
    {
      if items == [] {
        r := None;
      } else {
        r := Some(items[0]);
        items := items[1..];
      }
    }

    /** `q.put(f)` on a queue with room; a put that would block is never issued here. */
    method Put(f: Frame)
      requires !Full()
      modifies this
      ensures items == old(items) + [f]
    {
      items := items + [f];
    }

    /** The producer's step for one queue: make room if full, then put. */
    method PutDropOldest(f: Frame)
      requires Valid()
      modifies this
      ensures Valid()
      ensures items == DropOldestPut(old(items), f, maxsize)
      ensures maxsize == 1 ==> items == [f]
    {
      if Full() {
        var _ := Get();
      }
      Put(f);
    }
  }
}

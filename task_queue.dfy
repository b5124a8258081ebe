/**
 * The loader's task queue: tasks are always appended, and the dispatch type chosen
 * at construction decides which end the dispatcher takes from.
 */
module TaskQueue {
  import opened Options

  /** ImageLoader.Type: FIFO serves the oldest task first, LIFO the newest. */
  datatype QueueType = FIFO | LIFO

  /**
   * getTask on a queue value: the task taken and the queue left behind, taken from
   * the front under FIFO (removeFirst) and from the back under LIFO (removeLast).
   * An empty queue yields None, where LinkedList throws NoSuchElementException.
   */
  function Dequeue<T>(queue: seq<T>, kind: QueueType): (r: Option<(T, seq<T>)>)
    ensures r.None? <==> queue == []
    ensures r.Some? && kind == FIFO ==> queue == [r.value.0] + r.value.1
    ensures r.Some? && kind == LIFO ==> queue == r.value.1 + [r.value.0]
  {
    if queue == [] then None
    else if kind == FIFO then Some((queue[0], queue[1..]))
    else Some((queue[|queue| - 1], queue[..|queue| - 1]))
  }

  /** An independent statement of reversal, element by element. */
  ghost predicate IsReversal<T>(r: seq<T>, s: seq<T>) {
    |r| == |s| && forall i :: 0 <= i < |s| ==> r[i] == s[|s| - 1 - i]
  }

  /**
   * The order in which the dispatcher hands queued tasks to the pool when nothing
   * new arrives in between: dequeue until the queue is empty.
   */
  function ServiceOrder<T>(queue: seq<T>, kind: QueueType): (order: seq<T>)
    decreases |queue|
  {
    match Dequeue(queue, kind)
    case None => []
    case Some((next, rest)) => [next] + ServiceOrder(rest, kind)
  }

  /** Under FIFO the tasks are served in the order they were added. */
  lemma {:induction false} FifoServesInArrivalOrder<T>(queue: seq<T>)
    ensures ServiceOrder(queue, FIFO) == queue
  {
    if queue != [] {
      FifoServesInArrivalOrder(queue[1..]);
    }
  }

  /** Under LIFO the tasks are served newest first: the reverse of their arrival order. */
  lemma {:induction false} LifoServesNewestFirst<T>(queue: seq<T>)
    ensures IsReversal(ServiceOrder(queue, LIFO), queue)
  {
    if queue != [] {
      var n := |queue|;
      var rest := queue[..n - 1];
      assert Dequeue(queue, LIFO) == Some((queue[n - 1], rest));
      var tail := ServiceOrder(rest, LIFO);
      LifoServesNewestFirst(rest);
      var order := [queue[n - 1]] + tail;
      assert ServiceOrder(queue, LIFO) == order;
      forall i | 0 <= i < n ensures order[i] == queue[n - 1 - i] {
        if i > 0 {
          assert order[i] == tail[i - 1] == rest[n - 1 - i];
        }
      }
    }
  }

  /**
   * A task added to a non-empty queue: FIFO still serves the old head first and
   * LIFO serves the new task; either way the rest keeps its relative order.
   */
  lemma EnqueueThenDequeue<T>(queue: seq<T>, task: T)
    requires queue != []
    ensures Dequeue(queue + [task], FIFO) == Some((queue[0], queue[1..] + [task]))
    ensures Dequeue(queue + [task], LIFO) == Some((task, queue))
  {
    assert (queue + [task])[1..] == queue[1..] + [task];
    assert (queue + [task])[..|queue|] == queue;
  }
}

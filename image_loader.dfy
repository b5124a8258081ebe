/**
 * The sequential bookkeeping of the demo ImageLoader: its task queue, the permit
 * counter that throttles the thread pool, the memory cache, the tag each view
 * carries and the handler that applies finished bitmaps to views.
 *
 * Threads become explicit steps: the poll thread handling one "task added" message
 * is Dispatch, a pool thread running one submitted task is RunTask, and the UI
 * thread handling one delivery message is Deliver. Each step is atomic.
 */
module Loader {
  import opened Options
  import opened Sampling
  import opened TaskQueue

  /** An ImageView, by identity. */
  type ViewId = nat

  /** A decoded bitmap; only its identity and its size matter here. */
  datatype Bitmap = Bitmap(id: nat, rowBytes: nat, height: nat)

  /**
   * The loader's own sizeOf override for the LruCache: bytes per row times rows.
   * Only the cache's eviction, which this model leaves out, consults it.
   */
  function SizeOf(b: Bitmap): (bytes: nat)
    ensures bytes == 0 <==> b.rowBytes == 0 || b.height == 0
    ensures b.height > 0 ==> bytes >= b.rowBytes
    ensures b.rowBytes > 0 ==> bytes >= b.height
  {
    b.rowBytes * b.height
  }

  /** The Runnable loadImage queues on a cache miss: it captures the path and the view. */
  datatype Task = Task(path: string, view: ViewId)

  /** ImgBeanHolder: the message a finished load posts to the UI handler. */
  datatype Holder = Holder(path: string, view: ViewId, bitmap: Option<Bitmap>)

  /** The file's dimensions as read with inJustDecodeBounds (options.outWidth / outHeight). */
  datatype Bounds = Bounds(width: int, height: int)

  /**
   * BitmapFactory.decodeFile, which this model does not look inside: the bounds
   * pass and the pixel pass at a given inSampleSize (null when decoding fails).
   */
  datatype Codec = Codec(bounds: string -> Bounds, pixels: (string, int) -> Option<Bitmap>)

  /**
   * decodeSampledBitmapFromPath: probe the bounds, pick the sample size, decode at
   * it. A file that fits the box is decoded whole; otherwise it is decoded at the
   * larger of the two rounded ratios of its bounds to the box.
   */
  function DecodeSampledBitmap(codec: Codec, path: string, width: int, height: int): (bitmap: Option<Bitmap>)
    ensures var b := codec.bounds(path);
            Fits(b.width, b.height, width, height) ==> bitmap == codec.pixels(path, 1)
    ensures var b := codec.bounds(path);
            var wr := RoundRatio(b.width, width);
            var hr := RoundRatio(b.height, height);
            !Fits(b.width, b.height, width, height) ==> bitmap == codec.pixels(path, if wr >= hr then wr else hr)
  {
    var b := codec.bounds(path);
    codec.pixels(path, SampleSize(b.width, b.height, width, height))
  }

  /** The bitmap a task for `path` would decode, for a view measured as given. */
  function DecodeFor(codec: Codec, path: string, geometry: ViewMetrics, display: DisplayMetrics): (bitmap: Option<Bitmap>) {
    var size := ImageViewSize(geometry, display);
    DecodeSampledBitmap(codec, path, size.width, size.height)
  }

  /**
   * addBitmapToLruCache on a cache value: insert only when the path is absent. An
   * existing entry is never replaced and no other path is touched.
   */
  function PutIfAbsent<K, V>(cache: map<K, V>, key: K, value: V): (r: map<K, V>)
    ensures r.Keys == cache.Keys + {key}
    ensures key in cache ==> r[key] == cache[key]
    ensures key !in cache ==> r[key] == value
    ensures forall k :: k in cache && k != key ==> r[k] == cache[k]
  {
    if key in cache then cache else cache[key := value]
  }

  /**
   * Two inserts of one path made one after the other: the first entry stays.
   * (In the source the get-then-put is not atomic, so two pool threads can both
   * find the path absent and the second put then replaces the first.)
   */
  lemma DuplicateDecodeKeepsFirst<K, V>(cache: map<K, V>, key: K, first: V, second: V)
    ensures PutIfAbsent(PutIfAbsent(cache, key, first), key, second) == PutIfAbsent(cache, key, first)
  {
  }

  /** getTag(): the view's tag, None when it has never been tagged. */
  function TagOf(tags: map<ViewId, string>, view: ViewId): (tag: Option<string>)
    ensures tag.Some? <==> view in tags
    ensures view in tags ==> tag == Some(tags[view])
  {
    if view in tags then Some(tags[view]) else None
  }

  /** The staleness guard: a holder is for the request the view currently shows. */
  predicate IsCurrent(tags: map<ViewId, string>, h: Holder) {
    TagOf(tags, h.view) == Some(h.path)
  }

  /**
   * What the UI handler does to the views' images for one holder: the view gets the
   * holder's bitmap only when its tag still equals the holder's path; otherwise,
   * and for every other view, nothing changes.
   */
  function ApplyDelivery(images: map<ViewId, Option<Bitmap>>, tags: map<ViewId, string>, h: Holder)
    : (r: map<ViewId, Option<Bitmap>>)
    ensures forall v :: v != h.view ==> (v in r <==> v in images) && (v in images ==> r[v] == images[v])
    ensures IsCurrent(tags, h) ==> h.view in r && r[h.view] == h.bitmap
    ensures !IsCurrent(tags, h) ==> r == images
  {
    if IsCurrent(tags, h) then images[h.view := h.bitmap] else images
  }

  class ImageLoader {
    /** The pool size: initial permits of mSemaphoreThreadPool and threads of mThreadPool. */
    const threadCount: nat
    /** mType: the dispatch order. */
    const kind: QueueType
    /** The LruCache's byte budget (sizes and eviction are not modelled). */
    const capacity: int

    /** mTaskQueue. */
    var queue: seq<Task>
    /** "Task added" messages posted to the poll thread and not yet handled. */
    var signals: nat
    /** Available permits of mSemaphoreThreadPool. */
    var permits: int
    /** Tasks handed to the thread pool that have not finished. */
    var running: seq<Task>
    /** Permits never given back: tasks that died before their release. */
    ghost var lost: nat
    /** mLruCache, as a map (a null value is never stored). */
    var cache: map<string, Bitmap>
    /** Each view's tag: the path most recently requested for it. */
    var tags: map<ViewId, string>
    /** Holders posted to the UI handler and not yet handled, oldest first. */
    var deliveries: seq<Holder>
    /** The bitmap each view was last given by the UI handler (None: set to null). */
    var images: map<ViewId, Option<Bitmap>>

    /**
     * Every permit is either available, held by a running task or lost with a task
     * that died; and every task in the queue has its own pending message, so the
     * poll thread never dequeues from an empty queue.
     */
    ghost predicate Valid()
      reads this
    {
      && threadCount >= 1
      && 0 <= permits <= threadCount
      && permits + |running| + lost == threadCount
      && signals == |queue|
    }

    /** Tasks that hold a permit: the pool size minus the permits available. */
    ghost function InFlight(): nat
      reads this
      requires Valid()
    {
      threadCount - permits
    }

    /**
     * init: the semaphore starts with threadCount permits, the queue and cache
     * empty. The poll thread's start-up (up to its readiness signal) is taken to
     * complete here, so AddTask never waits for it.
     */
    constructor (threadCount: nat, kind: QueueType, maxMemory: int)
      requires threadCount >= 1
      requires 0 <= maxMemory <= LONG_MAX && CacheCapacity(maxMemory) > 0
      ensures Valid()
      ensures this.threadCount == threadCount && this.kind == kind && capacity == CacheCapacity(maxMemory)
      ensures permits == threadCount && lost == 0
      ensures queue == [] && running == [] && deliveries == []
      ensures cache == map[] && tags == map[] && images == map[]
    {
      this.threadCount := threadCount;
      this.kind := kind;
      capacity := CacheCapacity(maxMemory);
      queue := [];
      signals := 0;
      permits := threadCount;
      running := [];
      lost := 0;
      cache := map[];
      tags := map[];
      deliveries := [];
      images := map[];
    }

    /** addTask: append the task and post one message to the poll thread. */
    method AddTask(task: Task)
      requires Valid()
      modifies this`queue, this`signals
      ensures Valid()
      ensures queue == old(queue) + [task]
      ensures signals == old(signals) + 1
    {
      queue := queue + [task];
      signals := signals + 1;
    }

    /** getTask: remove from the end the dispatch type names; None on an empty queue. */
    method GetTask() returns (task: Option<Task>)
      modifies this`queue
      ensures match Dequeue(old(queue), kind)
              case None => task == None && queue == old(queue)
              case Some((next, rest)) => task == Some(next) && queue == rest
    {
      if queue == [] {
        task := None;
      } else if kind == FIFO {
        task := Some(queue[0]);
        queue := queue[1..];
      } else {
        task := Some(queue[|queue| - 1]);
        queue := queue[..|queue| - 1];
      }
    }

    /**
     * The poll thread handles one message: it takes a permit (it would block while
     * none is free), takes the next task and hands it to the pool.
     */
    method Dispatch() returns (task: Task)
      requires Valid()
      requires signals > 0 && permits > 0
      modifies this`permits, this`signals, this`queue, this`running
      ensures Valid()
      ensures permits == old(permits) - 1 && signals == old(signals) - 1
      ensures kind == FIFO ==> task == old(queue[0]) && queue == old(queue[1..])
      ensures kind == LIFO ==> task == old(queue[|queue| - 1]) && queue == old(queue[..|queue| - 1])
      ensures running == old(running) + [task]
    {
      permits := permits - 1;
      signals := signals - 1;
      var next := GetTask();
      match next
      case None =>
        assert false;
      case Some(t) =>
        task := t;
        running := running + [t];
    }

    /** refreshBitmap: post a holder to the UI handler. */
    method RefreshBitmap(path: string, view: ViewId, bitmap: Option<Bitmap>)
      modifies this`deliveries
      ensures deliveries == old(deliveries) + [Holder(path, view, bitmap)]
    {
      deliveries := deliveries + [Holder(path, view, bitmap)];
    }

    /**
     * addBitmapToLruCache. LruCache.put rejects a null bitmap with a
     * NullPointerException, which `ok == false` reports; the cache is then unchanged.
     */
    method AddBitmapToLruCache(path: string, bitmap: Option<Bitmap>) returns (ok: bool)
      modifies this`cache
      ensures ok <==> path in old(cache) || bitmap.Some?
      ensures ok && bitmap.Some? ==> cache == PutIfAbsent(old(cache), path, bitmap.value)
      ensures !(ok && bitmap.Some?) ==> cache == old(cache)
    {
      if path !in cache {
        match bitmap
        case None =>
          ok := false;
        case Some(b) =>
          cache := cache[path := b];
          ok := true;
      } else {
        ok := true;
      }
    }

    /**
     * loadImage: tag the view with the path first; on a cache hit post the cached
     * bitmap at once, on a miss queue exactly one task.
     */
    method LoadImage(path: string, view: ViewId)
      requires Valid()
      modifies this`tags, this`queue, this`signals, this`deliveries
      ensures Valid()
      ensures tags == old(tags)[view := path]
      ensures path in old(cache) ==>
        deliveries == old(deliveries) + [Holder(path, view, Some(old(cache)[path]))] &&
        queue == old(queue) && signals == old(signals)
      ensures path !in old(cache) ==>
        queue == old(queue) + [Task(path, view)] && deliveries == old(deliveries)
    {
      tags := tags[view := path];
      if path in cache {
        RefreshBitmap(path, view, Some(cache[path]));
      } else {
        AddTask(Task(path, view));
      }
    }

    /** displayImage: the requested width and height are ignored; the view decides the size. */
    method DisplayImage(path: string, view: ViewId, width: int, height: int)
      requires Valid()
      modifies this`tags, this`queue, this`signals, this`deliveries
      ensures Valid()
      ensures tags == old(tags)[view := path]
      ensures path in old(cache) ==>
        deliveries == old(deliveries) + [Holder(path, view, Some(old(cache)[path]))] &&
        queue == old(queue) && signals == old(signals)
      ensures path !in old(cache) ==>
        queue == old(queue) + [Task(path, view)] && deliveries == old(deliveries)
    {
      LoadImage(path, view);
    }

    /**
     * The second half of a task's body, once its bitmap is decoded: cache it if the
     * path is absent, post it and release the permit. When the bitmap is null and
     * the path is not cached yet, LruCache.put throws before the release: the task
     * dies, nothing is posted and its permit is lost for good.
     */
    method FinishTask(index: nat, bitmap: Option<Bitmap>) returns (completed: bool)
      requires Valid()
      requires index < |running|
      modifies this`running, this`cache, this`deliveries, this`permits, this`lost
      ensures Valid()
      ensures running == old(running[..index] + running[index + 1..])
      ensures var task := old(running[index]);
              && (completed <==> task.path in old(cache) || bitmap.Some?)
              && (completed && bitmap.Some? ==> cache == PutIfAbsent(old(cache), task.path, bitmap.value))
              && (!(completed && bitmap.Some?) ==> cache == old(cache))
              && (completed ==> deliveries == old(deliveries) + [Holder(task.path, task.view, bitmap)])
              && (!completed ==> deliveries == old(deliveries))
      ensures completed ==> permits == old(permits) + 1 && lost == old(lost)
      ensures !completed ==> permits == old(permits) && lost == old(lost) + 1
    {
      var task := running[index];
      running := running[..index] + running[index + 1..];
      completed := AddBitmapToLruCache(task.path, bitmap);
      if completed {
        RefreshBitmap(task.path, task.view, bitmap);
        permits := permits + 1;
      } else {
        lost := lost + 1;
      }
    }

    /**
     * A pool thread runs the task at `index` of `running`: it measures the view,
     * decodes the file at the sample size for that box and finishes the task with
     * the result.
     */
    method RunTask(index: nat, codec: Codec, geometry: ViewMetrics, display: DisplayMetrics)
      returns (bitmap: Option<Bitmap>, completed: bool)
      requires Valid()
      requires index < |running|
      modifies this`running, this`cache, this`deliveries, this`permits, this`lost
      ensures Valid()
      ensures bitmap == DecodeFor(codec, old(running[index]).path, geometry, display)
      ensures running == old(running[..index] + running[index + 1..])
      ensures var task := old(running[index]);
              && (completed <==> task.path in old(cache) || bitmap.Some?)
              && (completed && bitmap.Some? ==> cache == PutIfAbsent(old(cache), task.path, bitmap.value))
              && (!(completed && bitmap.Some?) ==> cache == old(cache))
              && (completed ==> deliveries == old(deliveries) + [Holder(task.path, task.view, bitmap)])
              && (!completed ==> deliveries == old(deliveries))
      ensures completed ==> permits == old(permits) + 1 && lost == old(lost)
      ensures !completed ==> permits == old(permits) && lost == old(lost) + 1
    {
      var size := ImageViewSize(geometry, display);
      bitmap := DecodeSampledBitmap(codec, running[index].path, size.width, size.height);
      completed := FinishTask(index, bitmap);
    }

    /**
     * The UI handler takes the oldest holder and sets its bitmap on the view only
     * when the view's tag still names the holder's path.
     */
    method Deliver() returns (applied: bool)
      requires Valid()
      requires deliveries != []
      modifies this`deliveries, this`images
      ensures Valid()
      ensures deliveries == old(deliveries[1..])
      ensures applied == IsCurrent(tags, old(deliveries[0]))
      ensures images == ApplyDelivery(old(images), tags, old(deliveries[0]))
    {
      var h := deliveries[0];
      deliveries := deliveries[1..];
      applied := h.view in tags && tags[h.view] == h.path;
      if applied {
        images := images[h.view := h.bitmap];
      }
    }
  }

  /**
   * The tasks that hold a permit are the running ones and those that died without
   * releasing theirs; there are never more than the pool size.
   */
  lemma InFlightIsRunningPlusLost(loader: ImageLoader)
    requires loader.Valid()
    ensures loader.InFlight() == |loader.running| + loader.lost
    ensures 0 <= loader.InFlight() <= loader.threadCount
  {
  }

  /** Once every permit has been lost the pool is idle and the poll thread can never take another. */
  lemma PoolStallsWhenAllPermitsLost(loader: ImageLoader)
    requires loader.Valid() && loader.lost == loader.threadCount
    ensures loader.permits == 0 && loader.running == []
  {
  }

  /** 64 MiB, a typical heap limit. */
  const HEAP: int := 0x400_0000

  /** A 64 MiB heap gives the cache a budget of 8 MiB. */
  lemma HeapBudget()
    ensures 0 <= HEAP <= LONG_MAX && CacheCapacity(HEAP) == 0x80_0000
  {
  }

  /**
   * A view asks for path `a`, then is recycled for path `b` before either load
   * finishes. When `a`'s task finishes first, with whatever bitmap its decode
   * produced, that bitmap never reaches the view.
   */
  method StaleResultIsDiscarded(a: string, b: string, decoded: Option<Bitmap>) returns (shown: bool)
    requires a != b
    ensures !shown
  {
    HeapBudget();
    var loader := new ImageLoader(2, FIFO, HEAP);
    loader.LoadImage(a, 7);
    loader.LoadImage(b, 7);
    assert loader.queue == [Task(a, 7), Task(b, 7)];
    var first := loader.Dispatch();
    var second := loader.Dispatch();
    var completed := loader.FinishTask(0, decoded);
    if completed {
      var applied := loader.Deliver();
    }
    shown := 7 in loader.images;
  }

  /** A view whose request is still current receives exactly the bitmap decoded for it. */
  method CurrentResultIsApplied(a: string, decoded: Option<Bitmap>) returns (image: Option<Option<Bitmap>>)
    ensures decoded.Some? ==> image == Some(decoded)
    ensures decoded.None? ==> image == None
  {
    HeapBudget();
    var loader := new ImageLoader(1, LIFO, HEAP);
    loader.LoadImage(a, 3);
    assert loader.queue == [Task(a, 3)];
    var task := loader.Dispatch();
    assert loader.running == [Task(a, 3)];
    var completed := loader.FinishTask(0, decoded);
    if completed {
      assert loader.deliveries == [Holder(a, 3, decoded)];
      var applied := loader.Deliver();
      assert loader.images == map[3 := decoded];
    } else {
      assert loader.images == map[];
    }
    image := if 3 in loader.images then Some(loader.images[3]) else None;
  }

  /**
   * With a single worker busy on `p0`, requests for `p1`, `p2`, `p3` wait in the
   * queue. When `p0`'s task frees the permit, LIFO serves `p3` and FIFO serves `p1`.
   * When `p0`'s decode yields null its permit is lost and nothing is served again.
   */
  method NextServedAfterSaturation(kind: QueueType, p0: string, p1: string, p2: string, p3: string,
                                   decoded: Option<Bitmap>)
    returns (next: Option<string>)
    ensures next.Some? ==> next.value == (if kind == LIFO then p3 else p1)
    ensures next.None? <==> decoded.None?
  {
    HeapBudget();
    var loader := new ImageLoader(1, kind, HEAP);
    loader.LoadImage(p0, 0);
    var busy := loader.Dispatch();
    assert loader.running == [Task(p0, 0)] && loader.permits == 0 && loader.cache == map[];
    loader.LoadImage(p1, 1);
    loader.LoadImage(p2, 2);
    loader.LoadImage(p3, 3);
    assert loader.queue == [Task(p1, 1), Task(p2, 2), Task(p3, 3)];
    var completed := loader.FinishTask(0, decoded);
    if completed {
      var task := loader.Dispatch();
      next := Some(task.path);
    } else {
      PoolStallsWhenAllPermitsLost(loader);
      next := None;
    }
  }
}

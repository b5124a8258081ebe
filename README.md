# ImageLoader model

A Dafny model of the demo image loader of ImagePicker_Simplify
(`app/src/main/java/com/lzy/imagepickerdemo/imageloader/ImageLoader.java`). The loader
takes a request for a file path and an `ImageView`. It tags the view with the path. A
cache hit posts the cached bitmap to the UI handler. A miss queues one task. A poll
thread takes a semaphore permit, then takes a task from the queue (FIFO or LIFO) and
hands it to a fixed thread pool. The task measures the view and decodes the file with a
downsample factor. It inserts the bitmap into the memory cache if the path is absent,
posts the result and gives back its permit. The UI handler sets the bitmap only if the
view's tag still names the path.

Files:

- `options.dfy`: `Option`, standing for Java's `null`.
- `sampling.dfy`: the pure integer arithmetic. This is `calculateInSampleSize` with
  `Math.round`, the fallback chains of `getImageViewSize` and the cache budget
  `maxMemory / 8`.
- `task_queue.dfy`: the dequeue discipline of `getTask`. It also gives the order in
  which each discipline serves a queue.
- `image_loader.dfy`: class `ImageLoader`. It holds the task queue, the dispatch type,
  the permit counter, the memory cache (a `map`), each view's tag and image, the
  pending messages of the poll thread and the UI handler, and the tasks the pool is
  running. Its methods are the source's operations. Each thread's handling of one
  message is an atomic step: `Dispatch`, `RunTask` and `Deliver`. `RunTask` is split
  the way the task body is. First it measures and decodes. Then `FinishTask` caches,
  posts and releases. At the end of the
  file three client methods run the loader through the scenarios it exists for.

What the model shows:

- `ImageLoader.Valid` is kept by every step. It says
  `permits + |running| + lost == threadCount` with `0 <= permits <= threadCount`.
  It also says every queued task has its own pending message, so `getTask` never
  meets an empty queue.
- A task whose decode yields `null` dies. This happens when its path is not cached yet:
  `LruCache.put` throws before the `release()` at line 189. Its permit is then lost
  for good (`lost`). `NextServedAfterSaturation` shows that with one worker, one
  such failure stops the pool for good. The loader has no `try`/`finally` around the
  task body, and the model keeps that behaviour.
- For a 1000x500 image and a 100x100 box the code computes a sample size of 10: the
  wider side decides (`Sampling.WidthDecidesSampleSize`).

## Model

| member | source | states |
|---|---|---|
| `Sampling.RoundRatioIsNearest` | app/src/main/java/com/lzy/imagepickerdemo/imageloader/ImageLoader.java:245-246 | `RoundRatio(a, b)` is the integer nearest to `a/b`, with halves going up, for either sign of `b`. Division by zero gives the saturated infinity, or 0 for 0/0 |
| `Sampling.SampleSize` | app/src/main/java/com/lzy/imagepickerdemo/imageloader/ImageLoader.java:240-250 | 1 when the image fits the requested box. Otherwise the maximum of the two rounded ratios: at least each of them and equal to one. At least 1 whenever the box is positive |
| `Sampling.WidthDecidesSampleSize` | app/src/main/java/com/lzy/imagepickerdemo/imageloader/ImageLoader.java:244-247 | a 1000x500 image for a 100x100 box gets sample size 10 |
| `Sampling.FirstPositive` | app/src/main/java/com/lzy/imagepickerdemo/imageloader/ImageLoader.java:258-267 | the result is positive iff some candidate is. If positive, it is the first positive candidate. Otherwise it is the last candidate |
| `Sampling.Fallback` | app/src/main/java/com/lzy/imagepickerdemo/imageloader/ImageLoader.java:258-267 | the four-step reassignment chain yields the first positive of its four candidates |
| `Sampling.ImageViewSizeAsWritten` | app/src/main/java/com/lzy/imagepickerdemo/imageloader/ImageLoader.java:252-282 | width: the first positive among laid-out width, layout width, max width and screen width. Height: the same chain, but starting from the laid-out WIDTH |
| `Sampling.ImageViewSize` | app/src/main/java/com/lzy/imagepickerdemo/imageloader/ImageLoader.java:252-282 | both chains start from the matching laid-out dimension. A screen of positive size gives a positive box |
| `Sampling.HeightChainReadsWidth` | app/src/main/java/com/lzy/imagepickerdemo/imageloader/ImageLoader.java:269 | for a laid-out non-square view the as-written height is the view's width. The corrected height is the view's height |
| `Sampling.TallViewGetsSquareBox` | app/src/main/java/com/lzy/imagepickerdemo/imageloader/ImageLoader.java:269-278 | a laid-out 100x300 view is decoded for 100x100 as written and for 100x300 when corrected |
| `Sampling.ToInt` | app/src/main/java/com/lzy/imagepickerdemo/imageloader/ImageLoader.java:110 | the `(int)` cast of a long lands in the int range. It is congruent to its input modulo 2^32 and is the identity on int values |
| `Sampling.DivTrunc` | app/src/main/java/com/lzy/imagepickerdemo/imageloader/ImageLoader.java:111 | Java int division by a positive constant truncates toward zero |
| `Sampling.CacheCapacity` | app/src/main/java/com/lzy/imagepickerdemo/imageloader/ImageLoader.java:110-111 | for a heap limit within the int range the budget is floor(limit / 8). It never exceeds INT_MAX / 8 |
| `Sampling.LargeHeapsGiveNoBudget` | app/src/main/java/com/lzy/imagepickerdemo/imageloader/ImageLoader.java:110-111 | a 4 GiB heap limit gives a budget of 0, and so does Long.MAX_VALUE |
| `TaskQueue.Dequeue` | app/src/main/java/com/lzy/imagepickerdemo/imageloader/ImageLoader.java:124-131 | no task iff the queue is empty. FIFO: the queue was the task followed by the rest. LIFO: the queue was the rest followed by the task |
| `TaskQueue.FifoServesInArrivalOrder` | app/src/main/java/com/lzy/imagepickerdemo/imageloader/ImageLoader.java:125-126 | draining a queue under FIFO serves its tasks in arrival order |
| `TaskQueue.LifoServesNewestFirst` | app/src/main/java/com/lzy/imagepickerdemo/imageloader/ImageLoader.java:127-128 | draining a queue under LIFO serves its tasks in reverse arrival order |
| `TaskQueue.EnqueueThenDequeue` | app/src/main/java/com/lzy/imagepickerdemo/imageloader/ImageLoader.java:124-131 | after a task is appended, FIFO still takes the old head and LIFO takes the new task. The others keep their order |
| `Loader.SizeOf` | app/src/main/java/com/lzy/imagepickerdemo/imageloader/ImageLoader.java:113-116 | a bitmap's cache size is its row bytes times its rows: zero iff either is zero, and at least each factor when the other is positive |
| `Loader.DecodeSampledBitmap` | app/src/main/java/com/lzy/imagepickerdemo/imageloader/ImageLoader.java:219-230 | a file that fits the box is decoded at sample size 1. Otherwise it is decoded at the larger of the rounded ratios of its probed bounds to the box |
| `Loader.PutIfAbsent` | app/src/main/java/com/lzy/imagepickerdemo/imageloader/ImageLoader.java:205-209 | the path is cached afterwards. An existing entry keeps its bitmap. A new one gets the given bitmap. No other path changes |
| `Loader.DuplicateDecodeKeepsFirst` | app/src/main/java/com/lzy/imagepickerdemo/imageloader/ImageLoader.java:205-209 | a second insert of the same path, made after the first, leaves the first insert's result |
| `Loader.TagOf` | app/src/main/java/com/lzy/imagepickerdemo/imageloader/ImageLoader.java:167 | `getTag()` yields a tag exactly when the view has been tagged, and then it is the path last requested for the view. The staleness guard `IsCurrent` compares it with the holder's path |
| `Loader.ApplyDelivery` | app/src/main/java/com/lzy/imagepickerdemo/imageloader/ImageLoader.java:163-169 | only the holder's view can change. It gets the holder's bitmap exactly when its tag equals the holder's path. Otherwise nothing changes |
| `Loader.ImageLoader.constructor` | app/src/main/java/com/lzy/imagepickerdemo/imageloader/ImageLoader.java:84-122 | permits start at the pool size. The queue, cache, tags and messages start empty. The invariant holds |
| `Loader.ImageLoader.AddTask` | app/src/main/java/com/lzy/imagepickerdemo/imageloader/ImageLoader.java:284-293 | the queue becomes the old queue plus the task. Exactly one message goes to the poll thread |
| `Loader.ImageLoader.GetTask` | app/src/main/java/com/lzy/imagepickerdemo/imageloader/ImageLoader.java:124-131 | the task returned and the queue left are those of `Dequeue` under the loader's type |
| `Loader.ImageLoader.Dispatch` | app/src/main/java/com/lzy/imagepickerdemo/imageloader/ImageLoader.java:92-99 | one permit is taken and one message consumed. The dequeued task is added to the running tasks. The permit invariant holds |
| `Loader.ImageLoader.RefreshBitmap` | app/src/main/java/com/lzy/imagepickerdemo/imageloader/ImageLoader.java:195-203 | exactly one holder is appended to the UI handler's messages |
| `Loader.ImageLoader.AddBitmapToLruCache` | app/src/main/java/com/lzy/imagepickerdemo/imageloader/ImageLoader.java:205-209 | put-if-absent. It fails (the `put` of a null bitmap) exactly when the path is absent and the bitmap is null, and then nothing changes |
| `Loader.ImageLoader.LoadImage` | app/src/main/java/com/lzy/imagepickerdemo/imageloader/ImageLoader.java:155-192 | the view is tagged with the path. A hit posts the cached bitmap and queues nothing. A miss queues exactly one task and posts nothing |
| `Loader.ImageLoader.DisplayImage` | app/src/main/java/com/lzy/imagepickerdemo/imageloader/ImageLoader.java:60-63 | the same effect as `LoadImage`. The requested width and height play no part |
| `Loader.ImageLoader.FinishTask` | app/src/main/java/com/lzy/imagepickerdemo/imageloader/ImageLoader.java:186-189 | given the decoded bitmap, the path is inserted if absent. The task completes iff the path was cached or the bitmap is non-null. Then the bitmap is posted and the permit released. Otherwise nothing is posted and the permit is lost |
| `Loader.ImageLoader.RunTask` | app/src/main/java/com/lzy/imagepickerdemo/imageloader/ImageLoader.java:183-189 | the bitmap is the decode at the sample size for the view's measured box. The task is then finished as `FinishTask` states |
| `Loader.ImageLoader.Deliver` | app/src/main/java/com/lzy/imagepickerdemo/imageloader/ImageLoader.java:158-170 | the oldest holder is consumed. It is applied exactly when it is current, and images change as `ApplyDelivery` says |
| `Loader.InFlightIsRunningPlusLost` | app/src/main/java/com/lzy/imagepickerdemo/imageloader/ImageLoader.java:95-106 | the tasks holding a permit, threadCount minus the available permits, are the running tasks plus those that died without releasing. There are never more than threadCount |
| `Loader.PoolStallsWhenAllPermitsLost` | app/src/main/java/com/lzy/imagepickerdemo/imageloader/ImageLoader.java:183-189 | once every permit is lost, none is available and no task is running |
| `Loader.StaleResultIsDiscarded` | app/src/main/java/com/lzy/imagepickerdemo/imageloader/ImageLoader.java:155-170 | when a view is retagged from `a` to `b` before `a`'s task finishes, `a`'s result never reaches the view, whatever `a`'s decode produced |
| `Loader.CurrentResultIsApplied` | app/src/main/java/com/lzy/imagepickerdemo/imageloader/ImageLoader.java:155-190 | a view whose request is still current shows exactly the bitmap decoded for it. If the decode yields null it shows nothing |
| `Loader.NextServedAfterSaturation` | app/src/main/java/com/lzy/imagepickerdemo/imageloader/ImageLoader.java:92-131 | with the only worker busy and `p1, p2, p3` queued, the freed permit serves `p3` under LIFO and `p1` under FIFO. Nothing is served iff the busy task's decode yielded null |

## Findings

| source | as written | input that shows it | evidently intended | confidence | as-written member | corrected member |
|---|---|---|---|---|---|---|
| app/src/main/java/com/lzy/imagepickerdemo/imageloader/ImageLoader.java:269 | the height chain starts from `imageView.getWidth()` | a laid-out 100x300 view on a 1080x1920 screen is decoded for a 100x100 box | start from `imageView.getHeight()`, giving 100x300 | high (not executed) | `Sampling.ImageViewSizeAsWritten` (shown by `Sampling.TallViewGetsSquareBox`) | `Sampling.ImageViewSize` |

`ImageLoader.RunTask` measures views with the corrected `Sampling.ImageViewSize`.

## Left out

- Threads, `Looper`/`Handler` messaging and the `ExecutorService` (lines 86-107, 119) are not modelled. The poll thread, the pool threads and the UI thread each become an atomic step over shared state. Interleavings inside a step are not modelled.
- The readiness handshake between `addTask` and the poll thread (lines 102, 286-291) is not modelled. The constructor treats the poll thread's start-up as complete, so `AddTask` never waits.
- An interrupted `acquire()` (lines 94-97) would let the poll thread go on without a permit. That path is not modelled. `Dispatch` requires a free permit, just as a blocking `acquire()` waits for one.
- `BitmapFactory.decodeFile` (lines 219-230) is foreign code. It is the `Codec` parameter: one total function for the bounds pass and one for the pixel pass at a sample size.
- `LruCache` eviction and recency order are library code and are not modelled. The cache is a map that never evicts. The loader's own `sizeOf` override (lines 113-116) is `Loader.SizeOf`, and the budget is `Sampling.CacheCapacity`. Eviction is the only user of either.
- `Sampling.RoundRatio`: uses exact rational arithmetic in place of `float`. It does not model float precision for large dimensions, nor saturation of finite ratios beyond the int range.
- `Sampling.SampleSize`: takes unbounded integers for the dimensions. It does not model Java int width.
- `Loader.ImageLoader.constructor`: requires a positive cache budget. A heap limit whose int narrowing gives a budget of 0 or less makes `new LruCache` throw at line 112, so init fails. This happens for 4 GiB, for Long.MAX_VALUE and for limits between 2 and 4 GiB. The model only builds loaders with a positive budget. It also requires at least one thread. A pool size of 0 or less makes `Executors.newFixedThreadPool` throw at line 119, so init fails, and the model only builds loaders with at least one thread.
- A `null` path makes `mLruCache.get` throw at line 174. Paths are strings in the model, so this case is not modelled.
- A view with null layout params whose `getWidth()` is 0 or less makes its task throw at line 260. That task's permit is then lost, as with a null decode. `ViewMetrics` has only int fields, so the model cannot show this.
- The get-then-put of `addBitmapToLruCache` (lines 206-207) is not atomic, and pool threads run it concurrently. Two tasks for one path can both find it absent, and the second `put` then replaces the first entry. The atomic steps of the model cannot show this. `Loader.DuplicateDecodeKeepsFirst` holds only for inserts made one after the other.
- `getTask` (lines 124-131) is not `synchronized`, while `addTask` (line 284) is. A dequeue on the poll thread can race with an enqueue on the UI thread over the unsynchronized `LinkedList`. The model makes each operation atomic, so it cannot show this race.
- `getInstance` and its double-checked locking (lines 133-153) are left out. So is `Runtime.maxMemory()`, which is a constructor parameter.
- The lazy creation of `mUIHandler` (lines 157-172) is left out. The UI handler always exists.
- `clearMemoryCache` (lines 65-68) is an empty method and is left out.
- A `null` dispatch type would make `getTask` return `null` (line 130). `QueueType` has only the two constants, so this path is not modelled.
- A view with no tag would make line 167 throw. `IsCurrent` treats such a holder as stale. Every view is tagged before it is queued or posted.
- `ImagePickerActivity.java` is not part of this model. It only wires the loader into a grid.

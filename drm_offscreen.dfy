/**
 * The offscreen frame loop of kmscube (drm-offscreen.c).
 *
 * `offscreen_run` draws `drm.count` frames. Without a presentation surface each
 * frame binds framebuffer slot `frame % NUM_BUFFERS`, draws, and picks buffer
 * object slot `frame % NUM_BUFFERS`. With a surface each frame draws, locks a
 * new front buffer and releases the buffer object held from the previous frame.
 *
 * The GL/EGL/GBM calls are external: the calls whose order matters are recorded
 * as a trace of events, and the results of `gbm_surface_lock_front_buffer` are
 * an input sequence (one entry per locking call, `None` for a NULL buffer).
 */
module DrmOffscreen {
  import opened Optional

  /** Size of the framebuffer and buffer-object pools (`NUM_BUFFERS`, common.h). */
  const NUM_BUFFERS: nat := 2

  /** An opaque GBM buffer object. */
  type Bo = nat

  /** The GBM handles the loop reads: whether a surface exists, and the slot pool. */
  datatype Gbm = Gbm(surface: bool, bos: seq<Option<Bo>>)

  /** The external effects of the loop, in the order they happen. */
  datatype Event =
    | Bind(slot: nat)     // glBindFramebuffer on framebuffer slot `slot`
    | Draw(frame: nat)    // cube->draw(frame)
    | Release(bo: Bo)     // gbm_surface_release_buffer(surface, bo)

  /** The loop's state after some iterations: trace so far, held bo, and whether it aborted. */
  datatype Progress = Progress(trace: seq<Event>, held: Option<Bo>, failed: bool)

  /** The pool has NUM_BUFFERS slots and, with a surface, there is a lock result for every frame. */
  predicate Feasible(gbm: Gbm, locks: seq<Option<Bo>>, count: nat)
  {
    |gbm.bos| == NUM_BUFFERS && (gbm.surface ==> count <= |locks|)
  }

  /** The `next_bo` of iteration `frame`: the locked front buffer, or the pool slot. */
  function Acquired(gbm: Gbm, locks: seq<Option<Bo>>, frame: nat): Option<Bo>
    requires Feasible(gbm, locks, frame + 1)
  {
    if gbm.surface then locks[frame] else gbm.bos[frame % NUM_BUFFERS]
  }

  /** One pass of the loop body for `frame`, starting with `held` as the previous bo. */
  function Iteration(gbm: Gbm, locks: seq<Option<Bo>>, frame: nat, held: Option<Bo>): Progress
    requires Feasible(gbm, locks, frame + 1)
  {
    var drawn := (if gbm.surface then [] else [Bind(frame % NUM_BUFFERS)]) + [Draw(frame)];
    var next := Acquired(gbm, locks, frame);
    if next.None? then Progress(drawn, held, true)
    else if gbm.surface && held.Some? then Progress(drawn + [Release(held.value)], next, false)
    else Progress(drawn, next, false)
  }

  /** The first `n` iterations of the loop, stopping at the first one that aborts. */
  function Frames(gbm: Gbm, locks: seq<Option<Bo>>, n: nat): Progress
    requires Feasible(gbm, locks, n)
  {
    if n == 0 then Progress([], None, false)
    else
      var before := Frames(gbm, locks, n - 1);
      if before.failed then before
      else
        var step := Iteration(gbm, locks, n - 1, before.held);
        Progress(before.trace + step.trace, step.held, step.failed)
  }

  /** The first frame below `n` whose buffer object is NULL, or -1 when there is none. */
  function FirstNull(gbm: Gbm, locks: seq<Option<Bo>>, n: nat): (r: int)
    requires Feasible(gbm, locks, n)
    ensures -1 <= r < n
    ensures r >= 0 ==> Acquired(gbm, locks, r).None?
    ensures forall f :: 0 <= f < n && (r < 0 || f < r) ==> Acquired(gbm, locks, f).Some?
  {
    if n == 0 then -1
    else
      var earlier := FirstNull(gbm, locks, n - 1);
      if earlier >= 0 then earlier
      else if Acquired(gbm, locks, n - 1).None? then n - 1
      else -1
  }

  /** Number of frames the loop drew: all of them, or up to and including the NULL one. */
  function Drawn(gbm: Gbm, locks: seq<Option<Bo>>, n: nat): nat
    requires Feasible(gbm, locks, n)
  {
    var f := FirstNull(gbm, locks, n);
    if f >= 0 then f + 1 else n
  }

  /** Number of frames whose buffer object was acquired (non-NULL). */
  function Acquisitions(gbm: Gbm, locks: seq<Option<Bo>>, n: nat): nat
    requires Feasible(gbm, locks, n)
  {
    var f := FirstNull(gbm, locks, n);
    if f >= 0 then f else n
  }

  /** The frame indices passed to draw, in trace order. */
  function Draws(trace: seq<Event>): seq<nat>
  {
    if trace == [] then []
    else (if trace[0].Draw? then [trace[0].frame] else []) + Draws(trace[1..])
  }

  /** The buffer objects released, in trace order. */
  function Releases(trace: seq<Event>): seq<Bo>
  {
    if trace == [] then []
    else (if trace[0].Release? then [trace[0].bo] else []) + Releases(trace[1..])
  }

  /** 0, 1, ..., n - 1. */
  function Iota(n: nat): seq<nat>
  {
    if n == 0 then [] else Iota(n - 1) + [n - 1]
  }

  lemma {:induction false} DrawsAppend(a: seq<Event>, b: seq<Event>)
    ensures Draws(a + b) == Draws(a) + Draws(b)
  {
    if a == [] {
      assert a + b == b;
    } else {
      assert (a + b)[0] == a[0];
      assert (a + b)[1..] == a[1..] + b;
      DrawsAppend(a[1..], b);
    }
  }

  lemma {:induction false} ReleasesAppend(a: seq<Event>, b: seq<Event>)
    ensures Releases(a + b) == Releases(a) + Releases(b)
  {
    if a == [] {
      assert a + b == b;
    } else {
      assert (a + b)[0] == a[0];
      assert (a + b)[1..] == a[1..] + b;
      ReleasesAppend(a[1..], b);
    }
  }

  /** The loop aborts exactly when some frame's buffer object is NULL. */
  lemma {:induction false} RunFailsIffNull(gbm: Gbm, locks: seq<Option<Bo>>, n: nat)
    requires Feasible(gbm, locks, n)
    ensures Frames(gbm, locks, n).failed <==> FirstNull(gbm, locks, n) >= 0
  {
    if n > 0 {
      RunFailsIffNull(gbm, locks, n - 1);
    }
  }

  /** Once aborted, running further frames changes nothing: the abort is a return. */
  lemma {:induction false} RunStaysFailed(gbm: Gbm, locks: seq<Option<Bo>>, n: nat, m: nat)
    requires n <= m && Feasible(gbm, locks, m)
    requires Frames(gbm, locks, n).failed
    ensures Frames(gbm, locks, m) == Frames(gbm, locks, n)
  {
    if m > n {
      RunStaysFailed(gbm, locks, n, m - 1);
    }
  }

  /**
   * Draw is called with 0, 1, ..., in increasing order: `count` times on success,
   * and up to and including the frame whose buffer object was NULL on failure.
   */
  lemma {:induction false} DrawsInOrder(gbm: Gbm, locks: seq<Option<Bo>>, n: nat)
    requires Feasible(gbm, locks, n)
    ensures Draws(Frames(gbm, locks, n).trace) == Iota(Drawn(gbm, locks, n))
    ensures !Frames(gbm, locks, n).failed ==> Drawn(gbm, locks, n) == n
  {
    RunFailsIffNull(gbm, locks, n);
    if n > 0 {
      DrawsInOrder(gbm, locks, n - 1);
      RunFailsIffNull(gbm, locks, n - 1);
      var before := Frames(gbm, locks, n - 1);
      if !before.failed {
        var step := Iteration(gbm, locks, n - 1, before.held);
        DrawsAppend(before.trace, step.trace);
        var drawn := (if gbm.surface then [] else [Bind((n - 1) % NUM_BUFFERS)]) + [Draw(n - 1)];
        assert Draws([Draw(n - 1)]) == [n - 1];
        if gbm.surface {
          if step.trace != drawn {
            DrawsAppend([Draw(n - 1)], [Release(before.held.value)]);
          }
        } else {
          DrawsAppend([Bind((n - 1) % NUM_BUFFERS)], [Draw(n - 1)]);
        }
      }
    }
  }

  /** The `j`-th event of a run without a surface: bind then draw, frame by frame. */
  function SlotEvent(j: nat): Event
  {
    if j % 2 == 0 then Bind((j / 2) % NUM_BUFFERS) else Draw(j / 2)
  }

  lemma SlotEventPair(k: nat)
    ensures SlotEvent(2 * k) == Bind(k % NUM_BUFFERS)
    ensures SlotEvent(2 * k + 1) == Draw(k)
  {
  }

  /**
   * Without a surface, every frame `f` that runs binds framebuffer slot
   * `f % NUM_BUFFERS` right before drawing `f`, and nothing else happens.
   */
  lemma {:induction false} NoSurfaceTrace(gbm: Gbm, locks: seq<Option<Bo>>, n: nat)
    requires Feasible(gbm, locks, n) && !gbm.surface
    ensures |Frames(gbm, locks, n).trace| == 2 * Drawn(gbm, locks, n)
    ensures forall j :: 0 <= j < |Frames(gbm, locks, n).trace| ==>
      Frames(gbm, locks, n).trace[j] == SlotEvent(j)
  {
    RunFailsIffNull(gbm, locks, n);
    if n > 0 {
      NoSurfaceTrace(gbm, locks, n - 1);
      RunFailsIffNull(gbm, locks, n - 1);
      var before := Frames(gbm, locks, n - 1);
      if !before.failed {
        assert Frames(gbm, locks, n).trace == before.trace + [Bind((n - 1) % NUM_BUFFERS), Draw(n - 1)];
        SlotEventPair(n - 1);
      }
    }
  }

  /**
   * Without a surface nothing is ever released, and after each successful frame
   * the held bo is the pool slot `(n - 1) % NUM_BUFFERS` chosen in that frame.
   */
  lemma {:induction false} NoSurfaceSlots(gbm: Gbm, locks: seq<Option<Bo>>, n: nat)
    requires Feasible(gbm, locks, n) && !gbm.surface
    ensures Releases(Frames(gbm, locks, n).trace) == []
    ensures n > 0 && !Frames(gbm, locks, n).failed ==>
      Frames(gbm, locks, n).held == gbm.bos[(n - 1) % NUM_BUFFERS]
  {
    if n > 0 {
      NoSurfaceSlots(gbm, locks, n - 1);
      var before := Frames(gbm, locks, n - 1);
      if !before.failed {
        var pair := [Bind((n - 1) % NUM_BUFFERS), Draw(n - 1)];
        assert Frames(gbm, locks, n).trace == before.trace + pair;
        ReleasesAppend(before.trace, pair);
        ReleasesAppend([Bind((n - 1) % NUM_BUFFERS)], [Draw(n - 1)]);
      }
    }
  }

  /**
   * With a surface: the bos released so far are exactly the bos acquired in
   * every successful frame but the last, in order, and the last acquired one is
   * still held. So there is never more than one bo held, and a successful run
   * of `count >= 1` frames releases `count - 1` of them.
   */
  lemma {:induction false} SurfaceReleases(gbm: Gbm, locks: seq<Option<Bo>>, n: nat)
    requires Feasible(gbm, locks, n) && gbm.surface
    ensures var a := Acquisitions(gbm, locks, n);
      var released := Releases(Frames(gbm, locks, n).trace);
      |released| == (if a == 0 then 0 else a - 1) &&
      (forall k :: 0 <= k < |released| ==> locks[k] == Some(released[k])) &&
      Frames(gbm, locks, n).held == (if a == 0 then None else locks[a - 1])
  {
    RunFailsIffNull(gbm, locks, n);
    if n > 0 {
      SurfaceReleases(gbm, locks, n - 1);
      RunFailsIffNull(gbm, locks, n - 1);
      var before := Frames(gbm, locks, n - 1);
      if !before.failed {
        var step := Iteration(gbm, locks, n - 1, before.held);
        ReleasesAppend(before.trace, step.trace);
        assert Releases([Draw(n - 1)]) == [];
        if before.held.Some? && locks[n - 1].Some? {
          ReleasesAppend([Draw(n - 1)], [Release(before.held.value)]);
          assert Releases([Release(before.held.value)]) == [before.held.value];
        }
      }
    }
  }

  /**
   * Release discipline of one frame `k` with a surface: nothing is released in
   * frame 0; in a later successful frame exactly one bo is released, the one
   * acquired in frame `k - 1`, after the draw, and the bo just acquired is held.
   */
  lemma {:induction false} SurfaceFrame(gbm: Gbm, locks: seq<Option<Bo>>, k: nat)
    requires Feasible(gbm, locks, k + 1) && gbm.surface
    requires forall f :: 0 <= f <= k ==> locks[f].Some?
    ensures k == 0 ==> Frames(gbm, locks, 1) == Progress([Draw(0)], locks[0], false)
    ensures k > 0 ==>
      Frames(gbm, locks, k + 1) ==
        Progress(Frames(gbm, locks, k).trace + [Draw(k), Release(locks[k - 1].value)], locks[k], false)
  {
    RunFailsIffNull(gbm, locks, k);
    if k > 0 {
      SurfaceReleases(gbm, locks, k);
    }
  }

  /**
   * `offscreen_run`: returns 0 when every frame obtained a buffer object and -1
   * as soon as one did not; the trace of external calls and the held bo are
   * those of `Run`.
   */
  method OffscreenRun(gbm: Gbm, locks: seq<Option<Bo>>, count: nat)
    returns (status: int, trace: seq<Event>, held: Option<Bo>)
    requires Feasible(gbm, locks, count)
    ensures status == 0 || status == -1
    ensures status == 0 <==> forall f :: 0 <= f < count ==> Acquired(gbm, locks, f).Some?
    ensures Frames(gbm, locks, count) == Progress(trace, held, status == -1)
  {
    var bo: Option<Bo> := None;
    var i: nat := 0;
    trace := [];
    while i < count
      invariant i <= count
      invariant Frames(gbm, locks, i) == Progress(trace, bo, false)
    {
      var frame := i;
      var nextBo: Option<Bo>;
      if !gbm.surface {
        trace := trace + [Bind(frame % NUM_BUFFERS)];
      }
      trace := trace + [Draw(i)];
      i := i + 1;
      if gbm.surface {
        nextBo := locks[frame];
      } else {
        nextBo := gbm.bos[frame % NUM_BUFFERS];
      }
      if nextBo.None? {
        RunStaysFailed(gbm, locks, i, count);
        RunFailsIffNull(gbm, locks, count);
        return -1, trace, bo;
      }
      if bo.Some? && gbm.surface {
        trace := trace + [Release(bo.value)];
      }
      bo := nextBo;
    }
    RunFailsIffNull(gbm, locks, count);
    return 0, trace, bo;
  }

  /** Which frame loop `drm.run` points at. */
  datatype RunHook = NoHook | OffscreenHook

  /** The static `struct drm` of drm-offscreen.c: the frame count and the run hook. */
  class Drm {
    var count: nat
    var run: RunHook

    /** The zero-initialised static struct. */
    constructor()
      ensures count == 0 && run == NoHook
    {
      count := 0;
      run := NoHook;
    }

    /**
     * `init_drm_offscreen`: `renderStatus` is what `init_drm_render` returned.
     * Non-zero gives NULL; zero installs the offscreen loop and returns the struct.
     */
    method InitDrmOffscreen(frames: nat, renderStatus: int) returns (r: Drm?)
      modifies this
      ensures renderStatus != 0 ==> r == null && run == old(run) && count == old(count)
      ensures renderStatus == 0 ==> r == this && run == OffscreenHook && count == frames
    {
      if renderStatus != 0 {
        return null;
      }
      count := frames;
      run := OffscreenHook;
      return this;
    }

    /** `drm->run(...)` after a successful `init_drm_offscreen`. */
    method Run(gbm: Gbm, locks: seq<Option<Bo>>) returns (status: int, trace: seq<Event>, held: Option<Bo>)
      requires run == OffscreenHook
      requires Feasible(gbm, locks, count)
      ensures status == 0 <==> forall f :: 0 <= f < count ==> Acquired(gbm, locks, f).Some?
      ensures Frames(gbm, locks, count) == Progress(trace, held, status == -1)
    {
      status, trace, held := OffscreenRun(gbm, locks, count);
    }
  }
}

/**
 The presented-frame tracker: which video frame and which overlay a screenshot captures,
 when the streaming, render and GUI threads reach one mutex in any order.
 */
module PresentedFrames {
  import opened Common

  type Buffer = nat

  type Thread = nat

  /** What is drawn over the video: a caption and layers of drawing commands. */
  datatype Overlay = Overlay(width: int, height: int, caption: Option<int>, layers: seq<seq<int>>)

  predicate IsEmptyAt(o: Overlay, width: int, height: int) {
    o.width == width && o.height == height && o.caption.None? && forall i :: 0 <= i < |o.layers| ==> o.layers[i] == []
  }

  function EmptyOverlay(width: int, height: int): Overlay {
    Overlay(width, height, None, [])
  }

  datatype Pair = Pair(frame: Buffer, overlay: Overlay)

  datatype RenderPhase =
    | Idle
    | Syncing(thread: Thread, pending: Option<Overlay>)
    | Rendering(frame: Option<Buffer>, overlay: Option<Overlay>)

  /** What the mutex guards; the generation is unbounded. */
  datatype Frames = Frames(
    generation: nat,
    staged: Option<Overlay>,
    phase: RenderPhase,
    mapped: Option<Buffer>,
    presented: Option<Pair>)

  datatype Phase = BeforeSync | AfterSync | Presented

  function Staged(s: Frames, overlay: Overlay): Frames {
    s.(staged := Some(overlay))
  }

  function StagedEmpty(s: Frames, width: int, height: int): Frames {
    if s.staged.Some? && IsEmptyAt(s.staged.value, width, height) then s
    else s.(staged := Some(EmptyOverlay(width, height)))
  }

  function Cleared(s: Frames): Frames {
    Frames(s.generation + 1, None, Idle, None, None)
  }

  function Zip(frame: Option<Buffer>, overlay: Option<Overlay>): Option<Pair> {
    if frame.Some? && overlay.Some? then Some(Pair(frame.value, overlay.value)) else None
  }

  function Phased(s: Frames, phase: Phase, thread: Thread): Frames {
    match phase
    case BeforeSync => s.(phase := Syncing(thread, s.staged))
    case AfterSync =>
      s.(phase := Rendering(s.mapped, if s.phase.Syncing? then s.phase.pending else None))
    case Presented =>
      if s.phase.Rendering? then s.(phase := Idle, presented := Zip(s.phase.frame, s.phase.overlay))
      else s.(phase := Idle)
  }

  /** A map of the first plane counts only during a sync on its own thread, for a buffer
      observed in the current generation. */
  predicate Accepts(s: Frames, context: nat, thread: Thread, plane: nat, ok: bool) {
    ok && plane == 0 && context == s.generation && s.phase.Syncing? && s.phase.thread == thread
  }

  function Mapped(s: Frames, buffer: Buffer, context: nat, thread: Thread, plane: nat, ok: bool): Frames {
    if Accepts(s, context, thread, plane, ok) then s.(mapped := Some(buffer)) else s
  }

  // ---------- all threads together ----------

  /** The tracker, the generations that probes have read, and those installed in buffers. */
  datatype World = World(frames: Frames, read: map<nat, nat>, contexts: map<Buffer, nat>)

  const Initial := World(Frames(0, None, Idle, None, None), map[], map[])

  /** One visit to the mutex, or a change to a buffer. A probe reads the generation in one
      visit and installs it in its buffer later, so a clear can come in between; and copying a
      buffer copies what was installed. */
  datatype Event =
    | ReadGeneration(probe: nat)
    | Install(probe: nat, buffer: Buffer)
    | Copy(original: Buffer, copy: Buffer)
    | Map(buffer: Buffer, thread: Thread, plane: nat, ok: bool)
    | Sync(phase: Phase, thread: Thread)
    | Stage(overlay: Overlay)
    | StageEmpty(width: int, height: int)
    | Clear

  function Step(w: World, e: Event): World {
    match e
    case ReadGeneration(probe) => w.(read := w.read[probe := w.frames.generation])
    case Install(probe, buffer) =>
      if probe in w.read then w.(contexts := w.contexts[buffer := w.read[probe]]) else w
    case Copy(original, copy) =>
      if original in w.contexts then w.(contexts := w.contexts[copy := w.contexts[original]])
      else w.(contexts := w.contexts - {copy})
    case Map(buffer, thread, plane, ok) =>
      if buffer in w.contexts then w.(frames := Mapped(w.frames, buffer, w.contexts[buffer], thread, plane, ok)) else w
    case Sync(phase, thread) => w.(frames := Phased(w.frames, phase, thread))
    case Stage(overlay) => w.(frames := Staged(w.frames, overlay))
    case StageEmpty(width, height) => w.(frames := StagedEmpty(w.frames, width, height))
    case Clear => w.(frames := Cleared(w.frames))
  }

  /** The world after the first n events of a run. */
  function At(es: seq<Event>, n: nat): World
    requires n <= |es|
  {
    if n == 0 then Initial else Step(At(es, n - 1), es[n - 1])
  }

  // What happened in a stretch lo <= k < hi of the run.

  ghost predicate NoClear(es: seq<Event>, lo: int, hi: int) {
    forall k :: 0 <= k < |es| && lo <= k < hi ==> !es[k].Clear?
  }

  ghost predicate NoPhase(es: seq<Event>, lo: int, hi: int) {
    forall k :: 0 <= k < |es| && lo <= k < hi ==> !es[k].Clear? && !es[k].Sync?
  }

  ghost predicate AcceptedMap(es: seq<Event>, k: int) {
    && 0 <= k < |es|
    && es[k].Map?
    && es[k].buffer in At(es, k).contexts
    && Accepts(At(es, k).frames, At(es, k).contexts[es[k].buffer], es[k].thread, es[k].plane, es[k].ok)
  }

  ghost predicate NoMap(es: seq<Event>, lo: int, hi: int) {
    forall k :: lo <= k < hi ==> !AcceptedMap(es, k)
  }

  ghost predicate Swap(es: seq<Event>, k: int) {
    0 <= k < |es| && es[k].Sync? && es[k].phase.Presented? && At(es, k).frames.phase.Rendering?
  }

  ghost predicate NoSwap(es: seq<Event>, lo: int, hi: int) {
    forall k :: lo <= k < hi ==> !Swap(es, k)
  }

  /** The sync in progress began at b, with what was staged then. */
  lemma {:induction false} SyncOrigin(es: seq<Event>, n: nat) returns (b: nat)
    requires n <= |es| && At(es, n).frames.phase.Syncing?
    ensures b < n && es[b] == Sync(BeforeSync, At(es, n).frames.phase.thread) && NoPhase(es, b + 1, n)
    ensures At(es, n).frames.phase.pending == At(es, b).frames.staged
  {
    b := n - 1;
    if !es[n - 1].Sync? {
      b := SyncOrigin(es, n - 1);
    }
  }

  /** The frame held was mapped at m, and no map was accepted since. */
  lemma {:induction false} MapOrigin(es: seq<Event>, n: nat) returns (m: nat)
    requires n <= |es| && At(es, n).frames.mapped.Some?
    ensures m < n && AcceptedMap(es, m) && es[m].buffer == At(es, n).frames.mapped.value
    ensures NoClear(es, m, n) && NoMap(es, m + 1, n)
  {
    m := n - 1;
    if !AcceptedMap(es, n - 1) {
      m := MapOrigin(es, n - 1);
    }
  }

  /** The frame and overlay being rendered were taken when the sync ended, at a. */
  lemma {:induction false} RenderOrigin(es: seq<Event>, n: nat) returns (a: nat)
    requires n <= |es| && At(es, n).frames.phase.Rendering?
    ensures a < n && es[a].Sync? && es[a].phase.AfterSync? && NoPhase(es, a + 1, n)
    ensures At(es, n).frames.phase == Phased(At(es, a).frames, AfterSync, es[a].thread).phase
  {
    a := n - 1;
    if !es[n - 1].Sync? {
      a := RenderOrigin(es, n - 1);
    }
  }

  /** What can be captured was swapped in at p, and nothing was swapped since. */
  lemma {:induction false} SwapOrigin(es: seq<Event>, n: nat) returns (p: nat)
    requires n <= |es| && At(es, n).frames.presented.Some?
    ensures p < n && Swap(es, p) && NoClear(es, p, n) && NoSwap(es, p + 1, n)
    ensures At(es, p).frames.phase ==
      Rendering(Some(At(es, n).frames.presented.value.frame), Some(At(es, n).frames.presented.value.overlay))
  {
    p := n - 1;
    if !Swap(es, n - 1) {
      p := SwapOrigin(es, n - 1);
    }
  }

  lemma {:induction false} GenerationGrows(es: seq<Event>, m: nat, n: nat)
    requires m <= n <= |es|
    ensures At(es, m).frames.generation <= At(es, n).frames.generation
    ensures At(es, m).frames.generation == At(es, n).frames.generation <==> NoClear(es, m, n)
    decreases n - m
  {
    if m < n {
      GenerationGrows(es, m, n - 1);
    }
  }

  /** What the probe has read last before n, it read at r. */
  ghost predicate LastRead(es: seq<Event>, r: nat, n: nat, probe: nat) {
    r < n <= |es| && es[r] == ReadGeneration(probe) && forall k :: r < k < n ==> es[k] != ReadGeneration(probe)
  }

  lemma {:induction false} ReadOrigin(es: seq<Event>, n: nat, probe: nat) returns (r: nat)
    requires n <= |es| && probe in At(es, n).read
    ensures LastRead(es, r, n, probe)
  {
    r := n - 1;
    if es[n - 1] != ReadGeneration(probe) {
      r := ReadOrigin(es, n - 1, probe);
    }
  }

  lemma {:induction false} ReadHolds(es: seq<Event>, r: nat, n: nat, probe: nat)
    requires LastRead(es, r, n, probe)
    ensures probe in At(es, n).read && At(es, n).read[probe] == At(es, r).frames.generation
    decreases n
  {
    if r < n - 1 {
      ReadHolds(es, r, n - 1, probe);
    }
  }

  /** The event gives the buffer its generation: an installation, or a copy. */
  ghost predicate Marks(es: seq<Event>, k: nat, buffer: Buffer)
    requires k < |es|
  {
    match es[k]
    case Install(probe, marked) => marked == buffer && probe in At(es, k).read
    case Copy(_, copy) => copy == buffer
    case _ => false
  }

  /** After n events, what the buffer carries was installed at i, in the buffer itself or in
      one it was copied from. */
  ghost predicate Carries(es: seq<Event>, n: nat, buffer: Buffer, i: nat)
    requires n <= |es|
  {
    0 < n && if !Marks(es, n - 1, buffer) then Carries(es, n - 1, buffer, i)
      else if es[n - 1].Copy? then Carries(es, n - 1, es[n - 1].original, i)
      else i == n - 1
  }

  /** A buffer's generation was read at r and installed at i, in it or where it was copied from. */
  lemma {:induction false} ContextOrigin(es: seq<Event>, n: nat, buffer: Buffer) returns (r: nat, i: nat)
    requires n <= |es| && buffer in At(es, n).contexts
    ensures i < n && es[i].Install? && LastRead(es, r, i, es[i].probe) && Carries(es, n, buffer, i)
  {
    if Marks(es, n - 1, buffer) {
      if es[n - 1].Copy? {
        r, i := ContextOrigin(es, n - 1, es[n - 1].original);
      } else {
        i := n - 1;
        r := ReadOrigin(es, n - 1, es[n - 1].probe);
      }
    } else {
      r, i := ContextOrigin(es, n - 1, buffer);
    }
  }

  /** The buffer carries the generation that was installed. */
  lemma {:induction false} ContextHolds(es: seq<Event>, n: nat, buffer: Buffer, r: nat, i: nat)
    requires n <= |es| && Carries(es, n, buffer, i) && i < n && es[i].Install? && LastRead(es, r, i, es[i].probe)
    ensures buffer in At(es, n).contexts && At(es, n).contexts[buffer] == At(es, r).frames.generation
  {
    if !Marks(es, n - 1, buffer) {
      CarriesBefore(es, n - 1, buffer, i);
      ContextHolds(es, n - 1, buffer, r, i);
    } else if es[n - 1].Copy? {
      CarriesBefore(es, n - 1, es[n - 1].original, i);
      ContextHolds(es, n - 1, es[n - 1].original, r, i);
    } else {
      ReadHolds(es, r, i, es[i].probe);
    }
  }

  lemma {:induction false} CarriesBefore(es: seq<Event>, n: nat, buffer: Buffer, i: nat)
    requires n <= |es| && Carries(es, n, buffer, i)
    ensures i < n
  {
    if !Marks(es, n - 1, buffer) {
      CarriesBefore(es, n - 1, buffer, i);
    } else if es[n - 1].Copy? {
      CarriesBefore(es, n - 1, es[n - 1].original, i);
    }
  }

  // What holds from such an event on.

  lemma {:induction false} SyncHolds(es: seq<Event>, b: nat, n: nat)
    requires b < n <= |es| && es[b].Sync? && es[b].phase.BeforeSync? && NoPhase(es, b + 1, n)
    ensures At(es, n).frames.phase == Syncing(es[b].thread, At(es, b).frames.staged)
    decreases n
  {
    if b < n - 1 {
      SyncHolds(es, b, n - 1);
    }
  }

  lemma {:induction false} MapHolds(es: seq<Event>, m: nat, n: nat)
    requires m < n <= |es| && AcceptedMap(es, m) && NoClear(es, m, n) && NoMap(es, m + 1, n)
    ensures At(es, n).frames.mapped == Some(es[m].buffer)
    decreases n
  {
    if m < n - 1 {
      MapHolds(es, m, n - 1);
      assert !AcceptedMap(es, n - 1);
    }
  }

  lemma {:induction false} RenderHolds(es: seq<Event>, a: nat, n: nat)
    requires a < n <= |es| && es[a].Sync? && es[a].phase.AfterSync? && NoPhase(es, a + 1, n)
    ensures At(es, n).frames.phase == Phased(At(es, a).frames, AfterSync, es[a].thread).phase
    decreases n
  {
    if a < n - 1 {
      RenderHolds(es, a, n - 1);
    }
  }

  lemma {:induction false} SwapHolds(es: seq<Event>, p: nat, n: nat)
    requires p < n <= |es| && Swap(es, p) && NoClear(es, p, n) && NoSwap(es, p + 1, n)
    ensures At(es, n).frames.presented == At(es, p + 1).frames.presented
    decreases n
  {
    if p < n - 1 {
      SwapHolds(es, p, n - 1);
      assert !Swap(es, n - 1);
    }
  }

  /** A sync on the thread is in progress at k, begun at c. */
  ghost predicate InSync(es: seq<Event>, k: nat, c: nat, thread: Thread) {
    c < k <= |es| && es[c] == Sync(BeforeSync, thread) && NoPhase(es, c + 1, k)
  }

  /** At k the buffer carries a generation read at r and installed at i, with no clear since it
      was read. */
  ghost predicate FreshContext(es: seq<Event>, k: nat, buffer: Buffer, r: nat, i: nat) {
    i < k <= |es| && es[i].Install? && LastRead(es, r, i, es[i].probe) && Carries(es, k, buffer, i) && NoClear(es, r, k)
  }

  /** Exactly these maps count: successful ones of the first plane, on the thread of a sync in
      progress, of a buffer probed since the last clear, whatever else is going on. */
  lemma AcceptedExactly(es: seq<Event>, k: nat)
    requires k < |es|
    ensures AcceptedMap(es, k) <==>
      && es[k].Map? && es[k].plane == 0 && es[k].ok
      && (exists c: nat :: InSync(es, k, c, es[k].thread))
      && (exists r: nat, i: nat :: FreshContext(es, k, es[k].buffer, r, i))
  {
    if AcceptedMap(es, k) {
      var c := SyncOrigin(es, k);
      assert InSync(es, k, c, es[k].thread);
      var r, i := ContextOrigin(es, k, es[k].buffer);
      ContextHolds(es, k, es[k].buffer, r, i);
      GenerationGrows(es, r, k);
      assert FreshContext(es, k, es[k].buffer, r, i);
    }
    if es[k].Map? {
      forall c: nat, r: nat, i: nat | InSync(es, k, c, es[k].thread) && FreshContext(es, k, es[k].buffer, r, i)
        ensures At(es, k).frames.phase.Syncing? && At(es, k).frames.phase.thread == es[k].thread
        ensures es[k].buffer in At(es, k).contexts && At(es, k).contexts[es[k].buffer] == At(es, k).frames.generation
      {
        SyncHolds(es, c, k);
        ContextHolds(es, k, es[k].buffer, r, i);
        GenerationGrows(es, r, k);
      }
    }
  }

  /** Exactly these presentations are swaps: those after a sync has ended, and nothing else since. */
  lemma SwapExactly(es: seq<Event>, k: nat)
    requires k < |es|
    ensures Swap(es, k) <==> es[k].Sync? && es[k].phase.Presented? && exists a: nat :: Ended(es, k, a)
  {
    if Swap(es, k) {
      var a := RenderOrigin(es, k);
      assert Ended(es, k, a);
    }
    forall a: nat | Ended(es, k, a) ensures At(es, k).frames.phase.Rendering? {
      RenderHolds(es, a, k);
    }
  }

  ghost predicate Ended(es: seq<Event>, k: nat, a: nat) {
    a < k <= |es| && es[a].Sync? && es[a].phase.AfterSync? && NoPhase(es, a + 1, k)
  }

  /** The overlay was staged at s, with no clear and no other staging up to n. Staging nothing
      keeps an overlay that is already empty. */
  ghost predicate StagedSince(es: seq<Event>, n: int, overlay: Overlay, s: nat) {
    && s < n <= |es|
    && NoClear(es, s, n)
    && (es[s] == Stage(overlay)
        || (es[s].StageEmpty? && overlay == EmptyOverlay(es[s].width, es[s].height)
            && !(At(es, s).frames.staged.Some? && IsEmptyAt(At(es, s).frames.staged.value, es[s].width, es[s].height))))
    && (forall k :: s < k < n ==> !es[k].Stage?)
    && (forall k :: s < k < n && es[k].StageEmpty? ==> IsEmptyAt(overlay, es[k].width, es[k].height))
  }

  lemma {:induction false} StagedHolds(es: seq<Event>, n: nat, overlay: Overlay, s: nat)
    requires StagedSince(es, n, overlay, s)
    ensures At(es, n).frames.staged == Some(overlay)
    decreases n
  {
    if s < n - 1 {
      StagedHolds(es, n - 1, overlay, s);
    }
  }

  lemma {:induction false} StagedOrigin(es: seq<Event>, n: nat) returns (s: nat)
    requires n <= |es| && At(es, n).frames.staged.Some?
    ensures StagedSince(es, n, At(es, n).frames.staged.value, s)
  {
    s := n - 1;
    if !es[n - 1].Stage? && At(es, n).frames.staged == At(es, n - 1).frames.staged {
      s := StagedOrigin(es, n - 1);
    }
  }

  /** How a captured pair came about: its buffer, or one it was copied from, was probed at r and
      i, and it was mapped at m, on the thread of a sync begun at c; its overlay was staged at s
      and taken by a sync begun at b; that sync ended at a, with the frame of m still the last
      one mapped, and was swapped at p. */
  datatype Story = Story(r: nat, i: nat, c: nat, m: nat, s: nat, b: nat, a: nat, p: nat)

  ghost predicate FrameStory(es: seq<Event>, frame: Buffer, t: Story) {
    && t.r < t.i < t.m && t.c < t.m < t.a < |es|
    && es[t.i].Install? && LastRead(es, t.r, t.i, es[t.i].probe) && Carries(es, t.m, frame, t.i)
    && es[t.m].Map? && es[t.m].buffer == frame && es[t.m].plane == 0 && es[t.m].ok
    && es[t.c] == Sync(BeforeSync, es[t.m].thread) && NoPhase(es, t.c + 1, t.m)
    && AcceptedMap(es, t.m) && NoMap(es, t.m + 1, t.a)
    && NoClear(es, t.r, t.a) && NoClear(es, t.c, t.a)
  }

  ghost predicate OverlayStory(es: seq<Event>, overlay: Overlay, t: Story) {
    && t.s < t.b < t.a < |es|
    && StagedSince(es, t.b, overlay, t.s)
    && es[t.b].Sync? && es[t.b].phase.BeforeSync? && NoPhase(es, t.b + 1, t.a)
    && NoClear(es, t.s, t.a)
  }

  ghost predicate Provenance(es: seq<Event>, n: nat, pair: Pair, t: Story)
    requires n <= |es|
  {
    && FrameStory(es, pair.frame, t) && OverlayStory(es, pair.overlay, t)
    && t.a < t.p < n
    && es[t.a].Sync? && es[t.a].phase.AfterSync? && NoPhase(es, t.a + 1, t.p)
    && es[t.p].Sync? && es[t.p].phase.Presented? && NoSwap(es, t.p + 1, n)
    && NoClear(es, t.a, n)
  }

  /** A pair with such a provenance can be captured. */
  lemma ProvenanceCaptures(es: seq<Event>, n: nat, pair: Pair, t: Story)
    requires n <= |es| && Provenance(es, n, pair, t)
    ensures At(es, n).frames.presented == Some(pair)
  {
    MapHolds(es, t.m, t.a);
    StagedHolds(es, t.b, pair.overlay, t.s);
    SyncHolds(es, t.b, t.a);
    RenderHolds(es, t.a, t.p);
    assert Swap(es, t.p);
    SwapHolds(es, t.p, n);
  }

  lemma FrameOrigin(es: seq<Event>, a: nat, t: Story) returns (u: Story)
    requires a < |es| && At(es, a).frames.mapped.Some? && t.a == a
    ensures FrameStory(es, At(es, a).frames.mapped.value, u) && u == t.(r := u.r, i := u.i, c := u.c, m := u.m)
  {
    var m := MapOrigin(es, a);
    var c := SyncOrigin(es, m);
    var r, i := ContextOrigin(es, m, es[m].buffer);
    ContextHolds(es, m, es[m].buffer, r, i);
    GenerationGrows(es, r, m);
    u := t.(r := r, i := i, c := c, m := m);
  }

  lemma OverlayOrigin(es: seq<Event>, a: nat, t: Story) returns (u: Story)
    requires a < |es| && At(es, a).frames.phase.Syncing? && At(es, a).frames.phase.pending.Some? && t.a == a
    ensures OverlayStory(es, At(es, a).frames.phase.pending.value, u) && u == t.(s := u.s, b := u.b)
  {
    var b := SyncOrigin(es, a);
    var s := StagedOrigin(es, b);
    u := t.(s := s, b := b);
  }

  /** In every interleaving, whatever can be captured has such a provenance: the overlay belongs
      to the cycle that was swapped, and the frame is the last one mapped by then. */
  lemma CaptureProvenance(es: seq<Event>, n: nat) returns (t: Story)
    requires n <= |es| && At(es, n).frames.presented.Some?
    ensures Provenance(es, n, At(es, n).frames.presented.value, t)
  {
    var p := SwapOrigin(es, n);
    var a := RenderOrigin(es, p);
    t := OverlayOrigin(es, a, Story(0, 0, 0, 0, 0, 0, a, p));
    t := FrameOrigin(es, a, t);
  }

  /** So what can be captured is exactly what has such a provenance. */
  lemma CaptureExactly(es: seq<Event>, n: nat, pair: Pair)
    requires n <= |es|
    ensures At(es, n).frames.presented == Some(pair) <==> exists t :: Provenance(es, n, pair, t)
  {
    if At(es, n).frames.presented == Some(pair) {
      var t := CaptureProvenance(es, n);
    }
    forall t | Provenance(es, n, pair, t) ensures At(es, n).frames.presented == Some(pair) {
      ProvenanceCaptures(es, n, pair, t);
    }
  }

  /** Frame and overlay belong to the same sync exactly when a map was accepted during the cycle
      that was swapped; otherwise the frame has been kept from an earlier one. */
  lemma SameCycleExactly(es: seq<Event>, n: nat, pair: Pair, t: Story)
    requires n <= |es| && Provenance(es, n, pair, t)
    ensures t.c == t.b <==> exists k :: t.b < k < t.a && AcceptedMap(es, k)
    ensures t.c <= t.b
  {
    if t.b < t.m {
      assert t.b < t.m < t.a && AcceptedMap(es, t.m);
    }
  }

  /** A frame can indeed be kept: a second cycle without a map captures the frame of the first
      with its own overlay. */
  lemma FrameCanBeKept(first: Overlay, second: Overlay)
    ensures
      var es := [ReadGeneration(0), Install(0, 7), Stage(first), Sync(BeforeSync, 1), Map(7, 1, 0, true),
                 Sync(AfterSync, 1), Sync(Presented, 1), Stage(second), Sync(BeforeSync, 1),
                 Sync(AfterSync, 1), Sync(Presented, 1)];
      At(es, 11).frames.presented == Some(Pair(7, second))
  {
    var es := [ReadGeneration(0), Install(0, 7), Stage(first), Sync(BeforeSync, 1), Map(7, 1, 0, true),
               Sync(AfterSync, 1), Sync(Presented, 1), Stage(second), Sync(BeforeSync, 1),
               Sync(AfterSync, 1), Sync(Presented, 1)];
    var mapped := Frames(0, Some(first), Syncing(1, Some(first)), Some(7), None);
    assert At(es, 1) == World(Initial.frames, map[0 := 0], map[]);
    assert At(es, 2) == World(Initial.frames, map[0 := 0], map[7 := 0]);
    assert At(es, 4).frames == mapped.(mapped := None) && At(es, 4).contexts == map[7 := 0];
    assert At(es, 5).frames == mapped;
    assert At(es, 7).frames == Frames(0, Some(first), Idle, Some(7), Some(Pair(7, first)));
    assert At(es, 9).frames.phase == Syncing(1, Some(second)) && At(es, 9).frames.mapped == Some(7);
    assert At(es, 10).frames.phase == Rendering(Some(7), Some(second));
  }

  /** Nothing from before a clear comes back: probe, staging, syncs and swap all came after. */
  lemma ClearForgets(es: seq<Event>, k: nat, n: nat) returns (t: Story)
    requires k < n <= |es| && es[k].Clear? && At(es, n).frames.presented.Some?
    ensures Provenance(es, n, At(es, n).frames.presented.value, t)
    ensures k < t.r && k < t.c && k < t.s
  {
    t := CaptureProvenance(es, n);
  }

  /** Staging an empty overlay always leaves one of the size asked for that draws nothing, and
      keeps one that is already so. */
  lemma StagedEmptyIsEmpty(s: Frames, width: int, height: int)
    ensures StagedEmpty(s, width, height).staged.Some?
    ensures
      var overlay := StagedEmpty(s, width, height).staged.value;
      && overlay.width == width && overlay.height == height && overlay.caption.None?
      && forall i :: 0 <= i < |overlay.layers| ==> |overlay.layers[i]| == 0
    ensures s.staged.Some? && s.staged.value.width == width && s.staged.value.height == height
      && s.staged.value.caption.None? && (forall i :: 0 <= i < |s.staged.value.layers| ==> |s.staged.value.layers[i]| == 0)
      ==> StagedEmpty(s, width, height) == s
  {
  }

  /** An undisturbed cycle makes exactly its frame and overlay capturable, from any state. */
  lemma CycleCaptures(w: World, probe: nat, buffer: Buffer, thread: Thread, swapper: Thread, overlay: Overlay)
    ensures
      var w1 := Step(Step(w, ReadGeneration(probe)), Install(probe, buffer));
      var w2 := Step(Step(w1, Stage(overlay)), Sync(BeforeSync, thread));
      var w3 := Step(Step(w2, Map(buffer, thread, 0, true)), Sync(AfterSync, thread));
      && Step(w3, Sync(Presented, swapper)).frames.presented == Some(Pair(buffer, overlay))
      && w3.frames.presented == w.frames.presented
  {
  }

  /** The objects: each method is one visit to the mutex. */
  class Presentation {
    var generation: nat
    var staged: Option<Overlay>
    var phase: RenderPhase
    var mapped: Option<Buffer>
    var presented: Option<Pair>

    ghost function Now(): Frames
      reads this
    {
      Frames(generation, staged, phase, mapped, presented)
    }

    constructor ()
      ensures Now() == Initial.frames
    {
      generation, staged, phase, mapped, presented := 0, None, Idle, None, None;
    }

    method StageOverlay(overlay: Overlay)
      modifies this`staged
      ensures Now() == Staged(old(Now()), overlay)
    {
      staged := Some(overlay);
    }

    method StageNothing(width: int, height: int)
      modifies this`staged
      ensures Now() == StagedEmpty(old(Now()), width, height)
    {
      if staged.None? || !IsEmptyAt(staged.value, width, height) {
        staged := Some(EmptyOverlay(width, height));
      }
    }

    method Capture() returns (r: Result<Pair>)
      ensures r == if presented.Some? then Success(presented.value) else Failure
    {
      if presented.None? {
        return Failure;
      }
      return Success(presented.value);
    }

    method ClearAll()
      modifies this
      ensures Now() == Cleared(old(Now()))
    {
      generation, staged, phase, mapped, presented := generation + 1, None, Idle, None, None;
    }

    method EnterPhase(next: Phase, thread: Thread)
      modifies this`phase, this`presented
      ensures Now() == Phased(old(Now()), next, thread)
    {
      var before := phase;
      phase := Idle;
      match next
      case BeforeSync => phase := Syncing(thread, staged);
      case AfterSync =>
        var overlay := if before.Syncing? then before.pending else None;
        phase := Rendering(mapped, overlay);
      case Presented =>
        if before.Rendering? {
          presented := Zip(before.frame, before.overlay);
        }
    }

    method ObserveMap(buffer: Buffer, context: nat, thread: Thread, plane: nat, ok: bool)
      modifies this`mapped
      ensures Now() == Mapped(old(Now()), buffer, context, thread, plane, ok)
    {
      if !ok || plane != 0 {
        return;
      }
      if generation == context && phase.Syncing? && phase.thread == thread {
        mapped := Some(buffer);
      }
    }
  }
}

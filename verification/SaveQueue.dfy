/**
 The screenshot save queue: captures wait, two at a time are encoded by workers, and each
 accepted capture is accounted for until it leaves.
 */
module SaveQueue {
  import opened Common

  const SAVE_WORKERS: nat := 2
  const MAX_CAPTURES: nat := 32
  const MAX_CAPTURE_BYTES: nat := 256 * 1024 * 1024

  /** An accepted capture; the settings stay with it until it is saved. */
  datatype Capture = Capture(id: U64, bytes: nat, settings: int)

  datatype State = State(waiting: seq<Capture>, running: seq<Capture>, bytes: int, nextId: U64)

  const EmptyQueue := State([], [], 0, 0)

  function Len(q: State): nat {
    |q.waiting| + |q.running|
  }

  // ---------- accounting ----------

  function Bytes(s: seq<Capture>): nat {
    if s == [] then 0 else Bytes(s[..|s| - 1]) + s[|s| - 1].bytes
  }

  lemma {:induction false} BytesAppend(s: seq<Capture>, t: seq<Capture>)
    ensures Bytes(s + t) == Bytes(s) + Bytes(t)
  {
    if t == [] {
      assert s + t == s;
    } else {
      BytesAppend(s, t[..|t| - 1]);
      assert (s + t)[..|s + t| - 1] == s + t[..|t| - 1];
    }
  }

  // ---------- operations ----------

  predicate SubmitAccepts(q: State, bytes: nat) {
    && Len(q) < MAX_CAPTURES
    && bytes <= SaturatingSub(MAX_CAPTURE_BYTES, if q.bytes < 0 then 0 else q.bytes)
    && q.nextId < U64_MAX
  }

  function Submit(q: State, bytes: nat, settings: int): State {
    if !SubmitAccepts(q, bytes) then q else
    State(q.waiting + [Capture(q.nextId + 1, bytes, settings)], q.running, q.bytes + bytes, q.nextId + 1)
  }

  /** Drops place i by moving the last element there. */
  function SwapRemove<T>(s: seq<T>, i: nat): (r: seq<T>)
    requires i < |s|
    ensures |r| == |s| - 1
    ensures multiset(r) + multiset{s[i]} == multiset(s)
    ensures r[..i] == s[..i]
  {
    var last := |s| - 1;
    assert s == s[..last] + [s[last]];
    if i == last then s[..last] else s[..last][i := s[last]]
  }

  /** What a stretch of work leaves: the queue, and who left it in which order. */
  datatype Outcome = Outcome(queue: State, left: seq<Capture>)

  /** Collects the workers found finished, scanning from index; a worker is asked once. */
  function Collect(q: State, index: nat, finished: set<U64>): Outcome
    requires index <= |q.running|
    decreases |q.running| - index
  {
    if index == |q.running| then Outcome(q, [])
    else if q.running[index].id !in finished then Collect(q, index + 1, finished)
    else
      var done := q.running[index];
      var rest := Collect(q.(running := SwapRemove(q.running, index), bytes := q.bytes - done.bytes), index, finished);
      Outcome(rest.queue, [done] + rest.left)
  }

  /** Starts waiting captures in order while a worker is free; a refused start leaves at once. */
  function Launch(q: State, refused: set<U64>): Outcome
    decreases |q.waiting|
  {
    if SAVE_WORKERS <= |q.running| || q.waiting == [] then Outcome(q, [])
    else
      var job := q.waiting[0];
      if job.id in refused then
        var rest := Launch(q.(waiting := q.waiting[1..], bytes := q.bytes - job.bytes), refused);
        Outcome(rest.queue, [job] + rest.left)
      else
        Launch(q.(waiting := q.waiting[1..], running := q.running + [job]), refused)
  }

  function Poll(q: State, finished: set<U64>, refused: set<U64>): Outcome {
    var collected := Collect(q, 0, finished);
    var launched := Launch(collected.queue, refused);
    Outcome(launched.queue, collected.left + launched.left)
  }

  /** Waits for every running worker. */
  function Drain(q: State): Outcome {
    Outcome(q.(running := [], bytes := q.bytes - Bytes(q.running)), q.running)
  }

  /** An outcome with captures that had left before it. */
  function After(earlier: seq<Capture>, r: Outcome): Outcome {
    Outcome(r.queue, earlier + r.left)
  }

  lemma CollectStep(q: State, index: nat, finished: set<U64>, earlier: seq<Capture>)
    requires index < |q.running|
    ensures After(earlier, Collect(q, index, finished)) ==
      if q.running[index].id !in finished then After(earlier, Collect(q, index + 1, finished))
      else After(earlier + [q.running[index]], Collect(Collected(q, index), index, finished))
  {
    if q.running[index].id in finished {
      var rest := Collect(Collected(q, index), index, finished).left;
      assert earlier + ([q.running[index]] + rest) == earlier + [q.running[index]] + rest;
    }
  }

  lemma LaunchStep(q: State, refused: set<U64>, earlier: seq<Capture>)
    requires q.waiting != [] && |q.running| < SAVE_WORKERS
    ensures After(earlier, Launch(q, refused)) ==
      After(earlier + (if q.waiting[0].id in refused then [q.waiting[0]] else []), Launch(Tried(q, refused), refused))
  {
    if q.waiting[0].id in refused {
      var rest := Launch(Tried(q, refused), refused).left;
      assert earlier + ([q.waiting[0]] + rest) == earlier + [q.waiting[0]] + rest;
    }
  }

  // ---------- what holds at every reachable state ----------

  /** Ids are handed out in order: waiting ones are the newest, consecutive up to the last. */
  ghost predicate WaitingInOrder(q: State) {
    && |q.waiting| <= q.nextId
    && forall i :: 0 <= i < |q.waiting| ==> q.waiting[i].id == q.nextId - |q.waiting| + 1 + i
  }

  ghost predicate RunningApart(q: State) {
    && (forall i :: 0 <= i < |q.running| ==> 0 < q.running[i].id <= q.nextId - |q.waiting|)
    && (forall i, j :: 0 <= i < j < |q.running| ==> q.running[i].id != q.running[j].id)
  }

  ghost predicate Inv(q: State) {
    && q.bytes == Bytes(q.waiting) + Bytes(q.running)
    && q.bytes <= MAX_CAPTURE_BYTES
    && Len(q) <= MAX_CAPTURES
    && |q.running| <= SAVE_WORKERS
    && WaitingInOrder(q)
    && RunningApart(q)
  }

  lemma SubmitKeepsInv(q: State, bytes: nat, settings: int)
    requires Inv(q)
    ensures Inv(Submit(q, bytes, settings))
  {
    if SubmitAccepts(q, bytes) {
      BytesBack(q.waiting, Capture(q.nextId + 1, bytes, settings));
    }
  }

  /** A capture is accepted exactly while fewer than 32 are held, its bytes fit into 256 MiB with
      those held, and ids last; then it goes to the back under the next id. */
  lemma SubmitExactly(q: State, bytes: nat, settings: int)
    requires Inv(q)
    ensures
      var fits := |q.waiting| + |q.running| < 32 && Bytes(q.waiting) + Bytes(q.running) + bytes <= 268435456
                  && q.nextId < U64_MAX;
      && (SubmitAccepts(q, bytes) <==> fits)
      && (fits ==> Submit(q, bytes, settings) == State(
           q.waiting + [Capture(q.nextId + 1, bytes, settings)], q.running, q.bytes + bytes, q.nextId + 1))
      && (!fits ==> Submit(q, bytes, settings) == q)
  {
  }

  lemma BytesOne(c: Capture)
    ensures Bytes([c]) == c.bytes
  {
    assert [c][..0] == [];
  }

  lemma {:induction false} BytesUpdate(s: seq<Capture>, i: nat, c: Capture)
    requires i < |s|
    ensures Bytes(s[i := c]) == Bytes(s) - s[i].bytes + c.bytes
  {
    var last := |s| - 1;
    if i < last {
      BytesUpdate(s[..last], i, c);
      assert s[i := c][..last] == s[..last][i := c];
    } else {
      assert s[i := c][..last] == s[..last];
    }
  }

  lemma BytesSwapRemove(s: seq<Capture>, i: nat)
    requires i < |s|
    ensures Bytes(SwapRemove(s, i)) == Bytes(s) - s[i].bytes
  {
    if i < |s| - 1 {
      BytesUpdate(s[..|s| - 1], i, s[|s| - 1]);
    }
  }

  function Collected(q: State, index: nat): State
    requires index < |q.running|
  {
    q.(running := SwapRemove(q.running, index), bytes := q.bytes - q.running[index].bytes)
  }

  lemma CollectKeepsInvStep(q: State, index: nat)
    requires Inv(q) && index < |q.running|
    ensures Inv(Collected(q, index)) && q.running[index].bytes <= q.bytes
  {
    BytesSwapRemove(q.running, index);
  }

  lemma {:induction false} CollectKeepsInv(q: State, index: nat, finished: set<U64>)
    requires Inv(q) && index <= |q.running|
    ensures Inv(Collect(q, index, finished).queue)
    decreases |q.running| - index
  {
    if index < |q.running| {
      if q.running[index].id in finished {
        CollectKeepsInvStep(q, index);
        CollectKeepsInv(Collected(q, index), index, finished);
      } else {
        CollectKeepsInv(q, index + 1, finished);
      }
    }
  }

  lemma BytesFront(s: seq<Capture>)
    requires s != []
    ensures Bytes(s) == s[0].bytes + Bytes(s[1..])
  {
    assert s == [s[0]] + s[1..];
    BytesAppend([s[0]], s[1..]);
    BytesOne(s[0]);
  }

  lemma BytesBack(s: seq<Capture>, c: Capture)
    ensures Bytes(s + [c]) == Bytes(s) + c.bytes
  {
    assert (s + [c])[..|s|] == s;
  }

  lemma TriedBytes(q: State, refused: set<U64>)
    requires q.waiting != [] && q.bytes == Bytes(q.waiting) + Bytes(q.running)
    ensures Tried(q, refused).bytes == Bytes(Tried(q, refused).waiting) + Bytes(Tried(q, refused).running)
  {
    BytesFront(q.waiting);
    BytesBack(q.running, q.waiting[0]);
  }

  /** The oldest waiting capture is dropped. */
  lemma DropFirst(q: State)
    requires Inv(q) && q.waiting != []
    ensures q.bytes >= q.waiting[0].bytes
    ensures Inv(q.(waiting := q.waiting[1..], bytes := q.bytes - q.waiting[0].bytes))
  {
    BytesFront(q.waiting);
  }

  lemma RunFirstApart(q: State)
    requires WaitingInOrder(q) && RunningApart(q) && q.waiting != []
    ensures
      var r := q.(waiting := q.waiting[1..], running := q.running + [q.waiting[0]]);
      WaitingInOrder(r) && RunningApart(r)
  {
  }

  /** The oldest waiting capture starts running. */
  lemma RunFirst(q: State)
    requires Inv(q) && q.waiting != [] && |q.running| < SAVE_WORKERS
    ensures Inv(q.(waiting := q.waiting[1..], running := q.running + [q.waiting[0]]))
  {
    BytesFront(q.waiting);
    BytesBack(q.running, q.waiting[0]);
    RunFirstApart(q);
  }

  lemma {:induction false} LaunchKeepsInv(q: State, refused: set<U64>)
    requires Inv(q)
    ensures Inv(Launch(q, refused).queue)
    decreases |q.waiting|
  {
    if |q.running| < SAVE_WORKERS && q.waiting != [] {
      var job := q.waiting[0];
      if job.id in refused {
        DropFirst(q);
        LaunchKeepsInv(q.(waiting := q.waiting[1..], bytes := q.bytes - job.bytes), refused);
      } else {
        RunFirst(q);
        LaunchKeepsInv(q.(waiting := q.waiting[1..], running := q.running + [job]), refused);
      }
    }
  }

  lemma PollKeepsInv(q: State, finished: set<U64>, refused: set<U64>)
    requires Inv(q)
    ensures Inv(Poll(q, finished, refused).queue)
  {
    CollectKeepsInv(q, 0, finished);
    LaunchKeepsInv(Collect(q, 0, finished).queue, refused);
  }

  lemma DrainKeepsInv(q: State)
    requires Inv(q)
    ensures Inv(Drain(q).queue) && Drain(q).queue.running == []
  {
  }

  // ---------- what a poll does ----------

  lemma MultisetFront<T>(x: T, s: seq<T>)
    ensures multiset([x] + s) == multiset{x} + multiset(s)
  {
  }

  /** Each running capture either leaves or stays, exactly once. */
  lemma {:induction false} CollectConserves(q: State, index: nat, finished: set<U64>)
    requires index <= |q.running|
    ensures
      var r := Collect(q, index, finished);
      && multiset(r.left) + multiset(r.queue.running) == multiset(q.running)
      && r.queue.waiting == q.waiting && r.queue.nextId == q.nextId
    decreases |q.running| - index
  {
    if index < |q.running| {
      if q.running[index].id in finished {
        CollectConserves(Collected(q, index), index, finished);
        MultisetFront(q.running[index], Collect(Collected(q, index), index, finished).left);
      } else {
        CollectConserves(q, index + 1, finished);
      }
    }
  }

  /** Exactly those found finished leave: although removal moves the last one forward, the
      scan skips none. */
  lemma {:induction false} CollectFinds(q: State, index: nat, finished: set<U64>)
    requires index <= |q.running|
    ensures
      var r := Collect(q, index, finished);
      && (forall i :: 0 <= i < |r.left| ==> r.left[i].id in finished)
      && index <= |r.queue.running| && r.queue.running[..index] == q.running[..index]
      && (forall i :: index <= i < |r.queue.running| ==> r.queue.running[i].id !in finished)
    decreases |q.running| - index
  {
    if index < |q.running| {
      if q.running[index].id in finished {
        CollectFinds(Collected(q, index), index, finished);
      } else {
        CollectFinds(q, index + 1, finished);
        var r := Collect(q, index + 1, finished).queue.running;
        assert r[index] == r[..index + 1][index] == q.running[..index + 1][index];
        assert r[..index] == r[..index + 1][..index] == q.running[..index + 1][..index];
      }
    }
  }

  /** The queue after the oldest waiting capture was started, or was refused. */
  function Tried(q: State, refused: set<U64>): State
    requires q.waiting != []
  {
    if q.waiting[0].id in refused then q.(waiting := q.waiting[1..], bytes := q.bytes - q.waiting[0].bytes)
    else q.(waiting := q.waiting[1..], running := q.running + [q.waiting[0]])
  }

  /** Captures are taken up in the order they were accepted, until both workers are busy or
      none waits. */
  lemma {:induction false} LaunchInOrder(q: State, refused: set<U64>)
    ensures
      var r := Launch(q, refused);
      var taken := |q.waiting| - |r.queue.waiting|;
      && 0 <= taken && r.queue.waiting == q.waiting[taken..]
      && q.running <= r.queue.running
      && (SAVE_WORKERS <= |r.queue.running| || r.queue.waiting == [])
      && r.queue.nextId == q.nextId
    decreases |q.waiting|
  {
    if |q.running| < SAVE_WORKERS && q.waiting != [] {
      LaunchInOrder(Tried(q, refused), refused);
    }
  }

  /** Everything the queue holds. */
  function Held(q: State): multiset<Capture> {
    multiset(q.waiting) + multiset(q.running)
  }

  lemma TriedConserves(q: State, refused: set<U64>)
    requires q.waiting != []
    ensures Held(q) == (if q.waiting[0].id in refused then multiset{q.waiting[0]} else multiset{}) + Held(Tried(q, refused))
  {
    assert q.waiting == [q.waiting[0]] + q.waiting[1..];
    MultisetFront(q.waiting[0], q.waiting[1..]);
  }

  /** The captures started and those refused are the ones taken up, each exactly once. */
  lemma {:induction false} LaunchConserves(q: State, refused: set<U64>)
    ensures Held(q) == multiset(Launch(q, refused).left) + Held(Launch(q, refused).queue)
    decreases |q.waiting|
  {
    if |q.running| < SAVE_WORKERS && q.waiting != [] {
      TriedConserves(q, refused);
      LaunchConserves(Tried(q, refused), refused);
      if q.waiting[0].id in refused {
        MultisetFront(q.waiting[0], Launch(Tried(q, refused), refused).left);
      }
    }
  }

  /** Only refused captures leave without running, and no refused one runs. */
  lemma {:induction false} LaunchRefuses(q: State, refused: set<U64>)
    ensures
      var r := Launch(q, refused);
      && (forall i :: 0 <= i < |r.left| ==> r.left[i].id in refused)
      && |q.running| <= |r.queue.running|
      && (forall i :: |q.running| <= i < |r.queue.running| ==> r.queue.running[i].id !in refused)
    decreases |q.waiting|
  {
    if |q.running| < SAVE_WORKERS && q.waiting != [] {
      LaunchRefuses(Tried(q, refused), refused);
      LaunchInOrder(Tried(q, refused), refused);
    }
  }

  lemma MultisetAppend<T>(s: seq<T>, t: seq<T>)
    ensures multiset(s + t) == multiset(s) + multiset(t)
  {
  }

  lemma MultisetAppend3<T>(s: seq<T>, t: seq<T>, u: seq<T>)
    ensures multiset(s + t + u) == multiset(s) + (multiset(t) + multiset(u))
  {
    MultisetAppend(s, t);
    MultisetAppend(s + t, u);
  }

  /** A poll loses nothing and invents nothing. */
  lemma PollConserves(q: State, finished: set<U64>, refused: set<U64>)
    ensures Held(q) == multiset(Poll(q, finished, refused).left) + Held(Poll(q, finished, refused).queue)
  {
    var collected := Collect(q, 0, finished);
    CollectConserves(q, 0, finished);
    assert Held(q) == multiset(collected.left) + Held(collected.queue);
    LaunchConserves(collected.queue, refused);
    MultisetAppend(collected.left, Launch(collected.queue, refused).left);
  }

  /** Every worker finished by the time it is asked is collected by that very poll. */
  lemma PollCollectsFinished(q: State, finished: set<U64>, refused: set<U64>, c: Capture)
    requires c in q.running && c.id in finished
    ensures c in Poll(q, finished, refused).left
  {
    CollectConserves(q, 0, finished);
    CollectFinds(q, 0, finished);
    var r := Collect(q, 0, finished);
    assert c in multiset(q.running);
    assert c in multiset(r.left) + multiset(r.queue.running);
  }

  /** Nothing else leaves: a poll never waits for a worker that is still encoding. */
  lemma PollLeavesUnfinished(q: State, finished: set<U64>, refused: set<U64>, c: Capture)
    requires c in Poll(q, finished, refused).left
    ensures c.id in finished || c.id in refused
  {
    CollectFinds(q, 0, finished);
    LaunchRefuses(Collect(q, 0, finished).queue, refused);
  }

  /** After a poll both workers are busy or nothing waits. */
  lemma PollKeepsBusy(q: State, finished: set<U64>, refused: set<U64>)
    ensures SAVE_WORKERS <= |Poll(q, finished, refused).queue.running| || Poll(q, finished, refused).queue.waiting == []
  {
    LaunchInOrder(Collect(q, 0, finished).queue, refused);
  }

  // ---------- runs ----------

  datatype Event =
    | DoSubmit(bytes: nat, settings: int)
    | DoPoll(finished: set<U64>, refused: set<U64>)
    | DoDrain

  /** The queue and its history: the captures accepted, those taken up for a worker, and
      those that have left, each in order. */
  datatype Log = Log(queue: State, accepted: seq<Capture>, taken: seq<Capture>, left: seq<Capture>)

  const Initial := Log(EmptyQueue, [], [], [])

  /** The captures a poll takes off the waiting list. */
  function Taken(before: State, after: State): seq<Capture> {
    before.waiting[..SaturatingSub(|before.waiting|, |after.waiting|)]
  }

  function Step(h: Log, e: Event): Log {
    match e
    case DoSubmit(bytes, settings) =>
      if SubmitAccepts(h.queue, bytes) then
        h.(queue := Submit(h.queue, bytes, settings),
           accepted := h.accepted + [Capture(h.queue.nextId + 1, bytes, settings)])
      else h
    case DoPoll(finished, refused) =>
      var r := Poll(h.queue, finished, refused);
      h.(queue := r.queue, left := h.left + r.left, taken := h.taken + Taken(h.queue, r.queue))
    case DoDrain =>
      var r := Drain(h.queue);
      h.(queue := r.queue, left := h.left + r.left)
  }

  function Run(h: Log, es: seq<Event>): Log
    decreases |es|
  {
    if es == [] then h else Run(Step(h, es[0]), es[1..])
  }

  /** Captures are numbered and taken up in the order of acceptance. */
  ghost predicate InOrder(h: Log) {
    && h.taken + h.queue.waiting == h.accepted
    && |h.accepted| == h.queue.nextId
    && forall i :: 0 <= i < |h.accepted| ==> h.accepted[i].id == i + 1
  }

  /** Every accepted capture is either still held or has left, exactly once in all. */
  ghost predicate ExactlyOnce(h: Log) {
    multiset(h.accepted) == multiset(h.left) + Held(h.queue)
  }

  lemma PollInOrder(h: Log, finished: set<U64>, refused: set<U64>)
    requires InOrder(h)
    ensures InOrder(Step(h, DoPoll(finished, refused)))
  {
    CollectConserves(h.queue, 0, finished);
    LaunchInOrder(Collect(h.queue, 0, finished).queue, refused);
    var after := Poll(h.queue, finished, refused).queue;
    assert after.nextId == h.queue.nextId;
    assert Taken(h.queue, after) + after.waiting == h.queue.waiting;
    assert (h.taken + Taken(h.queue, after)) + after.waiting == h.taken + (Taken(h.queue, after) + after.waiting);
  }

  lemma SubmitInOrder(h: Log, bytes: nat, settings: int)
    requires InOrder(h)
    ensures InOrder(Step(h, DoSubmit(bytes, settings)))
  {
  }

  lemma StepInOrder(h: Log, e: Event)
    requires InOrder(h)
    ensures InOrder(Step(h, e))
  {
    match e
    case DoSubmit(bytes, settings) => SubmitInOrder(h, bytes, settings);
    case DoPoll(finished, refused) => PollInOrder(h, finished, refused);
    case DoDrain =>
  }

  lemma SubmitExactlyOnce(h: Log, bytes: nat, settings: int)
    requires ExactlyOnce(h)
    ensures ExactlyOnce(Step(h, DoSubmit(bytes, settings)))
  {
    if SubmitAccepts(h.queue, bytes) {
      var c := Capture(h.queue.nextId + 1, bytes, settings);
      MultisetAppend(h.accepted, [c]);
      MultisetAppend(h.queue.waiting, [c]);
    }
  }

  lemma LeavingExactlyOnce(h: Log, q: State, left: seq<Capture>)
    requires ExactlyOnce(h) && Held(h.queue) == multiset(left) + Held(q)
    ensures ExactlyOnce(h.(queue := q, left := h.left + left))
  {
    MultisetAppend(h.left, left);
  }

  lemma StepExactlyOnce(h: Log, e: Event)
    requires ExactlyOnce(h)
    ensures ExactlyOnce(Step(h, e))
  {
    match e
    case DoSubmit(bytes, settings) => SubmitExactlyOnce(h, bytes, settings);
    case DoPoll(finished, refused) =>
      PollConserves(h.queue, finished, refused);
      LeavingExactlyOnce(h, Poll(h.queue, finished, refused).queue, Poll(h.queue, finished, refused).left);
    case DoDrain =>
      LeavingExactlyOnce(h, Drain(h.queue).queue, h.queue.running);
  }

  lemma StepKeepsInv(h: Log, e: Event)
    requires Inv(h.queue)
    ensures Inv(Step(h, e).queue)
  {
    match e
    case DoSubmit(bytes, settings) => SubmitKeepsInv(h.queue, bytes, settings);
    case DoPoll(finished, refused) => PollKeepsInv(h.queue, finished, refused);
    case DoDrain => DrainKeepsInv(h.queue);
  }

  lemma {:induction false} RunKeeps(h: Log, es: seq<Event>)
    requires Inv(h.queue) && InOrder(h) && ExactlyOnce(h)
    ensures Inv(Run(h, es).queue) && InOrder(Run(h, es)) && ExactlyOnce(Run(h, es))
    decreases |es|
  {
    if es != [] {
      StepKeepsInv(h, es[0]);
      StepInOrder(h, es[0]);
      StepExactlyOnce(h, es[0]);
      RunKeeps(Step(h, es[0]), es[1..]);
    }
  }

  lemma StartKeeps(h: Log)
    requires h.accepted == [] && h.taken == [] && h.left == []
    requires h.queue.waiting == [] && h.queue.running == [] && h.queue.bytes == 0 && h.queue.nextId == 0
    ensures Inv(h.queue) && InOrder(h) && ExactlyOnce(h)
  {
  }

  /** After any run the bytes are exactly those of the captures held and within the budget,
      the limits hold, work was taken up in acceptance order, and every accepted capture is
      held or has left exactly once. */
  lemma QueueConserves(es: seq<Event>)
    ensures Inv(Run(Initial, es).queue) && InOrder(Run(Initial, es)) && ExactlyOnce(Run(Initial, es))
  {
    StartKeeps(Initial);
    RunKeeps(Initial, es);
  }

  lemma EmptyHoldsNothing(h: Log)
    requires Inv(h.queue) && InOrder(h) && ExactlyOnce(h) && Len(h.queue) == 0
    ensures multiset(h.left) == multiset(h.accepted) && h.queue.bytes == 0 && h.taken == h.accepted
  {
    assert h.queue.waiting == [] && h.queue.running == [];
  }

  /** So when the queue is empty, what has left is exactly what was accepted. */
  lemma EmptyMeansAllLeft(es: seq<Event>)
    requires Len(Run(Initial, es).queue) == 0
    ensures multiset(Run(Initial, es).left) == multiset(Run(Initial, es).accepted)
    ensures Run(Initial, es).queue.bytes == 0 && Run(Initial, es).taken == Run(Initial, es).accepted
  {
    QueueConserves(es);
    EmptyHoldsNothing(Run(Initial, es));
  }

  /** A poll followed by a wait leaves fewer captures than before. */
  lemma FinishRound(q: State, finished: set<U64>, refused: set<U64>)
    requires Inv(q) && Len(q) != 0
    ensures Len(Drain(Poll(q, finished, refused).queue).queue) < Len(q)
    ensures Poll(q, finished, refused).queue.nextId == q.nextId
  {
    CollectConserves(q, 0, finished);
    var collected := Collect(q, 0, finished).queue;
    CollectKeepsInv(q, 0, finished);
    LaunchInOrder(collected, refused);
    if q.running == [] {
      assert collected.waiting != [];
      if |Launch(collected, refused).queue.waiting| == |collected.waiting| {
        LaunchTakes(collected, refused);
      }
    }
  }

  lemma LaunchTakes(q: State, refused: set<U64>)
    requires q.waiting != [] && |q.running| < SAVE_WORKERS
    ensures |Launch(q, refused).queue.waiting| < |q.waiting|
  {
    LaunchInOrder(Tried(q, refused), refused);
  }

  // ---------- the object ----------

  class Queue {
    var waiting: seq<Capture>
    var running: seq<Capture>
    var bytes: nat
    var nextId: U64

    ghost function Now(): State
      reads this
    {
      State(waiting, running, bytes, nextId)
    }

    constructor ()
      ensures Now() == EmptyQueue && Inv(Now())
    {
      waiting, running, bytes, nextId := [], [], 0, 0;
    }

    method SubmitCapture(size: nat, settings: int) returns (r: Result<U64>)
      requires Inv(Now())
      modifies this
      ensures r == if SubmitAccepts(old(Now()), size) then Success(old(nextId) + 1) else Failure
      ensures Now() == Submit(old(Now()), size, settings) && Inv(Now())
    {
      SubmitKeepsInv(Now(), size, settings);
      r := AcceptCapture(size, settings);
    }

    method AcceptCapture(size: nat, settings: int) returns (r: Result<U64>)
      modifies this
      ensures r == if SubmitAccepts(old(Now()), size) then Success(old(nextId) + 1) else Failure
      ensures Now() == Submit(old(Now()), size, settings)
    {
      if |waiting| + |running| >= MAX_CAPTURES || size > SaturatingSub(MAX_CAPTURE_BYTES, bytes) {
        return Failure;
      }
      if nextId == U64_MAX {
        return Failure;
      }
      nextId := nextId + 1;
      bytes := bytes + size;
      waiting := waiting + [Capture(nextId, size, settings)];
      return Success(nextId);
    }

    /** Takes a worker off the list by moving the last one to its place. */
    method RemoveRunning(index: nat) returns (done: Capture)
      requires index < |running| && bytes == Bytes(waiting) + Bytes(running)
      modifies this`running, this`bytes
      ensures done == old(running)[index] && Now() == Collected(old(Now()), index)
      ensures bytes == Bytes(waiting) + Bytes(running)
    {
      BytesSwapRemove(running, index);
      done := running[index];
      running := SwapRemove(running, index);
      bytes := bytes - done.bytes;
    }

    /** Joins the workers found finished when asked. */
    method CollectFinished(finished: set<U64>) returns (completed: seq<Capture>)
      requires bytes == Bytes(waiting) + Bytes(running)
      modifies this`running, this`bytes
      ensures Collect(old(Now()), 0, finished) == Outcome(Now(), completed)
      ensures bytes == Bytes(waiting) + Bytes(running)
    {
      ghost var before := Now();
      completed := [];
      var index := 0;
      while index < |running|
        invariant index <= |running| && bytes == Bytes(waiting) + Bytes(running)
        invariant Collect(before, 0, finished) == After(completed, Collect(Now(), index, finished))
        decreases |running| - index
      {
        CollectStep(Now(), index, finished, completed);
        if running[index].id !in finished {
          index := index + 1;
          continue;
        }
        var done := RemoveRunning(index);
        completed := completed + [done];
      }
    }

    /** Starts the oldest waiting capture; if that is refused, it is returned. */
    method TryOldest(refused: set<U64>) returns (failed: seq<Capture>)
      requires waiting != [] && bytes == Bytes(waiting) + Bytes(running)
      modifies this`waiting, this`running, this`bytes
      ensures Now() == Tried(old(Now()), refused)
      ensures failed == if old(waiting)[0].id in refused then [old(waiting)[0]] else []
      ensures bytes == Bytes(waiting) + Bytes(running)
    {
      TriedBytes(Now(), refused);
      var job := waiting[0];
      waiting := waiting[1..];
      if job.id in refused {
        bytes := bytes - job.bytes;
        return [job];
      }
      running := running + [job];
      return [];
    }

    /** Starts waiting captures while a worker is free. */
    method LaunchWaiting(refused: set<U64>) returns (completed: seq<Capture>)
      requires bytes == Bytes(waiting) + Bytes(running)
      modifies this`waiting, this`running, this`bytes
      ensures Launch(old(Now()), refused) == Outcome(Now(), completed)
      ensures bytes == Bytes(waiting) + Bytes(running)
    {
      completed := [];
      while |running| < SAVE_WORKERS
        invariant bytes == Bytes(waiting) + Bytes(running)
        invariant Launch(old(Now()), refused) == After(completed, Launch(Now(), refused))
        decreases |waiting|
      {
        if waiting == [] {
          break;
        }
        LaunchStep(Now(), refused, completed);
        var failed := TryOldest(refused);
        completed := completed + failed;
      }
    }

    /** `finished` holds the workers found finished when asked, `refused` those the system
        would not start. */
    method PollWorkers(finished: set<U64>, refused: set<U64>) returns (completed: seq<Capture>)
      requires Inv(Now())
      modifies this
      ensures Poll(old(Now()), finished, refused) == Outcome(Now(), completed) && Inv(Now())
    {
      PollKeepsInv(Now(), finished, refused);
      completed := CollectFinished(finished);
      var failed := LaunchWaiting(refused);
      completed := completed + failed;
    }

    /** Waits for the running workers, one by one. */
    method DrainRunning() returns (joined: seq<Capture>)
      requires Inv(Now())
      modifies this`running, this`bytes
      ensures Drain(old(Now())) == Outcome(Now(), joined) && Inv(Now())
    {
      joined := running;
      DrainKeepsInv(Now());
      ghost var before := bytes;
      var i := |running|;
      assert joined[..i] == joined;
      while 0 < i
        invariant 0 <= i <= |joined| && running == joined && waiting == old(waiting) && nextId == old(nextId)
        invariant bytes == Bytes(waiting) + Bytes(joined[..i])
      {
        i := i - 1;
        assert joined[..i + 1][..i] == joined[..i];
        bytes := bytes - joined[i].bytes;
      }
      running := [];
    }

    /** Shutdown: polls and waits until nothing is held. `rounds` tells what each poll finds. */
    method Finish(finished: nat -> set<U64>, refused: nat -> set<U64>) returns (left: seq<Capture>)
      requires Inv(Now())
      modifies this
      ensures Now() == State([], [], 0, old(nextId))
      ensures multiset(left) == Held(old(Now()))
    {
      left := [];
      var round := 0;
      while |waiting| + |running| != 0
        invariant Inv(Now()) && nextId == old(nextId)
        invariant multiset(left) + Held(Now()) == Held(old(Now()))
        decreases |waiting| + |running|
      {
        ghost var before := Now();
        FinishRound(before, finished(round), refused(round));
        var completed := PollWorkers(finished(round), refused(round));
        PollConserves(before, finished(round), refused(round));
        var joined := DrainRunning();
        MultisetAppend3(left, completed, joined);
        left := left + completed + joined;
        round := round + 1;
      }
    }
  }
}

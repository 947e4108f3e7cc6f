/**
 Catalogue information for the recording being played: a request follows the active
 recording, and whatever is shown or still being fetched belongs to it.
 */
module ProgramFallback {
  import opened Common
  import opened Jobs

  type Key = string

  type Information = string

  /** A request for one recording; a seed makes a fetch unnecessary. */
  datatype Request = Request(key: Key, seed: Option<Information>)

  datatype Work = Resting | Working(job: JobId) | Leaving(stopping: JobId)

  /** Each change of recording is a new activation; the number tells which one a fetch or
      some information belongs to, and the program itself does not keep it. */
  datatype Task = Task(request: Request, activation: nat)

  datatype Shown = Shown(information: Information, activation: nat)

  datatype State = State(
    key: Option<Key>,
    pending: Option<Task>,
    work: Work,
    data: Option<Shown>,
    activation: nat)

  type Workers = seq<Worker<Task, Result<Information>>>

  datatype World = World(state: State, workers: Workers)

  const Initial := World(State(None, None, Resting, None, 0), [])

  function KeyOf(request: Option<Request>): Option<Key> {
    if request.Some? then Some(request.value.key) else None
  }

  function Configure(w: World, request: Option<Request>): World {
    var s := w.state;
    if s.key == KeyOf(request) then w else
    var activation := s.activation + 1;
    w.(state := State(
      KeyOf(request),
      if request.Some? && request.value.seed.None? then Some(Task(request.value, activation)) else None,
      if s.work.Working? then Leaving(s.work.job) else s.work,
      if request.Some? && request.value.seed.Some? then Some(Shown(request.value.seed.value, activation)) else None,
      activation))
  }

  ghost predicate InRange(w: World) {
    match w.state.work
    case Resting => true
    case Working(job) => job < |w.workers|
    case Leaving(stopping) => stopping < |w.workers|
  }

  /** Takes the outcome of the worker, if it has finished. */
  function Collect(w: World): State
    requires InRange(w)
  {
    match w.state.work
    case Resting => w.state
    case Leaving(stopping) =>
      if w.workers[stopping].Running? then w.state else w.state.(work := Resting)
    case Working(job) =>
      match PollJob(w.workers, job)
      case Waiting => w.state
      case Complete(Success(information)) =>
        w.state.(work := Resting, data := Some(Shown(information, w.workers[job].task.activation)))
      case Complete(Failure) => w.state.(work := Resting)
  }

  /** Starts the pending fetch once nothing is running; without a network it is dropped. */
  function Launch(s: State, workers: Workers, network: bool): World {
    if s.work.Resting? && s.pending.Some? then
      if network then
        World(s.(pending := None, work := Working(|workers|)), workers + [Running(s.pending.value)])
      else World(s.(pending := None), workers)
    else World(s, workers)
  }

  function Poll(w: World, network: bool): World
    requires InRange(w)
  {
    Launch(Collect(w), w.workers, network)
  }

  /** What the viewer shows: broadcast information first, then the recording's own. */
  datatype Projection = Disabled | Broadcast(information: Information) | Available(information: Information) | Nothing

  function Project(s: State, enabled: bool, broadcast: Option<Information>): Projection {
    if !enabled then Disabled
    else if broadcast.Some? then Broadcast(broadcast.value)
    else if s.data.Some? then Available(s.data.value.information)
    else Nothing
  }

  // ---------- steps and runs ----------

  datatype Event =
    | DoConfigure(request: Option<Request>)
    | DoPoll(network: bool)
    | WorkerEnds(id: nat, sent: Option<Result<Information>>)

  function EndWorker(w: World, id: nat, sent: Option<Result<Information>>): World {
    if id < |w.workers| && w.workers[id].Running? then
      w.(workers := w.workers[id := Finished(w.workers[id].task, sent)])
    else w
  }

  function Step(w: World, e: Event): World
    requires InRange(w)
  {
    match e
    case DoConfigure(request) => Configure(w, request)
    case DoPoll(network) => Poll(w, network)
    case WorkerEnds(id, sent) => EndWorker(w, id, sent)
  }

  function Handle(work: Work): Option<JobId> {
    match work
    case Resting => None
    case Working(job) => Some(job)
    case Leaving(stopping) => Some(stopping)
  }

  /** Whether a fetch is for the active recording, in its present activation. */
  ghost predicate Belongs(s: State, task: Task) {
    task.activation == s.activation && s.key == Some(task.request.key) && task.request.seed.None?
  }

  ghost predicate Inv(w: World) {
    var s := w.state;
    && InRange(w)
    && OnlyLive(w.workers, Handle(s.work))
    && (s.work.Working? ==> Belongs(s, w.workers[s.work.job].task) && s.pending.None?)
    && (s.pending.Some? ==> Belongs(s, s.pending.value))
    && (s.data.Some? ==> s.data.value.activation == s.activation && s.key.Some?)
    && (forall i :: 0 <= i < |w.workers| ==> w.workers[i].task.activation <= s.activation)
    && (s.pending.Some? ==> forall i :: 0 <= i < |w.workers| ==> w.workers[i].task.activation < s.activation)
    && (forall i, j :: 0 <= i < j < |w.workers| ==> w.workers[i].task.activation < w.workers[j].task.activation)
  }

  lemma ConfigureKeepsInv(w: World, request: Option<Request>)
    requires Inv(w)
    ensures Inv(Configure(w, request))
  {
  }

  lemma CollectKeepsInv(w: World)
    requires Inv(w)
    ensures Inv(World(Collect(w), w.workers))
  {
  }

  lemma LaunchKeepsInv(w: World, network: bool)
    requires Inv(w)
    ensures Inv(Launch(w.state, w.workers, network))
  {
  }

  lemma PollKeepsInv(w: World, network: bool)
    requires Inv(w)
    ensures Inv(Poll(w, network))
  {
    CollectKeepsInv(w);
    LaunchKeepsInv(World(Collect(w), w.workers), network);
  }

  lemma EndKeepsInv(w: World, id: nat, sent: Option<Result<Information>>)
    requires Inv(w)
    ensures Inv(EndWorker(w, id, sent))
  {
  }

  ghost function Advance(w: World, e: Event): (r: World)
    requires Inv(w)
    ensures Inv(r) && r == Step(w, e)
  {
    match e
    case DoConfigure(request) => ConfigureKeepsInv(w, request); Configure(w, request)
    case DoPoll(network) => PollKeepsInv(w, network); Poll(w, network)
    case WorkerEnds(id, sent) => EndKeepsInv(w, id, sent); EndWorker(w, id, sent)
  }

  ghost function Run(w: World, es: seq<Event>): (r: World)
    requires Inv(w)
    ensures Inv(r)
    decreases |es|
  {
    if es == [] then w else Run(Advance(w, es[0]), es[1..])
  }

  /** The request that made the present activation, read off the events alone: the last one
      naming another recording than the one before it. */
  function Configured(active: Option<Request>, es: seq<Event>): Option<Request>
    decreases |es|
  {
    if es == [] then active else Configured(NowConfigured(active, es[0]), es[1..])
  }

  function NowConfigured(active: Option<Request>, e: Event): Option<Request> {
    if e.DoConfigure? && KeyOf(e.request) != KeyOf(active) then e.request else active
  }

  /** The state shows and works on the active request, and on nothing else. */
  ghost predicate Follows(w: World, active: Option<Request>) {
    var s := w.state;
    && s.key == KeyOf(active)
    && (s.pending.Some? ==> active == Some(s.pending.value.request))
    && (forall i :: 0 <= i < |w.workers| && w.workers[i].task.activation == s.activation ==>
          active == Some(w.workers[i].task.request))
    && (s.data.Some? ==>
          && active.Some?
          && (active.value.seed == Some(s.data.value.information) || Reported(w, s.data.value.information)))
    && (active.Some? && active.value.seed.Some? ==>
          s.data.Some? && s.data.value.information == active.value.seed.value)
  }

  /** A worker of the present activation reported the information. */
  ghost predicate Reported(w: World, information: Information) {
    exists i :: 0 <= i < |w.workers| && w.workers[i].task.activation == w.state.activation
                && w.workers[i].Finished? && w.workers[i].sent == Some(Success(information))
  }

  lemma PollFollows(w: World, active: Option<Request>, network: bool)
    requires Inv(w) && Follows(w, active)
    ensures Follows(Poll(w, network), active)
  {
    var s := Collect(w);
    var w' := Poll(w, network);
    if s.data.Some? && active.value.seed != Some(s.data.value.information) {
      assert Reported(w, s.data.value.information);
      var i :| 0 <= i < |w.workers| && w.workers[i].task.activation == w.state.activation
               && w.workers[i].Finished? && w.workers[i].sent == Some(Success(s.data.value.information));
      assert w'.workers[i] == w.workers[i];
    }
  }

  lemma EndFollows(w: World, active: Option<Request>, id: nat, sent: Option<Result<Information>>)
    requires Inv(w) && Follows(w, active)
    ensures Follows(EndWorker(w, id, sent), active)
  {
    var w' := EndWorker(w, id, sent);
    if w.state.data.Some? && active.value.seed != Some(w.state.data.value.information) {
      var i :| 0 <= i < |w.workers| && w.workers[i].task.activation == w.state.activation
               && w.workers[i].Finished? && w.workers[i].sent == Some(Success(w.state.data.value.information));
      assert w'.workers[i] == w.workers[i];
    }
  }

  lemma {:induction false} RunFollows(w: World, active: Option<Request>, es: seq<Event>)
    requires Inv(w) && Follows(w, active)
    ensures Follows(Run(w, es), Configured(active, es))
    decreases |es|
  {
    if es != [] {
      match es[0] {
        case DoConfigure(request) =>
        case DoPoll(network) => PollFollows(w, active, network);
        case WorkerEnds(id, sent) => EndFollows(w, active, id, sent);
      }
      RunFollows(Advance(w, es[0]), NowConfigured(active, es[0]), es[1..]);
    }
  }

  /** In every interleaving the information shown is the seed of the recording being played
      or what its own fetch reported, never another recording's and never left over from an
      earlier time the same recording was played. */
  lemma ShowsCurrentRecording(es: seq<Event>)
    ensures Follows(Run(Initial, es), Configured(None, es))
  {
    RunFollows(Initial, None, es);
  }

  /** So what the viewer presents as the recording's own information, which it does only when
      the feature is on and the broadcast has none, is that of the recording being played. */
  lemma ViewerSeesCurrent(es: seq<Event>, enabled: bool, broadcast: Option<Information>)
    ensures
      var w, active := Run(Initial, es), Configured(None, es);
      var shown := Project(w.state, enabled, broadcast);
      shown.Available? ==>
        && enabled && broadcast.None? && active.Some?
        && (active.value.seed == Some(shown.information) || Reported(w, shown.information))
  {
    ShowsCurrentRecording(es);
  }

  /** The running job and the pending request belong to the present activation, at most one
      worker runs, and no activation ever gets a second fetch. */
  lemma OneFetchPerActivation(es: seq<Event>)
    ensures
      var w := Run(Initial, es);
      && (w.state.work.Working? ==> Belongs(w.state, w.workers[w.state.work.job].task))
      && (w.state.pending.Some? ==> Belongs(w.state, w.state.pending.value))
      && (forall i, j :: 0 <= i < j < |w.workers| ==> w.workers[i].Finished? || w.workers[j].Finished?)
      && (forall i, j :: 0 <= i < j < |w.workers| ==> w.workers[i].task.activation != w.workers[j].task.activation)
  {
  }

  /** A recording without a seed gets its fetch as soon as the old worker has finished. */
  lemma PendingIsFetched(w: World)
    requires Inv(w) && w.state.pending.Some?
    requires forall i :: 0 <= i < |w.workers| ==> w.workers[i].Finished?
    ensures
      var w' := Poll(w, true);
      && w'.state.work == Working(|w.workers|)
      && w'.workers == w.workers + [Running(w.state.pending.value)]
  {
  }

  function Changes(active: Option<Request>, es: seq<Event>): nat
    decreases |es|
  {
    if es == [] then 0
    else (if es[0].DoConfigure? && KeyOf(es[0].request) != KeyOf(active) then 1 else 0)
         + Changes(NowConfigured(active, es[0]), es[1..])
  }

  lemma StepActivates(w: World, active: Option<Request>, e: Event)
    requires Inv(w) && w.state.key == KeyOf(active)
    ensures Step(w, e).state.key == KeyOf(NowConfigured(active, e))
    ensures Step(w, e).state.activation ==
      w.state.activation + if e.DoConfigure? && KeyOf(e.request) != KeyOf(active) then 1 else 0
  {
  }

  lemma {:induction false} RunActivations(w: World, active: Option<Request>, es: seq<Event>)
    requires Inv(w) && w.state.key == KeyOf(active)
    ensures Run(w, es).state.activation == w.state.activation + Changes(active, es)
    decreases |es|
  {
    if es != [] {
      StepActivates(w, active, es[0]);
      RunActivations(Advance(w, es[0]), NowConfigured(active, es[0]), es[1..]);
    }
  }

  /** Only a change of recording is a new activation: configuring the same one again leaves
      everything as it is. */
  lemma ActivationsExactly(es: seq<Event>, request: Option<Request>)
    ensures Run(Initial, es).state.activation == Changes(None, es)
    ensures KeyOf(request) == KeyOf(Configured(None, es)) ==> Configure(Run(Initial, es), request) == Run(Initial, es)
  {
    RunActivations(Initial, None, es);
    ShowsCurrentRecording(es);
  }

  // ---------- fetched information is shown ----------

  /** The outcome of worker i has been taken by a poll. */
  predicate Taken(w: World, i: nat)
    requires i < |w.workers|
  {
    w.workers[i].Finished? && w.state.work != Working(i)
  }

  /** The worker of the present activation that was taken, if there is one, reported this. */
  ghost predicate Fetched(w: World, information: Information) {
    exists i: nat :: i < |w.workers| && FetchedBy(w, i, information)
  }

  ghost predicate FetchedBy(w: World, i: nat, information: Information)
    requires i < |w.workers|
  {
    w.workers[i].task.activation == w.state.activation && Taken(w, i) && w.workers[i].sent == Some(Success(information))
  }

  /** What is shown is the seed, or else exactly what a taken worker of the present activation
      reported; such a worker is being worked on or has been taken. */
  ghost predicate ShowsFetched(w: World, active: Option<Request>) {
    && (forall i: nat :: i < |w.workers| && w.workers[i].task.activation == w.state.activation ==>
          w.state.work == Working(i) || Taken(w, i))
    && (active.Some? && active.value.seed.None? ==>
          && (forall i: nat, information :: i < |w.workers| && FetchedBy(w, i, information) ==>
                w.state.data == Some(Shown(information, w.state.activation))))
  }

  lemma ConfigureShows(w: World, active: Option<Request>, request: Option<Request>)
    requires Inv(w) && Follows(w, active) && ShowsFetched(w, active)
    ensures ShowsFetched(Configure(w, request), if KeyOf(request) != KeyOf(active) then request else active)
  {
  }

  lemma CollectShows(w: World, active: Option<Request>)
    requires Inv(w) && Follows(w, active) && ShowsFetched(w, active)
    ensures ShowsFetched(World(Collect(w), w.workers), active)
  {
    var w' := World(Collect(w), w.workers);
    forall i: nat, information | i < |w.workers| && FetchedBy(w', i, information) && active.Some? && active.value.seed.None?
      ensures w'.state.data == Some(Shown(information, w'.state.activation))
    {
      if w.state.work != Working(i) {
        assert FetchedBy(w, i, information);
      }
    }
  }

  lemma LaunchShows(w: World, active: Option<Request>, network: bool)
    requires Inv(w) && ShowsFetched(w, active)
    ensures ShowsFetched(Launch(w.state, w.workers, network), active)
  {
    var w' := Launch(w.state, w.workers, network);
    forall i: nat, information | i < |w'.workers| && FetchedBy(w', i, information) && active.Some? && active.value.seed.None?
      ensures w'.state.data == Some(Shown(information, w'.state.activation))
    {
      assert FetchedBy(w, i, information);
    }
  }

  lemma EndShows(w: World, active: Option<Request>, id: nat, sent: Option<Result<Information>>)
    requires Inv(w) && ShowsFetched(w, active)
    ensures ShowsFetched(EndWorker(w, id, sent), active)
  {
    var w' := EndWorker(w, id, sent);
    forall i: nat, information | i < |w'.workers| && FetchedBy(w', i, information) && active.Some? && active.value.seed.None?
      ensures w'.state.data == Some(Shown(information, w'.state.activation))
    {
      assert w'.workers[i] == w.workers[i];
      assert FetchedBy(w, i, information);
    }
  }

  lemma StepShows(w: World, active: Option<Request>, e: Event)
    requires Inv(w) && Follows(w, active) && ShowsFetched(w, active)
    ensures ShowsFetched(Advance(w, e), NowConfigured(active, e)) && Follows(Advance(w, e), NowConfigured(active, e))
  {
    match e
    case DoConfigure(request) => ConfigureShows(w, active, request);
    case DoPoll(network) =>
      PollFollows(w, active, network);
      CollectShows(w, active);
      CollectKeepsInv(w);
      LaunchShows(World(Collect(w), w.workers), active, network);
    case WorkerEnds(id, sent) =>
      EndFollows(w, active, id, sent);
      EndShows(w, active, id, sent);
  }

  lemma {:induction false} RunShows(w: World, active: Option<Request>, es: seq<Event>)
    requires Inv(w) && Follows(w, active) && ShowsFetched(w, active)
    ensures ShowsFetched(Run(w, es), Configured(active, es)) && Follows(Run(w, es), Configured(active, es))
    decreases |es|
  {
    if es != [] {
      StepShows(w, active, es[0]);
      RunShows(Advance(w, es[0]), NowConfigured(active, es[0]), es[1..]);
    }
  }

  /** At any moment of any run the recording's own information is shown if and only if it is its
      seed or, without one, what its own fetch has reported to a poll; and then the viewer
      presents exactly that when the feature is on and the broadcast has none. */
  lemma FetchedIsShown(es: seq<Event>, information: Information, broadcast: Option<Information>)
    ensures
      var w, active := Run(Initial, es), Configured(None, es);
      var own := active.Some? && (if active.value.seed.Some? then active.value.seed.value == information
                                  else Fetched(w, information));
      && (w.state.data.Some? && w.state.data.value.information == information <==> own)
      && (own ==> Project(w.state, true, None) == Available(information))
      && Project(w.state, false, broadcast) == Disabled
      && (broadcast.Some? ==> Project(w.state, true, broadcast) == Broadcast(broadcast.value))
  {
    var w, active := Run(Initial, es), Configured(None, es);
    RunShows(Initial, None, es);
    if w.state.data.Some? && w.state.data.value.information == information && active.value.seed.None? {
      var i: nat :| i < |w.workers| && w.workers[i].task.activation == w.state.activation
               && w.workers[i].Finished? && w.workers[i].sent == Some(Success(information));
      TakenWhenShown(es, i);
      assert FetchedBy(w, i, information);
    }
  }

  /** While a worker of the present activation is not taken, nothing fetched is shown. */
  ghost predicate NothingYet(w: World) {
    w.state.work.Working? || w.state.pending.Some? ==> w.state.data.None?
  }

  lemma {:induction false} RunNothingYet(w: World, es: seq<Event>)
    requires Inv(w) && NothingYet(w)
    ensures NothingYet(Run(w, es))
    decreases |es|
  {
    if es != [] {
      RunNothingYet(Advance(w, es[0]), es[1..]);
    }
  }

  lemma TakenWhenShown(es: seq<Event>, i: nat)
    requires i < |Run(Initial, es).workers| && Run(Initial, es).state.data.Some? && Run(Initial, es).workers[i].Finished?
    ensures Taken(Run(Initial, es), i)
  {
    RunNothingYet(Initial, es);
  }

  // ---------- every recording is fetched ----------

  /** The active recording without a seed waits for its fetch or has got it. */
  ghost predicate Provided(w: World, active: Option<Request>) {
    active.Some? && active.value.seed.None? ==>
      || w.state.pending == Some(Task(active.value, w.state.activation))
      || exists i :: 0 <= i < |w.workers| && w.workers[i].task == Task(active.value, w.state.activation)
  }

  lemma PollProvides(w: World, active: Option<Request>)
    requires Inv(w) && Follows(w, active) && Provided(w, active)
    ensures Provided(Poll(w, true), active)
  {
    var w' := Poll(w, true);
    assert |w.workers| <= |w'.workers| && forall i :: 0 <= i < |w.workers| ==> w'.workers[i] == w.workers[i];
    if active.Some? && active.value.seed.None? {
      if w.state.pending.Some? && w'.state.pending.None? {
        assert w'.workers[|w.workers|].task == w.state.pending.value;
      } else if w.state.pending.None? {
        var i :| 0 <= i < |w.workers| && w.workers[i].task == Task(active.value, w.state.activation);
        assert w'.workers[i].task == Task(active.value, w'.state.activation);
      }
    }
  }

  lemma EndProvides(w: World, active: Option<Request>, id: nat, sent: Option<Result<Information>>)
    requires Provided(w, active)
    ensures Provided(EndWorker(w, id, sent), active)
  {
    var w' := EndWorker(w, id, sent);
    assert forall i :: 0 <= i < |w.workers| ==> w'.workers[i].task == w.workers[i].task;
  }

  lemma {:induction false} RunProvides(w: World, active: Option<Request>, es: seq<Event>)
    requires Inv(w) && Follows(w, active) && ShowsFetched(w, active) && Provided(w, active)
    requires forall i :: 0 <= i < |es| && es[i].DoPoll? ==> es[i].network
    ensures Provided(Run(w, es), Configured(active, es))
    decreases |es|
  {
    if es != [] {
      StepShows(w, active, es[0]);
      match es[0] {
        case DoConfigure(request) =>
        case DoPoll(network) => PollProvides(w, active);
        case WorkerEnds(id, sent) => EndProvides(w, active, id, sent);
      }
      RunProvides(Advance(w, es[0]), NowConfigured(active, es[0]), es[1..]);
    }
  }

  /** With a network, the active recording has its request pending or fetched at any moment:
      none is ever left without a fetch. */
  lemma EveryRecordingIsFetched(es: seq<Event>)
    requires forall i :: 0 <= i < |es| && es[i].DoPoll? ==> es[i].network
    ensures Provided(Run(Initial, es), Configured(None, es))
  {
    RunProvides(Initial, None, es);
  }

  /** A poll leaves a pending request alone while the old worker runs, and otherwise starts its
      fetch or, without a network, gives it up. */
  lemma PollTakesPending(w: World, network: bool)
    requires Inv(w) && w.state.pending.Some?
    ensures
      var free := forall i :: 0 <= i < |w.workers| ==> w.workers[i].Finished?;
      && Poll(w, network).state.pending == (if free then None else w.state.pending)
      && Poll(w, network).workers == w.workers + (if free && network then [Running(w.state.pending.value)] else [])
  {
    if w.state.work.Leaving? {
      assert w.workers[w.state.work.stopping].Running? ==> !(forall i :: 0 <= i < |w.workers| ==> w.workers[i].Finished?);
    }
  }

  // ---------- the objects ----------

  class Network {
    var workers: Workers

    constructor ()
      ensures workers == []
    {
      workers := [];
    }

    method Start(task: Task) returns (job: JobId)
      modifies this
      ensures job == |old(workers)| && workers == old(workers) + [Running(task)]
    {
      job := |workers|;
      workers := workers + [Running(task)];
    }
  }

  class Fallback {
    var key: Option<Key>
    var pending: Option<Task>
    var work: Work
    var data: Option<Shown>
    var activation: nat

    ghost function Now(network: Network): World
      reads this, network
    {
      World(State(key, pending, work, data, activation), network.workers)
    }

    constructor (network: Network)
      requires network.workers == []
      ensures Now(network) == Initial && Inv(Now(network))
    {
      key, pending, work, data, activation := None, None, Resting, None, 0;
    }

    method Follow(network: Network, request: Option<Request>)
      requires Inv(Now(network))
      modifies this
      ensures Now(network) == Configure(old(Now(network)), request) && Inv(Now(network))
    {
      ConfigureKeepsInv(Now(network), request);
      if key == KeyOf(request) {
        return;
      }
      activation := activation + 1;
      if work.Working? {
        work := Leaving(work.job);
      }
      key, data, pending := None, None, None;
      if request.Some? {
        key := Some(request.value.key);
        if request.value.seed.Some? {
          data := Some(Shown(request.value.seed.value, activation));
        } else {
          pending := Some(Task(request.value, activation));
        }
      }
    }

    /** A poll without a network drops the pending request. */
    method PollWorker(network: Network, online: bool)
      requires Inv(Now(network))
      modifies this, network
      ensures Now(network) == Poll(old(Now(network)), online) && Inv(Now(network))
    {
      PollKeepsInv(Now(network), online);
      match work {
        case Resting =>
        case Working(job) =>
          var progress := PollJob(network.workers, job);
          if progress.Complete? {
            if progress.result.Success? {
              data := Some(Shown(progress.result.value, network.workers[job].task.activation));
            }
            work := Resting;
          }
        case Leaving(stopping) =>
          if network.workers[stopping].Finished? {
            work := Resting;
          }
      }
      if work.Resting? && pending.Some? {
        var task := pending.value;
        pending := None;
        if online {
          var job := network.Start(task);
          work := Working(job);
        }
      }
    }
  }
}

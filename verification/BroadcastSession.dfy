/** The host's session protocol: which frames reach the browser, and when a page must go. */
module BroadcastSession {
  import opened Common

  datatype State = Fresh | Snapshot | Live | Stopped

  type Epoch = string

  /** Frames as received; an epoch that is not text is absent. */
  datatype Frame<+M> =
    | FaultFrame
    | BeginFrame(version: int, begins: Option<Epoch>)
    | UpdateFrame(epoch: Option<Epoch>, message: M)
    | ReadyFrame(epoch: Option<Epoch>)
    | UnknownFrame(epoch: Option<Epoch>)

  datatype Effect<+M> = Nothing | Fault | Restart | Update(message: M) | Ready | Throw

  datatype Session = Session(state: State, epoch: Option<Epoch>)

  const Unopened := Session(Fresh, None)

  function EpochOf<M>(f: Frame<M>): Option<Epoch> {
    match f
    case UpdateFrame(epoch, _) => epoch
    case ReadyFrame(epoch) => epoch
    case UnknownFrame(epoch) => epoch
    case BeginFrame(_, begins) => begins
    case FaultFrame => None
  }

  function Receive<M>(s: Session, f: Frame<M>): (Session, Effect<M>) {
    if s.state.Stopped? then (s, Nothing)
    else if f.FaultFrame? then (s.(state := Stopped), Fault)
    else if f.BeginFrame? then
      if f.version != 1 || f.begins.None? then (s, Throw)
      else if !s.state.Fresh? then (s.(state := Stopped), Restart)
      else (Session(Snapshot, f.begins), Nothing)
    else if s.state.Fresh? || EpochOf(f).None? then (s, Throw)
    else if EpochOf(f) != s.epoch then (s, Nothing)
    else if f.UpdateFrame? then (s, Update(f.message))
    else if f.ReadyFrame? && s.state.Snapshot? then (s.(state := Live), Ready)
    else (s, Throw)
  }

  /** The session after the first n frames. */
  function At<M>(fs: seq<Frame<M>>, n: nat): Session
    requires n <= |fs|
  {
    if n == 0 then Unopened else Receive(At(fs, n - 1), fs[n - 1]).0
  }

  function EffectAt<M>(fs: seq<Frame<M>>, k: nat): Effect<M>
    requires k < |fs|
  {
    Receive(At(fs, k), fs[k]).1
  }

  ghost predicate Opens<M>(fs: seq<Frame<M>>, b: int) {
    0 <= b < |fs| && At(fs, b).state.Fresh? && fs[b].BeginFrame? && fs[b].version == 1 && fs[b].begins.Some?
  }

  /** An opened session was opened by one frame, whose epoch it keeps. */
  lemma {:induction false} Opened<M>(fs: seq<Frame<M>>, n: nat) returns (b: nat)
    requires n <= |fs| && (At(fs, n).state.Snapshot? || At(fs, n).state.Live?)
    ensures b < n && Opens(fs, b) && At(fs, n).epoch == fs[b].begins
  {
    b := n - 1;
    if At(fs, n - 1).state.Snapshot? || At(fs, n - 1).state.Live? {
      b := Opened(fs, n - 1);
    }
  }

  /** Whatever reaches the browser was sent after the session opened, for its own epoch. */
  lemma DeliveredInEpoch<M>(fs: seq<Frame<M>>, k: nat) returns (b: nat)
    requires k < |fs| && (EffectAt(fs, k).Update? || EffectAt(fs, k).Ready?)
    ensures b < k && Opens(fs, b) && EpochOf(fs[k]) == fs[b].begins
  {
    b := Opened(fs, k);
  }

  function Rank(s: State): nat {
    match s
    case Fresh => 0
    case Snapshot => 1
    case Live => 2
    case Stopped => 3
  }

  lemma {:induction false} RankGrows<M>(fs: seq<Frame<M>>, m: nat, n: nat)
    requires m <= n <= |fs|
    ensures Rank(At(fs, m).state) <= Rank(At(fs, n).state)
    decreases n - m
  {
    if m < n {
      RankGrows(fs, m, n - 1);
    }
  }

  /** The page becomes ready at most once. */
  lemma ReadyOnce<M>(fs: seq<Frame<M>>, j: nat, k: nat)
    requires j < k < |fs| && EffectAt(fs, j).Ready?
    ensures !EffectAt(fs, k).Ready?
  {
    RankGrows(fs, j + 1, k);
  }

  /** After a fault or a restart request nothing has any effect. */
  lemma StoppedForGood<M>(fs: seq<Frame<M>>, j: nat, k: nat)
    requires j < k < |fs| && (EffectAt(fs, j).Fault? || EffectAt(fs, j).Restart?)
    ensures EffectAt(fs, k).Nothing?
  {
    RankGrows(fs, j + 1, k);
  }

  /** A second valid begin always asks for a fresh page. */
  lemma SecondBeginRestarts<M>(fs: seq<Frame<M>>, b: nat, k: nat)
    requires b < k < |fs| && Opens(fs, b)
    requires fs[k].BeginFrame? && fs[k].version == 1 && fs[k].begins.Some?
    ensures EffectAt(fs, k).Restart? || At(fs, k).state.Stopped?
  {
    RankGrows(fs, b + 1, k);
  }

  // ---------- effects from the frames alone ----------

  predicate ValidBegin<M>(f: Frame<M>) {
    f.BeginFrame? && f.version == 1 && f.begins.Some?
  }

  function Begins<M>(fs: seq<Frame<M>>, n: nat): nat
    requires n <= |fs|
  {
    if n == 0 then 0 else Begins(fs, n - 1) + if ValidBegin(fs[n - 1]) then 1 else 0
  }

  function FirstEpoch<M>(fs: seq<Frame<M>>, n: nat): Option<Epoch>
    requires n <= |fs|
  {
    if n == 0 then None
    else if FirstEpoch(fs, n - 1).Some? then FirstEpoch(fs, n - 1)
    else if ValidBegin(fs[n - 1]) then fs[n - 1].begins
    else None
  }

  predicate Faulted<M>(fs: seq<Frame<M>>, n: nat)
    requires n <= |fs|
  {
    exists j :: 0 <= j < n && fs[j].FaultFrame?
  }

  /** A ready frame of the session's epoch is among the first n. */
  predicate ReadySeen<M>(fs: seq<Frame<M>>, n: nat)
    requires n <= |fs|
  {
    0 < n && (ReadySeen(fs, n - 1) ||
              (fs[n - 1].ReadyFrame? && fs[n - 1].epoch.Some? && fs[n - 1].epoch == FirstEpoch(fs, n - 1)))
  }

  /** A fault, or a second begin, ends the session. */
  predicate Over<M>(fs: seq<Frame<M>>, n: nat)
    requires n <= |fs|
  {
    Faulted(fs, n) || 2 <= Begins(fs, n)
  }

  lemma OverStep<M>(fs: seq<Frame<M>>, n: nat)
    requires n < |fs|
    ensures Faulted(fs, n + 1) <==> Faulted(fs, n) || fs[n].FaultFrame?
    ensures Over(fs, n) ==> Over(fs, n + 1)
  {
  }

  /** Where the session stands, read off the frames received. */
  lemma {:induction false} StateExactly<M>(fs: seq<Frame<M>>, n: nat)
    requires n <= |fs|
    ensures Begins(fs, n) == 0 <==> FirstEpoch(fs, n).None?
    ensures
      if Over(fs, n) then At(fs, n).state == Stopped
      else if Begins(fs, n) == 0 then At(fs, n) == Unopened && !ReadySeen(fs, n)
      else At(fs, n) == Session(if ReadySeen(fs, n) then Live else Snapshot, FirstEpoch(fs, n))
  {
    if 0 < n {
      StateExactly(fs, n - 1);
      OverStep(fs, n - 1);
    }
  }

  /** What every frame does, read off the frames before it: once the session has begun, every
      update of its epoch reaches the browser and the first ready frame of it makes the page
      ready, until a fault or a second begin ends it. */
  lemma EffectExactly<M>(fs: seq<Frame<M>>, k: nat)
    requires k < |fs|
    ensures
      EffectAt(fs, k) ==
        if Over(fs, k) then Nothing
        else if fs[k].FaultFrame? then Fault
        else if ValidBegin(fs[k]) then (if Begins(fs, k) == 0 then Nothing else Restart)
        else if fs[k].BeginFrame? || Begins(fs, k) == 0 || EpochOf(fs[k]).None? then Throw
        else if EpochOf(fs[k]) != FirstEpoch(fs, k) then Nothing
        else if fs[k].UpdateFrame? then Update(fs[k].message)
        else if fs[k].ReadyFrame? && !ReadySeen(fs, k) then Ready
        else Throw
  {
    StateExactly(fs, k);
  }

  class SessionProtocol<M> {
    var state: State
    var epoch: Option<Epoch>

    ghost function Now(): Session
      reads this
    {
      Session(state, epoch)
    }

    constructor ()
      ensures Now() == Unopened
    {
      state, epoch := Fresh, None;
    }

    /** The returned effect is the call made on the sink, or the exception thrown. */
    method ReceiveFrame(f: Frame<M>) returns (effect: Effect<M>)
      modifies this
      ensures (Now(), effect) == Receive(old(Now()), f)
    {
      if state.Stopped? {
        return Nothing;
      }
      if f.FaultFrame? {
        state := Stopped;
        return Fault;
      }
      if f.BeginFrame? {
        if f.version != 1 || f.begins.None? {
          return Throw;
        }
        if !state.Fresh? {
          state := Stopped;
          return Restart;
        }
        epoch := f.begins;
        state := Snapshot;
        return Nothing;
      }
      if state.Fresh? || EpochOf(f).None? {
        return Throw;
      }
      if EpochOf(f) != epoch {
        return Nothing;
      }
      if f.UpdateFrame? {
        return Update(f.message);
      } else if f.ReadyFrame? && state.Snapshot? {
        state := Live;
        return Ready;
      }
      return Throw;
    }
  }
}

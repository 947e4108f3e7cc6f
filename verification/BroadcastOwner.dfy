/**
 The owner of the data-broadcast page: it loads and reloads the page, and calls into it. Each
 change of mind is a new revision.
 */
module BroadcastOwner {
  import opened Common

  datatype Owner = Owner(ready: bool, resume: bool, revision: nat)

  /** A script the owner asks the page to run; it runs later, in order. */
  datatype Call =
    | ConnectCall(revision: nat, activate: bool)
    | ActivateCall(revision: nat)
    | ButtonCall

  /** A restart request on its way from a page to the owner. */
  datatype Request = Request(revision: nat, activate: bool)

  function Restarted(o: Owner, activate: bool): Owner {
    Owner(false, activate, o.revision + 1)
  }

  function Activating(o: Owner): Owner {
    o.(resume := true, revision := o.revision + 1)
  }

  function ActivatingCalls(o: Owner): seq<Call> {
    if o.ready then [ActivateCall(o.revision + 1)] else []
  }

  function Loaded(o: Owner): Owner {
    o.(ready := true)
  }

  function LoadedCalls(o: Owner, broadcast: bool): seq<Call> {
    if broadcast then [ConnectCall(o.revision, o.resume)] else []
  }

  /** Only a request of the present revision is honoured. */
  function Answered(o: Owner, request: Request): Owner {
    if request.revision == o.revision then Restarted(o, request.activate) else o
  }

  class BrowserOwner {
    const activateOnLoad: bool
    var browserReady: bool
    var resumeActivation: bool
    var activationRevision: nat
    var calls: seq<Call>

    ghost function Now(): Owner
      reads this
    {
      Owner(browserReady, resumeActivation, activationRevision)
    }

    constructor (activateOnLoad: bool)
      ensures this.activateOnLoad == activateOnLoad
      ensures Now() == Owner(false, activateOnLoad, 0) && calls == []
    {
      this.activateOnLoad := activateOnLoad;
      browserReady, resumeActivation, activationRevision, calls := false, activateOnLoad, 0, [];
    }

    method RestartBrowser(activate: bool)
      modifies this
      ensures Now() == Restarted(old(Now()), activate) && calls == old(calls)
    {
      resumeActivation := activate;
      activationRevision := activationRevision + 1;
      browserReady := false;
    }

    method EndpointChanged(known: bool)
      modifies this
      ensures Now() == (if known && old(browserReady) then Restarted(old(Now()), activateOnLoad) else old(Now()))
      ensures calls == old(calls)
    {
      if browserReady && known {
        RestartBrowser(activateOnLoad);
      }
    }

    method Activate()
      modifies this
      ensures Now() == Activating(old(Now())) && calls == old(calls) + ActivatingCalls(old(Now()))
    {
      resumeActivation := true;
      activationRevision := activationRevision + 1;
      if browserReady {
        calls := calls + [ActivateCall(activationRevision)];
      }
    }

    method DataButton()
      modifies this
      ensures Now() == if old(browserReady) then old(Now()) else Activating(old(Now()))
      ensures calls == old(calls) + if old(browserReady) then [ButtonCall] else []
    {
      if browserReady {
        calls := calls + [ButtonCall];
      } else {
        Activate();
      }
    }

    method BridgeRestart(request: Request)
      modifies this
      ensures Now() == Answered(old(Now()), request) && calls == old(calls)
    {
      if request.revision == activationRevision {
        RestartBrowser(request.activate);
      }
    }

    method LoadSucceeded(broadcast: bool)
      modifies this
      ensures Now() == Loaded(old(Now())) && calls == old(calls) + LoadedCalls(old(Now()), broadcast)
    {
      browserReady := true;
      if !broadcast {
        return;
      }
      calls := calls + [ConnectCall(activationRevision, resumeActivation)];
    }
  }
}

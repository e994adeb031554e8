/** One enforcement endpoint (crates/kernel/src/endpoint.rs): it enforces at most one
    binding and remembers the highest fence it ever accepted. */
module Endpoints {
  import opened ResourceGraph
  import opened Kernel

  datatype Phase = Idle | Prepared | Enforcing

  datatype EndpointState = EndpointState(acceptedFence: nat, open: bool, binding: Option<BindingId>, phase: Phase,
      session: nat)

  /** The endpoint afterwards, and whether the operation was accepted. */
  datatype Answer = Answer(endpoint: EndpointState, ok: bool)

  function NewEndpoint(session: nat): EndpointState {
    EndpointState(0, false, None, Idle, session)
  }

  function Handshake(e: EndpointState, session: nat): EndpointState {
    if session > e.session then e.(session := session) else e
  }

  predicate EnforcesOnly(e: EndpointState, b: BindingId) {
    e.open && e.binding == Some(b)
  }

  function PrepareAt(e: EndpointState, b: BindingId, fence: nat): Answer {
    if fence > e.acceptedFence then
      Answer(e.(acceptedFence := fence, open := true, binding := Some(b), phase := Prepared), true)
    else Answer(e, fence == e.acceptedFence && EnforcesOnly(e, b) && e.phase == Prepared)
  }

  function ActivateAt(e: EndpointState, b: BindingId, fence: nat): Answer {
    if EnforcesOnly(e, b) && fence == e.acceptedFence && e.phase != Idle then Answer(e.(phase := Enforcing), true)
    else Answer(e, false)
  }

  function CloseAt(e: EndpointState, fence: nat): Answer {
    if fence < e.acceptedFence then Answer(e, true)
    else Answer(e.(acceptedFence := fence, open := false, binding := None, phase := Idle), true)
  }

  function Operate(e: EndpointState, op: Op, b: BindingId, fence: nat, session: nat): Answer {
    if session != e.session then Answer(e, false)
    else
      match op
      case Prepare => PrepareAt(e, b, fence)
      case Activate => ActivateAt(e, b, fence)
      case _ => CloseAt(e, fence)
  }

  /** An idle endpoint enforces nothing, an open one exactly one binding, and only a
      fence that was accepted can be open. */
  predicate Consistent(e: EndpointState) {
    if e.open then e.binding.Some? && e.phase != Idle && e.acceptedFence > 0 else e.binding.None? && e.phase == Idle
  }

  /** Everything up to `fence` is over at this endpoint. */
  predicate FencedUpTo(e: EndpointState, fence: nat) {
    e.acceptedFence >= fence && (e.open ==> e.acceptedFence > fence)
  }

  /** No operation lowers the accepted fence or the session, and the binding enforced
      changes only together with a higher fence. */
  predicate LaterEndpoint(e: EndpointState, f: EndpointState) {
    && e.acceptedFence <= f.acceptedFence && e.session <= f.session
    && (f.open && f.acceptedFence == e.acceptedFence ==> e.open && e.binding == f.binding)
  }

  lemma OperateKeeps(e: EndpointState, op: Op, b: BindingId, fence: nat, session: nat)
    requires Consistent(e)
    ensures Consistent(Operate(e, op, b, fence, session).endpoint)
    ensures LaterEndpoint(e, Operate(e, op, b, fence, session).endpoint)
  {
  }

  /** A successful close ends everything up to its fence, whichever binding it named. */
  lemma CloseFences(e: EndpointState, op: Op, b: BindingId, fence: nat, session: nat)
    requires op.Release? || op.Fence?
    requires Operate(e, op, b, fence, session).ok
    ensures FencedUpTo(Operate(e, op, b, fence, session).endpoint, fence)
  {
  }

  /** What one endpoint is asked over its life. */
  datatype Request = Hello(session: nat) | Ask(op: Op, binding: BindingId, fence: nat, session: nat)

  function AfterRequest(e: EndpointState, r: Request): EndpointState {
    match r
    case Hello(session) => Handshake(e, session)
    case Ask(op, b, fence, session) => Operate(e, op, b, fence, session).endpoint
  }

  function AfterRequests(e: EndpointState, rs: seq<Request>): EndpointState {
    if rs == [] then e else AfterRequest(AfterRequests(e, rs[..|rs| - 1]), rs[|rs| - 1])
  }

  /** Once closed at a fence, an endpoint is never again open at that fence or a lower
      one, whatever is asked of it afterwards. */
  lemma {:induction false} NeverReopens(e: EndpointState, rs: seq<Request>, fence: nat)
    requires Consistent(e) && FencedUpTo(e, fence)
    ensures Consistent(AfterRequests(e, rs)) && FencedUpTo(AfterRequests(e, rs), fence)
    ensures LaterEndpoint(e, AfterRequests(e, rs))
  {
    if rs != [] {
      NeverReopens(e, rs[..|rs| - 1], fence);
    }
  }

  class Endpoint {
    var acceptedFence: nat
    var open: bool
    var binding: Option<BindingId>
    var phase: Phase
    var session: nat

    function State(): EndpointState
      reads this
    {
      EndpointState(acceptedFence, open, binding, phase, session)
    }

    constructor (session: nat)
      ensures State() == NewEndpoint(session) && Consistent(State())
    {
      acceptedFence, open, binding, phase, this.session := 0, false, None, Idle, session;
    }

    method Hello(session: nat)
      modifies this`session
      ensures State() == Handshake(old(State()), session)
    {
      if session > this.session {
        this.session := session;
      }
    }

    method Apply(op: Op, b: BindingId, fence: nat, session: nat) returns (ok: bool)
      modifies this
      ensures Answer(State(), ok) == Operate(old(State()), op, b, fence, session)
    {
      if session != this.session {
        return false;
      }
      match op
      case Prepare => ok := Prepare(b, fence);
      case Activate => ok := Activate(b, fence);
      case Release => ok := Close(fence);
      case Fence => ok := Close(fence);
    }

    method Prepare(b: BindingId, fence: nat) returns (ok: bool)
      modifies this
      ensures Answer(State(), ok) == PrepareAt(old(State()), b, fence)
    {
      if fence < acceptedFence {
        return false;
      }
      if fence == acceptedFence {
        return open && binding == Some(b) && phase == Prepared;
      }
      acceptedFence, open, binding, phase := fence, true, Some(b), Prepared;
      return true;
    }

    method Activate(b: BindingId, fence: nat) returns (ok: bool)
      modifies this`phase
      ensures Answer(State(), ok) == ActivateAt(old(State()), b, fence)
    {
      if !open || binding != Some(b) || fence != acceptedFence {
        return false;
      }
      if phase != Prepared && phase != Enforcing {
        return false;
      }
      phase := Enforcing;
      return true;
    }

    method Close(fence: nat) returns (ok: bool)
      modifies this
      ensures Answer(State(), ok) == CloseAt(old(State()), fence)
    {
      if fence < acceptedFence {
        return true;
      }
      acceptedFence, open, binding, phase := fence, false, None, Idle;
      return true;
    }
  }
}

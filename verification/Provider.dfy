/** The agent-side provider (crates/node/src/provider.rs): one process holding the
    endpoints of its machine and the highest session and epoch it has seen. */
module Providers {
  import opened ResourceGraph
  import opened Kernel
  import opened Endpoints

  /** Exclusive resources share one endpoint per place; every independent share has its
      own, named by its binding. */
  datatype Key = ExclusiveKey(provider: ProviderId, node: NodeId) | ShareKey(binding: BindingId)

  datatype Generation = Generation(
    binding: BindingId, node: NodeId, provider: ProviderId, scope: BindingScope, session: nat, fence: nat, epoch: nat)

  datatype ProviderState = ProviderState(session: nat, epoch: nat, endpoints: map<Key, EndpointState>)

  datatype Reply = Reply(provider: ProviderState, ok: bool)

  function KeyOf(g: Generation): Key {
    if g.scope == Exclusive then ExclusiveKey(g.provider, g.node) else ShareKey(g.binding)
  }

  function Greeted(endpoints: map<Key, EndpointState>, session: nat): map<Key, EndpointState> {
    map k | k in endpoints :: Handshake(endpoints[k], session)
  }

  function CheckGeneration(p: ProviderState, session: nat, epoch: nat): Reply {
    if epoch < p.epoch || session < p.session then Reply(p, false)
    else
      var endpoints := if session > p.session then Greeted(p.endpoints, session) else p.endpoints;
      Reply(ProviderState(session, epoch, endpoints), true)
  }

  /** Activating an unknown endpoint first prepares it, so work survives an agent that
      came back without its endpoints. */
  function AnswerAt(e: EndpointState, adopt: bool, op: Op, g: Generation): Answer {
    if adopt then
      var prepared := Operate(e, Prepare, g.binding, g.fence, g.session);
      if prepared.ok then Operate(prepared.endpoint, op, g.binding, g.fence, g.session) else prepared
    else Operate(e, op, g.binding, g.fence, g.session)
  }

  function ApplyGeneration(p: ProviderState, op: Op, g: Generation): Reply {
    var checked := CheckGeneration(p, g.session, g.epoch);
    if !checked.ok then checked
    else
      var q, key := checked.provider, KeyOf(g);
      var known := key in q.endpoints;
      var e := if known then q.endpoints[key] else NewEndpoint(g.session);
      var answer := AnswerAt(Handshake(e, g.session), op == Activate && !known, op, g);
      Reply(q.(endpoints := q.endpoints[key := answer.endpoint]), answer.ok)
  }

  ghost predicate ProviderInv(p: ProviderState) {
    forall k :: k in p.endpoints ==>
      && p.endpoints[k].session == p.session && Consistent(p.endpoints[k])
      && (k.ShareKey? && p.endpoints[k].open ==> p.endpoints[k].binding == Some(k.binding))
  }

  /** Sessions and epochs never go back, endpoints are never forgotten, their fences
      never fall, and only the addressed endpoint changes what it enforces. */
  ghost predicate LaterProvider(p: ProviderState, q: ProviderState, key: Option<Key>) {
    && p.session <= q.session && p.epoch <= q.epoch
    && (forall k :: k in p.endpoints ==> k in q.endpoints && LaterEndpoint(p.endpoints[k], q.endpoints[k]))
    && (forall k :: k in p.endpoints && Some(k) != key ==>
        q.endpoints[k] == p.endpoints[k].(session := q.endpoints[k].session))
    && (forall k :: k in q.endpoints && k !in p.endpoints ==> Some(k) == key)
  }

  lemma CheckKeeps(p: ProviderState, session: nat, epoch: nat)
    requires ProviderInv(p)
    ensures ProviderInv(CheckGeneration(p, session, epoch).provider)
    ensures LaterProvider(p, CheckGeneration(p, session, epoch).provider, None)
  {
  }

  lemma AnswerKeeps(e: EndpointState, adopt: bool, op: Op, g: Generation)
    requires Consistent(e)
    ensures var f := AnswerAt(e, adopt, op, g).endpoint;
            && Consistent(f) && LaterEndpoint(e, f) && f.session == e.session
            && (f.open && f.binding != Some(g.binding) ==> e.open && e.binding == f.binding)
  {
  }

  /** What one request keeps. The addressed endpoint only ever enforces the binding that
      was asked for or the one it enforced before; every other endpoint, so every other
      independent share, keeps its fence, its binding and its phase. */
  lemma ApplyKeeps(p: ProviderState, op: Op, g: Generation)
    requires ProviderInv(p)
    ensures ProviderInv(ApplyGeneration(p, op, g).provider)
    ensures LaterProvider(p, ApplyGeneration(p, op, g).provider, Some(KeyOf(g)))
  {
    hide CheckGeneration, AnswerAt;
    CheckKeeps(p, g.session, g.epoch);
    CheckedSession(p, g.session, g.epoch);
    var checked := CheckGeneration(p, g.session, g.epoch);
    if checked.ok {
      var q, key := checked.provider, KeyOf(g);
      var known := key in q.endpoints;
      var e := if known then q.endpoints[key] else NewEndpoint(g.session);
      AnswerKeeps(Handshake(e, g.session), op == Activate && !known, op, g);
      AnsweredKeeps(p, q, g, AnswerAt(Handshake(e, g.session), op == Activate && !known, op, g).endpoint);
    }
  }

  lemma CheckedSession(p: ProviderState, session: nat, epoch: nat)
    ensures var checked := CheckGeneration(p, session, epoch); checked.ok ==> checked.provider.session == session
  {
  }

  /** Answering at one endpoint, in the session of the process, keeps all the others. */
  lemma AnsweredKeeps(p: ProviderState, q: ProviderState, g: Generation, f: EndpointState)
    requires ProviderInv(q) && LaterProvider(p, q, None) && q.session == g.session
    requires var key := KeyOf(g);
             var e := Handshake(if key in q.endpoints then q.endpoints[key] else NewEndpoint(g.session), g.session);
             && Consistent(f) && LaterEndpoint(e, f) && f.session == e.session
             && (f.open && f.binding != Some(g.binding) ==> e.open && e.binding == f.binding)
    ensures ProviderInv(q.(endpoints := q.endpoints[KeyOf(g) := f]))
    ensures LaterProvider(p, q.(endpoints := q.endpoints[KeyOf(g) := f]), Some(KeyOf(g)))
  {
    hide Consistent;
  }

  datatype ProviderRequest = Authorize(session: nat, epoch: nat) | Enforce(op: Op, generation: Generation)

  function AfterCall(p: ProviderState, r: ProviderRequest): ProviderState {
    match r
    case Authorize(session, epoch) => CheckGeneration(p, session, epoch).provider
    case Enforce(op, g) => ApplyGeneration(p, op, g).provider
  }

  function AfterCalls(p: ProviderState, rs: seq<ProviderRequest>): ProviderState {
    if rs == [] then p else AfterCall(AfterCalls(p, rs[..|rs| - 1]), rs[|rs| - 1])
  }

  lemma CallKeeps(p: ProviderState, r: ProviderRequest)
    requires ProviderInv(p)
    ensures ProviderInv(AfterCall(p, r))
    ensures p.session <= AfterCall(p, r).session && p.epoch <= AfterCall(p, r).epoch
    ensures forall k :: k in p.endpoints ==>
              k in AfterCall(p, r).endpoints && LaterEndpoint(p.endpoints[k], AfterCall(p, r).endpoints[k])
  {
    match r
    case Authorize(session, epoch) => CheckKeeps(p, session, epoch);
    case Enforce(op, g) => ApplyKeeps(p, op, g);
  }

  /** Over any sequence of requests: the session and the epoch never decrease and every
      endpoint follows the session of the process. */
  lemma {:induction false} CallsKeep(p: ProviderState, rs: seq<ProviderRequest>)
    requires ProviderInv(p)
    ensures ProviderInv(AfterCalls(p, rs))
    ensures p.session <= AfterCalls(p, rs).session && p.epoch <= AfterCalls(p, rs).epoch
  {
    if rs != [] {
      CallsKeep(p, rs[..|rs| - 1]);
      CallKeeps(AfterCalls(p, rs[..|rs| - 1]), rs[|rs| - 1]);
    }
  }

  ghost predicate OverAt(p: ProviderState, key: Key, fence: nat) {
    key in p.endpoints && FencedUpTo(p.endpoints[key], fence)
  }

  lemma CloseIsOver(p: ProviderState, op: Op, g: Generation)
    requires ProviderInv(p) && (op.Release? || op.Fence?) && ApplyGeneration(p, op, g).ok
    ensures OverAt(ApplyGeneration(p, op, g).provider, KeyOf(g), g.fence)
  {
  }

  /** A close that succeeded at fence `f` holds for ever: whatever sessions, epochs,
      fences and duplicates follow, adoption included, the endpoint is never open again
      at a fence up to `f`. */
  lemma {:induction false} CloseLasts(p: ProviderState, rs: seq<ProviderRequest>, key: Key, fence: nat)
    requires ProviderInv(p) && OverAt(p, key, fence)
    ensures OverAt(AfterCalls(p, rs), key, fence)
  {
    if rs != [] {
      CloseLasts(p, rs[..|rs| - 1], key, fence);
      CallsKeep(p, rs[..|rs| - 1]);
      CallKeeps(AfterCalls(p, rs[..|rs| - 1]), rs[|rs| - 1]);
    }
  }

  ghost predicate Undisturbed(p: ProviderState, q: ProviderState, k: Key) {
    k in p.endpoints && k in q.endpoints && q.endpoints[k] == p.endpoints[k].(session := q.endpoints[k].session)
  }

  /** Requests that address other endpoints never change what this one enforces. */
  lemma {:induction false} OthersNeverDisturb(p: ProviderState, rs: seq<ProviderRequest>, k: Key)
    requires ProviderInv(p) && k in p.endpoints
    requires forall i :: 0 <= i < |rs| && rs[i].Enforce? ==> KeyOf(rs[i].generation) != k
    ensures Undisturbed(p, AfterCalls(p, rs), k)
  {
    if rs != [] {
      var prefix, r := rs[..|rs| - 1], rs[|rs| - 1];
      OthersNeverDisturb(p, prefix, k);
      CallsKeep(p, prefix);
      match r
      case Authorize(session, epoch) => CheckKeeps(AfterCalls(p, prefix), session, epoch);
      case Enforce(op, g) => ApplyKeeps(AfterCalls(p, prefix), op, g);
    }
  }

  class ResourceProvider {
    var session: nat
    var epoch: nat
    var nextHandle: nat
    var endpoints: map<Key, EndpointState>

    function State(): ProviderState
      reads this
    {
      ProviderState(session, epoch, endpoints)
    }

    constructor ()
      ensures State() == ProviderState(0, 0, map[]) && nextHandle == 1 && ProviderInv(State())
    {
      session, epoch, nextHandle, endpoints := 0, 0, 1, map[];
    }

    method CheckControlGeneration(session: nat, epoch: nat) returns (ok: bool)
      modifies this`session, this`epoch, this`endpoints
      ensures Reply(State(), ok) == CheckGeneration(old(State()), session, epoch)
    {
      if epoch < this.epoch || session < this.session {
        return false;
      }
      if epoch > this.epoch {
        this.epoch := epoch;
      }
      if session > this.session {
        this.session := session;
        var todo := endpoints.Keys;
        while todo != {}
          invariant this.session == session && this.epoch == epoch
          invariant todo <= endpoints.Keys == old(endpoints).Keys
          invariant forall k :: k in endpoints ==>
                      endpoints[k] == if k in todo then old(endpoints)[k] else Handshake(old(endpoints)[k], session)
        {
          var k :| k in todo;
          endpoints := endpoints[k := Handshake(endpoints[k], session)];
          todo := todo - {k};
        }
        assert endpoints == Greeted(old(endpoints), session);
      }
      return true;
    }

    method Apply(op: Op, g: Generation) returns (ok: bool)
      modifies this`session, this`epoch, this`endpoints
      ensures Reply(State(), ok) == ApplyGeneration(old(State()), op, g)
    {
      ok := CheckControlGeneration(g.session, g.epoch);
      if !ok {
        return;
      }
      var key := KeyOf(g);
      var adopt := op == Activate && key !in endpoints;
      if key !in endpoints {
        endpoints := endpoints[key := NewEndpoint(g.session)];
      }
      var e := Handshake(endpoints[key], g.session);
      endpoints := endpoints[key := e];
      if adopt {
        var prepared := Operate(e, Op.Prepare, g.binding, g.fence, g.session);
        e := prepared.endpoint;
        endpoints := endpoints[key := e];
        if !prepared.ok {
          return false;
        }
      }
      var answer := Operate(e, op, g.binding, g.fence, g.session);
      endpoints := endpoints[key := answer.endpoint];
      return answer.ok;
    }

    method Prepare(g: Generation) returns (handle: Option<nat>)
      modifies this
      ensures Reply(State(), handle.Some?) == ApplyGeneration(old(State()), Op.Prepare, g)
      ensures handle.Some? ==> handle.value == old(nextHandle) < nextHandle
    {
      var ok := Apply(Op.Prepare, g);
      if !ok {
        return None;
      }
      nextHandle := nextHandle + 1;
      return Some(nextHandle - 1);
    }
  }
}

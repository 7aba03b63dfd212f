/** The client-side request builder for the crypto provider
    (`jiffClient.from_crypto_provider`): it fills in the omitted arguments,
    picks an operation id, runs the `beforeOperation` hooks over the request,
    registers a pending deferred under the operation id and emits one message
    on the `crypto_provider` channel. */
module CryptoProvider {
  import opened Helpers

  datatype Option<T> = None | Some(value: T)

  type OpId = string

  /** The label-specific parameters object, kept opaque. */
  type Params = map<string, string>

  /** The request record sent to the provider; `kind` is the `label` field. */
  datatype Request = Request(
    kind: string,
    opId: OpId,
    receivers: seq<int>,
    threshold: int,
    zp: int,
    params: Params)

  /** What the `beforeOperation` hook chain does with a request: hand on a
      (possibly rewritten) record, or throw. */
  datatype HookResult = Continue(msg: Request) | Throw(reason: string)

  /** How a call of the builder ends: with the pending promise, or with the
      exception a hook threw. */
  datatype CallResult = Returned(promise: Promise) | Threw(reason: string)

  /** The side effects of a call on the client's shared state, in the order
      they happen. */
  datatype Effect = Registered(opId: OpId) | Emitted(channel: string, payload: Request)

  /** The channel name reserved for provider traffic, which is also the
      operation name handed to the hooks. */
  const Channel := "crypto_provider"

  /** The key under which the operation-id counters count requests of a label. */
  function CounterKey(kind: string): (key: string) {
    "crypto_provider:" + kind
  }

  /** The receivers list built when the caller gives none: the loop pushes
      the party ids 1, 2, ..., partyCount. */
  function DefaultReceivers(partyCount: nat): (r: seq<int>)
    ensures |r| == partyCount
    ensures forall k | 0 <= k < partyCount :: r[k] == k + 1
  {
    if partyCount == 0 then [] else DefaultReceivers(partyCount - 1) + [partyCount]
  }

  /** The request record built before the hooks run, together with the
      counter state afterwards. `receivers` is the content of the caller's
      array at the call, or None when the caller passed none. A generated id
      is asked for under `CounterKey(kind)`, the `'crypto_provider:' + label`
      key. */
  function RequestFor<C>(
    kind: string, receivers: Option<seq<int>>, threshold: Option<int>, zp: Option<int>,
    opId: Option<OpId>, params: Option<Params>,
    instanceZp: int, partyCount: nat, genOpId: (C, string, seq<int>) -> (OpId, C), counters: C)
    : (out: (Request, C))
    ensures out.0.kind == kind
    ensures Sorted(out.0.receivers)
    ensures receivers.None? ==>
              |out.0.receivers| == partyCount &&
              forall k | 0 <= k < partyCount :: out.0.receivers[k] == k + 1
    ensures receivers.Some? ==> multiset(out.0.receivers) == multiset(receivers.value)
    ensures threshold.None? ==> out.0.threshold == |out.0.receivers|
    ensures threshold.Some? ==> out.0.threshold == threshold.value
    ensures zp.None? ==> out.0.zp == instanceZp
    ensures zp.Some? ==> out.0.zp == zp.value
    ensures params.None? ==> out.0.params == map[]
    ensures params.Some? ==> out.0.params == params.value
    ensures opId.Some? ==> out.0.opId == opId.value && out.1 == counters
    ensures opId.None? ==> (out.0.opId, out.1) == genOpId(counters, CounterKey(kind), out.0.receivers)
  {
    var rs := if receivers.None? then DefaultReceivers(partyCount) else SortIds(receivers.value);
    assert receivers.None? ==> Sorted(rs);
    var (id, next) := if opId.Some? then (opId.value, counters) else genOpId(counters, CounterKey(kind), rs);
    var request := Request(
      kind, id, rs,
      if threshold.None? then |rs| else threshold.value,
      if zp.None? then instanceZp else zp.value,
      if params.None? then map[] else params.value);
    (request, next)
  }

  /** The default receivers list is the full roster in ascending order, so a
      caller who passes every party, in any order, gets the same request as a
      caller who passes none. */
  lemma FullRosterSameAsOmitted<C>(
    kind: string, roster: seq<int>, threshold: Option<int>, zp: Option<int>,
    opId: Option<OpId>, params: Option<Params>,
    instanceZp: int, partyCount: nat, genOpId: (C, string, seq<int>) -> (OpId, C), counters: C)
    requires multiset(roster) == multiset(DefaultReceivers(partyCount))
    ensures RequestFor(kind, Some(roster), threshold, zp, opId, params, instanceZp, partyCount, genOpId, counters)
         == RequestFor(kind, None, threshold, zp, opId, params, instanceZp, partyCount, genOpId, counters)
  {
    var full := DefaultReceivers(partyCount);
    SortIdsOrderIndependent(roster, full);
    SortIdsKeepsSorted(full);
  }

  /** Receivers that name the same parties in a different order yield the
      same request, operation id included, and the same counter state. */
  lemma {:induction false} PermutedReceiversSameRequest<C>(
    kind: string, a: seq<int>, b: seq<int>, threshold: Option<int>, zp: Option<int>,
    opId: Option<OpId>, params: Option<Params>,
    instanceZp: int, partyCount: nat, genOpId: (C, string, seq<int>) -> (OpId, C), counters: C)
    requires multiset(a) == multiset(b)
    ensures RequestFor(kind, Some(a), threshold, zp, opId, params, instanceZp, partyCount, genOpId, counters)
         == RequestFor(kind, Some(b), threshold, zp, opId, params, instanceZp, partyCount, genOpId, counters)
  {
    SortIdsOrderIndependent(a, b);
  }

  /** Three parties and nothing but the label: the request goes to parties
      1, 2 and 3, all three needed to reconstruct, under the instance modulus
      and with no parameters. */
  lemma ThreePartyDefaults<C>(
    kind: string, instanceZp: int, genOpId: (C, string, seq<int>) -> (OpId, C), counters: C)
    ensures
      var request := RequestFor(kind, None, None, None, None, None, instanceZp, 3, genOpId, counters).0;
      && request.receivers == [1, 2, 3]
      && request.threshold == 3
      && request.zp == instanceZp
      && request.params == map[]
  {
  }

  /** Receivers [2, 1] with threshold 1: the request lists [1, 2] and keeps
      threshold 1. */
  lemma ExplicitPairKeepsThreshold<C>(
    kind: string, instanceZp: int, genOpId: (C, string, seq<int>) -> (OpId, C), counters: C)
    ensures
      var request := RequestFor(kind, Some([2, 1]), Some(1), None, None, None, instanceZp, 3, genOpId, counters).0;
      request.receivers == [1, 2] && request.threshold == 1
  {
  }

  /** The client instance: the parts of `jiffClient` that the builder reads
      and changes. `C` is the state of the operation-id counters. */
  class JiffClient<C> {
    const partyCount: nat
    const zp: int
    /** `counters.gen_op_id`: the id for a counter key and receivers list,
        and the counter state after it. */
    const genOpId: (C, string, seq<int>) -> (OpId, C)
    /** `hooks.execute_array_hooks('beforeOperation', ...)` for an operation name. */
    const beforeOperation: (string, Request) -> HookResult

    var counters: C
    /** `jiffClient.deferreds`: the pending operations by id. */
    var deferreds: map<OpId, Deferred>
    /** The messages handed to `socket.safe_emit`, in order. */
    var outbox: seq<(string, Request)>
    /** Registrations and emits, in the order they happen. */
    ghost var effects: seq<Effect>

    constructor (
      partyCount: nat, zp: int, counters: C,
      genOpId: (C, string, seq<int>) -> (OpId, C), beforeOperation: (string, Request) -> HookResult)
      ensures this.partyCount == partyCount && this.zp == zp && this.counters == counters
      ensures this.genOpId == genOpId && this.beforeOperation == beforeOperation
      ensures deferreds == map[] && outbox == [] && effects == []
    {
      this.partyCount := partyCount;
      this.zp := zp;
      this.counters := counters;
      this.genOpId := genOpId;
      this.beforeOperation := beforeOperation;
      deferreds := map[];
      outbox := [];
      effects := [];
    }

    /** `counters.gen_op_id(key, receivers)`: advances the counter state. */
    method GenOpId(key: string, receivers: seq<int>) returns (id: OpId)
      modifies this`counters
      ensures (id, counters) == genOpId(old(counters), key, receivers)
    {
      var generated := genOpId(counters, key, receivers);
      id, counters := generated.0, generated.1;
    }

    /** `socket.safe_emit(channel, payload)`: queues one outgoing message. */
    method SafeEmit(channel: string, payload: Request)
      modifies this`outbox, this`effects
      ensures outbox == old(outbox) + [(channel, payload)]
      ensures effects == old(effects) + [Emitted(channel, payload)]
    {
      outbox := outbox + [(channel, payload)];
      effects := effects + [Emitted(channel, payload)];
    }

    /** The receivers step: a fresh array holding 1..partyCount when the
        caller passed none, otherwise the caller's own array sorted in place. */
    method NormaliseReceivers(receiversList: IdArray?) returns (receivers: IdArray)
      modifies receiversList
      ensures receiversList == null ==> fresh(receivers) && receivers.elems == DefaultReceivers(partyCount)
      ensures receiversList != null ==> receivers == receiversList && receivers.elems == SortIds(old(receiversList.elems))
    {
      if receiversList == null {
        receivers := new IdArray();
        var i := 1;
        while i <= partyCount
          invariant 1 <= i <= partyCount + 1
          invariant fresh(receivers)
          invariant receivers.elems == DefaultReceivers(i - 1)
          modifies receivers
        {
          receivers.Push(i);
          i := i + 1;
        }
      } else {
        SortIdsInPlace(receiversList);
        receivers := receiversList;
      }
    }

    /** The first half of `from_crypto_provider`: fills in the omitted
        arguments and picks the operation id, giving the request record. */
    method BuildRequest(
      kind: string, receiversList: IdArray?, threshold: Option<int>, zp: Option<int>,
      opId: Option<OpId>, params: Option<Params>)
      returns (msg: Request)
      modifies this`counters, receiversList
      ensures receiversList != null ==> receiversList.elems == SortIds(old(receiversList.elems))
      ensures receiversList != null ==> msg.receivers == receiversList.elems
      ensures (msg, counters) == RequestFor(
                kind, if receiversList == null then None else Some(old(receiversList.elems)),
                threshold, zp, opId, params, this.zp, partyCount, genOpId, old(counters))
    {
      var modulus: int;
      if zp.None? {
        modulus := this.zp;
      } else {
        modulus := zp.value;
      }
      var receivers := NormaliseReceivers(receiversList);
      var minParties: int;
      if threshold.None? {
        minParties := |receivers.elems|;
      } else {
        minParties := threshold.value;
      }
      var id: OpId;
      if opId.None? {
        id := GenOpId(CounterKey(kind), receivers.elems);
      } else {
        id := opId.value;
      }
      var extra: Params;
      if params.None? {
        extra := map[];
      } else {
        extra := params.value;
      }
      msg := Request(kind, id, receivers.elems, minParties, modulus, extra);
    }

    /** The second half of `from_crypto_provider`: runs the hooks, registers
        the pending deferred under `id` and emits the hook output. */
    method Send(id: OpId, msg: Request) returns (result: CallResult)
      modifies this`deferreds, this`outbox, this`effects
      ensures match beforeOperation(Channel, msg)
        case Throw(reason) =>
          // nothing is registered and nothing is sent
          && result == Threw(reason)
          && deferreds == old(deferreds)
          && outbox == old(outbox)
          && effects == old(effects)
        case Continue(payload) =>
          // a fresh entry under `id`, whatever id the hooks wrote into the
          // payload; every other entry is kept; then exactly one message
          && id in deferreds
          && fresh(deferreds[id])
          && fresh(deferreds[id].promise)
          && deferreds == old(deferreds)[id := deferreds[id]]
          && result == Returned(deferreds[id].promise)
          && outbox == old(outbox) + [(Channel, payload)]
          && effects == old(effects) + [Registered(id), Emitted(Channel, payload)]
    {
      var hooked := beforeOperation(Channel, msg);
      if hooked.Throw? {
        return Threw(hooked.reason);
      }
      var payload := hooked.msg;

      var deferred := new Deferred();
      deferreds := deferreds[id := deferred];
      effects := effects + [Registered(id)];
      result := Returned(deferreds[id].promise);

      SafeEmit(Channel, payload);
    }

    /** `from_crypto_provider(label, receivers_list, threshold, Zp, op_id, params)`.
        A null `receiversList` or a None stands for an omitted argument. */
    method FromCryptoProvider(
      kind: string, receiversList: IdArray?, threshold: Option<int>, zp: Option<int>,
      opId: Option<OpId>, params: Option<Params>)
      returns (result: CallResult)
      modifies this`counters, this`deferreds, this`outbox, this`effects, receiversList
      // the caller's array is sorted in place, before the hooks run, and
      // stays sorted whether or not a hook throws
      ensures receiversList != null ==> receiversList.elems == SortIds(old(receiversList.elems))
      ensures
        var (request, next) := RequestFor(
          kind, if receiversList == null then None else Some(old(receiversList.elems)),
          threshold, zp, opId, params, this.zp, partyCount, genOpId, old(counters));
        && counters == next
        && (receiversList != null ==> request.receivers == receiversList.elems)
        && match beforeOperation(Channel, request)
           case Throw(reason) =>
             && result == Threw(reason)
             && deferreds == old(deferreds)
             && outbox == old(outbox)
             && effects == old(effects)
           case Continue(payload) =>
             // the key is the id chosen before the hooks ran
             && request.opId in deferreds
             && fresh(deferreds[request.opId])
             && fresh(deferreds[request.opId].promise)
             && deferreds == old(deferreds)[request.opId := deferreds[request.opId]]
             && result == Returned(deferreds[request.opId].promise)
             && outbox == old(outbox) + [(Channel, payload)]
             && effects == old(effects) + [Registered(request.opId), Emitted(Channel, payload)]
    {
      var msg := BuildRequest(kind, receiversList, threshold, zp, opId, params);
      result := Send(msg.opId, msg);
    }
  }
}

# JIFF client: requests to the crypto provider

This project models `jiffClient.from_crypto_provider`, the client-side request builder of the JIFF
secret-sharing client. A party calls it to ask the crypto provider (the server) for correlated
secret material of some kind, named by a label such as `triplet`. The call runs in four steps:

1. It fills in the omitted arguments. `Zp` becomes the instance's modulus and `params` an empty
   object. When no receivers list is given, a loop builds the full roster `1..party_count`;
   otherwise the caller's own array is sorted in place by `helpers.sort_ids`. `threshold` becomes
   the length of the receivers list.
2. It picks the operation id. A caller-supplied `op_id` is used as it is. Otherwise the id comes
   from `counters.gen_op_id('crypto_provider:' + label, receivers)`, which advances the counters.
3. It builds the request record and passes it through the `beforeOperation` hooks, which may
   rewrite it or throw.
4. It registers a fresh `Deferred` in `jiffClient.deferreds` under the local operation id, then
   emits exactly one message on the `crypto_provider` channel and returns the deferred's promise.

Files:

- `helpers.dfy`, module `Helpers`: the id ordering that `sort_ids` produces (`SortIds`, proved
  sorted and a permutation) and the uniqueness of a sorted permutation. Also `IdArray`, a class
  standing for a JavaScript array of party ids that the caller and the builder share by reference,
  and `Deferred`/`Promise`.
- `crypto_provider.dfy`, module `CryptoProvider`: the request record, the specification function
  `RequestFor`, which gives the record built before the hooks run and the counter state after it,
  lemmas about it, and the class `JiffClient`. The class holds `partyCount`, `zp`, the counter
  state, the `deferreds` map, the `outbox` of emitted `(channel, message)` pairs and a ghost
  `effects` trace that records registrations and emits in order. `FromCryptoProvider` is the
  operation itself. It is split along the source's two halves: `BuildRequest` does the defaults
  and the id, and `Send` does the hooks, the registration and the emit.

The collaborators whose code is not part of this model are parameters of the client object.
`genOpId` is a function from (counter state, key, receivers) to (id, new counter state); the
counter state is the class's type parameter `C`. `beforeOperation` is a function from
(operation name, record) to a rewritten record or a thrown reason. `safe_emit` appends to `outbox`.

`from_crypto_provider` does no argument validation. It accepts an empty receivers list, a threshold
outside `1..|receivers|` and a missing label, and it carries a supplied threshold into the request
unchanged. A party count of 0 gives an empty receivers list. `RequestFor` states this pass-through:
its threshold clause holds for every integer, and its receivers clauses give `[]` for an empty
list and for 0 parties. A missing label is not modelled (see "## Left out").

## Model

| member | source | states |
|---|---|---|
| `Helpers.SortIds` | lib/client/api/crypto_provider.js:31 | the order `sort_ids` leaves the ids in: ascending, and the same ids with the same multiplicities as the input |
| `Helpers.SortedPermutationUnique` | lib/client/api/crypto_provider.js:31 | two sorted lists with the same multiset of ids are equal, so any helper that sorts ascending and permutes gives the list `SortIds` gives |
| `Helpers.SortIdsOrderIndependent` | lib/client/api/crypto_provider.js:30-32 | the same parties in any order are normalised to the same receivers list |
| `Helpers.SortIdsKeepsSorted` | lib/client/api/crypto_provider.js:31 | sorting an already sorted array leaves it unchanged |
| `Helpers.SortIdsInPlace` | lib/client/api/crypto_provider.js:31 | the caller's array object itself now holds its ids sorted ascending, as a permutation of what it held |
| `Helpers.IdArray.constructor` | lib/client/api/crypto_provider.js:26 | a new array starts empty |
| `Helpers.IdArray.Push` | lib/client/api/crypto_provider.js:28 | `push` appends exactly one id at the end |
| `Helpers.Deferred.constructor` | lib/client/api/crypto_provider.js:49-50 | a new deferred owns a promise that did not exist before |
| `CryptoProvider.DefaultReceivers` | lib/client/api/crypto_provider.js:25-29 | the default receivers list has exactly `party_count` entries and entry `k` is party `k + 1`, so it is `[1, ..., party_count]` and empty for 0 parties |
| `CryptoProvider.RequestFor` | lib/client/api/crypto_provider.js:20-44 | the record built before the hooks: the label unchanged; receivers sorted, the full roster `1..party_count` when omitted and a permutation of the caller's ids otherwise; threshold the receivers count when omitted, the caller's value unchanged (no range check) when given; Zp and params the instance modulus and an empty object when omitted, the caller's values otherwise; a supplied op_id used verbatim with the counters untouched, otherwise id and new counters from `gen_op_id` on `'crypto_provider:' + label` and the normalised receivers |
| `CryptoProvider.FullRosterSameAsOmitted` | lib/client/api/crypto_provider.js:25-32 | passing every party, in any order, builds the same request and counter state as passing no receivers list |
| `CryptoProvider.PermutedReceiversSameRequest` | lib/client/api/crypto_provider.js:30-38 | receivers naming the same parties in different orders give the same request, operation id included, and the same counter state |
| `CryptoProvider.ThreePartyDefaults` | lib/client/api/crypto_provider.js:22-41 | with 3 parties and only the label given, the request record built before the hooks run lists `[1, 2, 3]` with threshold 3, the instance modulus and empty params |
| `CryptoProvider.ExplicitPairKeepsThreshold` | lib/client/api/crypto_provider.js:30-35 | the request record, as built before the hooks run, lists receivers `[2, 1]` as `[1, 2]` and keeps threshold 1 |
| `CryptoProvider.JiffClient.GenOpId` | lib/client/api/crypto_provider.js:36-38 | the generated id and the new counter state are those `gen_op_id` gives for the old state, the key and the receivers |
| `CryptoProvider.JiffClient.SafeEmit` | lib/client/api/crypto_provider.js:53 | exactly one `(channel, message)` pair is appended to the outbox, and recorded as an emit in the effects trace |
| `CryptoProvider.JiffClient.NormaliseReceivers` | lib/client/api/crypto_provider.js:25-32 | with no list, a fresh array filled by the loop with `1..party_count`; with a list, that same array object, sorted in place |
| `CryptoProvider.JiffClient.BuildRequest` | lib/client/api/crypto_provider.js:21-44 | the record and the new counter state are those of `RequestFor` on the caller's arguments and the old counters; the caller's array ends sorted and is the record's receivers |
| `CryptoProvider.JiffClient.Send` | lib/client/api/crypto_provider.js:45-54 | if the hooks throw, the same exception is the result and `deferreds`, outbox and trace are unchanged; otherwise `deferreds` gains a fresh entry, owning a fresh promise, at the given id (replacing any old one) and keeps every other entry, the result is that entry's promise, and exactly one message, the hook output, goes out on `crypto_provider` after the registration |
| `CryptoProvider.JiffClient.FromCryptoProvider` | lib/client/api/crypto_provider.js:20-55 | the whole call: the caller's array is sorted in place and the counters advance as `RequestFor` says, even when a hook throws; on success the pending entry and its promise are new, the entry is keyed by the op_id chosen before the hooks, even if a hook rewrote the message's op_id, and is registered before the single emit |

## Left out

- `JSON.stringify` (line 46): the emitted payload is the hook output record itself.
- The body of `hooks.execute_array_hooks` (line 45): the hook chain is one function of the operation name and the record. The client object it is also handed is not passed. A hook that mutates the receivers array in place is not modelled.
- `socket.safe_emit` (line 53): network I/O, modelled only as appending to `outbox`.
- `Deferred` and promise semantics (lines 49-50): asynchronous completion is not modelled. The deferred is an opaque fresh object owning a fresh promise. Response dispatch and the resolution of deferreds are not in this file and are not modelled.
- `counters.gen_op_id` (line 37): its body and the string format of the ids are not part of this model. It is a function of the counter state, the key and the receivers, returning the id and the next counter state.
- `Helpers.SortIds`: the body of `helpers.sort_ids` (line 31) is not part of this model. The model assumes only that it sorts ascending and permutes, and `SortedPermutationUnique` shows that every helper meeting that assumption gives the same list. Any error it may raise is not modelled.
- Party ids are integers, and `params` is a map from strings to strings, standing for an arbitrary object.
- JavaScript's `== null` test, which is true for `null` and `undefined`: an omitted argument is `None`, and an omitted receivers list is a null `IdArray?`.
- `Zp` is only passed through; no arithmetic over it is modelled.
- The label is always a string: a missing `label`, which the source accepts (the counter key then reads `'crypto_provider:undefined'` and the serialised payload has no `label`), is not modelled.
- The `label` argument is named `kind` in the model, because `label` is a Dafny keyword.

# Pterodactyl process dispatch server — verified model

Pterodactyl is a small HTTP server that keeps a registry of named process units
(closures that take no arguments and return `Ok(ProcessResponse)` or
`Err(ProcessResponse)`). For each request it resolves a process name, calls the
unit, and answers with a JSON envelope (`JsonResponse`). The envelope has
eight fields: `code`, `message`, `data`, `errors`, `timestamp`, `cache`, `cost`
and `hash`. The `hash` is the lower-case hexadecimal SHA-256 digest of the
serialized JSON object made of the other seven fields.

This project models the library core in `src/lib.rs`:

- `registry.dfy`, module `Registry`:
  - the registry as the class `Server<Unit>`, whose `processes` field is a
    `map<string, Unit>`; `Unit` is an opaque handle standing for a registered
    closure;
  - `Server::new`, `add_process` and the lookup and branching of `incoming`.
  A ghost field `registrations` records every `AddProcess` call. The invariant
  `Valid()` ties the map to a replay of that history, so "last registration
  wins" becomes a lemma about whole histories.
- `envelope.dfy`, module `Envelope`:
  - `ProcessResponse`; its `ProcessResponse::new` is the datatype constructor;
  - `JsonResponse` and `JsonResponse::new`, which builds the envelope with an
    empty hash and then overwrites it (the `.(hash := …)` update);
  - `ProcessResponse::to_json_response`.
- `encoding.dfy`, module `Encoding`: the two text encodings the envelope uses.
  - `u64::to_string` writes the timestamp;
  - `hex::encode` writes the digest.
  Each has an inverse and a round-trip lemma.
- `json.dfy`, module `Json`: `serde_json::Value`.
- `wrappers.dfy`, module `Wrappers`: an `Option` type.
- `scenarios.dfy`, module `Scenarios`: client methods showing what callers can
  conclude from the contracts alone. They cover a success unit, a failure unit,
  an unknown name, the fixed `"test2"` id and re-registering a name.

The parts that are not modelled are parameters:
- the unit call is `run: Unit -> ProcessResult`;
- `serde_json::to_vec` and `Sha256::digest` are the two functions of a
  `Hashing` value (the digest returns 32 bytes);
- the measured run time and the current time since the Unix epoch are
  `Duration` values.

The contracts therefore say which value lands in which field. Dispatch also
returns the list of units it called (`invoked`). That list is bookkeeping
written beside the single application of `run`, not an observed effect; it is
how the model states "no unit is called" and "the unit is called exactly once".

`incoming` always looks up the fixed id `"test2"`, whatever the request (the
constant `Registry.SourceProcessId`). The model takes the id as the parameter
`processId` of `Server.Incoming`; `Server.IncomingAsWritten` is `incoming` with
that fixed id.

The code measures the elapsed time whichever branch the unit returns
(src/lib.rs:129-131), but a failed unit's envelope gets cost `0.0`
(src/lib.rs:136). The model follows the code.

## Model

| member | source | states |
|---|---|---|
| `Registry.Server.constructor` | src/lib.rs:99-103 | a new server has an empty registry and an empty registration history, and satisfies the invariant |
| `Registry.Empty` | src/lib.rs:101 | no name resolves in the empty registry |
| `Registry.Server.AddProcess` | src/lib.rs:147-153 | the map becomes the old map with `name` inserted or overwritten; the history grows by exactly this registration; the invariant is kept |
| `Registry.Insert` | src/lib.rs:152 | after insert, `name` resolves to the new unit (replacing any earlier one); each other name resolves as before; the key set grows by `name` only |
| `Registry.Lookup` | src/lib.rs:109 | lookup finds a unit exactly when the name is registered, and then it is the registered unit |
| `Registry.ReplayResolvesToLast` | src/lib.rs:147-153 | after any sequence of registrations, a name resolves to its latest registration (last write wins), else to not-found |
| `Registry.ReplayKeys` | src/lib.rs:151-152 | the names that resolve are exactly the names ever registered |
| `Registry.Server.Resolve` | src/lib.rs:108-110 | lookup on the live server returns the map's entry, which is the latest registration of the name |
| `Registry.Dispatch` | src/lib.rs:109-137 | unregistered: no unit called; envelope is 404, "Not Found", `{}`, `["Process not found"]`, cost 0.0. Registered: the unit is called exactly once; its Ok or Err response is copied verbatim; cost is the measured time on Ok and 0.0 on Err. Always: `cache` is false, cost is non-negative, the timestamp is the current second, the hash is intact |
| `Registry.ErrCostIgnoresElapsed` | src/lib.rs:136 | on a failed call the envelope does not depend on the measured duration |
| `Registry.Server.IncomingAsWritten` | src/lib.rs:105-109 | incoming as the source runs it: the process id resolved is always `"test2"`, whatever the request |
| `Registry.Server.Incoming` | src/lib.rs:105-145 | incoming reads the registry (it changes nothing) and returns what `Dispatch` builds for the resolved unit; the unit it resolves is the latest registration of the id |
| `Envelope.NewJsonResponse` | src/lib.rs:33-66 | each of code, message, data, errors, cache and cost equals its argument; the timestamp is the decimal text of the current second and parses back to it; the stored hash equals the digest recomputed from the other seven fields |
| `Envelope.ToJsonResponse` | src/lib.rs:87-89 | the envelope carries the process response's code, message, data and errors, plus the given cache and cost, and its hash is intact |
| `Envelope.PreHash` | src/lib.rs:53-61 | the hashed object has exactly the keys code, message, data, errors, timestamp, cache and cost; `hash` is not among them |
| `Envelope.PreHashExact` | src/lib.rs:53-61 | two envelopes hash the same object if and only if their seven non-hash fields agree; the hash field does not influence its own input |
| `Envelope.Seal` | src/lib.rs:64 | the hash is 64 lower-case hexadecimal characters |
| `Envelope.HashSensitivity` | src/lib.rs:52-64 | two intact envelopes that differ in a non-hash field have equal hashes only if SHA-256 of the serialized objects collides on two distinct objects |
| `Envelope.HashDeterministic` | src/lib.rs:41-64 | for given contents there is exactly one intact envelope |
| `Envelope.AsSecsF64` | src/lib.rs:131-135 | the cost in seconds lies between the whole seconds of the duration and one second more |
| `Json.Strings` | src/lib.rs:57 | `errors` is hashed as a JSON array holding the same strings in the same order |
| `Json.StringsInjective` | src/lib.rs:57 | distinct error lists give distinct JSON arrays |
| `Encoding.DecimalString` | src/lib.rs:34-38 | the timestamp text is non-empty, all decimal digits, has no leading zero, and is one digit exactly for values below ten |
| `Encoding.DecimalRoundTrip` | src/lib.rs:34-38 | reading the timestamp text back as a decimal number gives the seconds value |
| `Encoding.DecimalStringInjective` | src/lib.rs:34-38 | distinct seconds values give distinct timestamps |
| `Encoding.HexEncode` | src/lib.rs:64 | hex encoding writes two lower-case hex digits per byte |
| `Encoding.HexRoundTrip` | src/lib.rs:64 | decoding the hex text gives back the digest bytes |
| `Encoding.HexEncodeInjective` | src/lib.rs:64 | distinct digests give distinct hash strings |

## Left out

- `Server::start` (src/lib.rs:155-173) is not modelled: it is the TCP accept loop, tokio task spawning and hyper connection serving, which are network I/O and concurrency.
- The `Arc<RwLock<…>>` around the registry is not modelled, because it is concurrency: readers sharing the lock, writers excluding them, and lock poisoning (the `unwrap` on `read()` and `write()`). The model has only the sequential map semantics.
- Building the hyper `Response` is not modelled. That covers the `Content-Type` header, `serde_json::to_string` of the whole 8-field envelope, and the `Infallible` result (src/lib.rs:120-125, 139-144). They are transport.
- SHA-256 and `serde_json::to_vec` are parameters, not definitions. Their `expect("Serialization failed")` path is not modelled: serializing a `Value` with string keys does not fail.
- `hex::encode` and `u64::to_string` are modelled concretely, because they are simple, fixed encodings.
- Reading the clock is not modelled. The current time since the epoch is a parameter, so the model does not capture that the timestamp is read after the unit returns. The `expect("Time went backwards")` panic for a clock before the epoch is not modelled.
- The "measured around the call" nature of the cost is not modelled: the elapsed time is a parameter.
- `Envelope.AsSecsF64`: the `f64` cost is modelled as an exact real, so the rounding of `Duration::as_secs_f64` to a 64-bit float is not captured.
- A unit is modelled as a function of its handle, so two calls of the same handle return the same result. Closures that read the clock or other state are not captured. Unit panics and units that never return are not modelled.
- The `println!` of the execution time (src/lib.rs:132) is not modelled: it is logging.
- src/main.rs is not part of this model: it is a standalone hello-server that returns a fixed envelope.
- examples/server.rs is not part of this model: it is startup wiring.
- Key order in serialized JSON objects is not modelled: serde_json fixes it by its map type (sorted keys by default, insertion order with its `preserve_order` feature), and the model leaves it to the `toVec` parameter. For the fixed seven-key pre-hash object nothing is lost; for a nested `data` object under `preserve_order`, the key order is not captured.

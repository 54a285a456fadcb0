/**
 * The response envelope (`JsonResponse`) and what a process returns
 * (`ProcessResponse`). The envelope's `hash` is the lower-case hexadecimal
 * SHA-256 digest of the serialized JSON object made of the seven other fields.
 *
 * SHA-256 and the JSON serializer are not modelled: they are the two functions
 * of a `Hashing` value that every operation takes as a parameter. The clock is
 * not read either: the current time is a `Duration` parameter.
 */
module Envelope {

  import opened Encoding
  import opened Json

  type u16 = x: int | 0 <= x < 0x1_0000
  type u64 = x: int | 0 <= x < 0x1_0000_0000_0000_0000
  type Nanos = n: int | 0 <= n < 1_000_000_000

  /** A span of time as `std::time::Duration` holds it: whole seconds and the nanoseconds beyond them. */
  datatype Duration = Duration(secs: u64, subsecNanos: Nanos)

  /** `Duration::as_secs_f64`, without the rounding to a 64-bit float. */
  function AsSecsF64(d: Duration): (r: real)
    ensures d.secs as real <= r < d.secs as real + 1.0
  {
    d.secs as real + d.subsecNanos as real / 1_000_000_000.0
  }

  /** A SHA-256 digest: 32 bytes. */
  type Digest = s: seq<byte> | |s| == 32 witness seq(32, _ => 0)

  /** The JSON serializer (`serde_json::to_vec`) and the digest (`Sha256::digest`). */
  datatype Hashing = Hashing(toVec: Value -> seq<byte>, sha256: seq<byte> -> Digest)

  /** What a process unit returns, on either branch of its result. */
  datatype ProcessResponse = ProcessResponse(code: u16, message: string, data: Value, errors: seq<string>)

  /** The wire envelope. */
  datatype JsonResponse = JsonResponse(
    code: u16,
    message: string,
    data: Value,
    errors: seq<string>,
    timestamp: string,
    cache: bool,
    cost: real,
    hash: string)

  const PreHashKeys: set<string> := {"code", "message", "data", "errors", "timestamp", "cache", "cost"}

  /** The seven fields other than `hash` agree. */
  predicate SameContent(a: JsonResponse, b: JsonResponse)
  {
    && a.code == b.code && a.message == b.message && a.data == b.data && a.errors == b.errors
    && a.timestamp == b.timestamp && a.cache == b.cache && a.cost == b.cost
  }

  /** The object that is serialized and hashed: every field of `r` except `hash`. */
  function PreHash(r: JsonResponse): (v: Value)
    ensures v.Object? && v.fields.Keys == PreHashKeys
  {
    Object(map[
      "code" := Int(r.code),
      "message" := Str(r.message),
      "data" := r.data,
      "errors" := Array(Strings(r.errors)),
      "timestamp" := Str(r.timestamp),
      "cache" := Bool(r.cache),
      "cost" := Float(r.cost)])
  }

  /** Two envelopes hash the same object exactly when their seven non-hash fields agree. */
  lemma PreHashExact(a: JsonResponse, b: JsonResponse)
    ensures PreHash(a) == PreHash(b) <==> SameContent(a, b)
  {
  }

  /** The hash of `r` as a verifier recomputes it: hex of SHA-256 of the serialized pre-hash object. */
  function Seal(h: Hashing, r: JsonResponse): (hash: string)
    ensures |hash| == 64
    ensures forall i :: 0 <= i < |hash| ==> IsLowerHexDigit(hash[i])
  {
    HexEncode(h.sha256(h.toVec(PreHash(r))))
  }

  /** The stored hash is the one recomputed from the other seven fields. */
  predicate HashIntact(h: Hashing, r: JsonResponse)
  {
    r.hash == Seal(h, r)
  }

  /**
   * `JsonResponse::new`: copies its arguments, stamps the current second as
   * decimal text, builds the envelope with an empty hash and then overwrites
   * the hash with the digest of the other fields.
   */
  function NewJsonResponse(code: u16, message: string, data: Value, errors: seq<string>,
                           cache: bool, cost: real, now: Duration, h: Hashing): (r: JsonResponse)
    ensures r.code == code && r.message == message && r.data == data && r.errors == errors
    ensures r.cache == cache && r.cost == cost
    ensures r.timestamp == DecimalString(now.secs)
    ensures forall i :: 0 <= i < |r.timestamp| ==> IsDecimalDigit(r.timestamp[i])
    ensures DecimalValue(r.timestamp) == now.secs
    ensures HashIntact(h, r)
  {
    var timestamp := DecimalString(now.secs);
    DecimalRoundTrip(now.secs);
    var response := JsonResponse(code, message, data, errors, timestamp, cache, cost, "");
    response.(hash := Seal(h, response))
  }

  /** `ProcessResponse::to_json_response`: the envelope of a process's own code, message, data and errors. */
  function ToJsonResponse(p: ProcessResponse, cache: bool, cost: real, now: Duration, h: Hashing): (r: JsonResponse)
    ensures r.code == p.code && r.message == p.message && r.data == p.data && r.errors == p.errors
    ensures r.cache == cache && r.cost == cost
    ensures r.timestamp == DecimalString(now.secs)
    ensures HashIntact(h, r)
  {
    NewJsonResponse(p.code, p.message, p.data, p.errors, cache, cost, now, h)
  }

  /**
   * Tamper evidence: two intact envelopes whose non-hash fields differ can
   * carry the same hash only if SHA-256 of the serializer collides on two
   * distinct objects.
   */
  lemma HashSensitivity(h: Hashing, a: JsonResponse, b: JsonResponse)
    requires HashIntact(h, a) && HashIntact(h, b)
    requires !SameContent(a, b)
    ensures a.hash == b.hash ==>
              && PreHash(a) != PreHash(b)
              && h.sha256(h.toVec(PreHash(a))) == h.sha256(h.toVec(PreHash(b)))
  {
    PreHashExact(a, b);
    HexEncodeInjective(h.sha256(h.toVec(PreHash(a))), h.sha256(h.toVec(PreHash(b))));
  }

  /** For given contents only one hash is intact: a hash field changed on its own fails recomputation. */
  lemma HashDeterministic(h: Hashing, a: JsonResponse, b: JsonResponse)
    requires HashIntact(h, a) && HashIntact(h, b)
    requires SameContent(a, b)
    ensures a == b
  {
  }
}

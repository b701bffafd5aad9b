/**
 The canonical byte strings that pairing authenticates: the claim request, the claim result
 and the activation result. Each is a list of lines; equal text means equal content.
 */
module Canonical {
  import opened Prelude
  import opened TextLines

  /** Strict base64 decoding, and SHA-256 as lower-case hex text. */
  datatype Codec = Codec(decode: string -> Option<seq<byte>>, hash: Hash)

  /** A digest is 64 hex characters; all the encodings need is that it stays on its line. */
  ghost predicate SafeDigests(c: Codec) {
    forall bytes :: Safe(c.hash(bytes))
  }

  function DigestOf(c: Codec, encoded: string): string {
    match c.decode(encoded)
    case Some(bytes) => c.hash(bytes)
    case None => ""
  }

  predicate Decodes(c: Codec, encoded: string) {
    Safe(encoded) && c.decode(encoded).Some?
  }

  /** Two encoded fields that the digest cannot tell apart. */
  predicate SameDigest(c: Codec, x: string, y: string) {
    DigestOf(c, x) == DigestOf(c, y)
  }

  // ------------------------------------------------------------ claim request

  const REQUEST_CONTRACT: string := "pairling.psk.claim.request.v2"

  datatype Request = Request(
    contract: string, pair: string, deviceName: string, version: int, sealed: bool, activation: string,
    role: Option<string>, publicKey: Option<string>, attestation: Option<map<string, string>>,
    keyId: Option<string>, environment: Option<string>,
    ticket: Option<string>, ticketNonce: Option<string>, relay: Option<string>)

  predicate SafeEntries(m: map<string, string>) {
    forall k | k in m :: Safe(k) && Safe(m[k])
  }

  function RequestError(c: Codec, q: Request): Option<string> {
    if !Safe(q.contract) then Some("request_contract")
    else if q.contract != REQUEST_CONTRACT then Some("request_contract is unsupported")
    else if !Safe(q.pair) then Some("pair_id")
    else if !Safe(q.deviceName) then Some("device_name")
    else if !Safe(q.activation) then Some("activation_contract")
    else if !SafeOptional(q.role) then Some("role")
    else if !SafeOptional(q.publicKey) then Some("se_public_key_der")
    else if q.attestation.Some? && !SafeEntries(q.attestation.value) then Some("direct_attest_object")
    else if !SafeOptional(q.keyId) then Some("attest_key_id")
    else if !SafeOptional(q.environment) then Some("attest_environment")
    else if q.ticket.None? != q.ticketNonce.None? then Some("encrypted relay ticket fields")
    else if q.ticket.Some? && !Decodes(c, q.ticket.value) then Some("enc_attested_claim_ticket")
    else if q.ticketNonce.Some? && !Decodes(c, q.ticketNonce.value) then Some("attested_claim_ticket_nonce")
    else if !SafeOptional(q.relay) then Some("relay_device_id")
    else None
  }

  /** Key and value lines of some keys, in the order given. */
  function EntryLines(m: map<string, string>, keys: seq<string>): seq<string>
    requires forall k | k in keys :: k in m
  {
    if keys == [] then [] else [keys[0], m[keys[0]]] + EntryLines(m, keys[1..])
  }

  ghost function MapLines(m: Option<map<string, string>>): seq<string> {
    if m.None? then ["0"]
    else ["1", Decimal(|m.value|)] + EntryLines(m.value, Ascending(m.value.Keys))
  }

  function TicketLines(c: Codec, q: Request): seq<string> {
    if q.ticket.None? || q.ticketNonce.None? then ["0"]
    else ["1", DigestOf(c, q.ticket.value), DigestOf(c, q.ticketNonce.value)]
  }

  function HeadLines(q: Request): seq<string> {
    [q.contract, q.pair, q.deviceName, Decimal(q.version), Bit(q.sealed), q.activation]
  }

  function KeyLines(c: Codec, q: Request): seq<string> {
    OptionalLines(q.keyId) + (OptionalLines(q.environment) + (TicketLines(c, q) + OptionalLines(q.relay)))
  }

  ghost function RequestLines(c: Codec, q: Request): seq<string> {
    HeadLines(q) + (OptionalLines(q.role) + (OptionalLines(q.publicKey) + (MapLines(q.attestation) + KeyLines(c, q))))
  }

  ghost function EncodeRequest(c: Codec, q: Request): Result<string, string> {
    if RequestError(c, q).Some? then Err(RequestError(c, q).value) else Ok(Join(RequestLines(c, q)))
  }

  /** Appends an optional scalar: a mark and, if it is there, its value. */
  method AppendOptional(lines: seq<string>, x: Option<string>) returns (r: seq<string>)
    ensures r == lines + OptionalLines(x)
  {
    if x.None? {
      r := lines + ["0"];
    } else {
      r := lines + ["1"] + [x.value];
    }
  }

  /** The key and value lines of some keys, one pair after the other. */
  method ListEntries(m: map<string, string>, keys: seq<string>) returns (r: seq<string>)
    requires forall k | k in keys :: k in m
    ensures r == EntryLines(m, keys)
  {
    r := [];
    for i := 0 to |keys|
      invariant EntryLines(m, keys) == r + EntryLines(m, keys[i..])
    {
      EntryStep(m, keys, r, i);
      r := r + [keys[i], m[keys[i]]];
    }
    assert keys[|keys|..] == [];
  }

  lemma EntryStep(m: map<string, string>, keys: seq<string>, r: seq<string>, i: nat)
    requires (forall k | k in keys :: k in m) && i < |keys|
    ensures r + EntryLines(m, keys[i..]) == (r + [keys[i], m[keys[i]]]) + EntryLines(m, keys[i + 1..])
  {
    assert keys[i..][0] == keys[i] && keys[i..][1..] == keys[i + 1..];
  }

  method AppendEntries(lines: seq<string>, m: Option<map<string, string>>) returns (r: seq<string>)
    ensures r == lines + MapLines(m)
  {
    if m.None? {
      return lines + ["0"];
    }
    var keys := Sort(m.value.Keys);
    var entries := ListEntries(m.value, keys);
    assert |m.value| == |m.value.Keys|;
    r := lines + (["1", Decimal(|keys|)] + entries);
  }

  /** Appends what follows the attestation object. */
  method AppendKeyLines(lines: seq<string>, c: Codec, q: Request) returns (r: seq<string>)
    requires q.ticket.None? <==> q.ticketNonce.None?
    ensures r == lines + KeyLines(c, q)
  {
    r := AppendOptional(lines, q.keyId);
    r := AppendOptional(r, q.environment);
    if q.ticket.None? {
      r := r + ["0"];
    } else {
      r := r + ["1", DigestOf(c, q.ticket.value), DigestOf(c, q.ticketNonce.value)];
    }
    assert r == lines + OptionalLines(q.keyId) + OptionalLines(q.environment) + TicketLines(c, q);
    r := AppendOptional(r, q.relay);
    Regroup(lines, OptionalLines(q.keyId), OptionalLines(q.environment), TicketLines(c, q), OptionalLines(q.relay));
  }

  lemma Regroup(a: seq<string>, b: seq<string>, c: seq<string>, d: seq<string>, e: seq<string>)
    ensures a + b + c + d + e == a + (b + (c + (d + e)))
  {
  }

  method PairClaimRequestCanonical(c: Codec, q: Request) returns (r: Result<string, string>)
    ensures r == EncodeRequest(c, q)
  {
    var bad := RequestError(c, q);
    if bad.Some? {
      return Err(bad.value);
    }
    var lines := [q.contract, q.pair, q.deviceName, Decimal(q.version), Bit(q.sealed), q.activation];
    lines := AppendOptional(lines, q.role);
    lines := AppendOptional(lines, q.publicKey);
    lines := AppendEntries(lines, q.attestation);
    lines := AppendKeyLines(lines, c, q);
    Regroup(HeadLines(q), OptionalLines(q.role), OptionalLines(q.publicKey), MapLines(q.attestation), KeyLines(c, q));
    r := Ok(Join(lines));
  }

  lemma {:induction false} EntriesSafe(m: map<string, string>, keys: seq<string>)
    requires SafeEntries(m) && forall k | k in keys :: k in m
    ensures AllSafe(EntryLines(m, keys)) && |EntryLines(m, keys)| == 2 * |keys|
    decreases |keys|
  {
    if keys != [] {
      assert forall k | k in keys[1..] :: k in keys;
      EntriesSafe(m, keys[1..]);
    }
  }

  lemma SafeAppend(a: seq<string>, b: seq<string>)
    requires AllSafe(a) && AllSafe(b)
    ensures AllSafe(a + b)
  {
  }

  lemma MapLinesSafe(c: Codec, q: Request)
    requires RequestError(c, q).None?
    ensures AllSafe(MapLines(q.attestation))
  {
    if q.attestation.Some? {
      EntriesSafe(q.attestation.value, Ascending(q.attestation.value.Keys));
      assert AllSafe(["1", Decimal(|q.attestation.value|)]);
    }
  }

  lemma KeyLinesSafe(c: Codec, q: Request)
    requires SafeDigests(c) && RequestError(c, q).None?
    ensures AllSafe(KeyLines(c, q))
  {
    assert AllSafe(TicketLines(c, q)) && AllSafe(OptionalLines(q.relay));
    SafeAppend(TicketLines(c, q), OptionalLines(q.relay));
    SafeAppend(OptionalLines(q.environment), TicketLines(c, q) + OptionalLines(q.relay));
  }

  lemma RequestLinesSafe(c: Codec, q: Request)
    requires SafeDigests(c) && RequestError(c, q).None?
    ensures RequestLines(c, q) != [] && AllSafe(RequestLines(c, q))
  {
    MapLinesSafe(c, q);
    KeyLinesSafe(c, q);
    SafeAppend(MapLines(q.attestation), KeyLines(c, q));
    SafeAppend(OptionalLines(q.publicKey), MapLines(q.attestation) + KeyLines(c, q));
    assert AllSafe(HeadLines(q));
  }

  /** Entries in one order determine keys and values. */
  lemma {:induction false} EntriesInjective(m: map<string, string>, a: seq<string>, n: map<string, string>,
                                            b: seq<string>)
    requires (forall k | k in a :: k in m) && (forall k | k in b :: k in n)
    requires EntryLines(m, a) == EntryLines(n, b)
    ensures a == b && forall k | k in a :: m[k] == n[k]
    decreases |a|
  {
    if a == [] {
      assert b == [];
    } else {
      assert b != [];
      assert forall k | k in a[1..] :: k in a;
      assert forall k | k in b[1..] :: k in b;
      PeelFixed([a[0], m[a[0]]], EntryLines(m, a[1..]), [b[0], n[b[0]]], EntryLines(n, b[1..]));
      assert [a[0], m[a[0]]][1] == [b[0], n[b[0]]][1];
      EntriesInjective(m, a[1..], n, b[1..]);
      assert a == [a[0]] + a[1..] && b == [b[0]] + b[1..];
    }
  }

  lemma {:induction false} EntriesLength(m: map<string, string>, keys: seq<string>)
    requires forall k | k in keys :: k in m
    ensures |EntryLines(m, keys)| == 2 * |keys|
    decreases |keys|
  {
    if keys != [] {
      assert forall k | k in keys[1..] :: k in keys;
      EntriesLength(m, keys[1..]);
    }
  }

  lemma PeelMap(m: Option<map<string, string>>, r: seq<string>, n: Option<map<string, string>>, s: seq<string>)
    requires MapLines(m) + r == MapLines(n) + s
    ensures m == n && r == s
  {
    assert (MapLines(m) + r)[0] == (if m.None? then "0" else "1");
    assert (MapLines(n) + s)[0] == (if n.None? then "0" else "1");
    assert "0"[0] != "1"[0];
    if m.Some? {
      assert (MapLines(m) + r)[1] == Decimal(|m.value|) && (MapLines(n) + s)[1] == Decimal(|n.value|);
      DecimalInjective(|m.value|, |n.value|);
      var a, b := Ascending(m.value.Keys), Ascending(n.value.Keys);
      assert |m.value| == |m.value.Keys| && |n.value| == |n.value.Keys|;
      EntriesLength(m.value, a);
      EntriesLength(n.value, b);
      PeelFixed(MapLines(m), r, MapLines(n), s);
      assert EntryLines(m.value, a) == MapLines(m)[2..] && EntryLines(n.value, b) == MapLines(n)[2..];
      EntriesInjective(m.value, a, n.value, b);
      AscendingInjective(m.value.Keys, n.value.Keys);
      assert forall k | k in m.value :: k in a;
      assert m.value == n.value;
    } else {
      PeelFixed(MapLines(m), r, MapLines(n), s);
    }
  }

  /** Equal in everything but the ticket fields, and those have equal digests. */
  predicate SameRequest(c: Codec, p: Request, q: Request) {
    && p.(ticket := q.ticket, ticketNonce := q.ticketNonce) == q
    && (p.ticket.Some? <==> q.ticket.Some?)
    && (p.ticket.Some? && q.ticket.Some? ==> SameDigest(c, p.ticket.value, q.ticket.value))
    && (p.ticketNonce.Some? <==> q.ticketNonce.Some?)
    && (p.ticketNonce.Some? && q.ticketNonce.Some? ==> SameDigest(c, p.ticketNonce.value, q.ticketNonce.value))
  }

  lemma PeelTicket(c: Codec, p: Request, r: seq<string>, q: Request, s: seq<string>)
    requires RequestError(c, p).None? && RequestError(c, q).None?
    requires TicketLines(c, p) + r == TicketLines(c, q) + s
    ensures TicketLines(c, p) == TicketLines(c, q) && r == s
    ensures p.ticket.Some? <==> q.ticket.Some?
  {
    assert (TicketLines(c, p) + r)[0] == (if p.ticket.None? then "0" else "1");
    assert (TicketLines(c, q) + s)[0] == (if q.ticket.None? then "0" else "1");
    assert "0"[0] != "1"[0];
    PeelFixed(TicketLines(c, p), r, TicketLines(c, q), s);
  }

  lemma KeyLinesInjective(c: Codec, p: Request, q: Request)
    requires RequestError(c, p).None? && RequestError(c, q).None? && KeyLines(c, p) == KeyLines(c, q)
    ensures p.keyId == q.keyId && p.environment == q.environment && p.relay == q.relay
    ensures TicketLines(c, p) == TicketLines(c, q) && (p.ticket.Some? <==> q.ticket.Some?)
  {
    PeelOptional(p.keyId, OptionalLines(p.environment) + (TicketLines(c, p) + OptionalLines(p.relay)),
                 q.keyId, OptionalLines(q.environment) + (TicketLines(c, q) + OptionalLines(q.relay)));
    PeelOptional(p.environment, TicketLines(c, p) + OptionalLines(p.relay),
                 q.environment, TicketLines(c, q) + OptionalLines(q.relay));
    PeelTicket(c, p, OptionalLines(p.relay), q, OptionalLines(q.relay));
    assert OptionalLines(p.relay) + [] == OptionalLines(p.relay);
    assert OptionalLines(q.relay) + [] == OptionalLines(q.relay);
    PeelOptional(p.relay, [], q.relay, []);
  }

  lemma HeadLinesInjective(p: Request, q: Request)
    requires HeadLines(p) == HeadLines(q)
    ensures p.contract == q.contract && p.pair == q.pair && p.deviceName == q.deviceName
    ensures p.version == q.version && p.sealed == q.sealed && p.activation == q.activation
  {
    var a, b := HeadLines(p), HeadLines(q);
    assert a[0] == b[0] && a[1] == b[1] && a[2] == b[2] && a[3] == b[3] && a[4] == b[4] && a[5] == b[5];
    DecimalInjective(p.version, q.version);
    assert "0"[0] != "1"[0];
  }

  lemma RequestLinesInjective(c: Codec, p: Request, q: Request)
    requires RequestError(c, p).None? && RequestError(c, q).None? && RequestLines(c, p) == RequestLines(c, q)
    ensures SameRequest(c, p, q)
  {
    var p3, q3 := MapLines(p.attestation) + KeyLines(c, p), MapLines(q.attestation) + KeyLines(c, q);
    var p2, q2 := OptionalLines(p.publicKey) + p3, OptionalLines(q.publicKey) + q3;
    PeelFixed(HeadLines(p), OptionalLines(p.role) + p2, HeadLines(q), OptionalLines(q.role) + q2);
    HeadLinesInjective(p, q);
    PeelOptional(p.role, p2, q.role, q2);
    PeelOptional(p.publicKey, p3, q.publicKey, q3);
    PeelMap(p.attestation, KeyLines(c, p), q.attestation, KeyLines(c, q));
    KeyLinesInjective(c, p, q);
    var a, b := TicketLines(c, p), TicketLines(c, q);
    if p.ticket.Some? {
      assert a[1] == b[1] && a[2] == b[2];
    }
  }

  /** Two claim requests have the same canonical text exactly when they are the same request. */
  lemma RequestsDecodeUniquely(c: Codec, p: Request, q: Request)
    requires SafeDigests(c) && EncodeRequest(c, p).Ok? && EncodeRequest(c, q).Ok?
    ensures EncodeRequest(c, p) == EncodeRequest(c, q) <==> SameRequest(c, p, q)
  {
    RequestLinesSafe(c, p);
    RequestLinesSafe(c, q);
    if Join(RequestLines(c, p)) == Join(RequestLines(c, q)) {
      JoinInjective(RequestLines(c, p), RequestLines(c, q));
      RequestLinesInjective(c, p, q);
    }
    if SameRequest(c, p, q) {
      assert TicketLines(c, p) == TicketLines(c, q);
    }
  }

  // -------------------------------------------------------- activation result

  const ACTIVATION_CONTRACT: string := "pairling.psk.activate.result.v1"

  datatype ActivationResult = ActivationResult(
    ok: bool, pair: string, device: string, install: string, nonce: string, token: string, proof: string,
    pairing: string, outcome: string, already: bool, superseded: seq<string>)

  predicate SafeText(s: string) {
    s != "" && Safe(s)
  }

  function LowerChar(c: char): char {
    if 'A' <= c <= 'Z' then ((c as int) + 32) as char else c
  }

  /** Hex text in lower case. */
  function Lower(s: string): (r: string)
    ensures |r| == |s| && (Safe(s) ==> Safe(r))
    ensures forall i | 0 <= i < |s| :: r[i] == LowerChar(s[i])
  {
    if s == "" then "" else [LowerChar(s[0])] + Lower(s[1..])
  }

  predicate Encodable(a: ActivationResult) {
    && SafeText(a.pair) && SafeText(a.device) && SafeText(a.install) && SafeText(a.nonce) && SafeText(a.token)
    && SafeText(a.proof) && SafeText(a.pairing) && SafeText(a.outcome)
    && forall i | 0 <= i < |a.superseded| :: SafeText(a.superseded[i])
  }

  function Members(s: seq<string>): set<string> {
    set x | x in s
  }

  function ActivationHead(a: ActivationResult): seq<string> {
    [ACTIVATION_CONTRACT, Bit(a.ok), a.pair, a.device, a.install, a.nonce, Lower(a.token), Lower(a.proof),
     a.pairing, a.outcome, Bit(a.already)]
  }

  ghost function ActivationLines(a: ActivationResult): seq<string> {
    ActivationHead(a) + ListLines(Ascending(Members(a.superseded)))
  }

  ghost function EncodeActivation(a: ActivationResult): Result<string, string> {
    if !Encodable(a) then Err("not a safe activation result scalar") else Ok(Join(ActivationLines(a)))
  }

  /** The set of superseded ids, if each is a safe text. */
  method CollectIds(ids: seq<string>) returns (r: Option<set<string>>)
    ensures r.Some? <==> forall i | 0 <= i < |ids| :: SafeText(ids[i])
    ensures r.Some? ==> r.value == Members(ids)
  {
    var seen: set<string> := {};
    for i := 0 to |ids|
      invariant seen == Members(ids[..i])
      invariant forall j | 0 <= j < i :: SafeText(ids[j])
    {
      if !SafeText(ids[i]) {
        return None;
      }
      assert ids[..i + 1] == ids[..i] + [ids[i]];
      seen := seen + {ids[i]};
    }
    assert ids[..|ids|] == ids;
    return Some(seen);
  }

  method PairActivationResultCanonical(a: ActivationResult) returns (r: Result<string, string>)
    ensures r == EncodeActivation(a)
  {
    var ids := CollectIds(a.superseded);
    if ids.None? || !(SafeText(a.pair) && SafeText(a.device) && SafeText(a.install) && SafeText(a.nonce)
                      && SafeText(a.token) && SafeText(a.proof) && SafeText(a.pairing) && SafeText(a.outcome)) {
      return Err("not a safe activation result scalar");
    }
    var sorted := Sort(ids.value);
    var scalars := ActivationHead(a);
    scalars := scalars + ([Decimal(|sorted|)] + sorted);
    r := Ok(Join(scalars));
  }

  /** Equal up to the case of the two hex fields and the order of the superseded ids. */
  predicate SameActivation(a: ActivationResult, b: ActivationResult) {
    && a.(token := b.token, proof := b.proof, superseded := b.superseded) == b
    && Lower(a.token) == Lower(b.token) && Lower(a.proof) == Lower(b.proof)
    && Members(a.superseded) == Members(b.superseded)
  }

  lemma ActivationHeadSafe(a: ActivationResult)
    requires Encodable(a)
    ensures AllSafe(ActivationHead(a)) && ActivationHead(a) != []
  {
    assert Safe(ACTIVATION_CONTRACT);
  }

  lemma ActivationSafe(a: ActivationResult)
    requires Encodable(a)
    ensures AllSafe(ActivationLines(a)) && ActivationLines(a) != []
  {
    var ids := Ascending(Members(a.superseded));
    ActivationHeadSafe(a);
    forall i | 0 <= i < |ids| ensures Safe(ids[i]) {
      assert ids[i] in Members(a.superseded);
    }
    SafeAppend(ActivationHead(a), ListLines(ids));
  }

  lemma ActivationHeadInjective(a: ActivationResult, b: ActivationResult)
    requires ActivationHead(a) == ActivationHead(b)
    ensures a.(token := b.token, proof := b.proof, superseded := b.superseded) == b
    ensures Lower(a.token) == Lower(b.token) && Lower(a.proof) == Lower(b.proof)
  {
    var x, y := ActivationHead(a), ActivationHead(b);
    assert x[1] == y[1] && x[2] == y[2] && x[3] == y[3] && x[4] == y[4] && x[5] == y[5];
    assert x[6] == y[6] && x[7] == y[7] && x[8] == y[8] && x[9] == y[9] && x[10] == y[10];
    assert "0"[0] != "1"[0];
  }

  /** Two activation results have the same canonical text exactly when they are the same result. */
  lemma ActivationsDecodeUniquely(a: ActivationResult, b: ActivationResult)
    requires EncodeActivation(a).Ok? && EncodeActivation(b).Ok?
    ensures EncodeActivation(a) == EncodeActivation(b) <==> SameActivation(a, b)
  {
    ActivationSafe(a);
    ActivationSafe(b);
    if Join(ActivationLines(a)) == Join(ActivationLines(b)) {
      JoinInjective(ActivationLines(a), ActivationLines(b));
      var x, y := Ascending(Members(a.superseded)), Ascending(Members(b.superseded));
      PeelFixed(ActivationHead(a), ListLines(x), ActivationHead(b), ListLines(y));
      ActivationHeadInjective(a, b);
      assert ListLines(x) + [] == ListLines(x) && ListLines(y) + [] == ListLines(y);
      PeelList(x, [], y, []);
      AscendingInjective(Members(a.superseded), Members(b.superseded));
    }
  }
}

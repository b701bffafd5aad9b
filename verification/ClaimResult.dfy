/** The canonical text of a claim result: nested objects, counted lists and digests. */
module ClaimResult {
  import opened Prelude
  import opened TextLines
  import opened Canonical

  const RESULT_CONTRACT: string := "pairling.psk.claim.result.v2"

  datatype Route = Route(
    id: Option<string>, kind: string, source: string, priority: Option<int>, baseUrl: Option<string>,
    host: string, port: int, status: Option<string>)

  datatype Device = Device(
    id: string, scopes: seq<string>, role: Option<string>, relay: Option<string>, attestation: Option<string>,
    encProofSecret: string, proofSecretNonce: string)

  datatype Runtime = Runtime(
    port: int, hosts: seq<string>, certPin: Option<string>, transport: Option<string>, routes: seq<Route>)

  datatype Activation = Activation(
    path: string, pair: string, device: string, nonce: string, expiresAtMs: int, expiresAt: real, proofVersion: string)

  datatype Response = Response(
    contract: string, ok: bool, state: string, pair: string, version: int, binding: string, install: string,
    device: Device, runtime: Runtime, activation: Activation,
    encToken: string, nonce: string, macConfirm: string)

  // ------------------------------------------------------------------- checks

  predicate SafeRoute(r: Route) {
    && SafeOptional(r.id) && Safe(r.kind) && Safe(r.source) && SafeOptional(r.baseUrl)
    && Safe(r.host) && SafeOptional(r.status)
  }

  ghost function DeviceError(c: Codec, d: Device): Option<string> {
    if !Safe(d.id) then Some("device.id")
    else if !AllSafe(d.scopes) then Some("device.scope")
    else if d.scopes != Ascending(Members(d.scopes)) then Some("device.scopes must be sorted and unique")
    else if !SafeOptional(d.role) || !SafeOptional(d.relay) || !SafeOptional(d.attestation) then Some("device")
    else None
  }

  function RuntimeError(r: Runtime): Option<string> {
    if !AllSafe(r.hosts) then Some("runtime.host")
    else if !SafeOptional(r.certPin) || !SafeOptional(r.transport) then Some("runtime")
    else if !forall i | 0 <= i < |r.routes| :: SafeRoute(r.routes[i]) then Some("runtime.routes")
    else None
  }

  function ActivationError(a: Activation): Option<string> {
    if a.expiresAt != (a.expiresAtMs as real) / 1000.0 then Some("activation.expires_at does not match expires_at_ms")
    else if !(Safe(a.path) && Safe(a.pair) && Safe(a.device) && Safe(a.nonce) && Safe(a.proofVersion)) then
      Some("activation")
    else None
  }

  function EncodedFields(q: Response): seq<string> {
    [q.encToken, q.nonce, q.device.encProofSecret, q.device.proofSecretNonce, q.macConfirm]
  }

  ghost function ResponseError(c: Codec, q: Response): Option<string> {
    if !Safe(q.contract) then Some("claim_result_contract")
    else if q.contract != RESULT_CONTRACT then Some("claim_result_contract is unsupported")
    else if !(Safe(q.state) && Safe(q.pair) && Safe(q.binding)) then Some("response")
    else if DeviceError(c, q.device).Some? then DeviceError(c, q.device)
    else if !Safe(q.install) then Some("install_id")
    else if RuntimeError(q.runtime).Some? then RuntimeError(q.runtime)
    else if ActivationError(q.activation).Some? then ActivationError(q.activation)
    else if !forall i | 0 <= i < 5 :: Decodes(c, EncodedFields(q)[i]) then Some("not valid base64")
    else None
  }

  // -------------------------------------------------------------------- lines

  function RouteLines(r: Route): seq<string> {
    OptionalLines(r.id) + ([r.kind, r.source] + (OptionalLines(OptionalInteger(r.priority))
      + (OptionalLines(r.baseUrl) + ([r.host, Decimal(r.port)] + OptionalLines(r.status)))))
  }

  function RoutesLines(routes: seq<Route>): seq<string> {
    if routes == [] then [] else RouteLines(routes[0]) + RoutesLines(routes[1..])
  }

  function HeadOf(q: Response): seq<string> {
    [q.contract, Bit(q.ok), q.state, q.pair, Decimal(q.version), q.binding, q.device.id]
  }

  function TailOf(c: Codec, q: Response): seq<string> {
    [q.activation.path, q.activation.pair, q.activation.device, q.activation.nonce,
     Decimal(q.activation.expiresAtMs), q.activation.proofVersion,
     DigestOf(c, q.encToken), DigestOf(c, q.nonce), DigestOf(c, q.device.encProofSecret),
     DigestOf(c, q.device.proofSecretNonce), DigestOf(c, q.macConfirm)]
  }

  function RuntimeLines(c: Codec, q: Response): seq<string> {
    [q.install, Decimal(q.runtime.port)] + (ListLines(q.runtime.hosts) + (OptionalLines(q.runtime.certPin)
      + (OptionalLines(q.runtime.transport)
         + ([Decimal(|q.runtime.routes|)] + (RoutesLines(q.runtime.routes) + TailOf(c, q))))))
  }

  function ResponseLines(c: Codec, q: Response): seq<string> {
    HeadOf(q) + (ListLines(q.device.scopes) + (OptionalLines(q.device.role) + (OptionalLines(q.device.relay)
      + (OptionalLines(q.device.attestation) + RuntimeLines(c, q)))))
  }

  ghost function EncodeResponse(c: Codec, q: Response): Result<string, string> {
    if ResponseError(c, q).Some? then Err(ResponseError(c, q).value) else Ok(Join(ResponseLines(c, q)))
  }

  // ------------------------------------------------------------------ methods

  /** `scopes == sorted(set(scopes))` means that the scopes ascend without repetition. */
  method SortedAndUnique(items: seq<string>) returns (ok: bool)
    ensures ok <==> Sorted(items)
    ensures ok <==> items == Ascending(Members(items))
  {
    var seen: set<string> := {};
    for i := 0 to |items|
      invariant seen == Members(items[..i])
    {
      assert items[..i + 1] == items[..i] + [items[i]];
      seen := seen + {items[i]};
    }
    assert items[..|items|] == items;
    var sorted := Sort(seen);
    ok := items == sorted;
    SortedIffAscending(items, seen);
  }

  method CheckResponse(c: Codec, q: Response) returns (error: Option<string>)
    ensures error == ResponseError(c, q)
  {
    if !Safe(q.contract) {
      return Some("claim_result_contract");
    }
    if q.contract != RESULT_CONTRACT {
      return Some("claim_result_contract is unsupported");
    }
    if !(Safe(q.state) && Safe(q.pair) && Safe(q.binding)) {
      return Some("response");
    }
    if !Safe(q.device.id) {
      return Some("device.id");
    }
    if !AllSafe(q.device.scopes) {
      return Some("device.scope");
    }
    var sorted := SortedAndUnique(q.device.scopes);
    if !sorted {
      return Some("device.scopes must be sorted and unique");
    }
    if !SafeOptional(q.device.role) || !SafeOptional(q.device.relay) || !SafeOptional(q.device.attestation) {
      return Some("device");
    }
    if !Safe(q.install) {
      return Some("install_id");
    }
    if RuntimeError(q.runtime).Some? {
      return RuntimeError(q.runtime);
    }
    if ActivationError(q.activation).Some? {
      return ActivationError(q.activation);
    }
    if !forall i | 0 <= i < 5 :: Decodes(c, EncodedFields(q)[i]) {
      return Some("not valid base64");
    }
    return None;
  }

  /** Six pieces after a prefix, grouped the other way round. */
  lemma RegroupAfter(l: seq<string>, a: seq<string>, b: seq<string>, c: seq<string>, d: seq<string>, e: seq<string>,
                     f: seq<string>)
    ensures l + a + b + c + d + e + f == l + (a + (b + (c + (d + (e + f)))))
  {
    Regroup(a, b, c, d, e + f);
    assert l + a + b + c + d + e + f == l + (a + b + c + d + (e + f));
  }

  lemma PushIn(a: seq<string>, b: seq<string>, c: seq<string>, d: seq<string>, e: seq<string>, f: seq<string>,
               r: seq<string>)
    ensures (a + (b + (c + (d + (e + f))))) + r == a + (b + (c + (d + (e + (f + r)))))
  {
    Regroup(a, b, c, d, e + f);
    Regroup(a, b, c, d, e + (f + r));
    assert (a + b + c + d + (e + f)) + r == a + b + c + d + (e + (f + r));
  }

  method AppendRoute(lines: seq<string>, r: Route) returns (after: seq<string>)
    ensures after == lines + RouteLines(r)
  {
    after := AppendOptional(lines, r.id);
    after := after + [r.kind, r.source];
    after := AppendOptional(after, OptionalInteger(r.priority));
    after := AppendOptional(after, r.baseUrl);
    after := after + [r.host, Decimal(r.port)];
    after := AppendOptional(after, r.status);
    RegroupAfter(lines, OptionalLines(r.id), [r.kind, r.source], OptionalLines(OptionalInteger(r.priority)),
                 OptionalLines(r.baseUrl), [r.host, Decimal(r.port)], OptionalLines(r.status));
  }

  lemma NextRoute(after: seq<string>, routes: seq<Route>, i: nat)
    requires i < |routes|
    ensures after + RoutesLines(routes[i..]) == (after + RouteLines(routes[i])) + RoutesLines(routes[i + 1..])
  {
    assert routes[i..][1..] == routes[i + 1..];
  }

  method AppendRoutes(lines: seq<string>, routes: seq<Route>) returns (after: seq<string>)
    ensures after == lines + ([Decimal(|routes|)] + RoutesLines(routes))
  {
    after := lines + [Decimal(|routes|)];
    for i := 0 to |routes|
      invariant after + RoutesLines(routes[i..]) == lines + ([Decimal(|routes|)] + RoutesLines(routes))
    {
      NextRoute(after, routes, i);
      after := AppendRoute(after, routes[i]);
    }
    assert routes[|routes|..] == [];
  }

  /** Appends the runtime object, the activation object and the digests. */
  method AppendRuntime(lines: seq<string>, c: Codec, q: Response) returns (after: seq<string>)
    ensures after == lines + RuntimeLines(c, q)
  {
    after := lines + [q.install, Decimal(q.runtime.port)];
    after := after + ([Decimal(|q.runtime.hosts|)] + q.runtime.hosts);
    after := AppendOptional(after, q.runtime.certPin);
    after := AppendOptional(after, q.runtime.transport);
    after := AppendRoutes(after, q.runtime.routes);
    after := after + TailOf(c, q);
    RegroupAfter(lines, [q.install, Decimal(q.runtime.port)], ListLines(q.runtime.hosts),
                 OptionalLines(q.runtime.certPin), OptionalLines(q.runtime.transport),
                 [Decimal(|q.runtime.routes|)] + RoutesLines(q.runtime.routes), TailOf(c, q));
    PushCount(q.runtime.routes, TailOf(c, q));
  }

  lemma PushCount(routes: seq<Route>, tail: seq<string>)
    ensures ([Decimal(|routes|)] + RoutesLines(routes)) + tail == [Decimal(|routes|)] + (RoutesLines(routes) + tail)
  {
  }

  method PairClaimResultCanonical(c: Codec, q: Response) returns (r: Result<string, string>)
    ensures r == EncodeResponse(c, q)
  {
    var bad := CheckResponse(c, q);
    if bad.Some? {
      return Err(bad.value);
    }
    var lines := HeadOf(q);
    lines := lines + ([Decimal(|q.device.scopes|)] + q.device.scopes);
    lines := AppendOptional(lines, q.device.role);
    lines := AppendOptional(lines, q.device.relay);
    lines := AppendOptional(lines, q.device.attestation);
    lines := AppendRuntime(lines, c, q);
    RegroupAfter([], HeadOf(q), ListLines(q.device.scopes), OptionalLines(q.device.role),
                 OptionalLines(q.device.relay), OptionalLines(q.device.attestation), RuntimeLines(c, q));
    assert [] + HeadOf(q) == HeadOf(q) && [] + ResponseLines(c, q) == ResponseLines(c, q);
    r := Ok(Join(lines));
  }

  // ----------------------------------------------------------- every line safe

  lemma RouteSafe(r: Route)
    requires SafeRoute(r)
    ensures AllSafe(RouteLines(r))
  {
    var p := OptionalLines(OptionalInteger(r.priority));
    assert AllSafe(p) && AllSafe([r.host, Decimal(r.port)]) && AllSafe([r.kind, r.source]);
    SafeAppend([r.host, Decimal(r.port)], OptionalLines(r.status));
    SafeAppend(OptionalLines(r.baseUrl), [r.host, Decimal(r.port)] + OptionalLines(r.status));
    SafeAppend(p, OptionalLines(r.baseUrl) + ([r.host, Decimal(r.port)] + OptionalLines(r.status)));
  }

  lemma {:induction false} RoutesSafe(routes: seq<Route>)
    requires forall i | 0 <= i < |routes| :: SafeRoute(routes[i])
    ensures AllSafe(RoutesLines(routes))
    decreases |routes|
  {
    if routes != [] {
      RouteSafe(routes[0]);
      RoutesSafe(routes[1..]);
      SafeAppend(RouteLines(routes[0]), RoutesLines(routes[1..]));
    }
  }

  lemma SafeChain(a: seq<string>, b: seq<string>, c: seq<string>, d: seq<string>, e: seq<string>, f: seq<string>)
    requires AllSafe(a) && AllSafe(b) && AllSafe(c) && AllSafe(d) && AllSafe(e) && AllSafe(f)
    ensures AllSafe(a + (b + (c + (d + (e + f)))))
  {
    SafeAppend(e, f);
    SafeAppend(d, e + f);
    SafeAppend(c, d + (e + f));
    SafeAppend(b, c + (d + (e + f)));
    SafeAppend(a, b + (c + (d + (e + f))));
  }

  lemma TailSafe(c: Codec, q: Response)
    requires SafeDigests(c) && ActivationError(q.activation).None?
    requires forall i | 0 <= i < 5 :: Decodes(c, EncodedFields(q)[i])
    ensures AllSafe(TailOf(c, q))
  {
    var fields := EncodedFields(q);
    assert Decodes(c, fields[0]) && Decodes(c, fields[1]) && Decodes(c, fields[2]) && Decodes(c, fields[3]) && Decodes(c, fields[4]);
  }

  /** What a passed check says about the parts. */
  lemma Checked(c: Codec, q: Response)
    requires ResponseError(c, q).None?
    ensures DeviceError(c, q.device).None? && RuntimeError(q.runtime).None? && ActivationError(q.activation).None?
    ensures q.contract == RESULT_CONTRACT && Safe(q.contract) && Safe(q.state) && Safe(q.pair) && Safe(q.binding)
    ensures Safe(q.install) && forall i | 0 <= i < 5 :: Decodes(c, EncodedFields(q)[i])
  {
  }

  lemma RuntimePiecesSafe(install: string, rt: Runtime)
    requires Safe(install) && RuntimeError(rt).None?
    ensures AllSafe([install, Decimal(rt.port)]) && AllSafe(ListLines(rt.hosts)) && AllSafe([Decimal(|rt.routes|)])
    ensures AllSafe(OptionalLines(rt.certPin)) && AllSafe(OptionalLines(rt.transport))
    ensures AllSafe(RoutesLines(rt.routes))
  {
    RoutesSafe(rt.routes);
  }

  lemma RuntimeLinesSafe(c: Codec, q: Response)
    requires Safe(q.install) && RuntimeError(q.runtime).None? && AllSafe(TailOf(c, q))
    ensures AllSafe(RuntimeLines(c, q))
  {
    var rt := q.runtime;
    RuntimePiecesSafe(q.install, rt);
    SafeAppend(RoutesLines(rt.routes), TailOf(c, q));
    SafeChain([q.install, Decimal(rt.port)], ListLines(rt.hosts), OptionalLines(rt.certPin), OptionalLines(rt.transport),
              [Decimal(|rt.routes|)], RoutesLines(rt.routes) + TailOf(c, q));
  }

  lemma DeviceLinesSafe(c: Codec, q: Response, rest: seq<string>)
    requires AllSafe(HeadOf(q)) && DeviceError(c, q.device).None? && AllSafe(rest)
    ensures AllSafe(HeadOf(q) + (ListLines(q.device.scopes) + (OptionalLines(q.device.role)
              + (OptionalLines(q.device.relay) + (OptionalLines(q.device.attestation) + rest)))))
  {
    SafeChain(HeadOf(q), ListLines(q.device.scopes), OptionalLines(q.device.role), OptionalLines(q.device.relay),
              OptionalLines(q.device.attestation), rest);
  }

  lemma ResponseLinesSafe(c: Codec, q: Response)
    requires SafeDigests(c) && ResponseError(c, q).None?
    ensures AllSafe(ResponseLines(c, q)) && ResponseLines(c, q) != []
  {
    Checked(c, q);
    TailSafe(c, q);
    RuntimeLinesSafe(c, q);
    DeviceLinesSafe(c, q, RuntimeLines(c, q));
  }

  // --------------------------------------------------------- unique decoding

  lemma PeelRoute(x: Route, r: seq<string>, y: Route, s: seq<string>)
    requires RouteLines(x) + r == RouteLines(y) + s
    ensures x == y && r == s
  {
    var x5, y5 := OptionalLines(x.status) + r, OptionalLines(y.status) + s;
    var x4, y4 := [x.host, Decimal(x.port)] + x5, [y.host, Decimal(y.port)] + y5;
    var x3, y3 := OptionalLines(x.baseUrl) + x4, OptionalLines(y.baseUrl) + y4;
    var x2, y2 := OptionalLines(OptionalInteger(x.priority)) + x3, OptionalLines(OptionalInteger(y.priority)) + y3;
    var x1, y1 := [x.kind, x.source] + x2, [y.kind, y.source] + y2;
    PushIn(OptionalLines(x.id), [x.kind, x.source], OptionalLines(OptionalInteger(x.priority)),
           OptionalLines(x.baseUrl), [x.host, Decimal(x.port)], OptionalLines(x.status), r);
    PushIn(OptionalLines(y.id), [y.kind, y.source], OptionalLines(OptionalInteger(y.priority)),
           OptionalLines(y.baseUrl), [y.host, Decimal(y.port)], OptionalLines(y.status), s);
    PeelOptional(x.id, x1, y.id, y1);
    PeelFixed([x.kind, x.source], x2, [y.kind, y.source], y2);
    PeelOptionalInteger(x.priority, x3, y.priority, y3);
    PeelOptional(x.baseUrl, x4, y.baseUrl, y4);
    PeelFixed([x.host, Decimal(x.port)], x5, [y.host, Decimal(y.port)], y5);
    PeelOptional(x.status, r, y.status, s);
    SamePair(x.kind, x.source, y.kind, y.source);
    SamePair(x.host, Decimal(x.port), y.host, Decimal(y.port));
    DecimalInjective(x.port, y.port);
  }

  lemma SamePair(a: string, b: string, c: string, d: string)
    requires [a, b] == [c, d]
    ensures a == c && b == d
  {
    assert [a, b][0] == [c, d][0] && [a, b][1] == [c, d][1];
  }

  lemma {:induction false} PeelRoutes(a: seq<Route>, r: seq<string>, b: seq<Route>, s: seq<string>)
    requires |a| == |b| && RoutesLines(a) + r == RoutesLines(b) + s
    ensures a == b && r == s
    decreases |a|
  {
    if a == [] {
      assert [] + r == r && [] + s == s;
    } else {
      RoutesUnfold(a, r);
      RoutesUnfold(b, s);
      PeelRoute(a[0], RoutesLines(a[1..]) + r, b[0], RoutesLines(b[1..]) + s);
      PeelRoutes(a[1..], r, b[1..], s);
      assert a == [a[0]] + a[1..] && b == [b[0]] + b[1..];
    }
  }

  lemma RoutesUnfold(a: seq<Route>, r: seq<string>)
    requires a != []
    ensures RoutesLines(a) + r == RouteLines(a[0]) + (RoutesLines(a[1..]) + r)
  {
  }

  /** Equal except for the five encoded fields, whose digests are equal. */
  predicate SameResponse(c: Codec, p: Response, q: Response) {
    && p.(encToken := q.encToken, nonce := q.nonce, macConfirm := q.macConfirm,
          device := p.device.(encProofSecret := q.device.encProofSecret, proofSecretNonce := q.device.proofSecretNonce)) == q
    && SameDigest(c, p.encToken, q.encToken) && SameDigest(c, p.nonce, q.nonce)
    && SameDigest(c, p.device.encProofSecret, q.device.encProofSecret)
    && SameDigest(c, p.device.proofSecretNonce, q.device.proofSecretNonce)
    && SameDigest(c, p.macConfirm, q.macConfirm)
  }

  lemma TailInjective(c: Codec, p: Response, q: Response)
    requires ActivationError(p.activation).None? && ActivationError(q.activation).None?
    requires TailOf(c, p) == TailOf(c, q)
    ensures p.activation == q.activation
    ensures SameDigest(c, p.encToken, q.encToken) && SameDigest(c, p.nonce, q.nonce)
    ensures SameDigest(c, p.device.encProofSecret, q.device.encProofSecret)
    ensures SameDigest(c, p.device.proofSecretNonce, q.device.proofSecretNonce)
    ensures SameDigest(c, p.macConfirm, q.macConfirm)
  {
    var a, b := TailOf(c, p), TailOf(c, q);
    assert a[0] == b[0] && a[1] == b[1] && a[2] == b[2] && a[3] == b[3] && a[4] == b[4] && a[5] == b[5];
    assert a[6] == b[6] && a[7] == b[7] && a[8] == b[8] && a[9] == b[9] && a[10] == b[10];
    DecimalInjective(p.activation.expiresAtMs, q.activation.expiresAtMs);
  }

  lemma RuntimeInjective(c: Codec, p: Response, q: Response)
    requires RuntimeLines(c, p) == RuntimeLines(c, q)
    ensures p.install == q.install && p.runtime == q.runtime && TailOf(c, p) == TailOf(c, q)
  {
    var a, b := p.runtime, q.runtime;
    var a4, b4 := RoutesLines(a.routes) + TailOf(c, p), RoutesLines(b.routes) + TailOf(c, q);
    var a3, b3 := [Decimal(|a.routes|)] + a4, [Decimal(|b.routes|)] + b4;
    var a2, b2 := OptionalLines(a.transport) + a3, OptionalLines(b.transport) + b3;
    var a1, b1 := OptionalLines(a.certPin) + a2, OptionalLines(b.certPin) + b2;
    PeelFixed([p.install, Decimal(a.port)], ListLines(a.hosts) + a1, [q.install, Decimal(b.port)], ListLines(b.hosts) + b1);
    SamePair(p.install, Decimal(a.port), q.install, Decimal(b.port));
    DecimalInjective(a.port, b.port);
    PeelList(a.hosts, a1, b.hosts, b1);
    PeelOptional(a.certPin, a2, b.certPin, b2);
    PeelOptional(a.transport, a3, b.transport, b3);
    PeelFixed([Decimal(|a.routes|)], a4, [Decimal(|b.routes|)], b4);
    assert [Decimal(|a.routes|)][0] == [Decimal(|b.routes|)][0];
    DecimalInjective(|a.routes|, |b.routes|);
    PeelRoutes(a.routes, TailOf(c, p), b.routes, TailOf(c, q));
  }

  lemma HeadInjective(p: Response, q: Response)
    requires HeadOf(p) == HeadOf(q)
    ensures p.contract == q.contract && p.ok == q.ok && p.state == q.state && p.pair == q.pair
    ensures p.version == q.version && p.binding == q.binding && p.device.id == q.device.id
  {
    var a, b := HeadOf(p), HeadOf(q);
    assert a[0] == b[0] && a[1] == b[1] && a[2] == b[2] && a[3] == b[3] && a[4] == b[4] && a[5] == b[5] && a[6] == b[6];
    DecimalInjective(p.version, q.version);
    assert "0"[0] != "1"[0];
  }

  lemma ResponseInjective(c: Codec, p: Response, q: Response)
    requires ResponseError(c, p).None? && ResponseError(c, q).None? && ResponseLines(c, p) == ResponseLines(c, q)
    ensures SameResponse(c, p, q)
  {
    var a, b := p.device, q.device;
    var a4, b4 := OptionalLines(a.attestation) + RuntimeLines(c, p), OptionalLines(b.attestation) + RuntimeLines(c, q);
    var a3, b3 := OptionalLines(a.relay) + a4, OptionalLines(b.relay) + b4;
    var a2, b2 := OptionalLines(a.role) + a3, OptionalLines(b.role) + b3;
    PeelFixed(HeadOf(p), ListLines(a.scopes) + a2, HeadOf(q), ListLines(b.scopes) + b2);
    HeadInjective(p, q);
    PeelList(a.scopes, a2, b.scopes, b2);
    PeelOptional(a.role, a3, b.role, b3);
    PeelOptional(a.relay, a4, b.relay, b4);
    PeelOptional(a.attestation, RuntimeLines(c, p), b.attestation, RuntimeLines(c, q));
    Checked(c, p);
    Checked(c, q);
    RuntimeInjective(c, p, q);
    TailInjective(c, p, q);
    assert a.(encProofSecret := b.encProofSecret, proofSecretNonce := b.proofSecretNonce) == b;
  }

  /** Two claim results have the same canonical text exactly when they are the same result. */
  lemma ResponsesDecodeUniquely(c: Codec, p: Response, q: Response)
    requires SafeDigests(c)
    ensures EncodeResponse(c, p).Ok? && EncodeResponse(c, q).Ok? ==>
              (EncodeResponse(c, p) == EncodeResponse(c, q) <==> SameResponse(c, p, q))
  {
    if EncodeResponse(c, p).Ok? && EncodeResponse(c, q).Ok? {
      ResponseLinesSafe(c, p);
      ResponseLinesSafe(c, q);
      if Join(ResponseLines(c, p)) == Join(ResponseLines(c, q)) {
        JoinInjective(ResponseLines(c, p), ResponseLines(c, q));
        ResponseInjective(c, p, q);
      }
      if SameResponse(c, p, q) {
        assert TailOf(c, p) == TailOf(c, q);
      }
    }
  }
}

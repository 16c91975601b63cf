/** The requests of session.create and what they are known by in the ledger: the digest
    of the request with its visibility, and, when the request names no visibility, the
    digest an older version took of it without. */
module SessionRequests {
  import opened Options
  import opened SessionLedger
  import opened StateFile
  import opened SessionProtocol

  const VISIBLE := "visible"
  const INTERNAL := "internal"
  const CODEX_LOCAL := "codex_local"
  const CLAUDE_LOCAL := "claude_local"
  const NO_TARGET := "none"

  /** What a request says about visibility, trimmed and in lower case; empty is unsaid. */
  datatype Inputs = Inputs(visibility: string, backend: string, target: string, ephemeral: Option<bool>)

  /** What that comes to. */
  datatype Spec = Spec(visibility: string, backend: string, target: string, ephemeral: bool)

  function LocalBackend(provider: Provider): (backend: string) {
    match provider
    case Codex => CODEX_LOCAL
    case Claude => CLAUDE_LOCAL
  }

  /** resolveSessionVisibility. */
  function Resolve(provider: Provider, inputs: Inputs): (spec: Option<Spec>) {
    var visibility := if inputs.visibility == "" then VISIBLE else inputs.visibility;
    var backend := if inputs.backend == "" then LocalBackend(provider) else inputs.backend;
    var target :=
      if inputs.target != "" then inputs.target else if visibility == INTERNAL then NO_TARGET else backend;
    var ephemeral := inputs.ephemeral == Some(true);
    if visibility != VISIBLE && visibility != INTERNAL then None
    else if backend == CHATGPT_CLOUD && (provider != Codex || visibility == INTERNAL) then None
    else if backend != CHATGPT_CLOUD && backend != LocalBackend(provider) then None
    else if visibility == INTERNAL && target != NO_TARGET then None
    else if visibility == VISIBLE && (target == NO_TARGET || target != backend) then None
    else if ephemeral && (visibility == VISIBLE || backend == CLAUDE_LOCAL || backend == CHATGPT_CLOUD) then None
    else
      var short := visibility == INTERNAL && backend == CODEX_LOCAL && inputs.ephemeral.None?;
      Some(Spec(visibility, backend, target, ephemeral || short))
  }

  /** The request that says outright what a spec comes to. */
  function Explicit(spec: Spec): (inputs: Inputs) {
    Inputs(spec.visibility, spec.backend, spec.target, Some(spec.ephemeral))
  }

  /** A spec is one of four kinds, and saying it outright comes to the same spec. */
  lemma ResolvedIsConsistent(provider: Provider, inputs: Inputs)
    requires Resolve(provider, inputs).Some?
    ensures var spec := Resolve(provider, inputs).value;
            && Resolve(provider, Explicit(spec)) == Some(spec)
            && spec in {Spec(VISIBLE, LocalBackend(provider), LocalBackend(provider), false),
                        Spec(VISIBLE, CHATGPT_CLOUD, CHATGPT_CLOUD, false),
                        Spec(INTERNAL, LocalBackend(provider), NO_TARGET, false),
                        Spec(INTERNAL, CODEX_LOCAL, NO_TARGET, true)}
            && (spec.backend == CHATGPT_CLOUD || spec.ephemeral ==> provider == Codex)
  {
  }

  /** The specs a provider offers. */
  predicate Offered(provider: Provider, spec: Spec) {
    match provider
    case Codex =>
      spec in {Spec("visible", "codex_local", "codex_local", false), Spec("visible", "chatgpt_cloud", "chatgpt_cloud", false),
               Spec("internal", "codex_local", "none", true), Spec("internal", "codex_local", "none", false)}
    case Claude =>
      spec in {Spec("visible", "claude_local", "claude_local", false), Spec("internal", "claude_local", "none", false)}
  }

  /** What is said is as in the spec, and what is not said is its default there: visible,
      the provider's own backend, any target that goes with them, and for Codex ephemeral
      exactly if internal. */
  predicate Fits(provider: Provider, inputs: Inputs, spec: Spec) {
    && spec.visibility == (if inputs.visibility == "" then "visible" else inputs.visibility)
    && spec.backend == (if inputs.backend != "" then inputs.backend
                        else if provider.Codex? then "codex_local" else "claude_local")
    && (inputs.target != "" ==> spec.target == inputs.target)
    && spec.ephemeral == (if inputs.ephemeral.Some? then inputs.ephemeral.value
                          else provider.Codex? && spec.visibility == "internal")
  }

  /** A request is resolved to the one offered spec that fits what it says, and refused
      exactly when none does. */
  lemma ResolvedExactly(provider: Provider, inputs: Inputs)
    ensures forall spec :: Offered(provider, spec) && Fits(provider, inputs, spec) <==> Resolve(provider, inputs) == Some(spec)
  {
  }

  /** sessionVisibilityUsesLegacyDefaults. */
  predicate SaysNothing(inputs: Inputs) {
    inputs == Inputs("", "", "", None)
  }

  /** `body` stands for the other fields of the request as they are hashed: the working
      directory and the model as resolved, the prompt and so on. */
  datatype Request = Request(provider: Provider, key: string, body: string, inputs: Inputs)

  /** What is hashed: the request's fields, and the visibility fields if they are in. */
  datatype Value = Value(provider: Provider, body: string, visibility: Option<Spec>)

  type Digest = Value -> Hash

  predicate Accepted(q: Request) {
    Resolve(q.provider, q.inputs).Some?
  }

  function StoreKey(q: Request): (k: Key) {
    (if q.provider.Codex? then "codex:" else "claude_code:") + q.key
  }

  function FullValue(q: Request): (v: Value) {
    Value(q.provider, q.body, Resolve(q.provider, q.inputs))
  }

  /** The value without the visibility fields, as older versions hashed it. */
  function PlainValue(q: Request): (v: Value) {
    Value(q.provider, q.body, None)
  }

  function SpecHash(digest: Digest, q: Request): (h: Hash) {
    digest(FullValue(q))
  }

  function LegacyHashes(digest: Digest, q: Request): (hs: seq<Hash>) {
    if SaysNothing(q.inputs) then [digest(PlainValue(q))] else []
  }

  function Values(q: Request): (vs: set<Value>) {
    {FullValue(q)} + if SaysNothing(q.inputs) then {PlainValue(q)} else {}
  }

  /** A digest of 256 bits, in hexadecimal. */
  predicate IsHex(h: Hash) {
    |h| == 64 && forall i :: 0 <= i < |h| ==> h[i] in "0123456789abcdef"
  }

  lemma HexIsDigest(h: Hash)
    requires IsHex(h)
    ensures IsDigest(h)
  {
  }

  /** Among the values that the requests hash the digest has no collision. */
  ghost predicate GoodDigest(digest: Digest, requests: set<Request>) {
    && (forall q, v :: q in requests && v in Values(q) ==> IsHex(digest(v)))
    && (forall p, q, v, w :: p in requests && q in requests && v in Values(p) && w in Values(q) && digest(v) == digest(w) ==>
          v == w)
  }

  /** The step begins the creation that the request asks for. */
  ghost predicate Asks(digest: Digest, step: Step, q: Request) {
    && Accepted(q) && step.BeginCreate? && step.provider == q.provider && step.key == StoreKey(q)
    && step.hash == SpecHash(digest, q) && step.legacy == LegacyHashes(digest, q)
  }

  /** Every creation a run begins is one that some request asks for. */
  ghost predicate FromRequests(digest: Digest, requests: set<Request>, steps: seq<Step>) {
    forall i :: 0 <= i < |steps| && steps[i].BeginCreate? ==> exists q :: q in requests && Asks(digest, steps[i], q)
  }

  /** What a request is answered. */
  function AnswerTo(l: Ledger, digest: Digest, q: Request, save: Save, now: Time): (b: Begun) {
    Begin(l, StoreKey(q), SpecHash(digest, q), LegacyHashes(digest, q), save, now).1
  }

  /** Up to their keys, the requests ask for the same. */
  predicate SameSpec(p: Request, q: Request) {
    FullValue(p) == FullValue(q)
  }

  /** Among accepted requests, the hash of one is never the legacy hash of one; equal
      hashes, of either kind, are hashes of the same. */
  lemma HashesTellRequestsApart(digest: Digest, requests: set<Request>, p: Request, q: Request)
    requires GoodDigest(digest, requests) && p in requests && q in requests && Accepted(p) && Accepted(q)
    ensures IsDigest(SpecHash(digest, q)) && SpecHash(digest, q) !in LegacyHashes(digest, p)
    ensures SpecHash(digest, p) == SpecHash(digest, q) <==> SameSpec(p, q)
    ensures SaysNothing(q.inputs) ==>
              && SpecHash(digest, p) != digest(PlainValue(q))
              && (digest(PlainValue(q)) in LegacyHashes(digest, p) <==> SaysNothing(p.inputs) && SameSpec(p, q))
  {
    hide IsDigest, Resolve, IsHex;
    HexIsDigest(SpecHash(digest, q));
    assert FullValue(p) in Values(p) && FullValue(q) in Values(q);
    assert SaysNothing(p.inputs) ==> PlainValue(p) in Values(p);
    assert SaysNothing(q.inputs) ==> PlainValue(q) in Values(q);
  }

  lemma {:induction false} LengthOfJoined(a: string, b: string)
    ensures ByteLength(a + b) == ByteLength(a) + ByteLength(b)
    decreases |a|
  {
    if a == "" {
      assert a + b == b;
    } else {
      assert (a + b)[1..] == a[1..] + b;
      LengthOfJoined(a[1..], b);
    }
  }

  lemma {:induction false} LengthOfAscii(s: string)
    requires forall i :: 0 <= i < |s| ==> s[i] < '\U{80}'
    ensures ByteLength(s) == |s|
  {
    if s != "" {
      LengthOfAscii(s[1..]);
    }
  }

  /** A request with a key the program accepts - up to 128 bytes, in one line - is never
      refused as invalid by the ledger. */
  lemma AcceptedKeyIsValid(digest: Digest, requests: set<Request>, q: Request, now: Time)
    requires GoodDigest(digest, requests) && q in requests && Accepted(q)
    requires 12 <= ByteLength(q.key) <= 128 && forall i :: 0 <= i < |q.key| ==> q.key[i] !in "\0\r\n"
    ensures ValidRecord(StoreKey(q), NewReservation(SpecHash(digest, q), now))
  {
    hide GoodDigest, Accepted, IsDigest, SpecHash, LegacyHashes, SameSpec;
    HashesTellRequestsApart(digest, requests, q, q);
    var prefix := if q.provider.Codex? then "codex:" else "claude_code:";
    LengthOfAscii(prefix);
    LengthOfJoined(prefix, q.key);
  }
}

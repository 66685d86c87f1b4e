/** The client `Client`, its construction from a heterogeneous parameter list
    (`New`, `extractToken`, `extractHttpClient`, `applyParams`, the `Param*`
    configurators), its lookups with the cached self record, and the
    package-level default client with `Init` and the convenience calls. */
module Clients {
  import opened Foundation
  import opened Errors
  import opened Text
  import opened Transport
  import opened Responses
  import opened Requests

  /** A decoded `Response` record; its fields are not modelled. */
  type RecordData(==)

  /** A `*Response`: the client's cached self record is reused in place. */
  class GeoRecord {
    var data: RecordData

    constructor (data: RecordData)
      ensures this.data == data
    {
      this.data := data;
    }
  }

  /** What the code delegates to libraries: query encoding, IP parsing and
      JSON decoding, plus the zero `Response{}` that decoding starts from.
      `decodeOne` decodes into a `Response` value; `decodeSelf` decodes into
      a `*Response` that points at a record, where a JSON `null` clears the
      pointer (`None`) and anything else decodes into the record it points at. */
  datatype Oracles = Oracles(
    encode: Encoder,
    isIP: IPPredicate,
    probe: Prober,
    decodeOne: Decoder<RecordData>,
    decodeSelf: Decoder<Option<RecordData>>,
    decodeMany: Decoder<seq<RecordData>>,
    empty: RecordData)

  /** `Client`. */
  class Client {
    var me: GeoRecord?
    var baseReq: Request?
    var skipInitFetchMe: bool

    constructor (baseReq: Request)
      ensures me == null && this.baseReq == baseReq && !skipInitFetchMe
    {
      me, this.baseReq, skipInitFetchMe := null, baseReq, false;
    }
  }

  /** `Client.validate`. */
  function Validate(c: Client?): (e: Option<Error>)
    reads c
    ensures e.None? <==> c != null && c.baseReq != null
    ensures c == null ==> e == Some(NilClient)
    ensures c != null && c.baseReq == null ==> e == Some(IncorrectState)
  {
    if c == null then Some(NilClient)
    else if c.baseReq == null then Some(IncorrectState)
    else None
  }

  /** The HTTP client a lookup through `c` may use. */
  function Transports(c: Client?): set<object>
    reads c, if c == null then {} else {c.baseReq}
  {
    if c == null then {} else ClientOf(c.baseReq)
  }

  /** `Client.R`: nil for an invalid client, otherwise a shallow copy of the base request. */
  method R(c: Client?) returns (r: Request?)
    ensures Validate(c).Some? ==> r == null
    ensures Validate(c).None? ==> r != null && fresh(r) && r.Snapshot() == c.baseReq.Snapshot()
  {
    if Validate(c).Some? {
      return null;
    }
    r := Copy(c.baseReq);
  }

  /** The lookup of `target` through `r` and the resolution of its reply from
      `start`: a request-level error or a rejected target with no request, or
      exactly one request resolved by `Resolve`. */
  twostate predicate Looked<T>(r: Request, target: Result<string, Error>, new res: Result<T, Error>,
                               probe: Prober, start: T, decode: Decoder<T>)
    reads r, r.client
  {
    && r.client == old(r.client)
    && (Requests.Validate(r).Some? ==> res == Failure(Requests.Validate(r).value))
    && (Requests.Validate(r).None? && target.Failure? ==>
          res == Failure(target.error) && r.client.sent == old(r.client.sent))
    && (Requests.Validate(r).None? && target.Success? ==>
          r.client.sent == old(r.client.sent) + [UrlFor(r, target.value)] &&
          res == Resolve(old(Reply(r.client, UrlFor(r, target.value))), probe, start, decode))
  }

  /** `Client.IP`: the base request's `IP`, then `CheckError`, then `DecodeTo`
      into a zero record. */
  method IP(c: Client?, ip: string, o: Oracles) returns (res: Result<RecordData, Error>)
    modifies Transports(c)
    ensures Validate(c).Some? ==> res == Failure(Validate(c).value)
    ensures Validate(c).None? ==> Looked(c.baseReq, IPTarget(ip, o.isIP), res, o.probe, o.empty, o.decodeOne)
  {
    var invalid := Validate(c);
    if invalid.Some? {
      return Failure(invalid.value);
    }
    var env := Requests.IP(c.baseReq, ip, o.isIP);
    var err := CheckError(env, o.probe);
    if err.Some? {
      return Failure(err.value);
    }
    res := DecodeTo(env, Some(o.empty), o.decodeOne);
  }

  /** `Client.IPs`: the base request's `IPs`, then `CheckError`, then `DecodeTo`
      into an empty list. */
  method IPs(c: Client?, ips: seq<string>, o: Oracles) returns (res: Result<seq<RecordData>, Error>)
    modifies Transports(c)
    ensures Validate(c).Some? ==> res == Failure(Validate(c).value)
    ensures Validate(c).None? ==> Looked(c.baseReq, BatchTarget(ips, o.isIP), res, o.probe, [], o.decodeMany)
  {
    var invalid := Validate(c);
    if invalid.Some? {
      return Failure(invalid.value);
    }
    var env := Requests.IPs(c.baseReq, ips, o.isIP);
    var err := CheckError(env, o.probe);
    if err.Some? {
      return Failure(err.value);
    }
    res := DecodeTo(env, Some([]), o.decodeMany);
  }

  /** The first element of the variadic `forceFetch` decides. */
  predicate Forced(force: seq<bool>) {
    |force| > 0 && force[0]
  }

  /** What the self lookup decodes from: the cached record, or a zero one. */
  function StartOf(me: GeoRecord?, empty: RecordData): RecordData
    reads me
  {
    if me == null then empty else me.data
  }

  /** The envelope the base request's `Me` would produce now. */
  function SelfEnvelope(r: Request): EnvelopeState
    reads r, r.client
  {
    if r.client == null then EnvelopeState(None, Requests.Validate(r)) else Reply(r.client, UrlFor(r, SelfPath))
  }

  /** The objects `Client.Me` may write besides the client itself. */
  function MeFrame(c: Client?): set<object>
    reads c, if c == null then {} else {c.baseReq}
  {
    if c == null then {} else Transports(c) + (if c.me == null then {} else {c.me})
  }

  /** The outcome of `Client.Me` on a valid client: with a cached record and
      no forced refresh, the cached record and no request. Otherwise one self
      request, decoded into the cached record (or a zero one). On failure the
      old cached record (same object, same contents) comes back with the
      error. A JSON `null` body clears the cache and yields no record and no
      error, leaving the old record `prev` as it was. Any other decoded record
      becomes the cache, in the old record's storage when there is one. */
  twostate predicate Fetched(c: Client, prev: GeoRecord?, force: seq<bool>, o: Oracles,
                             new rec: GeoRecord?, new err: Option<Error>)
    requires c.baseReq != null
    requires prev == old(c.me)
    reads c, c.baseReq, c.baseReq.client, c.me, prev
  {
    && c.baseReq == old(c.baseReq) && c.skipInitFetchMe == old(c.skipInitFetchMe)
    && c.baseReq.client == old(c.baseReq.client)
    && (old(c.me) != null && !Forced(force) ==>
          rec == c.me == old(c.me) && c.me.data == old(c.me.data) && err.None? &&
          (c.baseReq.client != null ==> c.baseReq.client.sent == old(c.baseReq.client.sent)))
    && (old(c.me) == null || Forced(force) ==>
          var res := Resolve(old(SelfEnvelope(c.baseReq)), o.probe, Some(old(StartOf(c.me, o.empty))), o.decodeSelf);
          && (c.baseReq.client != null ==>
                c.baseReq.client.sent == old(c.baseReq.client.sent) + [UrlFor(c.baseReq, SelfPath)])
          && (res.Failure? ==>
                err == Some(res.error) && rec == c.me == old(c.me) && (c.me != null ==> c.me.data == old(c.me.data)))
          && (res.Success? && res.value.None? ==>
                err.None? && rec == null && c.me == null &&
                (prev != null ==> prev.data == old(prev.data)))
          && (res.Success? && res.value.Some? ==>
                err.None? && rec == c.me && c.me != null && c.me.data == res.value.value &&
                (old(c.me) != null ==> c.me == old(c.me)) && (old(c.me) == null ==> fresh(c.me))))
  }

  /** Nothing of `c` or of its cached record changed. */
  twostate predicate Untouched(c: Client)
    reads c, c.me
  {
    && c.me == old(c.me) && c.baseReq == old(c.baseReq) && c.skipInitFetchMe == old(c.skipInitFetchMe)
    && (c.me != null ==> c.me.data == old(c.me.data))
  }

  /** `Client.Me`: an invalid client's error with nothing changed, otherwise `Fetched`. */
  method Me(c: Client?, force: seq<bool>, o: Oracles) returns (rec: GeoRecord?, err: Option<Error>)
    modifies c, MeFrame(c)
    ensures old(Validate(c)).Some? ==> rec == null && err == old(Validate(c)) && (c != null ==> Untouched(c))
    ensures old(Validate(c)).None? ==> c.baseReq == old(c.baseReq) && Fetched(c, old(c.me), force, o, rec, err)
  {
    var invalid := Validate(c);
    if invalid.Some? {
      return null, invalid;
    }
    var ff := |force| > 0 && force[0];
    if c.me != null && !ff {
      return c.me, None;
    }
    var env := Requests.Me(c.baseReq);
    err := CheckError(env, o.probe);
    if err.Some? {
      return c.me, err;
    }
    var start := if c.me == null then o.empty else c.me.data;
    var decoded := DecodeTo(env, Some(Some(start)), o.decodeSelf);
    match decoded {
      case Failure(e) =>
        return c.me, Some(e);
      case Success(None) =>
        c.me := null;
        return null, None;
      case Success(Some(v)) =>
        var r := c.me;
        if r == null {
          r := new GeoRecord(v);
        } else {
          r.data := v;
        }
        c.me := r;
        return c.me, None;
    }
  }

  // ---------------------------------------------------------------- construction

  /** The closures `tClientParam` that the `Param*` functions return. */
  datatype Configurator =
    | SetToken(token: string)
    | DisableFirstMeCall
    | UseHttps(https: bool)
    | SelectFields(names: seq<string>)
    | EnableSecurityModule

  /** One argument of `New`, classified by its dynamic type. */
  datatype Param =
    | TokenText(text: string)             // a string
    | TokenBytes(text: string)            // a []byte, as string(b) converts it
    | HttpValue(serve: Server)            // an http.Client value
    | HttpPointer(client: HttpClient?)    // an *http.Client, possibly nil
    | Configure(k: Option<Configurator>)  // a tClientParam, possibly nil
    | Ignored                             // nil, or a value of any other type

  /** `ParamToken`: nil for a blank token, otherwise a closure setting the trimmed token. */
  function ParamToken(token: string): (p: Param)
    ensures p == Configure(None) <==> TrimSpace(token) == ""
    ensures p != Configure(None) ==> p == Configure(Some(SetToken(TrimSpace(token))))
    ensures p.Configure? && p.k.Some? ==>
      forall s: Setup, e: Encoder :: Configured(s, p.k.value, e) == s.(token := TrimSpace(token))
  {
    var t := TrimSpace(token);
    if t == "" then Configure(None) else Configure(Some(SetToken(t)))
  }

  /** `ParamDisableFirstMeCall`: a closure that switches the first self lookup off. */
  function ParamDisableFirstMeCall(): (p: Param)
    ensures p.Configure? && p.k.Some?
    ensures forall s: Setup, e: Encoder :: Configured(s, p.k.value, e) == s.(skipFirstMe := true)
  {
    Configure(Some(DisableFirstMeCall))
  }

  /** `ParamUseHTTPS`: a closure that selects the HTTPS or the HTTP endpoint. */
  function ParamUseHTTPS(https: bool): (p: Param)
    ensures p.Configure? && p.k.Some?
    ensures forall s: Setup, e: Encoder ::
      Configured(s, p.k.value, e) == s.(endpoint := if https then HttpsEndpoint else HttpEndpoint)
  {
    Configure(Some(UseHttps(https)))
  }

  /** `ParamFields`: a closure that does nothing for no names and otherwise
      merges them into the "fields" entry and rebuilds the query. */
  function ParamFields(names: seq<string>): (p: Param)
    ensures p.Configure? && p.k.Some?
    ensures |names| == 0 ==> forall s: Setup, e: Encoder :: Configured(s, p.k.value, e) == s
    ensures |names| > 0 ==> forall s: Setup, e: Encoder ::
      var m := s.entries[FieldsKey := [MergeFields(names, FirstValue(s.entries, FieldsKey))]];
      Configured(s, p.k.value, e) == s.(entries := m, built := "?" + e(m))
  {
    Configure(Some(SelectFields(names)))
  }

  /** `ParamEnableSecurity`: a closure that turns the security module on,
      whatever field names are passed. */
  function ParamEnableSecurity(names: seq<string>): (p: Param)
    ensures p.Configure? && p.k.Some?
    ensures forall s: Setup, e: Encoder :: Configured(s, p.k.value, e) == s.(security := true)
  {
    Configure(Some(EnableSecurityModule))
  }

  /** The part of a client the configurators write. */
  datatype Setup = Setup(
    token: string, endpoint: string, security: bool,
    entries: map<string, seq<string>>, built: string, skipFirstMe: bool)

  /** A fresh client's base request: `&tRequest{reqArgs: url.Values{}}`. */
  const Blank: Setup := Setup("", "", false, map[], "", false)

  function SetupOf(c: Client): Setup
    requires c.baseReq != null
    reads c, c.baseReq, c.baseReq.reqArgs
  {
    var r := c.baseReq;
    Setup(r.token, r.endpoint, r.securityEnabled, r.reqArgs.entries, r.reqArgsBuilt, c.skipInitFetchMe)
  }

  /** What running one configurator does to the client's setup: each kind
      writes its own part and leaves the others alone. */
  function Configured(s: Setup, k: Configurator, encode: Encoder): (r: Setup)
    ensures !k.SetToken? ==> r.token == s.token
    ensures !k.DisableFirstMeCall? ==> r.skipFirstMe == s.skipFirstMe
    ensures !k.UseHttps? ==> r.endpoint == s.endpoint
    ensures !k.EnableSecurityModule? ==> r.security == s.security
    ensures !k.SelectFields? ==> r.entries == s.entries && r.built == s.built
  {
    match k
    case SetToken(t) => s.(token := t)
    case DisableFirstMeCall => s.(skipFirstMe := true)
    case UseHttps(b) => s.(endpoint := if b then HttpsEndpoint else HttpEndpoint)
    case SelectFields(names) =>
      if |names| == 0 then s
      else
        var e := s.entries[FieldsKey := [MergeFields(names, FirstValue(s.entries, FieldsKey))]];
        s.(entries := e, built := "?" + encode(e))
    case EnableSecurityModule => s.(security := true)
  }

  /** A non-nil configurator. */
  predicate Configures(p: Param) {
    p.Configure? && p.k.Some?
  }

  /** The setup after `applyParams`: the non-nil configurators, in list order;
      a list without one leaves the setup as it was. */
  function ConfiguredAll(s: Setup, params: seq<Param>, encode: Encoder): (r: Setup)
    ensures (forall i :: 0 <= i < |params| ==> !Configures(params[i])) ==> r == s
  {
    if |params| == 0 then s
    else
      var init := params[..|params| - 1];
      assert forall i :: 0 <= i < |init| ==> init[i] == params[i];
      var before := ConfiguredAll(s, init, encode);
      match params[|params| - 1]
      case Configure(Some(k)) => Configured(before, k, encode)
      case _ => before
  }

  /** The first self lookup is switched off exactly when it already was or
      some argument is `ParamDisableFirstMeCall()`. */
  lemma {:induction false} ConfiguredSkip(s: Setup, params: seq<Param>, encode: Encoder)
    ensures ConfiguredAll(s, params, encode).skipFirstMe <==>
      s.skipFirstMe || exists i :: 0 <= i < |params| && params[i] == Configure(Some(DisableFirstMeCall))
  {
    if |params| > 0 {
      var init := params[..|params| - 1];
      ConfiguredSkip(s, init, encode);
      assert forall i :: 0 <= i < |init| ==> init[i] == params[i];
    }
  }

  /** The security module is on exactly when it already was or some argument
      is a `ParamEnableSecurity` closure: no argument turns it off. */
  lemma {:induction false} ConfiguredSecurity(s: Setup, params: seq<Param>, encode: Encoder)
    ensures ConfiguredAll(s, params, encode).security <==>
      s.security || exists i :: 0 <= i < |params| && params[i] == Configure(Some(EnableSecurityModule))
  {
    if |params| > 0 {
      var init := params[..|params| - 1];
      ConfiguredSecurity(s, init, encode);
      assert forall i :: 0 <= i < |init| ==> init[i] == params[i];
    }
  }

  /** The token of the last token-setting configurator, if any. */
  function ConfiguredToken(params: seq<Param>): Option<string> {
    if |params| == 0 then None
    else
      match params[|params| - 1]
      case Configure(Some(SetToken(t))) => Some(t)
      case _ => ConfiguredToken(params[..|params| - 1])
  }

  /** Among configurators the last token-setting one wins. */
  lemma {:induction false} ConfiguredTokenWins(s: Setup, params: seq<Param>, encode: Encoder)
    ensures ConfiguredAll(s, params, encode).token == ConfiguredToken(params).GetOr(s.token)
  {
    if |params| > 0 {
      ConfiguredTokenWins(s, params[..|params| - 1], encode);
    }
  }

  /** Runs one configurator on a client under construction. */
  method Apply(c: Client, k: Configurator, encode: Encoder)
    requires c.baseReq != null
    modifies c, c.baseReq, c.baseReq.reqArgs
    ensures c.baseReq == old(c.baseReq) && c.baseReq.reqArgs == old(c.baseReq.reqArgs)
    ensures c.baseReq.client == old(c.baseReq.client) && c.me == old(c.me)
    ensures SetupOf(c) == Configured(old(SetupOf(c)), k, encode)
  {
    match k {
      case SetToken(t) =>
        c.baseReq.token := t;
      case DisableFirstMeCall =>
        c.skipInitFetchMe := true;
      case UseHttps(b) =>
        c.baseReq := UseHTTPS(c.baseReq, b);
      case SelectFields(names) =>
        c.baseReq := Fields(c.baseReq, names, encode);
      case EnableSecurityModule =>
        c.baseReq := EnableSecurity(c.baseReq, true);
    }
  }

  /** `Client.applyParams`: runs every non-nil configurator of the list, in order. */
  method ApplyParams(c: Client, params: seq<Param>, encode: Encoder)
    requires c.baseReq != null
    modifies c, c.baseReq, c.baseReq.reqArgs
    ensures c.baseReq == old(c.baseReq) && c.baseReq.reqArgs == old(c.baseReq.reqArgs)
    ensures c.baseReq.client == old(c.baseReq.client) && c.me == old(c.me)
    ensures SetupOf(c) == ConfiguredAll(old(SetupOf(c)), params, encode)
  {
    var i := 0;
    while i < |params|
      invariant 0 <= i <= |params|
      invariant c.baseReq == old(c.baseReq) && c.baseReq.reqArgs == old(c.baseReq.reqArgs)
      invariant c.baseReq.client == old(c.baseReq.client) && c.me == old(c.me)
      invariant SetupOf(c) == ConfiguredAll(old(SetupOf(c)), params[..i], encode)
    {
      assert params[..i + 1][..i] == params[..i];
      match params[i] {
        case Configure(Some(k)) =>
          Apply(c, k, encode);
        case _ =>
      }
      i := i + 1;
    }
    assert params[..i] == params;
  }

  /** The last string or []byte argument, untrimmed, or "" when there is none. */
  function LastToken(params: seq<Param>): (t: string)
    ensures (forall j :: 0 <= j < |params| ==> !params[j].TokenText? && !params[j].TokenBytes?) ==> t == ""
  {
    if |params| == 0 then ""
    else
      var init := params[..|params| - 1];
      assert forall j :: 0 <= j < |init| ==> init[j] == params[j];
      match params[|params| - 1]
      case TokenText(t) => t
      case TokenBytes(t) => t
      case _ => LastToken(init)
  }

  /** Token arguments after the last one are what decide it: an argument list
      ending in a token argument yields that argument. */
  lemma {:induction false} LastTokenWins(params: seq<Param>, i: nat)
    requires i < |params| && (params[i].TokenText? || params[i].TokenBytes?)
    requires forall j :: i < j < |params| ==> !params[j].TokenText? && !params[j].TokenBytes?
    ensures LastToken(params) == params[i].text
  {
    if i < |params| - 1 {
      var init := params[..|params| - 1];
      LastTokenWins(init, i);
    }
  }

  /** `extractToken`: the last string or []byte argument, trimmed. */
  method ExtractToken(params: seq<Param>) returns (token: string)
    ensures token == TrimSpace(LastToken(params))
  {
    token := "";
    var i := 0;
    while i < |params|
      invariant 0 <= i <= |params|
      invariant token == LastToken(params[..i])
    {
      assert params[..i + 1][..i] == params[..i];
      match params[i] {
        case TokenText(t) => token := t;
        case TokenBytes(t) => token := t;
        case _ =>
      }
      i := i + 1;
    }
    assert params[..i] == params;
    token := TrimSpace(token);
  }

  /** An argument `extractHttpClient` accepts: an http.Client value or a non-nil *http.Client. */
  predicate UsableHttp(p: Param) {
    p.HttpValue? || (p.HttpPointer? && p.client != null)
  }

  /** The last http.Client value or non-nil *http.Client argument. */
  function LastHttp(params: seq<Param>): (p: Option<Param>)
    ensures p.Some? ==> UsableHttp(p.value)
  {
    if |params| == 0 then None
    else
      var p := params[|params| - 1];
      if UsableHttp(p) then Some(p)
      else LastHttp(params[..|params| - 1])
  }

  /** A usable HTTP client argument with no usable one after it is the one taken. */
  lemma {:induction false} LastHttpWins(params: seq<Param>, i: nat)
    requires i < |params| && UsableHttp(params[i])
    requires forall j :: i < j < |params| ==> !UsableHttp(params[j])
    ensures LastHttp(params) == Some(params[i])
  {
    if i < |params| - 1 {
      var init := params[..|params| - 1];
      assert init[i] == params[i];
      LastHttpWins(init, i);
    }
  }

  /** No client is taken exactly when no argument is usable. */
  lemma {:induction false} LastHttpNone(params: seq<Param>)
    ensures LastHttp(params).None? <==> forall j :: 0 <= j < |params| ==> !UsableHttp(params[j])
  {
    if |params| > 0 {
      var init := params[..|params| - 1];
      LastHttpNone(init);
      if !UsableHttp(params[|params| - 1]) {
        assert forall j :: 0 <= j < |init| ==> init[j] == params[j];
      }
    }
  }

  /** The HTTP clients passed by pointer. */
  function HttpTargets(params: seq<Param>): set<object> {
    set i | 0 <= i < |params| && params[i].HttpPointer? && params[i].client != null :: params[i].client as object
  }

  /** `extractHttpClient`: the last usable HTTP client argument; a value
      argument is copied into a new client. */
  method ExtractHttpClient(params: seq<Param>) returns (client: HttpClient?)
    ensures LastHttp(params).None? ==> client == null
    ensures LastHttp(params).Some? && LastHttp(params).value.HttpPointer? ==> client == LastHttp(params).value.client
    ensures LastHttp(params).Some? && LastHttp(params).value.HttpValue? ==>
      client != null && fresh(client) && client.serve == LastHttp(params).value.serve && client.sent == []
  {
    client := null;
    var i := 0;
    while i < |params|
      invariant 0 <= i <= |params|
      invariant LastHttp(params[..i]).None? ==> client == null
      invariant LastHttp(params[..i]).Some? && LastHttp(params[..i]).value.HttpPointer? ==>
        client == LastHttp(params[..i]).value.client
      invariant LastHttp(params[..i]).Some? && LastHttp(params[..i]).value.HttpValue? ==>
        client != null && fresh(client) && client.serve == LastHttp(params[..i]).value.serve && client.sent == []
    {
      assert params[..i + 1][..i] == params[..i];
      match params[i] {
        case HttpValue(serve) =>
          client := new HttpClient(serve);
        case HttpPointer(p) =>
          if p != null {
            client := p;
          }
        case _ =>
      }
      i := i + 1;
    }
    assert params[..i] == params;
  }

  /** The token `New` settles on: a configured one first, else the sniffed one. */
  function ResolvedToken(params: seq<Param>, encode: Encoder): string {
    var t := ConfiguredAll(Blank, params, encode).token;
    if t != "" then t else TrimSpace(LastToken(params))
  }

  /** A non-empty token from a configurator takes priority over every string
      or []byte argument, wherever they stand in the list. */
  lemma TokenPriority(params: seq<Param>, encode: Encoder, t: string)
    requires ConfiguredToken(params) == Some(t) && t != ""
    ensures ResolvedToken(params, encode) == t
  {
    ConfiguredTokenWins(Blank, params, encode);
  }

  /** The query map after `New` set the access key and the output format. */
  function FinalEntries(s: Setup, token: string): map<string, seq<string>> {
    s.entries["access_key" := [token]]["output" := ["json"]]
  }

  /** The package state: the `DefaultClient` variable. */
  class Package {
    var defaultClient: Client?

    constructor ()
      ensures defaultClient == null
    {
      defaultClient := null;
    }
  }

  /** The state `New` gives the base request before the first self lookup:
      the configured setup, the resolved token, the default endpoint when none
      was configured, the access key and output format in the query, and the
      HTTP client taken from the arguments or the default one. */
  ghost predicate PreparedAs(c: Client, params: seq<Param>, o: Oracles, network: Server)
    reads c, c.baseReq, if c.baseReq == null then {} else {c.baseReq.reqArgs}
  {
    var s := ConfiguredAll(Blank, params, o.encode);
    var token := ResolvedToken(params, o.encode);
    && c.baseReq != null
    && token != "" && c.baseReq.token == token
    && c.baseReq.endpoint == (if s.endpoint != "" then s.endpoint else HttpEndpoint)
    && c.baseReq.securityEnabled == s.security
    && c.baseReq.reqArgs.entries == FinalEntries(s, token)
    && c.baseReq.reqArgsBuilt == "?" + o.encode(FinalEntries(s, token))
    && c.skipInitFetchMe == s.skipFirstMe
    && c.baseReq.client != null
    && (LastHttp(params).Some? && LastHttp(params).value.HttpPointer? ==>
          c.baseReq.client == LastHttp(params).value.client)
    && (LastHttp(params).Some? && LastHttp(params).value.HttpValue? ==>
          c.baseReq.client.serve == LastHttp(params).value.serve)
    && (LastHttp(params).None? ==> c.baseReq.client.serve == network)
  }

  /** The token step of `New`: the token a configurator set, else the
      extracted one; construction goes on exactly when it is not empty. */
  method SettleToken(c: Client, params: seq<Param>) returns (ok: bool)
    requires c.baseReq != null
    modifies c.baseReq
    ensures c.baseReq.token ==
      if old(c.baseReq.token) != "" then old(c.baseReq.token) else TrimSpace(LastToken(params))
    ensures ok <==> c.baseReq.token != ""
    ensures SetupOf(c) == old(SetupOf(c)).(token := c.baseReq.token)
    ensures c.baseReq.client == old(c.baseReq.client) && c.baseReq.reqArgs == old(c.baseReq.reqArgs)
  {
    ghost var before := SetupOf(c);
    var token := ChooseToken(c.baseReq.token, params);
    c.baseReq.token := token;
    assert SetupOf(c) == before.(token := token);
    ok := token != "";
  }

  /** The token `New` keeps: the configured one, else the extracted one. */
  method ChooseToken(configured: string, params: seq<Param>) returns (token: string)
    ensures token == if configured != "" then configured else TrimSpace(LastToken(params))
  {
    token := configured;
    if token == "" {
      token := ExtractToken(params);
    }
  }

  /** The HTTP client step of `New`: the extracted client, else a default one. */
  method SettleClient(params: seq<Param>, network: Server) returns (client: HttpClient)
    ensures LastHttp(params).Some? && LastHttp(params).value.HttpPointer? ==>
      client == LastHttp(params).value.client && client in HttpTargets(params)
    ensures LastHttp(params).Some? && LastHttp(params).value.HttpValue? ==>
      fresh(client) && client.serve == LastHttp(params).value.serve && client.sent == []
    ensures LastHttp(params).None? ==> fresh(client) && client.serve == network && client.sent == []
  {
    var extracted := ExtractHttpClient(params);
    if extracted == null {
      client := new HttpClient(network);
    } else {
      client := extracted;
      LastHttpPassed(params);
    }
  }

  /** A client taken from a pointer argument is one of the arguments. */
  lemma {:induction false} LastHttpPassed(params: seq<Param>)
    ensures LastHttp(params).Some? && LastHttp(params).value.HttpPointer? ==>
      LastHttp(params).value.client in HttpTargets(params)
  {
    if |params| > 0 {
      var n := |params| - 1;
      var p := params[n];
      if p.HttpValue? || (p.HttpPointer? && p.client != null) {
        if p.HttpPointer? {
          assert params[n].client as object in HttpTargets(params);
        }
      } else {
        var init := params[..n];
        LastHttpPassed(init);
        if LastHttp(init).Some? && LastHttp(init).value.HttpPointer? {
          var i :| 0 <= i < |init| && init[i].HttpPointer? && init[i].client != null &&
            init[i].client as object == LastHttp(init).value.client;
          assert params[i] == init[i];
        }
      }
    }
  }

  /** The defaults step of `New`: the endpoint, the access key, the output format
      and the rebuilt query string. */
  method SettleQuery(c: Client, encode: Encoder)
    requires c.baseReq != null
    modifies c.baseReq, c.baseReq.reqArgs
    ensures SetupOf(c) == old(SetupOf(c)).(
      endpoint := if old(c.baseReq.endpoint) != "" then old(c.baseReq.endpoint) else HttpEndpoint,
      entries := old(c.baseReq.reqArgs.entries)["access_key" := [c.baseReq.token]]["output" := ["json"]],
      built := "?" + encode(c.baseReq.reqArgs.entries))
    ensures c.baseReq.client == old(c.baseReq.client) && c.baseReq.reqArgs == old(c.baseReq.reqArgs)
  {
    if c.baseReq.endpoint == "" {
      c.baseReq.endpoint := HttpEndpoint;
    }
    c.baseReq.reqArgs.Set("access_key", c.baseReq.token);
    c.baseReq.reqArgs.Set("output", "json");
    c.baseReq.reqArgsBuilt := "?" + encode(c.baseReq.reqArgs.entries);
  }

  /** `New` up to the first self lookup. */
  method Prepare(params: seq<Param>, o: Oracles, network: Server) returns (c: Client?, err: Option<Error>)
    ensures c == null <==> err.Some?
    ensures err.Some? ==> err == Some(TokenRequired) && ResolvedToken(params, o.encode) == ""
    ensures c != null ==>
      && fresh(c) && c.baseReq != null && fresh(c.baseReq) && fresh(c.baseReq.reqArgs) && c.me == null
      && PreparedAs(c, params, o, network)
      && (LastHttp(params).Some? && LastHttp(params).value.HttpPointer? ==> c.baseReq.client in HttpTargets(params))
      && (LastHttp(params).Some? && LastHttp(params).value.HttpValue? ==>
            fresh(c.baseReq.client) && c.baseReq.client.sent == [])
      && (LastHttp(params).None? ==> fresh(c.baseReq.client) && c.baseReq.client.sent == [])
  {
    var args := new Values();
    var base := new Request(RequestState("", null, "", args, "", false));
    c := new Client(base);
    assert SetupOf(c) == Blank;
    ghost var s := ConfiguredAll(Blank, params, o.encode);
    ghost var token := ResolvedToken(params, o.encode);
    ApplyParams(c, params, o.encode);
    var ok := SettleToken(c, params);
    assert c.baseReq.token == token;
    if !ok {
      return null, Some(TokenRequired);
    }
    assert SetupOf(c) == s.(token := token);
    if c.baseReq.client == null {
      var client := SettleClient(params, network);
      c.baseReq.client := client;
    }
    assert SetupOf(c) == s.(token := token);
    SettleQuery(c, o.encode);
    assert SetupOf(c) == s.(token := token,
      endpoint := if s.endpoint != "" then s.endpoint else HttpEndpoint,
      entries := FinalEntries(s, token), built := "?" + o.encode(FinalEntries(s, token)));
    err := None;
  }

  /** The request log of the client `New` uses grew by `extra`: a client passed
      by pointer keeps what it logged before, any other one is new. */
  twostate predicate SentSince(params: seq<Param>, new h: HttpClient, extra: seq<string>)
    reads h
  {
    var p := LastHttp(params);
    if p.Some? && p.value.HttpPointer? then h == p.value.client && h.sent == old(p.value.client.sent) + extra
    else fresh(h) && h.sent == extra
  }

  /** What `New` leaves once the token is settled: `built` is the new client
      in the state `PreparedAs`. Unless the first self lookup is switched off,
      exactly one self request was made and resolved from a zero record; its
      failure makes `New` fail with a test-request error wrapping it, and its
      success leaves its record (or none, for a JSON `null`) as the cache. */
  twostate predicate FirstLookup(params: seq<Param>, o: Oracles, network: Server,
                                 new built: Client, new c: Client?, new err: Option<Error>)
    requires built.baseReq != null
    reads built, built.baseReq, built.baseReq.reqArgs, built.baseReq.client, built.me
  {
    && fresh(built) && fresh(built.baseReq)
    && PreparedAs(built, params, o, network)
    && (c != null ==> c == built)
    && (built.skipInitFetchMe ==>
          c == built && err.None? && built.me == null && SentSince(params, built.baseReq.client, []))
    && (!built.skipInitFetchMe ==>
          var h := built.baseReq.client;
          var url := UrlFor(built.baseReq, SelfPath);
          && SentSince(params, h, [url])
          && var res := Resolve(Wrap(h.serve(|h.sent| - 1, url)), o.probe, Some(o.empty), o.decodeSelf);
          && (res.Failure? ==> c == null && err == Some(TestRequest(res.error)))
          && (res.Success? ==>
                c == built && err.None? && (built.me == null <==> res.value.None?) &&
                (res.value.Some? ==> built.me.data == res.value.value)))
  }

  /** `h` is the HTTP client of the prepared client `built`. */
  predicate Uses(built: Client?, h: object)
    reads built, if built == null then {} else {built.baseReq}
  {
    built != null && built.baseReq != null && h == built.baseReq.client
  }

  /** `New`, up to and including the first self lookup, without touching the
      default client; `built` is the client prepared for that lookup. */
  method Build(params: seq<Param>, o: Oracles, network: Server)
    returns (c: Client?, err: Option<Error>, ghost built: Client?)
    modifies HttpTargets(params)
    ensures c == null <==> err.Some?
    ensures ResolvedToken(params, o.encode) == "" <==> err == Some(TokenRequired)
    ensures ResolvedToken(params, o.encode) == "" ==> built == null
    ensures ResolvedToken(params, o.encode) != "" ==>
      built != null && built.baseReq != null && FirstLookup(params, o, network, built, c, err)
    ensures forall h :: h in HttpTargets(params) && !Uses(built, h) ==> unchanged(h)
  {
    c, err := Prepare(params, o, network);
    built := c;
    if err.Some? {
      return;
    }
    if !c.skipInitFetchMe {
      err := FirstFetch(c, o);
      if err.Some? {
        c := null;
      }
    }
  }

  /** The first self lookup of `New`, on a client with no cached record yet:
      one self request resolved from a zero record; its error comes back as a
      test-request error, and its record (none for a JSON `null`) is cached. */
  method FirstFetch(c: Client, o: Oracles) returns (err: Option<Error>)
    requires c.baseReq != null && c.baseReq.client != null && c.me == null
    modifies c, c.baseReq.client
    ensures c.baseReq == old(c.baseReq) && c.skipInitFetchMe == old(c.skipInitFetchMe)
    ensures c.baseReq.client == old(c.baseReq.client)
    ensures var h := c.baseReq.client;
      var url := UrlFor(c.baseReq, SelfPath);
      var res := Resolve(old(Reply(h, url)), o.probe, Some(o.empty), o.decodeSelf);
      && h.sent == old(h.sent) + [url]
      && (res.Failure? ==> err == Some(TestRequest(res.error)))
      && (res.Success? ==>
            err.None? && (c.me == null <==> res.value.None?) &&
            (res.value.Some? ==> c.me.data == res.value.value))
  {
    var _, e := Me(c, [], o);
    err := if e.Some? then Some(TestRequest(e.value)) else None;
  }

  /** `New`: builds the client and, when it succeeds and no default client
      exists yet, makes it the default client. */
  method New(pkg: Package, params: seq<Param>, o: Oracles, network: Server)
    returns (c: Client?, err: Option<Error>, ghost built: Client?)
    modifies pkg, HttpTargets(params)
    ensures c == null <==> err.Some?
    ensures ResolvedToken(params, o.encode) == "" <==> err == Some(TokenRequired)
    ensures ResolvedToken(params, o.encode) != "" ==>
      built != null && built.baseReq != null && FirstLookup(params, o, network, built, c, err)
    ensures forall h :: h in HttpTargets(params) && !Uses(built, h) ==> unchanged(h)
    ensures pkg.defaultClient == if c != null && old(pkg.defaultClient) == null then c else old(pkg.defaultClient)
  {
    c, err, built := Build(params, o, network);
    if err.Some? {
      return;
    }
    if pkg.defaultClient == null {
      pkg.defaultClient := c;
    }
  }

  /** `Init`: `New`, whose outcome `FirstLookup` states for the client `built`;
      that client replaces the default client exactly when `New` succeeds. */
  method Init(pkg: Package, params: seq<Param>, o: Oracles, network: Server)
    returns (err: Option<Error>, ghost built: Client?)
    modifies pkg, HttpTargets(params)
    ensures ResolvedToken(params, o.encode) == "" <==> err == Some(TokenRequired)
    ensures ResolvedToken(params, o.encode) != "" ==>
      built != null && built.baseReq != null &&
      FirstLookup(params, o, network, built, if err.None? then built else null, err)
    ensures forall h :: h in HttpTargets(params) && !Uses(built, h) ==> unchanged(h)
    ensures err.Some? ==> pkg.defaultClient == old(pkg.defaultClient)
    ensures err.None? ==> pkg.defaultClient == built
  {
    var c;
    c, err, built := New(pkg, params, o, network);
    if err.Some? {
      return;
    }
    pkg.defaultClient := c;
  }

  /** The package-level `R`: the default client's `R` (nil when there is none). */
  method PackageR(pkg: Package) returns (r: Request?)
    ensures Validate(pkg.defaultClient).Some? ==> r == null
    ensures Validate(pkg.defaultClient).None? ==>
      r != null && fresh(r) && r.Snapshot() == pkg.defaultClient.baseReq.Snapshot()
  {
    r := R(pkg.defaultClient);
  }

  /** The package-level `IP`. */
  method PackageIP(pkg: Package, ip: string, o: Oracles) returns (res: Result<RecordData, Error>)
    modifies Transports(pkg.defaultClient)
    ensures pkg.defaultClient == null ==> res == Failure(DefaultNotInitialized)
    ensures pkg.defaultClient != null && Validate(pkg.defaultClient).Some? ==>
      res == Failure(Validate(pkg.defaultClient).value)
    ensures Validate(pkg.defaultClient).None? ==>
      Looked(pkg.defaultClient.baseReq, IPTarget(ip, o.isIP), res, o.probe, o.empty, o.decodeOne)
  {
    if pkg.defaultClient == null {
      return Failure(DefaultNotInitialized);
    }
    res := IP(pkg.defaultClient, ip, o);
  }

  /** The package-level `IPs`. */
  method PackageIPs(pkg: Package, ips: seq<string>, o: Oracles) returns (res: Result<seq<RecordData>, Error>)
    modifies Transports(pkg.defaultClient)
    ensures pkg.defaultClient == null ==> res == Failure(DefaultNotInitialized)
    ensures pkg.defaultClient != null && Validate(pkg.defaultClient).Some? ==>
      res == Failure(Validate(pkg.defaultClient).value)
    ensures Validate(pkg.defaultClient).None? ==>
      Looked(pkg.defaultClient.baseReq, BatchTarget(ips, o.isIP), res, o.probe, [], o.decodeMany)
  {
    if pkg.defaultClient == null {
      return Failure(DefaultNotInitialized);
    }
    res := IPs(pkg.defaultClient, ips, o);
  }

  /** The package-level `Me`. */
  method PackageMe(pkg: Package, force: seq<bool>, o: Oracles) returns (rec: GeoRecord?, err: Option<Error>)
    modifies pkg.defaultClient, MeFrame(pkg.defaultClient)
    ensures pkg.defaultClient == null ==> rec == null && err == Some(DefaultNotInitialized)
    ensures pkg.defaultClient != null && old(Validate(pkg.defaultClient)).Some? ==>
      rec == null && err == old(Validate(pkg.defaultClient)) && Untouched(pkg.defaultClient)
    ensures old(Validate(pkg.defaultClient)).None? ==>
      pkg.defaultClient.baseReq == old(pkg.defaultClient.baseReq) && Fetched(pkg.defaultClient, old(pkg.defaultClient.me), force, o, rec, err)
  {
    if pkg.defaultClient == null {
      return null, Some(DefaultNotInitialized);
    }
    rec, err := Me(pkg.defaultClient, force, o);
  }
}

/** The request template `tRequest`: its configurators, its shallow copy, the
    lookup operations built on it and the execution step `do`. */
module Requests {
  import opened Foundation
  import opened Errors
  import opened Text
  import opened Transport
  import opened Responses

  const HttpEndpoint: string := "http://api.ipstack.com/"
  const HttpsEndpoint: string := "https://api.ipstack.com/"
  const SecurityParam: string := "security=1"
  /** The path of the self lookup. */
  const SelfPath: string := "check"
  const FieldsKey: string := "fields"

  /** `net.ParseIP(s) != nil`: whether `s` is an IPv4 or IPv6 literal. */
  type IPPredicate = string -> bool

  /** The fields of a `tRequest`; `reqArgs` is a reference to a shared map. */
  datatype RequestState = RequestState(
    token: string, client: HttpClient?, endpoint: string,
    reqArgs: Values, reqArgsBuilt: string, securityEnabled: bool)

  /** `tRequest`. */
  class Request {
    var token: string
    var client: HttpClient?
    var endpoint: string
    var reqArgs: Values
    var reqArgsBuilt: string
    var securityEnabled: bool

    /** A request made from given field values (`&tRequest{...}` and `rr := *r; &rr`). */
    constructor (s: RequestState)
      ensures Snapshot() == s
    {
      token, client, endpoint := s.token, s.client, s.endpoint;
      reqArgs, reqArgsBuilt, securityEnabled := s.reqArgs, s.reqArgsBuilt, s.securityEnabled;
    }

    function Snapshot(): RequestState
      reads this
    {
      RequestState(token, client, endpoint, reqArgs, reqArgsBuilt, securityEnabled)
    }
  }

  /** The objects a configurator on a possibly nil request may write. */
  function Footprint(r: Request?): set<object>
    reads r
  {
    if r == null then {} else {r as Request, r.reqArgs}
  }

  /** `tRequest.UseHTTPS`: the same request, now on the HTTPS endpoint when
      `https` holds and on the HTTP endpoint otherwise; nil stays nil. */
  method UseHTTPS(r: Request?, https: bool) returns (res: Request?)
    modifies r
    ensures res == r
    ensures r != null ==>
      r.Snapshot() == old(r.Snapshot()).(endpoint := if https then HttpsEndpoint else HttpEndpoint)
  {
    if r == null {
      return null;
    }
    if https {
      r.endpoint := HttpsEndpoint;
    } else {
      r.endpoint := HttpEndpoint;
    }
    return r;
  }

  /** `tRequest.EnableSecuity`: a `true` argument switches the security module on,
      `false` leaves the flag as it was (it never clears it). */
  method EnableSecurity(r: Request?, enable: bool) returns (res: Request?)
    modifies r
    ensures res == r
    ensures r != null ==>
      r.Snapshot() == old(r.Snapshot()).(securityEnabled := old(r.securityEnabled) || enable)
  {
    if r == null {
      return null;
    }
    if enable {
      r.securityEnabled := true;
    }
    return r;
  }

  /** The new "fields" value: the new names first, then the previous value
      when it is not empty, joined by commas. */
  function MergeFields(names: seq<string>, previous: string): string {
    Join(names + (if previous != "" then [previous] else []), ",")
  }

  /** The new names open the merged value and a non-empty previous value
      closes it; without new names the previous value stays. */
  lemma MergeFieldsOrder(names: seq<string>, previous: string)
    ensures |names| > 0 ==> names[0] <= MergeFields(names, previous)
    ensures previous != "" ==> var r := MergeFields(names, previous);
      |previous| <= |r| && r[|r| - |previous|..] == previous
    ensures |names| == 0 ==> MergeFields(names, previous) == previous
  {
    var parts := names + (if previous != "" then [previous] else []);
    JoinEnds(parts, ",");
    if |names| > 0 {
      assert parts[0] == names[0];
    }
    if |names| == 0 && previous == "" {
      assert parts == [];
    }
  }

  /** Two successive `Fields` calls select what one call with the later names
      first would, provided the first call left a non-empty value. */
  lemma {:induction false} MergeFieldsAccumulates(first: seq<string>, second: seq<string>, previous: string)
    requires |first| > 0 && |second| > 0
    requires MergeFields(first, previous) != ""
    ensures MergeFields(second, MergeFields(first, previous)) == MergeFields(second + first, previous)
  {
    var tail := if previous != "" then [previous] else [];
    JoinNested(second, first + tail, ",");
    assert second + [MergeFields(first, previous)] == second + [Join(first + tail, ",")];
    assert second + (first + tail) == (second + first) + tail;
  }

  /** `Fields("a")` then `Fields("b")` selects "b,a". */
  lemma MergeFieldsExample()
    ensures MergeFields(["b"], MergeFields(["a"], "")) == "b,a"
  {
    assert MergeFields(["a"], "") == "a" by {
      assert ["a"] + [] == ["a"];
    }
    assert ["b"] + ["a"] == ["b", "a"];
    assert Join(["b", "a"], ",") == "b" + "," + Join(["a"], ",");
  }

  /** `tRequest.Fields`: with no names, nothing changes. Otherwise the shared
      map's "fields" entry becomes the merged value and the request's own
      query string is rebuilt from the whole map. */
  method Fields(r: Request?, names: seq<string>, encode: Encoder) returns (res: Request?)
    modifies Footprint(r)
    ensures res == r
    ensures r != null && |names| == 0 ==>
      r.Snapshot() == old(r.Snapshot()) && r.reqArgs.entries == old(r.reqArgs.entries)
    ensures r != null && |names| > 0 ==>
      && r.reqArgs.entries == old(r.reqArgs.entries)[FieldsKey := [MergeFields(names, old(r.reqArgs.Get(FieldsKey)))]]
      && r.Snapshot() == old(r.Snapshot()).(reqArgsBuilt := "?" + encode(r.reqArgs.entries))
  {
    if r == null {
      return null;
    }
    if |names| == 0 {
      return r;
    }
    var all := names;
    var previous := r.reqArgs.Get(FieldsKey);
    if previous != "" {
      all := all + [previous];
    }
    assert all == names + (if previous != "" then [previous] else []);
    r.reqArgs.Set(FieldsKey, Join(all, ","));
    r.reqArgsBuilt := "?" + encode(r.reqArgs.entries);
    return r;
  }

  /** `tRequest.copy`: a shallow copy. The copy is a new request with the same
      field values, so it shares the `reqArgs` map with the original. */
  method Copy(r: Request?) returns (c: Request?)
    ensures r == null ==> c == null
    ensures r != null ==> c != null && fresh(c) && c.Snapshot() == r.Snapshot()
  {
    if r == null {
      return null;
    }
    c := new Request(r.Snapshot());
  }

  /** `tRequest.validate`. */
  function Validate(r: Request?): (e: Option<Error>)
    reads r
    ensures e.None? <==> r != null && r.client != null
    ensures r == null ==> e == Some(NilRequest)
    ensures r != null && r.client == null ==> e == Some(NilHttpClient)
  {
    if r == null then Some(NilRequest)
    else if r.client == null then Some(NilHttpClient)
    else None
  }

  /** The URL `do` requests: endpoint, path and built query, then the fixed
      security fragment exactly when the flag is set. */
  function RequestUrl(endpoint: string, path: string, query: string, security: bool): (u: string)
    ensures |u| >= |endpoint + path + query|
    ensures u[..|endpoint + path + query|] == endpoint + path + query
    ensures security ==> u[|endpoint + path + query|..] == "&" + SecurityParam
    ensures !security ==> u == endpoint + path + query
  {
    var u := endpoint + path + query;
    if security then u + "&" + SecurityParam else u
  }

  /** The URL a request would fetch for `path`. */
  function UrlFor(r: Request, path: string): string
    reads r
  {
    RequestUrl(r.endpoint, path, r.reqArgsBuilt, r.securityEnabled)
  }

  /** The envelope of the next GET of `url` through `h`. */
  function Reply(h: HttpClient, url: string): EnvelopeState
    reads h
  {
    Wrap(h.serve(|h.sent|, url))
  }

  /** `tRequest.do`: exactly one GET of the request's URL for `path`,
      wrapped into a fresh envelope. */
  method Do(r: Request, path: string) returns (env: Envelope)
    requires r.client != null
    modifies r.client
    ensures fresh(env)
    ensures r.client.sent == old(r.client.sent) + [UrlFor(r, path)]
    ensures env.State() == old(Reply(r.client, UrlFor(r, path)))
  {
    var url := r.endpoint + path + r.reqArgsBuilt;
    if r.securityEnabled {
      url := url + "&" + SecurityParam;
    }
    var o := r.client.Get(url);
    env := new Envelope(Wrap(o));
  }

  /** The objects a lookup may write: the request's HTTP client. */
  function ClientOf(r: Request?): set<object>
    reads r
  {
    if r == null || r.client == null then {} else {r.client}
  }

  /** The path `tRequest.IP` requests for `ip`, or why it makes no request:
      the trimmed literal when it is non-empty and valid. */
  function IPTarget(ip: string, isIP: IPPredicate): (t: Result<string, Error>)
    ensures t.Success? <==> TrimSpace(ip) != "" && isIP(TrimSpace(ip))
    ensures t.Success? ==> t.value == TrimSpace(ip)
    ensures t == Failure(EmptyIP) <==> TrimSpace(ip) == ""
    ensures t.Failure? && TrimSpace(ip) != "" ==> t.error == InvalidIP(TrimSpace(ip))
  {
    var s := TrimSpace(ip);
    if s == "" then Failure(EmptyIP)
    else if !isIP(s) then Failure(InvalidIP(s))
    else Success(s)
  }

  /** Whether a batch entry survives the filter. */
  predicate Kept(ip: string, isIP: IPPredicate) {
    TrimSpace(ip) != "" && isIP(TrimSpace(ip))
  }

  /** The trimmed, non-empty, valid entries of a batch, in input order. */
  function ValidIPs(ips: seq<string>, isIP: IPPredicate): (v: seq<string>)
    ensures |v| <= |ips|
  {
    if |ips| == 0 then []
    else
      var last := ips[|ips| - 1];
      ValidIPs(ips[..|ips| - 1], isIP) + (if Kept(last, isIP) then [TrimSpace(last)] else [])
  }

  /** A trimmed, non-empty, valid address literal. */
  predicate Literal(v: string, isIP: IPPredicate) {
    v != "" && isIP(v) && TrimSpace(v) == v
  }

  /** Every kept entry is a trimmed, non-empty, valid literal. */
  lemma {:induction false} ValidIPsSound(ips: seq<string>, isIP: IPPredicate)
    ensures forall k :: 0 <= k < |ValidIPs(ips, isIP)| ==> Literal(ValidIPs(ips, isIP)[k], isIP)
  {
    if |ips| > 0 {
      var last := ips[|ips| - 1];
      var init := ValidIPs(ips[..|ips| - 1], isIP);
      ValidIPsSound(ips[..|ips| - 1], isIP);
      var v := ValidIPs(ips, isIP);
      if Kept(last, isIP) {
        assert v == init + [TrimSpace(last)];
        forall k | 0 <= k < |v|
          ensures Literal(v[k], isIP)
        {
          if k < |init| {
            assert v[k] == init[k];
          } else {
            TrimSpaceIdempotent(last);
          }
        }
      } else {
        assert v == init;
      }
    }
  }

  /** Filtering a concatenation filters each part: kept entries stay in input order. */
  lemma {:induction false} ValidIPsAppend(a: seq<string>, b: seq<string>, isIP: IPPredicate)
    ensures ValidIPs(a + b, isIP) == ValidIPs(a, isIP) + ValidIPs(b, isIP)
    decreases |b|
  {
    if |b| > 0 {
      var b' := b[..|b| - 1];
      assert (a + b)[..|a + b| - 1] == a + b';
      ValidIPsAppend(a, b', isIP);
    } else {
      assert a + b == a;
    }
  }

  /** An entry is in the filtered batch exactly when some input entry trims to it and is kept. */
  lemma {:induction false} ValidIPsMembers(ips: seq<string>, isIP: IPPredicate, x: string)
    ensures x in ValidIPs(ips, isIP) <==> exists i :: 0 <= i < |ips| && Kept(ips[i], isIP) && TrimSpace(ips[i]) == x
  {
    if |ips| > 0 {
      var init := ips[..|ips| - 1];
      ValidIPsMembers(init, isIP, x);
      if x in ValidIPs(init, isIP) {
        var i :| 0 <= i < |init| && Kept(init[i], isIP) && TrimSpace(init[i]) == x;
        assert ips[i] == init[i];
      }
      if exists i :: 0 <= i < |ips| && Kept(ips[i], isIP) && TrimSpace(ips[i]) == x {
        var i :| 0 <= i < |ips| && Kept(ips[i], isIP) && TrimSpace(ips[i]) == x;
        if i < |ips| - 1 {
          assert init[i] == ips[i];
        }
      }
    }
  }

  /** One more entry of the batch filters as the last one. */
  lemma ValidIPsStep(ips: seq<string>, i: nat, isIP: IPPredicate)
    requires i < |ips|
    ensures ValidIPs(ips[..i + 1], isIP) ==
      ValidIPs(ips[..i], isIP) + (if Kept(ips[i], isIP) then [TrimSpace(ips[i])] else [])
  {
    assert ips[..i + 1][..i] == ips[..i];
  }

  /** The loop of `tRequest.IPs` that collects the valid entries. */
  method FilterValidIPs(ips: seq<string>, isIP: IPPredicate) returns (valid: seq<string>)
    ensures valid == ValidIPs(ips, isIP)
  {
    valid := [];
    var i := 0;
    while i < |ips|
      invariant 0 <= i <= |ips|
      invariant valid == ValidIPs(ips[..i], isIP)
    {
      ValidIPsStep(ips, i, isIP);
      var ip := TrimSpace(ips[i]);
      if ip != "" && isIP(ip) {
        valid := valid + [ip];
      }
      assert valid == ValidIPs(ips[..i + 1], isIP);
      i := i + 1;
    }
    assert ips[..i] == ips;
  }

  /** The path `tRequest.IPs` requests, or why it makes no request. */
  function BatchTarget(ips: seq<string>, isIP: IPPredicate): (t: Result<string, Error>)
    ensures |ips| == 0 <==> t == Failure(NoIPPassed)
    ensures t == Failure(NoValidIPPassed) <==> |ips| > 0 && ValidIPs(ips, isIP) == []
    ensures t.Success? <==> ValidIPs(ips, isIP) != []
  {
    if |ips| == 0 then Failure(NoIPPassed)
    else
      var valid := ValidIPs(ips, isIP);
      if |valid| == 0 then Failure(NoValidIPPassed) else Success(Join(valid, ","))
  }

  /** The batch path lists exactly the kept entries: splitting it at commas
      gives them back, in order (IP literals contain no comma). */
  lemma BatchTargetLists(ips: seq<string>, isIP: IPPredicate)
    requires forall s :: isIP(s) ==> ',' !in s
    requires BatchTarget(ips, isIP).Success?
    ensures Split(BatchTarget(ips, isIP).value, ',') == ValidIPs(ips, isIP)
  {
    ValidIPsSound(ips, isIP);
    SplitJoin(ValidIPs(ips, isIP), ',');
  }

  /** A single address is accepted by `IP` exactly when the one-element batch is
      accepted by `IPs`, with the same path; the two reject with different errors. */
  lemma SingleAndBatch(ip: string, isIP: IPPredicate)
    ensures IPTarget(ip, isIP).Success? <==> BatchTarget([ip], isIP).Success?
    ensures IPTarget(ip, isIP).Success? ==> IPTarget(ip, isIP) == BatchTarget([ip], isIP)
    ensures IPTarget(ip, isIP).Failure? ==> BatchTarget([ip], isIP) == Failure(NoValidIPPassed)
  {
    assert [ip][..0] == [];
  }

  /** The common tail of the lookups: fail without a request, or `do(path)`. */
  method Lookup(r: Request?, target: Result<string, Error>) returns (env: Envelope)
    modifies ClientOf(r)
    ensures fresh(env)
    ensures Validate(r).Some? ==> env.State() == EnvelopeState(None, Validate(r))
    ensures Validate(r).None? && target.Failure? ==>
      env.State() == EnvelopeState(None, Some(target.error)) && r.client.sent == old(r.client.sent)
    ensures Validate(r).None? && target.Success? ==>
      r.client.sent == old(r.client.sent) + [UrlFor(r, target.value)] &&
      env.State() == old(Reply(r.client, UrlFor(r, target.value)))
  {
    var invalid := Validate(r);
    if invalid.Some? {
      env := new Envelope(EnvelopeState(None, invalid));
      return;
    }
    match target {
      case Failure(e) =>
        env := new Envelope(EnvelopeState(None, Some(e)));
      case Success(path) =>
        env := Do(r, path);
    }
  }

  /** `tRequest.IP`: no request for an empty or invalid address, otherwise
      one request for the trimmed literal. */
  method IP(r: Request?, ip: string, isIP: IPPredicate) returns (env: Envelope)
    modifies ClientOf(r)
    ensures fresh(env)
    ensures Validate(r).Some? ==> env.State() == EnvelopeState(None, Validate(r))
    ensures Validate(r).None? && IPTarget(ip, isIP).Failure? ==>
      env.State() == EnvelopeState(None, Some(IPTarget(ip, isIP).error)) && r.client.sent == old(r.client.sent)
    ensures Validate(r).None? && IPTarget(ip, isIP).Success? ==>
      r.client.sent == old(r.client.sent) + [UrlFor(r, TrimSpace(ip))] &&
      env.State() == old(Reply(r.client, UrlFor(r, TrimSpace(ip))))
  {
    if r == null || r.client == null {
      env := Lookup(r, Failure(NilRequest));
      return;
    }
    var s := TrimSpace(ip);
    if s == "" {
      env := Lookup(r, Failure(EmptyIP));
    } else if !isIP(s) {
      env := Lookup(r, Failure(InvalidIP(s)));
    } else {
      env := Lookup(r, Success(s));
    }
  }

  /** `tRequest.IPs`: no request when no address is passed or none is valid,
      otherwise one request for the valid addresses joined by commas. */
  method IPs(r: Request?, ips: seq<string>, isIP: IPPredicate) returns (env: Envelope)
    modifies ClientOf(r)
    ensures fresh(env)
    ensures Validate(r).Some? ==> env.State() == EnvelopeState(None, Validate(r))
    ensures Validate(r).None? && BatchTarget(ips, isIP).Failure? ==>
      env.State() == EnvelopeState(None, Some(BatchTarget(ips, isIP).error)) && r.client.sent == old(r.client.sent)
    ensures Validate(r).None? && BatchTarget(ips, isIP).Success? ==>
      r.client.sent == old(r.client.sent) + [UrlFor(r, Join(ValidIPs(ips, isIP), ","))] &&
      env.State() == old(Reply(r.client, UrlFor(r, Join(ValidIPs(ips, isIP), ","))))
  {
    if r == null || r.client == null {
      env := Lookup(r, Failure(NilRequest));
      return;
    }
    if |ips| == 0 {
      env := Lookup(r, Failure(NoIPPassed));
      return;
    }
    var valid := FilterValidIPs(ips, isIP);
    if |valid| == 0 {
      env := Lookup(r, Failure(NoValidIPPassed));
    } else {
      env := Lookup(r, Success(Join(valid, ",")));
    }
  }

  /** `tRequest.Me`: one request for the self path. */
  method Me(r: Request?) returns (env: Envelope)
    modifies ClientOf(r)
    ensures fresh(env)
    ensures Validate(r).Some? ==> env.State() == EnvelopeState(None, Validate(r))
    ensures Validate(r).None? ==>
      r.client.sent == old(r.client.sent) + [UrlFor(r, SelfPath)] &&
      env.State() == old(Reply(r.client, UrlFor(r, SelfPath)))
  {
    env := Lookup(r, Success(SelfPath));
  }

  // ------------------------------------------------- the shallow copy and its repair

  /** As written: a `Fields` call on a copy returned by `copy` rewrites the
      "fields" entry of the original's query map, while the original's own
      built query string stays as it was. */
  method FieldsOnCopyReachesOriginal(base: Request, names: seq<string>, encode: Encoder) returns (copy: Request)
    requires |names| > 0
    modifies base.reqArgs
    ensures copy.reqArgs == base.reqArgs
    ensures base.reqArgs.entries == old(base.reqArgs.entries)[FieldsKey := [MergeFields(names, old(base.reqArgs.Get(FieldsKey)))]]
    ensures base.Snapshot() == old(base.Snapshot())
  {
    var c := Copy(base);
    var _ := Fields(c, names, encode);
    copy := c;
  }

  /** As written: two per-call customisations `R().Fields("a")` and then
      `R().Fields("b")` of the same base request leave the second copy
      selecting "b,a", not "b". */
  method SuccessiveCopiesAccumulate(base: Request, encode: Encoder) returns (second: Request)
    requires base.reqArgs.Get(FieldsKey) == ""
    modifies base.reqArgs
    ensures second.reqArgs.Get(FieldsKey) == "b,a"
    ensures base.reqArgs.Get(FieldsKey) == "b,a"
  {
    var first := Copy(base);
    var _ := Fields(first, ["a"], encode);
    second := Copy(base);
    var _ := Fields(second, ["b"], encode);
    MergeFieldsExample();
  }

  /** The copy the documentation of `copy` describes: the query map is copied
      too, so nothing done to the copy reaches the original. */
  method CopyDeep(r: Request?) returns (c: Request?)
    ensures r == null ==> c == null
    ensures r != null ==>
      c != null && fresh(c) && fresh(c.reqArgs) &&
      c.Snapshot() == r.Snapshot().(reqArgs := c.reqArgs) && c.reqArgs.entries == r.reqArgs.entries
  {
    if r == null {
      return null;
    }
    var args := new Values();
    args.entries := r.reqArgs.entries;
    c := new Request(r.Snapshot().(reqArgs := args));
  }

  /** With the deep copy, `Fields` on the copy leaves the original, its query
      map included, exactly as it was. */
  method FieldsOnDeepCopyStaysLocal(base: Request, names: seq<string>, encode: Encoder) returns (copy: Request)
    requires |names| > 0
    ensures copy.reqArgs != base.reqArgs
    ensures copy.reqArgs.entries == base.reqArgs.entries[FieldsKey := [MergeFields(names, base.reqArgs.Get(FieldsKey))]]
    ensures base.Snapshot() == old(base.Snapshot()) && base.reqArgs.entries == old(base.reqArgs.entries)
  {
    var c := CopyDeep(base);
    var _ := Fields(c, names, encode);
    copy := c;
  }
}

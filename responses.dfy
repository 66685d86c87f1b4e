/** The response envelope `tResponse` and its two resolution stages,
    `CheckError` and `DecodeTo`. JSON decoding is an oracle. */
module Responses {
  import opened Foundation
  import opened Errors
  import opened Transport

  /** The fields of a `tResponse`: the raw body (nil is `None`) and the error. */
  datatype EnvelopeState = EnvelopeState(rawData: Option<Bytes>, error: Option<Error>)

  /** `tResponse`. `CheckError` writes its error slot. */
  class Envelope {
    var rawData: Option<Bytes>
    var error: Option<Error>

    constructor (s: EnvelopeState)
      ensures State() == s
    {
      rawData, error := s.rawData, s.error;
    }

    function State(): EnvelopeState
      reads this
    {
      EnvelopeState(rawData, error)
    }
  }

  /** The envelope `do` builds from one GET (through `resp` and `resps`):
      a failed GET, a nil body and a failed read carry only an error;
      a read body is carried with no error. */
  function Wrap(o: FetchOutcome): (s: EnvelopeState)
    ensures s.error.Some? ==> s.rawData.None?
    ensures s.error.None? <==> o.Body?
    ensures o.Body? ==> s.rawData == Some(o.data)
    ensures o.GetFailed? ==> s.error == Some(Transport(o.reason))
    ensures o.NoBody? ==> s.error == Some(NilBody)
    ensures o.ReadFailed? ==> s.error == Some(ReadBody(o.reason))
  {
    match o
    case GetFailed(m) => EnvelopeState(None, Some(Transport(m)))
    case NoBody => EnvelopeState(None, Some(NilBody))
    case ReadFailed(m) => EnvelopeState(None, Some(ReadBody(m)))
    case Body(b) => EnvelopeState(Some(b), None)
  }

  /** The shape `tResponseError` that `CheckError` decodes the body into:
      `success` is `None` when the body does not set it, and `error` is the
      zero `tError` when the body has no "error" member. */
  datatype ProbeBody = ProbeBody(success: Option<bool>, error: ApiError)

  /** `json.Unmarshal` into `tResponseError`: the parsed shape or the decoder's error text. */
  type Prober = Bytes -> Result<ProbeBody, string>

  /** `json.Unmarshal` into a destination that already holds `T`: the new value or the error text. */
  type Decoder<!T> = (T, Bytes) -> Result<T, string>

  /** The body as `json.Unmarshal` sees it: a nil slice reads as empty input. */
  function BodyOf(s: EnvelopeState): Bytes {
    s.rawData.GetOr([])
  }

  /** Whether the probed body reports success; `success` starts out true,
      so a body that omits it counts as success. */
  predicate Succeeded(p: ProbeBody) {
    p.success.GetOr(true)
  }

  /** What `CheckError` leaves in the error slot (`stored`) and what it returns. */
  datatype Checked = Checked(stored: Option<Error>, returned: Option<Error>)

  function Check(s: EnvelopeState, probe: Prober): (c: Checked)
    // an error already in the envelope is passed through untouched
    ensures s.error.Some? ==> c.stored == s.error && c.returned == s.error
    // it reports an error exactly when it stores one
    ensures c.returned.None? <==> c.stored.None?
    // with no earlier error, it succeeds exactly when the body decodes and does not say success=false
    ensures s.error.None? ==>
      (c.returned.None? <==> probe(BodyOf(s)).Success? && Succeeded(probe(BodyOf(s)).value))
    // a remote failure is stored and returned as the nested tError
    ensures s.error.None? && probe(BodyOf(s)).Success? && !Succeeded(probe(BodyOf(s)).value) ==>
      c.stored == c.returned == Some(Api(probe(BodyOf(s)).value.error))
    // a body that does not decode is stored as the raw decoder error and returned wrapped
    ensures s.error.None? && probe(BodyOf(s)).Failure? ==>
      c.stored == Some(Json(probe(BodyOf(s)).error)) &&
      c.returned == Some(DecodeJson(Json(probe(BodyOf(s)).error)))
    // the only case where stored and returned differ: a decode failure stored raw, returned wrapped
    ensures c.stored != c.returned ==>
      s.error.None? && probe(BodyOf(s)).Failure? &&
      c.stored == Some(Json(probe(BodyOf(s)).error)) && c.returned == Some(DecodeJson(c.stored.value))
  {
    if s.error.Some? then Checked(s.error, s.error)
    else
      match probe(BodyOf(s))
      case Failure(m) => Checked(Some(Json(m)), Some(DecodeJson(Json(m))))
      case Success(p) =>
        if !Succeeded(p) then Checked(Some(Api(p.error)), Some(Api(p.error)))
        else Checked(None, None)
  }

  /** `tResponse.CheckError`. */
  method CheckError(r: Envelope?, probe: Prober) returns (err: Option<Error>)
    modifies r
    ensures r == null ==> err == Some(NilEnvelope)
    ensures r != null ==>
      r.rawData == old(r.rawData) &&
      r.error == Check(old(r.State()), probe).stored &&
      err == Check(old(r.State()), probe).returned
  {
    if r == null {
      return Some(NilEnvelope);
    }
    if r.error.Some? {
      return r.error;
    }
    var decoded := probe(r.rawData.GetOr([]));
    match decoded {
      case Failure(m) =>
        r.error := Some(Json(m));
        return Some(DecodeJson(r.error.value));
      case Success(p) =>
        r.error := None;
        if p.success == Some(false) {
          r.error := Some(Api(p.error));
          return r.error;
        }
        return None;
    }
  }

  /** Stage two on an envelope's fields; `dest` is the destination's current
      value, `None` for a nil destination. */
  function Decode<T>(s: EnvelopeState, dest: Option<T>, decode: Decoder<T>): (res: Result<T, Error>)
    // an error already in the envelope is returned without decoding
    ensures s.error.Some? ==> res == Failure(s.error.value)
    ensures s.error.None? && dest.None? ==> res == Failure(NilDestination)
    // otherwise it is what the decoder makes of the body from the destination's value
    ensures res.Success? <==> s.error.None? && dest.Some? && decode(dest.value, BodyOf(s)).Success?
    ensures res.Success? ==> res.value == decode(dest.value, BodyOf(s)).value
    // a decoder error is returned as it is
    ensures s.error.None? && dest.Some? && decode(dest.value, BodyOf(s)).Failure? ==>
      res == Failure(Json(decode(dest.value, BodyOf(s)).error))
  {
    if s.error.Some? then Failure(s.error.value)
    else if dest.None? then Failure(NilDestination)
    else
      match decode(dest.value, BodyOf(s))
      case Success(v) => Success(v)
      case Failure(m) => Failure(Json(m))
  }

  /** `tResponse.DecodeTo`: reads the envelope, never writes it. */
  function DecodeTo<T>(r: Envelope?, dest: Option<T>, decode: Decoder<T>): (res: Result<T, Error>)
    reads r
    ensures r == null ==> res == Failure(NilEnvelope)
    ensures r != null ==> res == Decode(r.State(), dest, decode)
  {
    if r == null then Failure(NilEnvelope) else Decode(r.State(), dest, decode)
  }

  /** Chaining the stages: once `CheckError` has reported an error, `DecodeTo`
      fails with the stored error, which is the reported one except for a
      decode failure, where it is the unwrapped decoder error; when `CheckError`
      reported nothing, `DecodeTo` is exactly the decoder on the body. */
  lemma ResolveChain<T>(s: EnvelopeState, probe: Prober, dest: Option<T>, decode: Decoder<T>)
    ensures var c := Check(s, probe);
      var d := Decode(EnvelopeState(s.rawData, c.stored), dest, decode);
      (c.returned.Some? ==>
         d.Failure? && Some(d.error) == c.stored &&
         (d.error == c.returned.value || c.returned.value == DecodeJson(d.error)))
      && (c.returned.None? ==> d == Decode(EnvelopeState(s.rawData, None), dest, decode))
  {
    var c := Check(s, probe);
    if c.returned.Some? {
      assert c.stored.Some?;
    }
  }

  /** A body such as {"success":false,"error":{"code":104,...}} gives a
      remote error whose `Code` is the body's code. */
  lemma RemoteFailureCode(s: EnvelopeState, probe: Prober, a: ApiError)
    requires s.error.None?
    requires probe(BodyOf(s)) == Success(ProbeBody(Some(false), a))
    ensures Code(APIError(Check(s, probe).returned)) == a.rawCode
    ensures APIError(Check(s, probe).stored) == Some(a)
  {
  }

  /** The whole resolution a client method performs, `CheckError` then
      `DecodeTo` from `start`: a transport error surfaces unchanged, a remote
      or decoding error reported by `CheckError` wins over decoding, and only
      a body that passes both stages yields a value. */
  function Resolve<T>(s: EnvelopeState, probe: Prober, start: T, decode: Decoder<T>): (res: Result<T, Error>)
    ensures s.error.Some? ==> res == Failure(s.error.value)
    ensures Check(s, probe).returned.Some? ==> res == Failure(Check(s, probe).returned.value)
    ensures res.Success? <==> Check(s, probe).returned.None? && decode(start, BodyOf(s)).Success?
    ensures res.Success? ==> res.value == decode(start, BodyOf(s)).value
    ensures Check(s, probe).returned.None? && decode(start, BodyOf(s)).Failure? ==>
      res == Failure(Json(decode(start, BodyOf(s)).error))
  {
    var c := Check(s, probe);
    if c.returned.Some? then Failure(c.returned.value)
    else Decode(EnvelopeState(s.rawData, c.stored), Some(start), decode)
  }
}

/** The collaborators the request code talks to: the HTTP client (`*http.Client`),
    whose replies are an oracle, and the query-string map `url.Values`. */
module Transport {
  import opened Foundation

  /** What one GET produced: `client.Get` failed, the response had no body,
      reading the body failed, or the whole body was read. */
  datatype FetchOutcome =
    | GetFailed(reason: string)
    | NoBody
    | ReadFailed(reason: string)
    | Body(data: Bytes)

  /** The network and the server behind a client: the reply to the n-th
      request issued through that client, for the URL requested. */
  type Server = (nat, string) -> FetchOutcome

  /** An `*http.Client`. `sent` lists the URLs requested through it, in order,
      so that "no request was made" can be stated. */
  class HttpClient {
    const serve: Server
    var sent: seq<string>

    constructor (serve: Server)
      ensures this.serve == serve && sent == []
    {
      this.serve := serve;
      sent := [];
    }

    /** `client.Get(url)` followed by reading the whole body. */
    method Get(url: string) returns (o: FetchOutcome)
      modifies this
      ensures sent == old(sent) + [url]
      ensures o == serve(|old(sent)|, url)
    {
      o := serve(|sent|, url);
      sent := sent + [url];
    }
  }

  /** `url.Values.Encode`: percent-escaping and key order are left to this
      function; the model relies only on its being a function of the map. */
  type Encoder = map<string, seq<string>> -> string

  /** `url.Values.Get`: the first value for `key`, or "" when there is none. */
  function FirstValue(entries: map<string, seq<string>>, key: string): (v: string)
    ensures key !in entries || |entries[key]| == 0 ==> v == ""
    ensures key in entries && |entries[key]| > 0 ==> v == entries[key][0]
  {
    if key in entries && |entries[key]| > 0 then entries[key][0] else ""
  }

  /** `url.Values`: a map type, so every copy of a request that holds it
      shares the same entries. */
  class Values {
    var entries: map<string, seq<string>>

    constructor ()
      ensures entries == map[]
    {
      entries := map[];
    }

    function Get(key: string): (v: string)
      reads this
    {
      FirstValue(entries, key)
    }

    /** `url.Values.Set`: `key` now has `value` as its only value. */
    method Set(key: string, value: string)
      modifies this
      ensures entries == old(entries)[key := [value]]
      ensures Get(key) == value
    {
      entries := entries[key := [value]];
    }
  }
}

/** The logging relay: it reads and rebuffers the inbound body, forwards the
    request with the inbound header map, gunzips the upstream body when the
    upstream says it is gzip, and answers with every upstream header except
    `Content-Encoding` (section 8.4 of RFC 9110), the upstream status and
    the bytes it holds. The HTTP client and the gzip decoder are supplied by
    the caller; logging is not modelled. */
module HttpProxy {
  import opened Common
  import opened HttpModel

  const ContentEncoding: string := "Content-Encoding"

  /** A request or response body as a reader: none at all, or a stream that
      yields `data` and then ends with `err` (`None` is a clean end of
      stream). */
  datatype Body = NoBody | Stream(data: string, err: Option<string>)

  /** `io.ReadAll`: everything the reader yields, and the error it ended with. */
  function ReadAll(b: Body): (r: (string, Option<string>))
    ensures b.NoBody? ==> r == ("", None)
  {
    if b.NoBody? then ("", None) else (b.data, b.err)
  }

  /** The inbound request; its header map is shared with the outbound one. */
  class Request {
    const verb: string
    const url: string
    const header: HeaderMap
    var body: Body

    constructor (verb: string, url: string, header: HeaderMap, body: Body)
      ensures this.verb == verb && this.url == url && this.header == header && this.body == body
    {
      this.verb, this.url, this.header, this.body := verb, url, header, body;
    }
  }

  /** The request handed to the HTTP client. */
  datatype Outbound = Outbound(verb: string, url: string, header: Header, body: Body)

  /** The upstream response. */
  datatype Upstream = Upstream(status: int, header: Header, body: Body)

  /** The body a request carries on after it has been read for logging: a
      read that succeeded leaves a buffer of the very bytes read, so what
      is forwarded is what arrived; a read that failed leaves the stream
      spent, ending with the same error. */
  function Restored(b: Body): (r: Body)
    ensures ReadAll(b).1.None? ==> ReadAll(r) == ReadAll(b)
    ensures ReadAll(b).1.Some? ==> ReadAll(r) == ("", ReadAll(b).1)
    ensures b.NoBody? <==> r.NoBody?
  {
    match b
    case NoBody => NoBody
    case Stream(data, err) => if err.None? then Stream(data, None) else Stream("", err)
  }

  /** The read-and-restore step on the request's `body` field. */
  method RestoreBody(req: Request)
    modifies req`body
    ensures req.body == Restored(old(req.body))
  {
    if req.body != NoBody {
      var (bytes, err) := ReadAll(req.body);
      if err == None {
        req.body := Stream(bytes, None);
      } else {
        req.body := Stream("", err);
      }
    }
  }

  /** What `gzip.NewReader` makes of a body: the header could not be read
      (`rest` is what remains of the body), or a reader of the inflated
      bytes. The decoder is not modelled. */
  datatype Inflate = BadHeader(rest: Body) | Inflated(out: Body)

  type Gunzip = Body -> Inflate

  /** Whether the upstream says its body is gzip: the first
      `Content-Encoding` value is exactly "gzip". */
  predicate IsGzip(h: Header) {
    FirstValue(h, ContentEncoding) == "gzip"
  }

  /** The bytes the relay holds after its decode-or-read step; read errors
      are only logged, so they keep whatever was read before them. A header
      that cannot be read falls back to the rest of the raw body. */
  function ResponseBytes(up: Upstream, gunzip: Gunzip): (r: string)
    ensures !IsGzip(up.header) ==> r == ReadAll(up.body).0
    ensures IsGzip(up.header) && gunzip(up.body).Inflated? ==> r == ReadAll(gunzip(up.body).out).0
    ensures IsGzip(up.header) && gunzip(up.body).BadHeader? ==> r == ReadAll(gunzip(up.body).rest).0
  {
    if IsGzip(up.header) then
      match gunzip(up.body)
      case BadHeader(rest) => ReadAll(rest).0
      case Inflated(out) => ReadAll(out).0
    else ReadAll(up.body).0
  }

  /** The decoder is consulted only for a gzip response: without the
      marker, any two decoders give the same bytes. */
  lemma DecoderOnlyForGzip(up: Upstream, g1: Gunzip, g2: Gunzip)
    requires !IsGzip(up.header)
    ensures ResponseBytes(up, g1) == ResponseBytes(up, g2) == ReadAll(up.body).0
  {
  }

  /** The header filter: every upstream key except `Content-Encoding` is
      set on `dst` with its whole value list, replacing what was there, in
      an order the model leaves open (Go's map order). `Content-Encoding`
      is skipped whether or not the body was decoded. */
  method CopyExceptEncoding(dst: HeaderMap, src: Header)
    modifies dst
    ensures forall k :: k in dst.m <==> k in old(dst.m) || (k in src && k != ContentEncoding)
    ensures forall k :: k in dst.m ==>
      dst.m[k] == if k in src && k != ContentEncoding then src[k] else old(dst.m)[k]
    ensures Values(dst.m, ContentEncoding) == Values(old(dst.m), ContentEncoding)
  {
    var todo := src.Keys;
    ghost var done: set<string> := {};
    while todo != {}
      invariant todo + done == src.Keys && todo !! done
      invariant forall k :: k in dst.m <==> k in old(dst.m) || (k in done && k != ContentEncoding)
      invariant forall k :: k in dst.m ==>
        dst.m[k] == if k in done && k != ContentEncoding then src[k] else old(dst.m)[k]
      decreases todo
    {
      var key :| key in todo;
      if key != ContentEncoding {
        dst.Put(key, src[key]);
      }
      todo := todo - {key};
      done := done + {key};
    }
  }

  /** `handleRequestAndRedirect`. `newRequestOk` is whether
      `http.NewRequest` accepts the method and URL; `roundTrip` is the
      client's `Do`. Returns the request sent upstream, if one was built. */
  method Handle(res: ResponseWriter, req: Request, newRequestOk: bool,
                roundTrip: Outbound -> Option<Upstream>, gunzip: Gunzip)
    returns (sent: Option<Outbound>)
    requires res.header != req.header
    modifies req`body, res`status, res`body, res.header
    ensures req.body == Restored(old(req.body))
    ensures newRequestOk <==> sent.Some?
    ensures sent.Some? ==> sent.value == Outbound(req.verb, req.url, req.header.m, req.body)
    ensures req.header.m == old(req.header.m)
    ensures sent.None? || roundTrip(sent.value).None? ==>
      && res.header.m == old(res.header.m)
      && res.status == (if old(res.status).None? then Some(500) else old(res.status))
      && res.body == old(res.body) + "Server Error" + "\n"
    ensures sent.Some? && roundTrip(sent.value).Some? ==>
      var up := roundTrip(sent.value).value;
      && (forall k :: k in res.header.m <==> k in old(res.header.m) || (k in up.header && k != ContentEncoding))
      && (forall k :: k in res.header.m ==>
            res.header.m[k] == if k in up.header && k != ContentEncoding then up.header[k] else old(res.header.m)[k])
      && Values(res.header.m, ContentEncoding) == Values(old(res.header.m), ContentEncoding)
      && res.status == (if old(res.status).None? then Some(up.status) else old(res.status))
      && res.body == old(res.body) + ResponseBytes(up, gunzip)
  {
    RestoreBody(req);
    if !newRequestOk {
      res.Error("Server Error", 500);
      return None;
    }
    var outReq := Outbound(req.verb, req.url, req.header.m, req.body);
    sent := Some(outReq);
    var resp := roundTrip(outReq);
    if resp.None? {
      res.Error("Server Error", 500);
      return;
    }
    var up := resp.value;
    var respBody: Body;
    if FirstValue(up.header, ContentEncoding) == "gzip" {
      match gunzip(up.body) {
        case BadHeader(rest) =>
          respBody := Stream(ReadAll(rest).0, None);
        case Inflated(out) =>
          respBody := Stream(ReadAll(out).0, None);
      }
    } else {
      respBody := Stream(ReadAll(up.body).0, None);
    }
    CopyExceptEncoding(res.header, up.header);
    res.WriteHeader(up.status);
    res.Write(ReadAll(respBody).0);
  }
}

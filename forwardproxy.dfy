/** The forward proxy: plain requests are relayed through an HTTP client,
    CONNECT requests (section 9.3.6 of RFC 9110) become a raw tunnel between
    the hijacked client connection and a freshly dialed target. The HTTP
    client, hijacking and dialing are outcomes the caller supplies; the two
    tunnel copies are recorded only as started. */
module ForwardProxy {
  import opened Common
  import opened Sockets
  import opened HttpModel

  /** The acknowledgment written to the client once the target answers. */
  const Established: string := "HTTP/1.1 200 Connection Established\r\n\r\n"

  /** The request as the server hands it to the handler. */
  datatype Inbound = Inbound(verb: string, url: string, host: string, header: Header, body: string)

  /** The request the relay sends upstream. */
  datatype Outbound = Outbound(verb: string, url: string, header: Header, body: string)

  /** What the upstream server answered; `body` is what `io.Copy` moves. */
  datatype Upstream = Upstream(status: int, header: Header, body: string)

  datatype Route = Tunnel | Relay

  /** `ServeHTTP`'s branch: CONNECT opens a tunnel, any other method is relayed. */
  function RouteOf(verb: string): (r: Route)
    ensures r == Tunnel <==> verb == "CONNECT"
    ensures r == Relay <==> verb != "CONNECT"
  {
    if verb == "CONNECT" then Tunnel else Relay
  }

  /** A header holding exactly the non-empty value lists of `src`, as
      `Header.Add` rebuilds them into an empty map. */
  ghost predicate CopiedFrom(h: Header, src: Header) {
    && (forall k :: k in h <==> k in src && src[k] != [])
    && (forall k :: k in h ==> h[k] == src[k])
  }

  /** `handleHTTP`. `newRequestErr` is the error `http.NewRequest` reports,
      if any; `roundTrip` is the client's `Do`. Returns the request sent
      upstream, if one was built. */
  method HandleHTTP(w: ResponseWriter, r: Inbound, newRequestErr: Option<string>,
                    roundTrip: Outbound -> Result<Upstream, string>)
    returns (sent: Option<Outbound>)
    modifies w`status, w`body, w.header
    ensures newRequestErr.Some? ==> sent == None
    ensures newRequestErr.None? ==>
      sent.Some? && sent.value.verb == r.verb && sent.value.url == r.url &&
      sent.value.body == r.body && CopiedFrom(sent.value.header, r.header)
    ensures sent == None || roundTrip(sent.value).Err? ==> w.header.m == old(w.header.m)
    ensures sent == None ==>
      w.status == (if old(w.status).None? then Some(502) else old(w.status)) &&
      w.body == old(w.body) + "创建请求失败: " + newRequestErr.value + "\n"
    ensures sent.Some? && roundTrip(sent.value).Err? ==>
      w.status == (if old(w.status).None? then Some(502) else old(w.status)) &&
      w.body == old(w.body) + "请求失败: " + roundTrip(sent.value).error + "\n"
    ensures sent.Some? && roundTrip(sent.value).Ok? ==>
      var up := roundTrip(sent.value).value;
      && (forall k :: k in w.header.m <==> k in old(w.header.m) || (k in up.header && up.header[k] != []))
      && (forall k :: k in w.header.m ==> w.header.m[k] == Values(old(w.header.m), k) + Values(up.header, k))
      && w.status == (if old(w.status).None? then Some(up.status) else old(w.status))
      && w.body == old(w.body) + up.body
  {
    if newRequestErr.Some? {
      w.Error("创建请求失败: " + newRequestErr.value, 502);
      return None;
    }
    var outHeader := new HeaderMap(map[]);
    AddAll(outHeader, r.header);
    var req := Outbound(r.verb, r.url, outHeader.m, r.body);
    sent := Some(req);
    var resp := roundTrip(req);
    if resp.Err? {
      w.Error("请求失败: " + resp.error, 502);
      return;
    }
    AddAll(w.header, resp.value.header);
    w.WriteHeader(resp.value.status);
    w.Write(resp.value.body);
  }

  /** How the writer answered the hijack attempt. */
  datatype Hijack = NotHijacker | HijackFailed(err: string) | Hijacked

  datatype TunnelOutcome =
    | Refused(code: int)
    | TargetUnreachable(client: ConnId)
    | Opened(client: ConnId, target: ConnId)

  /** The socket events of a tunnel after the hijack: a failed dial closes
      the client, a successful one is followed by the attempt to write the
      acknowledgment and then by one copy in each direction. */
  function TunnelEvents(host: string, client: ConnId, target: ConnId, dialOk: bool, writeOk: bool): (es: seq<Event>)
    ensures |es| >= 1
    ensures !dialOk ==> es == [Closed(client)]
    ensures dialOk ==> es[0] == Dialed(host, target)
  {
    if !dialOk then [Closed(client)]
    else
      [Dialed(host, target), WriteEvent(client, Established, writeOk)] +
      [CopyStarted(target, client), CopyStarted(client, target)]
  }

  /** The order of a tunnel's events: the only write attempted is the
      exact acknowledgment to the client, it goes through exactly when the
      dial and the write succeed, and it precedes both copies; one copy runs
      each way, and nothing is written and no copy starts unless the dial
      succeeded. */
  lemma TunnelEventsOrdered(host: string, client: ConnId, target: ConnId, dialOk: bool, writeOk: bool)
    ensures var es := TunnelEvents(host, client, target, dialOk, writeOk);
      && (dialOk ==> CopyStarted(target, client) in es && CopyStarted(client, target) in es)
      && (forall i :: 0 <= i < |es| && (es[i].Wrote? || es[i].WriteFailed?) ==>
            es[i] == WriteEvent(client, Established, writeOk))
      && (forall i, j :: 0 <= i < |es| && 0 <= j < |es| && (es[i].Wrote? || es[i].WriteFailed?) && es[j].CopyStarted? ==> i < j)
      && ((exists i :: 0 <= i < |es| && (es[i].Wrote? || es[i].WriteFailed? || es[i].CopyStarted?)) ==> dialOk)
      && (writeOk && dialOk <==> Wrote(client, Established) in es)
  {
  }

  /** The steps of `handleHTTPS` after a successful hijack: adopt the
      client connection, dial `host`, and either close the client (dial
      failed) or acknowledge and start both copies. The result of the
      acknowledgment's write is ignored. */
  method OpenTunnel(net: Network, host: string, dialOk: bool, writeOk: bool) returns (outcome: TunnelOutcome)
    requires net.Valid()
    modifies net
    ensures net.Valid()
    ensures net.nextId == old(net.nextId) + (if dialOk then 2 else 1)
    ensures net.log == old(net.log) + TunnelEvents(host, old(net.nextId), old(net.nextId) + 1, dialOk, writeOk)
    ensures !dialOk ==> outcome == TargetUnreachable(old(net.nextId)) && net.open == old(net.open)
    ensures dialOk ==>
      outcome == Opened(old(net.nextId), old(net.nextId) + 1) &&
      net.open == old(net.open) + {old(net.nextId), old(net.nextId) + 1}
  {
    var client := net.Adopt();
    var target := net.Dial(host, dialOk);
    if target.None? {
      net.Close(client);
      return TargetUnreachable(client);
    }
    var _ := net.Write(client, Established, writeOk);
    net.StartCopy(target.value, client);
    net.StartCopy(client, target.value);
    outcome := Opened(client, target.value);
  }

  /** `handleHTTPS`: each step that fails ends the handler, 500 for a
      writer that cannot be hijacked and 503 for a failed hijack, both
      before any socket is touched; once hijacked, the writer is no longer
      used. */
  method HandleHTTPS(w: ResponseWriter, r: Inbound, net: Network, hijack: Hijack, dialOk: bool, writeOk: bool)
    returns (outcome: TunnelOutcome)
    requires net.Valid()
    modifies w`status, w`body, net
    ensures net.Valid()
    ensures hijack.NotHijacker? ==>
      outcome == Refused(500) &&
      w.status == (if old(w.status).None? then Some(500) else old(w.status)) &&
      w.body == old(w.body) + "不支持的代理方式" + "\n"
    ensures hijack.HijackFailed? ==>
      outcome == Refused(503) &&
      w.status == (if old(w.status).None? then Some(503) else old(w.status)) &&
      w.body == old(w.body) + "连接劫持失败: " + hijack.err + "\n"
    ensures !hijack.Hijacked? ==> net.open == old(net.open) && net.nextId == old(net.nextId) && net.log == old(net.log)
    ensures hijack.Hijacked? ==> w.status == old(w.status) && w.body == old(w.body)
    ensures hijack.Hijacked? ==>
      net.log == old(net.log) + TunnelEvents(r.host, old(net.nextId), old(net.nextId) + 1, dialOk, writeOk)
    ensures hijack.Hijacked? && !dialOk ==>
      outcome == TargetUnreachable(old(net.nextId)) && net.open == old(net.open)
    ensures hijack.Hijacked? && dialOk ==>
      outcome == Opened(old(net.nextId), old(net.nextId) + 1) &&
      net.open == old(net.open) + {old(net.nextId), old(net.nextId) + 1}
  {
    if hijack.NotHijacker? {
      w.Error("不支持的代理方式", 500);
      return Refused(500);
    }
    if hijack.HijackFailed? {
      w.Error("连接劫持失败: " + hijack.err, 503);
      return Refused(503);
    }
    outcome := OpenTunnel(net, r.host, dialOk, writeOk);
  }

  /** `transfer`, once its copy has ended: the source is closed, then the
      destination (deferred calls run last first). */
  method Transfer(net: Network, dst: ConnId, src: ConnId)
    requires net.Valid()
    modifies net`open, net`log
    ensures net.Valid()
    ensures net.open == old(net.open) - {dst, src}
    ensures net.log == old(net.log) + [Closed(src), Closed(dst)]
  {
    net.Close(src);
    net.Close(dst);
  }

  /** `ServeHTTP`: the method alone picks the handler, the chosen handler
      runs with the outcomes stated for it, and each handler touches only
      its own side (the relay no socket, the tunnel no header). Returns the
      route taken and, for a relay, the request sent upstream. */
  method ServeHTTP(w: ResponseWriter, r: Inbound, net: Network,
                   newRequestErr: Option<string>, roundTrip: Outbound -> Result<Upstream, string>,
                   hijack: Hijack, dialOk: bool, writeOk: bool)
    returns (route: Route, sent: Option<Outbound>)
    requires net.Valid()
    modifies w`status, w`body, w.header, net
    ensures net.Valid()
    ensures route == RouteOf(r.verb)
    ensures route == Tunnel ==> sent == None
    // The tunnel.
    ensures route == Tunnel ==> w.header.m == old(w.header.m)
    ensures route == Tunnel && hijack.NotHijacker? ==>
      w.status == (if old(w.status).None? then Some(500) else old(w.status)) &&
      w.body == old(w.body) + "不支持的代理方式" + "\n"
    ensures route == Tunnel && hijack.HijackFailed? ==>
      w.status == (if old(w.status).None? then Some(503) else old(w.status)) &&
      w.body == old(w.body) + "连接劫持失败: " + hijack.err + "\n"
    ensures route == Tunnel && !hijack.Hijacked? ==>
      net.open == old(net.open) && net.nextId == old(net.nextId) && net.log == old(net.log)
    ensures route == Tunnel && hijack.Hijacked? ==>
      && w.status == old(w.status) && w.body == old(w.body)
      && net.log == old(net.log) + TunnelEvents(r.host, old(net.nextId), old(net.nextId) + 1, dialOk, writeOk)
      && net.open == old(net.open) + (if dialOk then {old(net.nextId), old(net.nextId) + 1} else {})
    // The relay.
    ensures route == Relay ==> net.open == old(net.open) && net.nextId == old(net.nextId) && net.log == old(net.log)
    ensures route == Relay && newRequestErr.Some? ==>
      sent == None && w.header.m == old(w.header.m) &&
      w.status == (if old(w.status).None? then Some(502) else old(w.status)) &&
      w.body == old(w.body) + "创建请求失败: " + newRequestErr.value + "\n"
    ensures route == Relay && newRequestErr.None? ==>
      sent.Some? && sent.value.verb == r.verb && sent.value.url == r.url &&
      sent.value.body == r.body && CopiedFrom(sent.value.header, r.header)
    ensures route == Relay && sent.Some? && roundTrip(sent.value).Err? ==>
      w.header.m == old(w.header.m) &&
      w.status == (if old(w.status).None? then Some(502) else old(w.status)) &&
      w.body == old(w.body) + "请求失败: " + roundTrip(sent.value).error + "\n"
    ensures route == Relay && sent.Some? && roundTrip(sent.value).Ok? ==>
      var up := roundTrip(sent.value).value;
      && (forall k :: k in w.header.m <==> k in old(w.header.m) || (k in up.header && up.header[k] != []))
      && (forall k :: k in w.header.m ==> w.header.m[k] == Values(old(w.header.m), k) + Values(up.header, k))
      && w.status == (if old(w.status).None? then Some(up.status) else old(w.status))
      && w.body == old(w.body) + up.body
  {
    if r.verb == "CONNECT" {
      var _ := HandleHTTPS(w, r, net, hijack, dialOk, writeOk);
      route, sent := Tunnel, None;
    } else {
      sent := HandleHTTP(w, r, newRequestErr, roundTrip);
      route := Relay;
    }
  }
}

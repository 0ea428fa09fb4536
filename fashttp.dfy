/** The single-connection server (GoProject_Fashttp/src/main.go): `/open`
    dials one connection to the `host:port` named in the request body and
    stores it under that key, `/send` frames a POST for the stored
    connection, writes it, reads until the peer closes and answers with the
    body of the response read. */
module Fashttp {
  import opened Common
  import opened Framing
  import opened Sockets

  // ---------------------------------------------------------------------
  // The request assembler

  /** `assembleHTTPRequest`: the request line with `?` and the parameters
      after the path, a Host and a Content-Length field, an empty line and
      the body. */
  function AssembleHTTPRequest(verb: string, host: string, path: string, params: string, body: string): string {
    var requestLine := verb + " " + path + "?" + params + " HTTP/1.1\r\n";
    var headers := "Host: " + host + "\r\nContent-Length: " + Dec(|body|) + "\r\n\r\n";
    requestLine + headers + body
  }

  /** The two fields the assembler writes. */
  function AssembledFields(host: string, body: string): seq<Field> {
    [Field("Host", host), Field("Content-Length", Dec(|body|))]
  }

  /** The request target always carries the `?`, even with no parameters. */
  function RequestTarget(path: string, params: string): string {
    path + "?" + params
  }

  lemma AssemblerLiterals()
    ensures " HTTP/1.1\r\n" == " HTTP/1.1" + CRLF
    ensures "\r\nContent-Length: " == CRLF + "Content-Length: "
    ensures "\r\n\r\n" == CRLF + CRLF
  {
  }

  /** The regrouping behind `AssembleLayout`, over opaque pieces. */
  lemma RegroupAssembled(x: string, a: string, c: string, h: string, host: string, k: string, d: string, body: string)
    ensures (x + a + c) + (h + host + (c + k) + d + (c + c)) + body
         == (x + a) + c + ((h + host) + c + ((k + d) + c + "")) + c + body
  {
  }

  /** The assembled request is the serialization of the message with the
      request line `method path?params HTTP/1.1`, the Host and
      Content-Length fields and the body. */
  lemma AssembleLayout(verb: string, host: string, path: string, params: string, body: string)
    ensures AssembleHTTPRequest(verb, host, path, params, body)
         == Serialize(Message(verb + " " + RequestTarget(path, params) + " HTTP/1.1", AssembledFields(host, body), body))
  {
    var d := Dec(|body|);
    AssemblerLiterals();
    NamedLines(host, d);
    FieldLinesOfTwo(Field("Host", host), Field("Content-Length", d));
    var x := verb + " " + path + "?" + params;
    assert x == verb + " " + RequestTarget(path, params);
    RegroupAssembled(x, " HTTP/1.1", CRLF, "Host: ", host, "Content-Length: ", d, body);
  }

  lemma AssembledFieldsPlain(host: string, body: string)
    requires '\r' !in host
    ensures forall i :: 0 <= i < |AssembledFields(host, body)| ==> PlainField(AssembledFields(host, body)[i])
  {
    DecIsPlain(|body|);
    NamedFieldsPlain(host, Dec(|body|));
  }

  /** When no part holds a carriage return, a reader of HTTP/1.1 messages
      gets back the request line, the Host and Content-Length fields and
      the body, and the text after the first CRLF CRLF is exactly the
      body. */
  lemma AssembleParses(verb: string, host: string, path: string, params: string, body: string)
    requires '\r' !in verb && '\r' !in host && '\r' !in path && '\r' !in params
    ensures Parse(AssembleHTTPRequest(verb, host, path, params, body))
         == Some(Message(verb + " " + RequestTarget(path, params) + " HTTP/1.1", AssembledFields(host, body), body))
    ensures BodyAfterHeaders(AssembleHTTPRequest(verb, host, path, params, body)) == Some(body)
  {
    var m := Message(verb + " " + RequestTarget(path, params) + " HTTP/1.1", AssembledFields(host, body), body);
    AssembleLayout(verb, host, path, params, body);
    StartLinePlain(verb, path, params);
    AssembledFieldsPlain(host, body);
    ParseSerialize(m);
    BodyAfterSerialize(m);
  }

  lemma StartLinePlain(verb: string, path: string, params: string)
    requires '\r' !in verb && '\r' !in path && '\r' !in params
    ensures '\r' !in verb + " " + RequestTarget(path, params) + " HTTP/1.1"
  {
  }

  /** The Content-Length field the assembler writes reads back as the
      body's length. */
  lemma AssembledLength(host: string, body: string)
    ensures FieldValue(AssembledFields(host, body), "Content-Length") == Some(Dec(|body|))
    ensures ParseDec(Dec(|body|)) == |body|
  {
    ParseDecDec(|body|);
    var fs := AssembledFields(host, body);
    assert "Host" != "Content-Length" by {
      assert |"Host"| != |"Content-Length"|;
    }
    assert fs[1..] == [Field("Content-Length", Dec(|body|))];
  }

  // ---------------------------------------------------------------------
  // The host key

  /** The parts of a parsed URL `parseURLStr` chunks: `Hostname()`,
      `Port()`, `Path` and `RawQuery`. */
  datatype UrlParts = UrlParts(hostname: string, port: string, path: string, rawQuery: string)

  /** What `parseURLStr` returns: the `host:port` key, the path and the
      parameters. */
  datatype Target = Target(key: string, path: string, params: string)

  /** `parseURLStr`, on what `url.Parse` produced (its error text when it
      failed). The key joins host name and port with a colon, the port
      possibly empty; path and query pass through unchanged. */
  function ParseURLStr(parsed: Result<UrlParts, string>): (r: Result<Target, string>)
    ensures parsed.Err? ==> r == Err("failed to parse URL: " + parsed.error)
    ensures parsed.Ok? ==> r.Ok? && r.value.path == parsed.value.path && r.value.params == parsed.value.rawQuery
    ensures parsed.Ok? ==> |r.value.key| == |parsed.value.hostname| + 1 + |parsed.value.port|
  {
    match parsed
    case Err(e) => Err("failed to parse URL: " + e)
    case Ok(u) => Ok(Target(u.hostname + ":" + u.port, u.path, u.rawQuery))
  }

  /** The index of the last colon of `s`, if any. */
  function LastColon(s: string): (r: Option<nat>)
    ensures r.Some? ==> r.value < |s| && s[r.value] == ':' && ':' !in s[r.value + 1..]
    ensures r.None? ==> ':' !in s
    decreases |s|
  {
    if s == [] then None
    else if s[|s| - 1] == ':' then Some(|s| - 1)
    else
      var r := LastColon(s[..|s| - 1]);
      assert forall i :: 0 <= i < |s| - 1 ==> s[..|s| - 1][i] == s[i];
      if r.Some? then
        assert s[r.value + 1..] == s[..|s| - 1][r.value + 1..] + [s[|s| - 1]];
        r
      else r
  }

  /** Splits a key at its last colon into host name and port. */
  function SplitKey(key: string): Option<(string, string)> {
    match LastColon(key)
    case None => None
    case Some(i) => Some((key[..i], key[i + 1..]))
  }

  lemma {:induction false} LastColonOf(a: string, b: string)
    requires ':' !in b
    ensures LastColon(a + ":" + b) == Some(|a|)
    decreases |b|
  {
    var s := a + ":" + b;
    if b != [] {
      assert s[|s| - 1] == b[|b| - 1];
      assert s[..|s| - 1] == a + ":" + b[..|b| - 1];
      LastColonOf(a, b[..|b| - 1]);
    } else {
      assert s[|s| - 1] == ':';
    }
  }

  /** The key can be read back: splitting it at its last colon returns the
      host name and the port, whenever the port holds no colon (a port is
      digits or empty; IPv6 host names keep their colons on the left). */
  lemma KeyRoundTrip(u: UrlParts)
    requires ':' !in u.port
    ensures SplitKey(ParseURLStr(Ok(u)).value.key) == Some((u.hostname, u.port))
  {
    var key := u.hostname + ":" + u.port;
    LastColonOf(u.hostname, u.port);
    assert key[..|u.hostname|] == u.hostname;
    assert key[|u.hostname| + 1..] == u.port;
  }

  /** `strings.TrimSpace` for ASCII white space. */
  predicate IsSpace(c: char) {
    c == ' ' || c == '\t' || c == '\n' || c == '\r' || c == '\U{000B}' || c == '\U{000C}'
  }

  function TrimLeft(s: string): (r: string)
    ensures |r| <= |s| && r == s[|s| - |r|..]
    ensures r == [] || !IsSpace(r[0])
    decreases |s|
  {
    if s != [] && IsSpace(s[0]) then TrimLeft(s[1..]) else s
  }

  function TrimRight(s: string): (r: string)
    ensures |r| <= |s| && r == s[..|r|]
    ensures r == [] || !IsSpace(r[|r| - 1])
    decreases |s|
  {
    if s != [] && IsSpace(s[|s| - 1]) then TrimRight(s[..|s| - 1]) else s
  }

  /** Everything `TrimLeft` drops is white space. */
  lemma {:induction false} TrimLeftDropsSpace(s: string)
    ensures forall i :: 0 <= i < |s| - |TrimLeft(s)| ==> IsSpace(s[i])
    decreases |s|
  {
    if s != [] && IsSpace(s[0]) {
      TrimLeftDropsSpace(s[1..]);
      forall i | 1 <= i < |s| - |TrimLeft(s)|
        ensures IsSpace(s[i])
      {
        assert s[i] == s[1..][i - 1];
      }
    }
  }

  /** Everything `TrimRight` drops is white space. */
  lemma {:induction false} TrimRightDropsSpace(s: string)
    ensures forall i :: |TrimRight(s)| <= i < |s| ==> IsSpace(s[i])
    decreases |s|
  {
    if s != [] && IsSpace(s[|s| - 1]) {
      TrimRightDropsSpace(s[..|s| - 1]);
      forall i | |TrimRight(s)| <= i < |s| - 1
        ensures IsSpace(s[i])
      {
        assert s[i] == s[..|s| - 1][i];
      }
    }
  }

  function TrimSpace(s: string): string {
    TrimRight(TrimLeft(s))
  }

  /** Trimming keeps a contiguous part of the input. */
  lemma TrimSpaceSlice(s: string)
    ensures var t, lo := TrimSpace(s), |s| - |TrimLeft(s)|;
      lo + |t| <= |s| && t == s[lo..lo + |t|]
  {
    var l := TrimLeft(s);
    PrefixOfSuffix(s, l, TrimRight(l), |s| - |l|);
  }

  lemma PrefixOfSuffix(s: string, l: string, t: string, lo: nat)
    requires lo <= |s| && l == s[lo..] && |t| <= |l| && t == l[..|t|]
    ensures lo + |t| <= |s| && t == s[lo..lo + |t|]
  {
    assert s[lo..][..|t|] == s[lo..lo + |t|];
  }

  /** What trimming drops before and after the part it keeps is white
      space. */
  lemma TrimSpaceDropsSpace(s: string)
    ensures var t, lo := TrimSpace(s), |s| - |TrimLeft(s)|;
      && (forall i :: 0 <= i < lo ==> IsSpace(s[i]))
      && (forall i :: lo + |t| <= i < |s| ==> IsSpace(s[i]))
  {
    var l := TrimLeft(s);
    var t := TrimRight(l);
    var lo := |s| - |l|;
    TrimLeftDropsSpace(s);
    TrimRightDropsSpace(l);
    SpaceAfter(s, l, |t|, lo);
  }

  /** White space at the tail of a suffix is white space in the whole. */
  lemma SpaceAfter(s: string, l: string, k: nat, lo: nat)
    requires lo <= |s| && l == s[lo..] && k <= |l|
    requires forall j :: k <= j < |l| ==> IsSpace(l[j])
    ensures forall i :: lo + k <= i < |s| ==> IsSpace(s[i])
  {
    forall i | lo + k <= i < |s|
      ensures IsSpace(s[i])
    {
      assert s[i] == l[i - lo];
    }
  }

  /** A trimmed string neither starts nor ends with white space. */
  lemma TrimSpaceEnds(s: string)
    ensures TrimSpace(s) == [] || (!IsSpace(TrimSpace(s)[0]) && !IsSpace(TrimSpace(s)[|TrimSpace(s)| - 1]))
  {
    var l := TrimLeft(s);
    var t := TrimRight(l);
    if t != [] {
      assert t[0] == l[0];
    }
  }

  /** Trimming a trimmed string changes nothing. */
  lemma TrimSpaceIdempotent(s: string)
    ensures TrimSpace(TrimSpace(s)) == TrimSpace(s)
  {
    var t := TrimSpace(s);
    var l := TrimLeft(s);
    if t != [] {
      assert t[0] == l[0];
      assert TrimLeft(t) == t;
    }
  }

  // ---------------------------------------------------------------------
  // Reading the response

  datatype ReadErr = NoErr | Eof | Failed(msg: string)

  /** One `conn.Read`: the bytes it returned and the error beside them. */
  datatype ReadResult = ReadResult(data: string, err: ReadErr)

  /** Where the read loop stops: the first read with an error, or the
      number of chunks when none has one. */
  function StopIndex(chunks: seq<ReadResult>): (k: nat)
    ensures k <= |chunks|
    ensures forall j :: 0 <= j < k ==> chunks[j].err == NoErr
    ensures k < |chunks| ==> chunks[k].err != NoErr
    decreases |chunks|
  {
    if chunks == [] || chunks[0].err != NoErr then 0 else 1 + StopIndex(chunks[1..])
  }

  /** The bytes of the first `k` chunks, in order. */
  function Concat(chunks: seq<ReadResult>, k: nat): string
    requires k <= |chunks|
    decreases k
  {
    if k == 0 then "" else Concat(chunks, k - 1) + chunks[k - 1].data
  }

  /** How the read loop ends: the peer closed the connection and the
      buffer holds everything read; a read failed; or every available read
      came back without an error, and the loop is still waiting. */
  datatype Gathered = Complete(buf: string) | ReadFailed(msg: string) | Waiting(buf: string)

  /** The read loop of `readFullResponse`: appends what every read
      returned, including the bytes of the read that reports the end; stops
      at the end of the stream with the buffer, or at the first other error
      with that error. */
  method ReadFullResponse(chunks: seq<ReadResult>) returns (r: Gathered)
    ensures var k := StopIndex(chunks);
      && (k < |chunks| && chunks[k].err == Eof ==> r == Complete(Concat(chunks, k + 1)))
      && (k < |chunks| && chunks[k].err.Failed? ==> r == ReadFailed(chunks[k].err.msg))
      && (k == |chunks| ==> r == Waiting(Concat(chunks, k)))
  {
    var buf := "";
    var i := 0;
    while i < |chunks|
      invariant 0 <= i <= |chunks|
      invariant i <= StopIndex(chunks)
      invariant buf == Concat(chunks, i)
    {
      var read := chunks[i];
      if |read.data| > 0 {
        buf := buf + read.data;
      } else {
        assert buf + read.data == buf;
      }
      if read.err != NoErr {
        if read.err == Eof {
          return Complete(buf);
        }
        return ReadFailed(read.err.msg);
      }
      i := i + 1;
    }
    r := Waiting(buf);
  }

  /** The buffer of a completed read holds every read's bytes in order:
      each read's bytes stand right after those of the chunks before it. */
  lemma {:induction false} ConcatKeepsReads(chunks: seq<ReadResult>, k: nat, j: nat)
    requires j < k <= |chunks|
    ensures |Concat(chunks, j)| + |chunks[j].data| <= |Concat(chunks, k)|
    ensures Concat(chunks, k)[|Concat(chunks, j)|..|Concat(chunks, j)| + |chunks[j].data|] == chunks[j].data
    decreases k
  {
    if j < k - 1 {
      ConcatKeepsReads(chunks, k - 1, j);
      var p := Concat(chunks, k - 1);
      var lo, hi := |Concat(chunks, j)|, |Concat(chunks, j)| + |chunks[j].data|;
      assert Concat(chunks, k) == p + chunks[k - 1].data;
      assert Concat(chunks, k)[lo..hi] == p[lo..hi];
    } else {
      assert Concat(chunks, k) == Concat(chunks, j) + chunks[j].data;
    }
  }

  // ---------------------------------------------------------------------
  // The registry and the handlers

  /** What the handler answers: a status and a body (`ctx.Error` and
      `SetBody` both set the body), or nothing while it waits for the peer. */
  datatype Answer = Answer(status: int, body: string) | NoAnswer

  /** The process-wide map from `host:port` to one connection. */
  class Registry {
    var conns: map<string, ConnId>

    /** Every stored connection is open and no connection is stored under
        two keys. */
    ghost predicate Valid(net: Network)
      reads this, net
    {
      Stored(conns, net.open)
    }

    constructor ()
      ensures conns == map[]
      ensures forall net: Network :: Valid(net)
    {
      conns := map[];
    }
  }

  ghost predicate Stored(conns: map<string, ConnId>, open: set<ConnId>) {
    && conns.Values <= open
    && (forall k1, k2 :: k1 in conns && k2 in conns && k1 != k2 ==> conns[k1] != conns[k2])
  }

  /** The open connections the registry no longer names. */
  ghost function Leaked(conns: map<string, ConnId>, open: set<ConnId>): set<ConnId> {
    open - conns.Values
  }

  /** `handleOpenConnection`: POST only (405); the body, trimmed, must
      parse (400 with the parse error); a failed dial is a 500. Otherwise
      the connection is stored under the key, replacing any earlier one
      without closing it, and no other key changes. */
  method Open(reg: Registry, net: Network, httpMethod: string, postBody: string,
              parse: string -> Result<UrlParts, string>, dialOk: bool)
    returns (answer: Answer)
    requires net.Valid() && reg.Valid(net)
    modifies reg, net
    ensures net.Valid() && reg.Valid(net)
    ensures old(net.open) <= net.open
    ensures httpMethod != "POST" ==>
      && answer == Answer(405, "只允许POST方法") && reg.conns == old(reg.conns)
      && net.open == old(net.open) && net.nextId == old(net.nextId) && net.log == old(net.log)
    ensures httpMethod == "POST" ==>
      var target := ParseURLStr(parse(TrimSpace(postBody)));
      && (target.Err? ==>
            && answer == Answer(400, target.error) && reg.conns == old(reg.conns)
            && net.open == old(net.open) && net.nextId == old(net.nextId) && net.log == old(net.log))
      && (target.Ok? && !dialOk ==>
            && answer == Answer(500, "无法建立TCP连接") && reg.conns == old(reg.conns)
            && net.open == old(net.open) && net.nextId == old(net.nextId) && net.log == old(net.log))
      && (target.Ok? && dialOk ==>
            && answer == Answer(200, "TCP连接已建立")
            && reg.conns == old(reg.conns)[target.value.key := old(net.nextId)]
            && net.open == old(net.open) + {old(net.nextId)}
            && net.nextId == old(net.nextId) + 1
            && net.log == old(net.log) + [Dialed(target.value.key, old(net.nextId))]
            && (target.value.key !in old(reg.conns) ==>
                  Leaked(reg.conns, net.open) == Leaked(old(reg.conns), old(net.open)))
            && (target.value.key in old(reg.conns) ==>
                  var displaced := old(reg.conns)[target.value.key];
                  && displaced in net.open && displaced !in reg.conns.Values
                  && Leaked(reg.conns, net.open) == Leaked(old(reg.conns), old(net.open)) + {displaced}))
  {
    if httpMethod != "POST" {
      return Answer(405, "只允许POST方法");
    }
    var target := ParseURLStr(parse(TrimSpace(postBody)));
    if target.Err? {
      return Answer(400, target.error);
    }
    var host := target.value.key;
    var conn := net.Dial(host, dialOk);
    if conn.None? {
      return Answer(500, "无法建立TCP连接");
    }
    OverwriteLeaks(reg.conns, old(net.open), host, conn.value);
    reg.conns := reg.conns[host := conn.value];
    answer := Answer(200, "TCP连接已建立");
  }

  /** Storing a freshly dialed connection keeps the registry invariant. A
      key that was free leaks nothing; a key that was taken leaks exactly
      the connection it named, which stays open while nothing names it. */
  lemma OverwriteLeaks(conns: map<string, ConnId>, open: set<ConnId>, key: string, c: ConnId)
    requires Stored(conns, open) && c !in open
    ensures Stored(conns[key := c], open + {c})
    ensures key !in conns ==> Leaked(conns[key := c], open + {c}) == Leaked(conns, open)
    ensures key in conns ==>
      && conns[key] in open + {c}
      && conns[key] !in conns[key := c].Values
      && Leaked(conns[key := c], open + {c}) == Leaked(conns, open) + {conns[key]}
  {
    var conns' := conns[key := c];
    if key in conns {
      assert conns'.Values == conns.Values - {conns[key]} + {c} by {
        forall v | v in conns'.Values
          ensures v in conns.Values - {conns[key]} + {c}
        {
          var k :| k in conns' && conns'[k] == v;
        }
        forall v | v in conns.Values - {conns[key]} + {c}
          ensures v in conns'.Values
        {
          if v != c {
            var k :| k in conns && conns[k] == v;
            assert k != key && conns'[k] == v;
          } else {
            assert conns'[key] == c;
          }
        }
      }
    } else {
      assert conns'.Values == conns.Values + {c} by {
        forall v | v in conns'.Values
          ensures v in conns.Values + {c}
        {
          var k :| k in conns' && conns'[k] == v;
          if k != key {
            assert conns[k] == v;
          }
        }
        forall v | v in conns.Values + {c}
          ensures v in conns'.Values
        {
          if v != c {
            var k :| k in conns && conns[k] == v;
            assert conns'[k] == v;
          } else {
            assert conns'[key] == c;
          }
        }
      }
    }
  }

  /** What `http.ReadResponse` and `io.ReadAll` make of a completed buffer:
      none when the response does not parse, otherwise the body read or
      its error. */
  type ResponseReader = string -> Option<Result<string, string>>

  /** `handleSendRequest`: POST only (405); the `targetURL` query argument
      must parse (400 with the parse error); its key must name a stored
      connection (400). Then a POST with empty parameters and the request
      body is framed for that key and written (500 on failure), the
      response is read to the end of the stream (500 on a read or parse
      failure, no answer while the peer keeps it open) and its body becomes
      the answer with status 200. The registry does not change. */
  method Send(reg: Registry, net: Network, httpMethod: string, targetQuery: string, postBody: string,
              parse: string -> Result<UrlParts, string>, writeOk: bool, chunks: seq<ReadResult>,
              readResponse: ResponseReader)
    returns (answer: Answer)
    modifies net`log
    ensures httpMethod != "POST" ==> answer == Answer(405, "只允许POST方法") && net.log == old(net.log)
    ensures httpMethod == "POST" ==>
      var target := ParseURLStr(parse(targetQuery));
      && (target.Err? ==> answer == Answer(400, target.error) && net.log == old(net.log))
      && (target.Ok? && target.value.key !in reg.conns ==>
            answer == Answer(400, "未找到已建立的连接") && net.log == old(net.log))
      && (target.Ok? && target.value.key in reg.conns ==>
            var raw := AssembleHTTPRequest("POST", target.value.key, target.value.path, "", postBody);
            && net.log == old(net.log) + [WriteEvent(reg.conns[target.value.key], raw, writeOk)]
            && answer == SendAnswer(writeOk, chunks, readResponse))
  {
    if httpMethod != "POST" {
      return Answer(405, "只允许POST方法");
    }
    var target := ParseURLStr(parse(targetQuery));
    if target.Err? {
      return Answer(400, target.error);
    }
    var host, path := target.value.key, target.value.path;
    if host !in reg.conns {
      return Answer(400, "未找到已建立的连接");
    }
    var conn := reg.conns[host];
    var raw := AssembleHTTPRequest("POST", host, path, "", postBody);
    var written := net.Write(conn, raw, writeOk);
    if !written {
      return Answer(500, "发送请求失败");
    }
    var gathered := ReadFullResponse(chunks);
    if gathered.Waiting? {
      return NoAnswer;
    }
    if gathered.ReadFailed? {
      return Answer(500, "读取或解析HTTP响应失败");
    }
    var response := readResponse(gathered.buf);
    if response.None? {
      return Answer(500, "读取或解析HTTP响应失败");
    }
    if response.value.Err? {
      return Answer(500, "读取响应体失败");
    }
    answer := Answer(200, response.value.value);
  }

  /** The answer of a send after the lookup, from what the socket does. */
  function SendAnswer(writeOk: bool, chunks: seq<ReadResult>, readResponse: ResponseReader): (a: Answer)
    ensures !writeOk ==> a == Answer(500, "发送请求失败")
    ensures a.NoAnswer? <==> writeOk && StopIndex(chunks) == |chunks|
    ensures a.Answer? && a.status == 200 <==>
      && writeOk && StopIndex(chunks) < |chunks| && chunks[StopIndex(chunks)].err == Eof
      && readResponse(Concat(chunks, StopIndex(chunks) + 1)) == Some(Ok(a.body))
    ensures a.Answer? ==> a.status == 200 || a.status == 500
  {
    var k := StopIndex(chunks);
    if !writeOk then Answer(500, "发送请求失败")
    else if k == |chunks| then NoAnswer
    else if chunks[k].err.Failed? then Answer(500, "读取或解析HTTP响应失败")
    else match readResponse(Concat(chunks, k + 1))
      case None => Answer(500, "读取或解析HTTP响应失败")
      case Some(Err(_)) => Answer(500, "读取响应体失败")
      case Some(Ok(body)) => Answer(200, body)
  }
}

/** The pooled-dispatch server (GoProject_Nethttp/main.go): `/connect` opens
    a pool of connections to one `host:port` and installs it in a process-wide
    registry, `/send` frames one raw HTTP/1.1 request and sends it over
    several pool connections chosen round robin. The concurrent tasks of a
    send run here one after the other, in task-index order, each taking its
    connection from the rotation cursor in one step. */
module Nethttp {
  import opened Common
  import opened Framing
  import opened Sockets
  import opened HttpModel

  // ---------------------------------------------------------------------
  // Round-robin selection

  /** The connections to one host and the rotation cursor
      (`HostConnections`). */
  class HostConnections {
    var conns: seq<ConnId>
    var lastUsed: int

    /** The cursor indexes a slot whenever there is one. */
    ghost predicate Valid()
      reads this
    {
      0 <= lastUsed && (lastUsed < |conns| || lastUsed == 0)
    }

    constructor ()
      ensures Valid() && conns == [] && lastUsed == 0
    {
      conns := [];
      lastUsed := 0;
    }

    /** `getNextConnection`: advances the cursor one slot, wrapping at the
        end, and returns the connection in the slot reached. The slice is
        left as it was. */
    method GetNextConnection() returns (c: ConnId)
      requires Valid() && |conns| > 0
      modifies this`lastUsed
      ensures Valid()
      ensures lastUsed == Step(old(lastUsed), |conns|)
      ensures 0 <= lastUsed < |conns| && c == conns[lastUsed]
    {
      StepIsMod(lastUsed, |conns|);
      lastUsed := (lastUsed + 1) % |conns|;
      c := conns[lastUsed];
    }
  }

  /** One advance of the cursor over `n` slots: the next slot, or the
      first after the last. */
  function Step(cursor: int, n: nat): (r: int)
    requires 0 <= cursor < n
    ensures 0 <= r < n
  {
    if cursor + 1 == n then 0 else cursor + 1
  }

  /** The advance is the source's `(lastUsed + 1) % len`. */
  lemma StepIsMod(cursor: int, n: nat)
    requires 0 <= cursor < n
    ensures Step(cursor, n) == (cursor + 1) % n
  {
    ModSmall(cursor + 1, n);
  }

  /** The slots `k` consecutive selections return, starting from `cursor`. */
  function Selections(cursor: int, n: nat, k: nat): (s: seq<int>)
    requires 0 <= cursor < n
    ensures |s| == k && forall i :: 0 <= i < k ==> 0 <= s[i] < n
    decreases k
  {
    if k == 0 then [] else [Step(cursor, n)] + Selections(Step(cursor, n), n, k - 1)
  }

  lemma MulMono(a: int, b: int, n: nat)
    requires n > 0 && a > b
    ensures a * n >= b * n + n
  {
    MulNonneg(a - b - 1, n);
    assert (a - b - 1) * n == a * n - b * n - n;
  }

  lemma MulNonneg(a: int, b: int)
    requires a >= 0 && b >= 0
    ensures a * b >= 0
  {
  }

  /** Euclidean remainder is determined by any quotient-remainder split. */
  lemma ModUnique(x: int, n: nat, q: int, r: int)
    requires n > 0 && 0 <= r < n && x == q * n + r
    ensures x % n == r
  {
    var q0, r0 := x / n, x % n;
    assert x == q0 * n + r0;
    if q0 > q {
      MulMono(q0, q, n);
      assert false;
    } else if q0 < q {
      MulMono(q, q0, n);
      assert false;
    }
  }

  lemma ModAddN(x: int, n: nat)
    requires n > 0
    ensures (x + n) % n == x % n
  {
    var q := x / n;
    assert x == q * n + x % n;
    assert x + n == (q + 1) * n + x % n;
    ModUnique(x + n, n, q + 1, x % n);
  }

  lemma ModSmall(x: int, n: nat)
    requires n > 0 && 0 <= x < 2 * n
    ensures x % n == if x < n then x else x - n
  {
    if x >= n {
      ModUnique(x, n, 1, x - n);
    } else {
      ModUnique(x, n, 0, x);
    }
  }

  /** The `j`-th selection from `cursor` returns slot `cursor + j + 1`
      modulo `n`. */
  lemma {:induction false} SelectionsAt(cursor: int, n: nat, k: nat, j: nat)
    requires n > 0 && 0 <= cursor < n && j < k
    ensures Selections(cursor, n, k)[j] == (cursor + j + 1) % n
    decreases k
  {
    if j > 0 {
      var c1 := Step(cursor, n);
      SelectionsAt(c1, n, k - 1, j - 1);
      assert Selections(cursor, n, k)[j] == Selections(c1, n, k - 1)[j - 1];
      if cursor + 1 == n {
        ModAddN(j, n);
      }
    }
  }

  /** Selections that are fewer than the slots never repeat a slot. */
  lemma SelectionsDistinct(cursor: int, n: nat, k: nat, i: nat, j: nat)
    requires n > 0 && 0 <= cursor < n && k <= n && i < j < k
    ensures Selections(cursor, n, k)[i] != Selections(cursor, n, k)[j]
  {
    SelectionsAt(cursor, n, k, i);
    SelectionsAt(cursor, n, k, j);
    ModSmall(cursor + i + 1, n);
    ModSmall(cursor + j + 1, n);
  }

  lemma RoundRobinCovers(cursor: int, n: nat, slot: int)
    requires n > 0 && 0 <= cursor < n && 0 <= slot < n
    ensures slot in Selections(cursor, n, n)
  {
    var j := if slot > cursor then slot - cursor - 1 else slot - cursor - 1 + n;
    SelectionsAt(cursor, n, n, j);
    ModSmall(cursor + j + 1, n);
  }

  lemma RoundRobinRepeats(cursor: int, n: nat)
    requires n > 0 && 0 <= cursor < n
    ensures Selections(cursor, n, n + 1)[n] == Selections(cursor, n, n + 1)[0]
  {
    SelectionsAt(cursor, n, n + 1, 0);
    SelectionsAt(cursor, n, n + 1, n);
    ModAddN(cursor + 1, n);
  }

  /** Round robin is fair: from any cursor, `n` consecutive selections return
      every one of the `n` slots exactly once, and the next selection returns
      the same slot as the first. */
  lemma RoundRobin(cursor: int, n: nat)
    requires n > 0 && 0 <= cursor < n
    ensures forall i, j :: 0 <= i < j < n ==> Selections(cursor, n, n)[i] != Selections(cursor, n, n)[j]
    ensures forall slot :: 0 <= slot < n ==> slot in Selections(cursor, n, n)
    ensures Selections(cursor, n, n + 1)[n] == Selections(cursor, n, n + 1)[0]
  {
    forall i, j | 0 <= i < j < n
      ensures Selections(cursor, n, n)[i] != Selections(cursor, n, n)[j]
    {
      SelectionsDistinct(cursor, n, n, i, j);
    }
    forall slot | 0 <= slot < n
      ensures slot in Selections(cursor, n, n)
    {
      RoundRobinCovers(cursor, n, slot);
    }
    RoundRobinRepeats(cursor, n);
  }

  // ---------------------------------------------------------------------
  // The registry of pools

  /** The process-wide map from `host:port` to its pool (`connections`). */
  class Registry {
    var pools: map<string, HostConnections>

    constructor ()
      ensures pools == map[]
    {
      pools := map[];
    }

    /** Every pool's cursor is valid, and no two hosts share a pool
        object. */
    ghost predicate Valid()
      reads this, pools.Values
    {
      && (forall h :: h in pools ==> pools[h].Valid())
      && (forall h1, h2 :: h1 in pools && h2 in pools && h1 != h2 ==> pools[h1] != pools[h2])
    }
  }

  /** The registry and the sockets agree: every connection of an installed
      pool is open, and no connection belongs to two hosts' pools. */
  ghost predicate Owned(reg: Registry, net: Network)
    reads reg, reg.pools.Values, net
  {
    && (forall h, c :: h in reg.pools && c in reg.pools[h].conns ==> c in net.open)
    && (forall h1, h2, c :: h1 in reg.pools && h2 in reg.pools && h1 != h2 && c in reg.pools[h1].conns ==>
          c !in reg.pools[h2].conns)
  }

  /** `count <= 0` opens one connection. */
  function NormalizeCount(count: int): (n: nat)
    ensures n >= 1
    ensures count >= 1 ==> n == count
    ensures count <= 0 ==> n == 1
  {
    if count <= 0 then 1 else count
  }

  /** `k` consecutive connection ids from `lo`. */
  function IdRange(lo: nat, k: nat): (s: seq<ConnId>)
    ensures |s| == k && forall j :: 0 <= j < k ==> s[j] == lo + j
  {
    seq(k, j requires 0 <= j < k => lo + j)
  }

  /** The log of `k` successful dials to `host`, the first getting id `lo`. */
  function DialedEvents(host: string, lo: nat, k: nat): (es: seq<Event>)
    ensures |es| == k
    decreases k
  {
    if k == 0 then [] else DialedEvents(host, lo, k - 1) + [Dialed(host, lo + k - 1)]
  }

  lemma {:induction false} DialedEventsAt(host: string, lo: nat, k: nat, j: nat)
    requires j < k
    ensures DialedEvents(host, lo, k)[j] == Dialed(host, lo + j)
    decreases k
  {
    if j < k - 1 {
      DialedEventsAt(host, lo, k - 1, j);
    }
  }

  /** The log of the dial loop: one `Dialed` per attempt up to the first
      failure, then, if an attempt failed, one `Closed` for each connection
      it had opened, in order. */
  function DialPoolEvents(host: string, lo: nat, dialOk: nat -> bool, n: nat): seq<Event> {
    var f := FirstFailure(dialOk, n);
    DialedEvents(host, lo, f) + (if f < n then ClosedEvents(IdRange(lo, f)) else [])
  }

  /** The first of the attempts `0 .. n-1` that fails, `n` when none does. */
  function FirstFailure(dialOk: nat -> bool, n: nat): (i: nat)
    ensures i <= n
    ensures forall j :: 0 <= j < i ==> dialOk(j)
    ensures i < n ==> !dialOk(i)
    decreases n
  {
    if n == 0 then 0
    else if FirstFailure(dialOk, n - 1) < n - 1 then FirstFailure(dialOk, n - 1)
    else if dialOk(n - 1) then n else n - 1
  }

  /** The dials of the loop up to its first failed attempt: the pool of the
      connections opened, and the number `i` of attempts that went through. */
  method DialUntilFailure(net: Network, host: string, n: nat, dialOk: nat -> bool)
    returns (hc: HostConnections, i: nat)
    requires net.Valid()
    modifies net
    ensures net.Valid() && i == FirstFailure(dialOk, n)
    ensures fresh(hc) && hc.Valid() && hc.lastUsed == 0
    ensures hc.conns == IdRange(old(net.nextId), i)
    ensures net.nextId == old(net.nextId) + i
    ensures net.open == old(net.open) + (set c | c in hc.conns)
    ensures net.log == old(net.log) + DialedEvents(host, old(net.nextId), i)
  {
    var base := net.nextId;
    hc := new HostConnections();
    i := 0;
    while i < n
      invariant 0 <= i <= n
      invariant net.Valid() && net.nextId == base + i
      invariant hc.conns == IdRange(base, i) && hc.lastUsed == 0
      invariant net.open == old(net.open) + (set c | c in hc.conns)
      invariant net.log == old(net.log) + DialedEvents(host, base, i)
      invariant forall j :: 0 <= j < i ==> dialOk(j)
    {
      var c := net.Dial(host, dialOk(i));
      if c.None? {
        FirstFailureIs(dialOk, n, i);
        return;
      }
      assert IdRange(base, i + 1) == hc.conns + [c.value];
      hc.conns := hc.conns + [c.value];
      i := i + 1;
    }
    FirstFailureIs(dialOk, n, n);
  }

  /** The dial loop: dials `n` connections to `host`, attempt `i` succeeding
      when `dialOk(i)`. On the first failed attempt every connection opened
      so far is closed again and its number, counting from 1, is returned;
      otherwise the pool of the `n` new connections, cursor 0. */
  method DialPool(net: Network, host: string, n: nat, dialOk: nat -> bool)
    returns (r: Result<HostConnections, nat>)
    requires net.Valid()
    modifies net
    ensures net.Valid()
    ensures r.Ok? <==> FirstFailure(dialOk, n) == n
    ensures r.Err? ==> r.error == FirstFailure(dialOk, n) + 1 && net.open == old(net.open)
    ensures r.Ok? ==> fresh(r.value) && r.value.Valid() && r.value.lastUsed == 0
    ensures r.Ok? ==> r.value.conns == IdRange(old(net.nextId), n)
    ensures r.Ok? ==> net.open == old(net.open) + (set c | c in r.value.conns)
    ensures net.nextId == old(net.nextId) + FirstFailure(dialOk, n)
    ensures net.log == old(net.log) + DialPoolEvents(host, old(net.nextId), dialOk, n)
  {
    var base := net.nextId;
    var hc, i := DialUntilFailure(net, host, n, dialOk);
    if i < n {
      net.CloseAll(hc.conns);
      assert forall x :: x in old(net.open) ==> x < base;
      return Err(i + 1);
    }
    r := Ok(hc);
  }

  /** Installs `hc` as the pool of `host`: every connection of the pool it
      replaces is closed, and the other hosts keep their pools. */
  method Install(reg: Registry, net: Network, host: string, hc: HostConnections)
    requires reg.Valid() && net.Valid() && Owned(reg, net) && hc.Valid()
    requires hc !in reg.pools.Values
    requires forall c :: c in hc.conns ==> c in net.open
    requires forall h, c :: h in reg.pools && c in reg.pools[h].conns ==> c !in hc.conns
    modifies reg, net`open, net`log
    ensures reg.Valid() && net.Valid() && Owned(reg, net)
    ensures reg.pools == old(reg.pools)[host := hc]
    ensures net.open == old(net.open) - OldPool(old(reg.pools), host)
    ensures net.log == old(net.log) + OldPoolClosed(old(reg.pools), host)
  {
    if host in reg.pools {
      net.CloseAll(reg.pools[host].conns);
    }
    reg.pools := reg.pools[host := hc];
  }

  /** `/connect` once the host key is known: opens a pool of
      `NormalizeCount(count)` connections to `host`. On a failed attempt
      every connection opened in this call is closed again, the registry is
      left alone and the result names the attempt, counting from 1. On
      success the new pool, cursor 0, replaces any earlier pool of `host`,
      every connection of the replaced pool is closed, the other hosts keep
      their pools and the result is the number of connections opened. */
  method OpenPool(reg: Registry, net: Network, host: string, count: int, dialOk: nat -> bool)
    returns (r: Result<nat, nat>)
    requires reg.Valid() && net.Valid() && Owned(reg, net)
    modifies reg, net
    ensures reg.Valid() && net.Valid() && Owned(reg, net)
    ensures r.Ok? <==> FirstFailure(dialOk, NormalizeCount(count)) == NormalizeCount(count)
    ensures r.Err? ==> r.error == FirstFailure(dialOk, NormalizeCount(count)) + 1
    ensures r.Err? ==> reg.pools == old(reg.pools) && net.open == old(net.open)
    ensures r.Ok? ==> r.value == NormalizeCount(count)
    ensures r.Ok? ==> host in reg.pools && reg.pools == old(reg.pools)[host := reg.pools[host]] && fresh(reg.pools[host])
    ensures r.Ok? ==> reg.pools[host].conns == IdRange(old(net.nextId), r.value) && reg.pools[host].lastUsed == 0
    ensures r.Ok? ==> net.open == old(net.open) - OldPool(old(reg.pools), host) + (set c | c in reg.pools[host].conns)
    ensures net.nextId == old(net.nextId) + FirstFailure(dialOk, NormalizeCount(count))
    ensures net.log == old(net.log) + DialPoolEvents(host, old(net.nextId), dialOk, NormalizeCount(count))
                                    + (if r.Ok? then OldPoolClosed(old(reg.pools), host) else [])
  {
    var n := NormalizeCount(count);
    var base := net.nextId;
    var dialed := DialPool(net, host, n, dialOk);
    if dialed.Err? {
      return Err(dialed.error);
    }
    var hc := dialed.value;
    forall h, c | h in reg.pools && c in reg.pools[h].conns
      ensures c !in hc.conns
    {
      assert c in old(net.open);
    }
    Install(reg, net, host, hc);
    r := Ok(n);
  }

  /** The connections of the pool `host` had, none if it had none. */
  ghost function OldPool(pools: map<string, HostConnections>, host: string): set<ConnId>
    reads pools.Values
  {
    if host in pools then set c | c in pools[host].conns else {}
  }

  /** The closes of the pool `host` had, in slice order. */
  ghost function OldPoolClosed(pools: map<string, HostConnections>, host: string): seq<Event>
    reads pools.Values
  {
    if host in pools then ClosedEvents(pools[host].conns) else []
  }

  lemma FirstFailureIs(dialOk: nat -> bool, n: nat, i: nat)
    requires i <= n && (forall j :: 0 <= j < i ==> dialOk(j)) && (i < n ==> !dialOk(i))
    ensures FirstFailure(dialOk, n) == i
  {
  }

  // ---------------------------------------------------------------------
  // Host keys

  /** The parts of a parsed target URL the handlers read: `Scheme`, `Host`
      (with the port when the URL names one), `Port()` and `Path`. */
  datatype Url = Url(scheme: string, host: string, port: string, path: string)

  /** What `url.Parse` guarantees: a host without a colon names no port. */
  predicate PortFromHost(u: Url) {
    ':' !in u.host ==> u.port == ""
  }

  /** The registry key `/connect` uses: the host, with the scheme's default
      port when it names none. */
  function ConnectKey(u: Url): (k: string)
    ensures ':' in k
    ensures ':' in u.host ==> k == u.host
    ensures ':' !in u.host ==> k == u.host + (if u.scheme == "https" then ":443" else ":80")
  {
    if ':' in u.host then u.host
    else if u.scheme == "https" then u.host + ":443"
    else u.host + ":80"
  }

  /** The registry key `/send` uses: the same for https, but a port-less
      http host gets `":" + Port()`, which is then empty. */
  function SendKey(u: Url): string {
    if ':' in u.host then u.host
    else if u.scheme == "https" then u.host + ":443"
    else u.host + ":" + u.port
  }

  /** The two handlers agree on a URL's key exactly when its host names a
      port or its scheme is https; a port-less http URL is opened as
      `host:80` but looked up as `host:`, so a send to it never finds the
      pool opened for it. */
  lemma KeysAgree(u: Url)
    requires PortFromHost(u)
    ensures SendKey(u) == ConnectKey(u) <==> (':' in u.host || u.scheme == "https")
    ensures ':' !in u.host && u.scheme != "https" ==>
      ConnectKey(u) == u.host + ":80" && SendKey(u) == u.host + ":"
  {
    if ':' !in u.host && u.scheme != "https" {
      assert |SendKey(u)| != |ConnectKey(u)|;
    }
  }

  // ---------------------------------------------------------------------
  // The raw request

  /** The method of the request line: POST unless the caller named one. */
  function RequestMethod(m: string): (r: string)
    ensures r != ""
    ensures m != "" ==> r == m
    ensures m == "" ==> r == "POST"
  {
    if m == "" then "POST" else m
  }

  /** The request `/send` writes: the request line with the path and no
      query, the Host, Content-Type and Content-Length fields, one field per
      caller header in the given order, an empty line and the body. */
  function BuildRequest(verb: string, path: string, host: string, headers: seq<Field>, body: string): string {
    verb + " " + path + " HTTP/1.1\r\n"
    + "Host: " + host + "\r\n"
    + "Content-Type: application/json\r\n"
    + "Content-Length: " + Dec(|body|) + "\r\n"
    + FieldLines(headers)
    + "\r\n"
    + body
  }

  /** The fields `/send` puts in front of the caller's headers. */
  function FixedFields(host: string, body: string): seq<Field> {
    [Field("Host", host), Field("Content-Type", "application/json"), Field("Content-Length", Dec(|body|))]
  }

  /** The regrouping behind `BuildRequestLayout`, over opaque pieces. */
  lemma Regroup(x: string, a: string, c: string, k1: string, host: string, v2: string,
                k3: string, d: string, fl: string, body: string)
    ensures x + (a + c) + k1 + host + c + (v2 + c) + k3 + d + c + fl + c + body
         == (x + a) + c + ((k1 + host) + c + (v2 + c + ((k3 + d) + c + "")) + fl) + c + body
  {
  }

  lemma ContentTypeLine()
    ensures FieldLine(Field("Content-Type", "application/json")) == "Content-Type: application/json"
  {
    assert "Content-Type" + ": " == "Content-Type: ";
  }

  lemma FixedFieldLines(host: string, body: string)
    ensures FieldLines(FixedFields(host, body))
         == ("Host: " + host) + CRLF + ("Content-Type: application/json" + CRLF
            + (("Content-Length: " + Dec(|body|)) + CRLF + ""))
  {
    FieldLinesOfThree(Field("Host", host), Field("Content-Type", "application/json"),
                      Field("Content-Length", Dec(|body|)));
    NamedLines(host, Dec(|body|));
    ContentTypeLine();
  }

  lemma BuildRequestLayout(verb: string, path: string, host: string, headers: seq<Field>, body: string)
    ensures BuildRequest(verb, path, host, headers, body)
         == Serialize(Message(verb + " " + path + " HTTP/1.1", FixedFields(host, body) + headers, body))
  {
    var fixed := FixedFields(host, body);
    FieldLinesAppend(fixed, headers);
    FixedFieldLines(host, body);
    assert " HTTP/1.1\r\n" == " HTTP/1.1" + CRLF;
    assert "Content-Type: application/json\r\n" == "Content-Type: application/json" + CRLF;
    Regroup(verb + " " + path, " HTTP/1.1", CRLF, "Host: ", host, "Content-Type: application/json",
            "Content-Length: ", Dec(|body|), FieldLines(headers), body);
  }

  /** A reader of HTTP/1.1 messages gets back from the built request the
      request line `method path HTTP/1.1`, the Host, Content-Type and
      Content-Length fields followed by the caller's headers in order, and
      the body; the first Content-Length value reads as the body's length.
      This holds when no part holds a carriage return and no header name a
      colon. */
  lemma BuildRequestParses(verb: string, path: string, host: string, headers: seq<Field>, body: string)
    requires '\r' !in verb && '\r' !in path && '\r' !in host
    requires forall i :: 0 <= i < |headers| ==> PlainField(headers[i])
    ensures Parse(BuildRequest(verb, path, host, headers, body))
         == Some(Message(verb + " " + path + " HTTP/1.1", FixedFields(host, body) + headers, body))
    ensures FieldValue(FixedFields(host, body) + headers, "Content-Length") == Some(Dec(|body|))
    ensures ParseDec(Dec(|body|)) == |body|
  {
    var fs := FixedFields(host, body) + headers;
    var m := Message(verb + " " + path + " HTTP/1.1", fs, body);
    BuildRequestLayout(verb, path, host, headers, body);
    NoCRInStartLine(verb, path, " HTTP/1.1");
    FixedFieldsPlain(host, body, headers);
    ParseSerialize(m);
    ParseDecDec(|body|);
    assert fs[1..][1..][0] == Field("Content-Length", Dec(|body|));
  }

  lemma NoCRInStartLine(verb: string, target: string, version: string)
    requires '\r' !in verb && '\r' !in target && '\r' !in version
    ensures '\r' !in verb + " " + target + version
  {
  }

  lemma FixedFieldsPlain(host: string, body: string, headers: seq<Field>)
    requires '\r' !in host
    requires forall i :: 0 <= i < |headers| ==> PlainField(headers[i])
    ensures forall i :: 0 <= i < |FixedFields(host, body) + headers| ==> PlainField((FixedFields(host, body) + headers)[i])
  {
    var fixed := FixedFields(host, body);
    FixedNamesPlain(host, body);
    forall i | 0 <= i < |fixed + headers|
      ensures PlainField((fixed + headers)[i])
    {
      if i >= 3 {
        assert (fixed + headers)[i] == headers[i - 3];
      }
    }
  }

  lemma FixedNamesPlain(host: string, body: string)
    requires '\r' !in host
    ensures PlainField(Field("Host", host))
    ensures PlainField(Field("Content-Type", "application/json"))
    ensures PlainField(Field("Content-Length", Dec(|body|)))
  {
    DecIsPlain(|body|);
    NamedFieldsPlain(host, Dec(|body|));
    ContentTypePlain();
  }

  lemma ContentTypePlain()
    ensures PlainField(Field("Content-Type", "application/json"))
  {
  }

  // ---------------------------------------------------------------------
  // Dispatch

  /** The number of tasks: at least one, at most one per connection. */
  function Clamp(concurrent: int, size: nat): (n: nat)
    requires size >= 1
    ensures 1 <= n <= size
    ensures 1 <= concurrent <= size ==> n == concurrent
    ensures concurrent <= 0 ==> n == 1
    ensures concurrent > size ==> n == size
  {
    var c := if concurrent <= 0 then 1 else concurrent;
    if c > size then size else c
  }

  datatype SendResponse = SendResponse(statusCode: int, headers: Header, body: string)

  /** What one task's connection yields: the error of the write, if any;
      the status and header `http.ReadResponse` reads, or its error; the
      body `io.ReadAll` reads, or its error. */
  datatype TaskIo = TaskIo(writeErr: Option<string>, head: Result<(int, Header), string>, body: Result<string, string>)

  /** The socket side of a dispatch: what task `i` gets when it writes
      `raw` to connection `c`. */
  type Exchange = (nat, ConnId, string) -> TaskIo

  /** `sendSingleRequest`: write, read the response head, read the body. The
      first step that fails decides the error, with its own prefix; a
      response exists only when all three succeed, and it carries what they
      read. */
  function SendSingle(io: TaskIo): (r: Result<SendResponse, string>)
    ensures r.Ok? <==> io.writeErr.None? && io.head.Ok? && io.body.Ok?
    ensures r.Ok? ==> r.value == SendResponse(io.head.value.0, io.head.value.1, io.body.value)
    ensures io.writeErr.Some? ==> r == Err("发送请求失败: " + io.writeErr.value)
    ensures io.writeErr.None? && io.head.Err? ==> r == Err("读取响应失败: " + io.head.error)
    ensures io.writeErr.None? && io.head.Ok? && io.body.Err? ==> r == Err("读取响应体失败: " + io.body.error)
  {
    if io.writeErr.Some? then Err("发送请求失败: " + io.writeErr.value)
    else if io.head.Err? then Err("读取响应失败: " + io.head.error)
    else if io.body.Err? then Err("读取响应体失败: " + io.body.error)
    else Ok(SendResponse(io.head.value.0, io.head.value.1, io.body.value))
  }

  /** Where the cursor stands after `k` advances from `c`. */
  function Cursor(c: int, n: nat, k: nat): (r: int)
    requires 0 <= c < n
    ensures 0 <= r < n
    ensures k == 0 ==> r == c
    decreases k
  {
    if k == 0 then c else Step(Cursor(c, n, k - 1), n)
  }

  lemma {:induction false} CursorMod(c: int, n: nat, k: nat)
    requires n > 0 && 0 <= c < n
    ensures Cursor(c, n, k) == (c + k) % n
    decreases k
  {
    if k == 0 {
      ModUnique(c, n, 0, c);
    } else {
      CursorMod(c, n, k - 1);
      StepIsMod(Cursor(c, n, k - 1), n);
      StepMod(c + k - 1, n);
    }
  }

  /** The outcome of each of `n` tasks: task `i` runs on the connection
      the cursor reaches at its `i + 1`-th advance. */
  function Outcomes(conns: seq<ConnId>, cursor: int, raw: string, n: nat, exchange: Exchange)
    : (outs: seq<Result<SendResponse, string>>)
    requires 0 <= cursor < |conns|
    ensures |outs| == n
  {
    seq(n, i requires 0 <= i < n => Outcome(conns, cursor, raw, exchange, i))
  }

  function Outcome(conns: seq<ConnId>, cursor: int, raw: string, exchange: Exchange, i: nat): Result<SendResponse, string>
    requires 0 <= cursor < |conns|
  {
    SendSingle(exchange(i, conns[Cursor(cursor, |conns|, i + 1)], raw))
  }

  /** Task `i` of a dispatch runs on the connection of the `i`-th round-robin
      selection from the cursor. */
  lemma OutcomesFollowSelections(conns: seq<ConnId>, cursor: int, raw: string, n: nat, exchange: Exchange, i: nat)
    requires |conns| > 0 && 0 <= cursor < |conns| && i < n
    ensures Outcomes(conns, cursor, raw, n, exchange)[i]
         == SendSingle(exchange(i, conns[Selections(cursor, |conns|, n)[i]], raw))
  {
    SelectionsAt(cursor, |conns|, n, i);
    CursorMod(cursor, |conns|, i + 1);
  }

  /** The socket write of task `i`: `raw` to the connection the cursor
      reaches at its `i + 1`-th advance, going through when the exchange
      reports no write error. */
  function TaskWrite(conns: seq<ConnId>, cursor: int, raw: string, exchange: Exchange, i: nat): Event
    requires 0 <= cursor < |conns|
  {
    var c := conns[Cursor(cursor, |conns|, i + 1)];
    WriteEvent(c, raw, exchange(i, c, raw).writeErr.None?)
  }

  /** The writes of the first `k` tasks, in task order. */
  function TaskWrites(conns: seq<ConnId>, cursor: int, raw: string, exchange: Exchange, k: nat): (ws: seq<Event>)
    requires 0 <= cursor < |conns|
    ensures |ws| == k
    decreases k
  {
    if k == 0 then [] else TaskWrites(conns, cursor, raw, exchange, k - 1) + [TaskWrite(conns, cursor, raw, exchange, k - 1)]
  }

  lemma {:induction false} TaskWritesAt(conns: seq<ConnId>, cursor: int, raw: string, exchange: Exchange, k: nat, i: nat)
    requires 0 <= cursor < |conns| && i < k
    ensures TaskWrites(conns, cursor, raw, exchange, k)[i] == TaskWrite(conns, cursor, raw, exchange, i)
    decreases k
  {
    if i < k - 1 {
      TaskWritesAt(conns, cursor, raw, exchange, k - 1, i);
    }
  }

  /** A dispatch of `n` tasks writes `raw` exactly `n` times, once per task:
      the `i`-th write goes to the connection of the `i`-th round-robin
      selection, and it goes through exactly when that task's exchange
      reports no write error (when it does not, the task fails with the
      write prefix). */
  lemma TaskWritesFollowSelections(conns: seq<ConnId>, cursor: int, raw: string, n: nat, exchange: Exchange, i: nat)
    requires |conns| > 0 && 0 <= cursor < |conns| && i < n
    ensures TaskWrites(conns, cursor, raw, exchange, n)[i]
         == WriteEvent(conns[Selections(cursor, |conns|, n)[i]], raw,
                       exchange(i, conns[Selections(cursor, |conns|, n)[i]], raw).writeErr.None?)
  {
    TaskWritesAt(conns, cursor, raw, exchange, n, i);
    SelectionsAt(cursor, |conns|, n, i);
    CursorMod(cursor, |conns|, i + 1);
    assert Selections(cursor, |conns|, n)[i] == Cursor(cursor, |conns|, i + 1);
  }

  /** The messages of the failed outcomes among the first `k`, in task
      order. */
  function ErrorMessages(outs: seq<Result<SendResponse, string>>, k: nat): seq<string>
    requires k <= |outs|
    decreases k
  {
    if k == 0 then []
    else ErrorMessages(outs, k - 1) + (if outs[k - 1].Err? then [outs[k - 1].error] else [])
  }

  /** No message means no failure, and the messages are exactly those of
      the failed tasks. */
  lemma {:induction false} ErrorMessagesOf(outs: seq<Result<SendResponse, string>>, k: nat)
    requires k <= |outs|
    ensures |ErrorMessages(outs, k)| == 0 <==> forall i :: 0 <= i < k ==> outs[i].Ok?
    ensures forall m :: m in ErrorMessages(outs, k) <==> exists i :: 0 <= i < k && outs[i] == Err(m)
    decreases k
  {
    if k > 0 {
      ErrorMessagesOf(outs, k - 1);
    }
  }

  datatype Reason =
    | MethodNotAllowed
    | BadJson
    | EmptyTargetUrl
    | BadUrl
    | DialFailed(attempt: nat)
    | NoConnection
    | MarshalFailed
    | RequestsFailed(messages: string)

  /** The text before the joined failure messages of a dispatch. */
  const FailurePrefix: string := "部分请求失败: "

  /** What a handler answers: an error status with its reason, the JSON of a
      successful `/connect`, or the JSON of a successful `/send`. */
  datatype Reply =
    | Failure(status: int, reason: Reason)
    | Connected(count: nat, host: string)
    | Responses(responses: seq<Option<SendResponse>>, count: nat)

  /** The answer to a dispatch whose tasks ended in `outs`: if any failed,
      status 500 with `FailurePrefix` and every failure message joined by
      "; "; otherwise
      the responses in task order (not completion order) and their count. */
  ghost predicate DispatchedAs(reply: Reply, outs: seq<Result<SendResponse, string>>, n: nat) {
    && |outs| == n
    && (reply.Failure? || reply.Responses?)
    && (reply.Failure? <==> exists i :: 0 <= i < n && outs[i].Err?)
    && (reply.Failure? ==> reply == Failure(500, RequestsFailed(FailurePrefix + Join(ErrorMessages(outs, n), "; "))))
    && (reply.Responses? ==>
          && reply.count == n && |reply.responses| == n
          && forall i :: 0 <= i < n ==> reply.responses[i] == Some(outs[i].value))
  }

  /** What task `i` leaves in its slot of the response array. */
  function Stored(out: Result<SendResponse, string>): (r: Option<SendResponse>)
    ensures r.Some? <==> out.Ok?
    ensures out.Ok? ==> r.value == out.value
  {
    if out.Ok? then Some(out.value) else None
  }

  lemma StepMod(x: int, n: nat)
    requires n > 0 && x >= 0
    ensures Step(x % n, n) == (x + 1) % n
  {
    var q, r := x / n, x % n;
    assert x == q * n + r;
    if r + 1 < n {
      ModUnique(x + 1, n, q, r + 1);
    } else {
      assert x + 1 == (q + 1) * n + 0;
      ModUnique(x + 1, n, q + 1, 0);
    }
  }

  /** The reply built from the collected messages and stored responses is
      the one `DispatchedAs` prescribes. */
  lemma CollectedAs(reply: Reply, errs: seq<string>, stored: seq<Option<SendResponse>>,
                    outs: seq<Result<SendResponse, string>>)
    requires errs == ErrorMessages(outs, |outs|)
    requires |stored| == |outs| && forall j :: 0 <= j < |outs| ==> stored[j] == Stored(outs[j])
    requires reply == if |errs| > 0 then Failure(500, RequestsFailed(FailurePrefix + Join(errs, "; ")))
                      else Responses(stored, |outs|)
    ensures DispatchedAs(reply, outs, |outs|)
  {
    ErrorMessagesOf(outs, |outs|);
  }

  /** The body of one task: takes the next connection round robin, then
      `sendSingleRequest` on it, whose write of `raw` is logged whether it
      goes through or not. */
  method RunTask(hc: HostConnections, net: Network, raw: string, exchange: Exchange, i: nat)
    returns (res: Result<SendResponse, string>)
    requires hc.Valid() && |hc.conns| > 0
    modifies hc`lastUsed, net`log
    ensures hc.Valid() && 0 <= hc.lastUsed < |hc.conns|
    ensures hc.lastUsed == Step(old(hc.lastUsed), |hc.conns|)
    ensures res == SendSingle(exchange(i, hc.conns[hc.lastUsed], raw))
    ensures net.log == old(net.log)
      + [WriteEvent(hc.conns[hc.lastUsed], raw, exchange(i, hc.conns[hc.lastUsed], raw).writeErr.None?)]
  {
    var conn := hc.GetNextConnection();
    var io := exchange(i, conn, raw);
    var _ := net.Write(conn, raw, io.writeErr.None?);
    res := SendSingle(io);
  }

  /** What the first `i` of the tasks ending in `outs` have left: their
      failure messages in task order, their responses at their own index,
      and nothing yet in the slots of the others. */
  ghost predicate Recorded(responses: array<Option<SendResponse>>, errs: seq<string>,
                           outs: seq<Result<SendResponse, string>>, i: nat)
    reads responses
  {
    && i <= |outs| == responses.Length
    && errs == ErrorMessages(outs, i)
    && (forall j :: 0 <= j < i ==> responses[j] == Stored(outs[j]))
    && (forall j :: i <= j < |outs| ==> responses[j] == None)
  }

  /** The end of task `i`: a failure goes to the error channel, a response
      to slot `i`. */
  method Record(responses: array<Option<SendResponse>>, errs: seq<string>, res: Result<SendResponse, string>,
                ghost outs: seq<Result<SendResponse, string>>, i: nat)
    returns (errs': seq<string>)
    requires Recorded(responses, errs, outs, i) && i < |outs| && outs[i] == res
    modifies responses
    ensures Recorded(responses, errs', outs, i + 1)
  {
    if res.Err? {
      errs' := errs + [res.error];
    } else {
      errs' := errs;
      responses[i] := Some(res.value);
    }
  }

  /** The dispatch loop of `/send`: `n` tasks in task order, each taking the
      next connection round robin and writing `raw` to it; task `i` stores
      its response at index `i` of a fresh slice of `n` entries, and every
      failure message is collected in task order. */
  method RunTasks(hc: HostConnections, net: Network, raw: string, n: nat, exchange: Exchange)
    returns (responses: array<Option<SendResponse>>, errs: seq<string>)
    requires hc.Valid() && 1 <= n <= |hc.conns|
    modifies hc`lastUsed, net`log
    ensures hc.Valid()
    ensures net.log == old(net.log) + TaskWrites(hc.conns, old(hc.lastUsed), raw, exchange, n)
    ensures hc.lastUsed == Cursor(old(hc.lastUsed), |hc.conns|, n)
    ensures fresh(responses) && responses.Length == n
    ensures errs == ErrorMessages(Outcomes(hc.conns, old(hc.lastUsed), raw, n, exchange), n)
    ensures forall j :: 0 <= j < n ==>
      responses[j] == Stored(Outcomes(hc.conns, old(hc.lastUsed), raw, n, exchange)[j])
  {
    var size := |hc.conns|;
    ghost var conns := hc.conns;
    ghost var start := hc.lastUsed;
    ghost var outs := Outcomes(hc.conns, start, raw, n, exchange);
    responses := new Option<SendResponse>[n](_ => None);
    errs := [];
    var i := 0;
    while i < n
      invariant 0 <= i <= n
      invariant hc.Valid() && hc.conns == conns && |conns| == size
      invariant hc.lastUsed == Cursor(start, size, i)
      invariant net.log == old(net.log) + TaskWrites(conns, start, raw, exchange, i)
      invariant Recorded(responses, errs, outs, i)
    {
      ghost var before := net.log;
      var res := RunTask(hc, net, raw, exchange, i);
      assert net.log == before + [TaskWrite(conns, start, raw, exchange, i)];
      errs := Record(responses, errs, res, outs, i);
      i := i + 1;
    }
  }

  /** `/send` after the pool lookup: runs the tasks, then answers 500 with
      `FailurePrefix` and every failure message joined by "; " if any task
      failed, otherwise the responses in task order. */
  method Dispatch(hc: HostConnections, net: Network, raw: string, n: nat, exchange: Exchange) returns (reply: Reply)
    requires hc.Valid() && 1 <= n <= |hc.conns|
    modifies hc`lastUsed, net`log
    ensures hc.Valid()
    ensures net.log == old(net.log) + TaskWrites(hc.conns, old(hc.lastUsed), raw, exchange, n)
    ensures hc.lastUsed == Cursor(old(hc.lastUsed), |hc.conns|, n)
    ensures DispatchedAs(reply, Outcomes(hc.conns, old(hc.lastUsed), raw, n, exchange), n)
  {
    ghost var outs := Outcomes(hc.conns, hc.lastUsed, raw, n, exchange);
    var responses, errs := RunTasks(hc, net, raw, n, exchange);
    if |errs| > 0 {
      reply := Failure(500, RequestsFailed(FailurePrefix + Join(errs, "; ")));
    } else {
      reply := Responses(responses[..], n);
    }
    CollectedAs(reply, errs, responses[..], outs);
  }

  /** Because the task count never exceeds the pool size, no two tasks of a
      dispatch share a connection slot. */
  lemma TasksUseDistinctSlots(cursor: int, size: nat, concurrent: int, i: nat, j: nat)
    requires size >= 1 && 0 <= cursor < size && i < j < Clamp(concurrent, size)
    ensures Selections(cursor, size, Clamp(concurrent, size))[i] != Selections(cursor, size, Clamp(concurrent, size))[j]
  {
    SelectionsDistinct(cursor, size, Clamp(concurrent, size), i, j);
  }

  // ---------------------------------------------------------------------
  // The handlers

  /** The decoded body of a `/connect` request. */
  datatype ConnectRequest = ConnectRequest(targetUrl: string, count: int)

  /** The decoded body of a `/send` request. The caller's headers are given
      in the order the handler visits them (a Go map's order is left open);
      the JSON body appears only as the text `json.Marshal` makes of it. */
  datatype SendRequest = SendRequest(targetUrl: string, verb: string, headers: seq<Field>, concurrent: int)

  /** The checks both handlers make before touching a connection, in their
      order: the method must be POST (405), the body must decode (400), the
      target URL must be non-empty (400) and must parse (400). */
  function CheckTarget(httpMethod: string, decoded: Option<string>, parse: string -> Option<Url>)
    : (r: Result<Url, Reply>)
    ensures httpMethod != "POST" ==> r == Err(Failure(405, MethodNotAllowed))
    ensures httpMethod == "POST" && decoded.None? ==> r == Err(Failure(400, BadJson))
    ensures httpMethod == "POST" && decoded == Some("") ==> r == Err(Failure(400, EmptyTargetUrl))
    ensures httpMethod == "POST" && decoded.Some? && decoded.value != "" && parse(decoded.value).None?
            ==> r == Err(Failure(400, BadUrl))
    ensures r.Ok? <==> httpMethod == "POST" && decoded.Some? && decoded.value != "" && parse(decoded.value).Some?
    ensures r.Ok? ==> r.value == parse(decoded.value).value
  {
    if httpMethod != "POST" then Err(Failure(405, MethodNotAllowed))
    else if decoded.None? then Err(Failure(400, BadJson))
    else if decoded.value == "" then Err(Failure(400, EmptyTargetUrl))
    else match parse(decoded.value)
      case None => Err(Failure(400, BadUrl))
      case Some(u) => Ok(u)
  }

  /** `TCPConnectionHandler`. `decoded` is what the JSON decoder produced
      (none when it failed), `parse` stands for `url.Parse` and `dialOk(i)`
      for whether the `i`-th dial succeeds. A rejected request changes
      nothing; otherwise the pool is opened as `OpenPool` says and the reply
      names either the failed attempt (500) or the count and host key. */
  method Connect(reg: Registry, net: Network, httpMethod: string, decoded: Option<ConnectRequest>,
                 parse: string -> Option<Url>, dialOk: nat -> bool)
    returns (reply: Reply)
    requires reg.Valid() && net.Valid() && Owned(reg, net)
    modifies reg, net
    ensures reg.Valid() && net.Valid() && Owned(reg, net)
    ensures var target := CheckTarget(httpMethod, TargetOf(decoded), parse);
      && (target.Err? ==>
            && reply == target.error && reg.pools == old(reg.pools)
            && net.open == old(net.open) && net.nextId == old(net.nextId) && net.log == old(net.log))
      && (target.Ok? ==>
            var key, n := ConnectKey(target.value), NormalizeCount(decoded.value.count);
            var first := FirstFailure(dialOk, n);
            && net.nextId == old(net.nextId) + first
            && net.log == old(net.log) + DialPoolEvents(key, old(net.nextId), dialOk, n)
                                       + (if first == n then OldPoolClosed(old(reg.pools), key) else [])
            && (first < n ==> reply == Failure(500, DialFailed(first + 1))
                              && reg.pools == old(reg.pools) && net.open == old(net.open))
            && (first == n ==> reply == Connected(n, key)
                               && key in reg.pools && reg.pools == old(reg.pools)[key := reg.pools[key]]
                               && fresh(reg.pools[key])
                               && reg.pools[key].conns == IdRange(old(net.nextId), n)
                               && reg.pools[key].lastUsed == 0
                               && net.open == old(net.open) - OldPool(old(reg.pools), key)
                                              + (set c | c in reg.pools[key].conns)))
  {
    var target := CheckTarget(httpMethod, TargetOf(decoded), parse);
    if target.Err? {
      return target.error;
    }
    var key := ConnectKey(target.value);
    var n := NormalizeCount(decoded.value.count);
    var pooled := OpenPool(reg, net, key, n, dialOk);
    if pooled.Err? {
      reply := Failure(500, DialFailed(pooled.error));
    } else {
      reply := Connected(pooled.value, key);
    }
  }

  /** The target URL of a decoded request, none when decoding failed. */
  function TargetOf(decoded: Option<ConnectRequest>): (t: Option<string>)
    ensures t.Some? <==> decoded.Some?
    ensures t.Some? ==> t.value == decoded.value.targetUrl
  {
    if decoded.Some? then Some(decoded.value.targetUrl) else None
  }

  /** The target URL of a decoded `/send` request. */
  function SendTargetOf(decoded: Option<SendRequest>): (t: Option<string>)
    ensures t.Some? <==> decoded.Some?
    ensures t.Some? ==> t.value == decoded.value.targetUrl
  {
    if decoded.Some? then Some(decoded.value.targetUrl) else None
  }

  /** `HTTPRequestHandler`. After the common checks the pool is looked up
      under `SendKey`; a missing or empty pool is a 400, and so is a body
      `json.Marshal` rejects (`marshaled` none). Otherwise the raw request
      is built from the method (POST by default), the URL's path and host,
      the caller's headers and the marshaled body, and dispatched on
      `Clamp(concurrent, size)` connections of that pool. Only that pool's
      cursor moves; the registry and every other pool stay as they were. */
  method Send(reg: Registry, net: Network, httpMethod: string, decoded: Option<SendRequest>,
              parse: string -> Option<Url>, marshaled: Option<string>, exchange: Exchange)
    returns (reply: Reply)
    requires reg.Valid()
    modifies reg.pools.Values, net`log
    ensures reg.Valid()
    ensures forall h :: h in reg.pools ==> reg.pools[h].conns == old(reg.pools[h].conns)
    ensures var target := CheckTarget(httpMethod, SendTargetOf(decoded), parse);
      && (target.Err? ==>
            && reply == target.error && net.log == old(net.log)
            && forall h :: h in reg.pools ==> reg.pools[h].lastUsed == old(reg.pools[h].lastUsed))
      && (target.Ok? ==>
            var u, key := target.value, SendKey(target.value);
            && (key !in reg.pools || |reg.pools[key].conns| == 0 || marshaled.None? ==>
                  && reply == (if key !in reg.pools || |reg.pools[key].conns| == 0
                               then Failure(400, NoConnection) else Failure(400, MarshalFailed))
                  && net.log == old(net.log)
                  && forall h :: h in reg.pools ==> reg.pools[h].lastUsed == old(reg.pools[h].lastUsed))
            && (key in reg.pools && |reg.pools[key].conns| > 0 && marshaled.Some? ==>
                  var pool := reg.pools[key];
                  var n := Clamp(decoded.value.concurrent, |pool.conns|);
                  var raw := BuildRequest(RequestMethod(decoded.value.verb), u.path, u.host,
                                          decoded.value.headers, marshaled.value);
                  && DispatchedAs(reply, Outcomes(pool.conns, old(pool.lastUsed), raw, n, exchange), n)
                  && pool.lastUsed == Cursor(old(pool.lastUsed), |pool.conns|, n)
                  && net.log == old(net.log) + TaskWrites(pool.conns, old(pool.lastUsed), raw, exchange, n)
                  && forall h :: h in reg.pools && h != key ==> reg.pools[h].lastUsed == old(reg.pools[h].lastUsed)))
  {
    var target := CheckTarget(httpMethod, SendTargetOf(decoded), parse);
    if target.Err? {
      return target.error;
    }
    var u := target.value;
    var key := SendKey(u);
    if key !in reg.pools || |reg.pools[key].conns| == 0 {
      return Failure(400, NoConnection);
    }
    var pool := reg.pools[key];
    if marshaled.None? {
      return Failure(400, MarshalFailed);
    }
    var req := decoded.value;
    var raw := BuildRequest(RequestMethod(req.verb), u.path, u.host, req.headers, marshaled.value);
    var n := Clamp(req.concurrent, |pool.conns|);
    reply := Dispatch(pool, net, raw, n, exchange);
  }
}

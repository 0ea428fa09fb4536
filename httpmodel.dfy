/** Go's `http.Header` and `http.ResponseWriter` as far as the proxies use
    them. A header maps a field name to its list of values, in the order they
    were added; keys are compared exactly as written (the canonical-case
    rewriting `Header.Add` and `Header.Get` perform is not part of this
    model). */
module HttpModel {
  import opened Common

  type Header = map<string, seq<string>>

  /** The values listed under `k`, none if the key is absent. */
  function Values(h: Header, k: string): seq<string> {
    if k in h then h[k] else []
  }

  /** `Header.Get`: the first value under `k`, or the empty string. */
  function FirstValue(h: Header, k: string): (v: string)
    ensures (k in h && h[k] != []) ==> v == h[k][0]
    ensures (k !in h || h[k] == []) ==> v == ""
  {
    if k in h && h[k] != [] then h[k][0] else ""
  }

  /** A header map, shared by reference as in Go. */
  class HeaderMap {
    var m: Header

    constructor (init: Header)
      ensures m == init
    {
      m := init;
    }

    /** `Header.Add`: appends `v` to the values of `k`. */
    method Add(k: string, v: string)
      modifies this
      ensures m == old(m)[k := Values(old(m), k) + [v]]
    {
      m := m[k := Values(m, k) + [v]];
    }

    /** `h[k] = vs`: replaces the whole value list of `k`. */
    method Put(k: string, vs: seq<string>)
      modifies this
      ensures m == old(m)[k := vs]
    {
      m := m[k := vs];
    }
  }

  /** Adds `values` to `dst` under `key` one by one with `Add`: the key
      ends with its earlier values followed by `values`, and an empty list
      changes nothing. */
  method AddValues(dst: HeaderMap, key: string, values: seq<string>)
    modifies dst
    ensures values == [] ==> dst.m == old(dst.m)
    ensures values != [] ==> dst.m == old(dst.m)[key := Values(old(dst.m), key) + values]
  {
    var j := 0;
    while j < |values|
      invariant 0 <= j <= |values|
      invariant j == 0 ==> dst.m == old(dst.m)
      invariant j > 0 ==> dst.m == old(dst.m)[key := Values(old(dst.m), key) + values[..j]]
    {
      assert values[..j + 1] == values[..j] + [values[j]];
      ghost var before := dst.m;
      dst.Add(key, values[j]);
      assert Values(before, key) + [values[j]] == Values(old(dst.m), key) + values[..j + 1];
      j := j + 1;
    }
    assert values[..j] == values;
  }

  /** Copies every value of `src` into `dst` with `Add`, key by key in an
      order the model leaves open (Go's map order), value by value in list
      order. Nothing is replaced: each key ends up with its earlier values
      followed by all of `src`'s, and a key whose list in `src` is empty is
      not created. */
  method AddAll(dst: HeaderMap, src: Header)
    modifies dst
    ensures forall k :: k in dst.m <==> k in old(dst.m) || (k in src && src[k] != [])
    ensures forall k :: k in dst.m ==> dst.m[k] == Values(old(dst.m), k) + Values(src, k)
  {
    var todo := src.Keys;
    ghost var done: set<string> := {};
    while todo != {}
      invariant todo + done == src.Keys && todo !! done
      invariant forall k :: k in dst.m <==> k in old(dst.m) || (k in done && src[k] != [])
      invariant forall k :: k in dst.m ==>
        dst.m[k] == Values(old(dst.m), k) + (if k in done then Values(src, k) else [])
      decreases todo
    {
      var key :| key in todo;
      AddValues(dst, key, src[key]);
      todo := todo - {key};
      done := done + {key};
    }
  }

  /** What the handler has sent to its client so far. */
  class ResponseWriter {
    /** `w.Header()`: the map the handler fills before the status is written. */
    const header: HeaderMap
    /** The status code, once `WriteHeader` (or the first `Write`) has run. */
    var status: Option<int>
    var body: string

    constructor ()
      ensures fresh(header) && header.m == map[] && status == None && body == ""
    {
      header := new HeaderMap(map[]);
      status := None;
      body := "";
    }

    /** `WriteHeader(code)`: only the first call takes effect. */
    method WriteHeader(code: int)
      modifies this`status
      ensures status == if old(status).None? then Some(code) else old(status)
    {
      if status == None {
        status := Some(code);
      }
    }

    /** `Write(data)`: writes status 200 first when no status was written. */
    method Write(data: string)
      modifies this`status, this`body
      ensures status == if old(status).None? then Some(200) else old(status)
      ensures body == old(body) + data
    {
      WriteHeader(200);
      body := body + data;
    }

    /** `http.Error(w, msg, code)`: the status, then the message and a newline. */
    method Error(msg: string, code: int)
      modifies this`status, this`body
      ensures status == if old(status).None? then Some(code) else old(status)
      ensures body == old(body) + msg + "\n"
    {
      WriteHeader(code);
      body := body + msg + "\n";
    }
  }
}

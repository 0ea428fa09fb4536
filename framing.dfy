/** The HTTP/1.1 message layout both request builders produce (section 2.1
    of RFC 9112): a start line, one `name: value` line per header field, each
    line ended by CRLF, an empty line, then the body. `Serialize` writes that
    layout; `Parse` is an independent reader of it, and the round trip
    between the two is what the builders' lemmas rest on. */
module Framing {
  import opened Common

  const CRLF: string := "\r\n"

  datatype Field = Field(name: string, value: string)

  datatype Message = Message(startLine: string, fields: seq<Field>, body: string)

  function FieldLine(f: Field): string {
    f.name + ": " + f.value
  }

  /** Every field line followed by CRLF, in order. */
  function FieldLines(fs: seq<Field>): string
    decreases |fs|
  {
    if fs == [] then "" else FieldLine(fs[0]) + CRLF + FieldLines(fs[1..])
  }

  function Serialize(m: Message): string {
    m.startLine + CRLF + FieldLines(m.fields) + CRLF + m.body
  }

  /** A field whose line can be read back: its name holds no colon and
      neither part holds a carriage return. */
  predicate PlainField(f: Field) {
    ':' !in f.name && '\r' !in f.name && '\r' !in f.value
  }

  /** A message whose serialization can be read back. */
  predicate Serializable(m: Message) {
    '\r' !in m.startLine && forall i :: 0 <= i < |m.fields| ==> PlainField(m.fields[i])
  }

  /** Splits off the first line: the text before the first carriage return,
      which must be followed by a line feed. */
  function SplitLine(s: string): (r: Option<(string, string)>)
    ensures r.Some? ==> '\r' !in r.value.0 && s == r.value.0 + CRLF + r.value.1
    ensures r.None? ==> '\r' !in s || exists i :: 0 <= i < |s| && s[i] == '\r' && '\r' !in s[..i] && !(i + 1 < |s| && s[i + 1] == '\n')
    decreases |s|
  {
    if s == [] then None
    else if s[0] == '\r' then (if |s| >= 2 && s[1] == '\n' then Some(("", s[2..])) else None)
    else match SplitLine(s[1..])
      case None => None
      case Some((line, rest)) => Some(([s[0]] + line, rest))
  }

  /** Reads `name: value` from a field line, splitting at its first colon. */
  function SplitField(line: string): (r: Option<Field>)
    ensures r.Some? ==> ':' !in r.value.name && line == FieldLine(r.value)
    decreases |line|
  {
    if line == [] then None
    else if line[0] == ':' then (if |line| >= 2 && line[1] == ' ' then Some(Field("", line[2..])) else None)
    else match SplitField(line[1..])
      case None => None
      case Some(f) => Some(Field([line[0]] + f.name, f.value))
  }

  /** Reads field lines up to and including the empty line; returns the
      fields and what follows the empty line. */
  function ReadFields(s: string): Option<(seq<Field>, string)>
    decreases |s|
  {
    match SplitLine(s)
    case None => None
    case Some((line, rest)) =>
      if line == "" then Some(([], rest))
      else match SplitField(line)
        case None => None
        case Some(f) =>
          match ReadFields(rest)
          case None => None
          case Some((fs, body)) => Some(([f] + fs, body))
  }

  function Parse(s: string): Option<Message> {
    match SplitLine(s)
    case None => None
    case Some((start, rest)) =>
      match ReadFields(rest)
      case None => None
      case Some((fs, body)) => Some(Message(start, fs, body))
  }

  lemma {:induction false} SplitLineOf(line: string, rest: string)
    requires '\r' !in line
    ensures SplitLine(line + CRLF + rest) == Some((line, rest))
    decreases |line|
  {
    var s := line + CRLF + rest;
    if line != [] {
      assert s[1..] == line[1..] + CRLF + rest;
      SplitLineOf(line[1..], rest);
      assert [line[0]] + line[1..] == line;
    } else {
      assert s == CRLF + rest;
    }
  }

  lemma {:induction false} SplitFieldOf(f: Field)
    requires ':' !in f.name
    ensures SplitField(FieldLine(f)) == Some(f)
    decreases |f.name|
  {
    var line := FieldLine(f);
    if f.name != [] {
      var g := Field(f.name[1..], f.value);
      assert line[1..] == FieldLine(g);
      SplitFieldOf(g);
      assert [f.name[0]] + g.name == f.name;
    } else {
      assert line == ": " + f.value;
    }
  }

  lemma {:induction false} ReadFieldsOf(fs: seq<Field>, body: string)
    requires forall i :: 0 <= i < |fs| ==> PlainField(fs[i])
    ensures ReadFields(FieldLines(fs) + CRLF + body) == Some((fs, body))
    decreases |fs|
  {
    if fs == [] {
      SplitLineOf("", body);
      assert FieldLines(fs) + CRLF + body == "" + CRLF + body;
    } else {
      var f := fs[0];
      var rest := FieldLines(fs[1..]) + CRLF + body;
      assert FieldLines(fs) + CRLF + body == FieldLine(f) + CRLF + rest;
      assert PlainField(f);
      assert ':' in FieldLine(f) by { assert FieldLine(f)[|f.name|] == ':'; }
      assert '\r' !in FieldLine(f);
      SplitLineOf(FieldLine(f), rest);
      SplitFieldOf(f);
      ReadFieldsOf(fs[1..], body);
      assert [f] + fs[1..] == fs;
    }
  }

  /** Reading a serialized message gives back the same start line, the same
      fields in the same order and the same body. */
  lemma ParseSerialize(m: Message)
    requires Serializable(m)
    ensures Parse(Serialize(m)) == Some(m)
  {
    var rest := FieldLines(m.fields) + CRLF + m.body;
    assert Serialize(m) == m.startLine + CRLF + rest;
    SplitLineOf(m.startLine, rest);
    ReadFieldsOf(m.fields, m.body);
  }

  /** What follows the first empty line, that is, the first CRLF CRLF. */
  function BodyAfterHeaders(s: string): Option<string>
    decreases |s|
  {
    if |s| < 4 then None
    else if s[..4] == CRLF + CRLF then Some(s[4..])
    else BodyAfterHeaders(s[1..])
  }

  lemma {:induction false} SkipNoCR(x: string, t: string)
    requires '\r' !in x
    ensures BodyAfterHeaders(x + t) == BodyAfterHeaders(t)
    decreases |x|
  {
    if x != [] {
      var s := x + t;
      assert s[0] == x[0];
      assert s[1..] == x[1..] + t;
      SkipNoCR(x[1..], t);
    } else {
      assert x + t == t;
    }
  }

  lemma SkipLine(line: string, t: string)
    requires line != [] && '\r' !in line
    ensures BodyAfterHeaders(CRLF + line + t) == BodyAfterHeaders(t)
  {
    var s := CRLF + line + t;
    assert s[2] == line[0];
    assert s[1..] == ("\n" + line) + t;
    SkipNoCR("\n" + line, t);
  }

  lemma {:induction false} BodyAfterFieldLines(fs: seq<Field>, body: string)
    requires forall i :: 0 <= i < |fs| ==> PlainField(fs[i])
    ensures BodyAfterHeaders(CRLF + FieldLines(fs) + CRLF + body) == Some(body)
    decreases |fs|
  {
    if fs == [] {
      assert CRLF + FieldLines(fs) + CRLF + body == CRLF + CRLF + body;
    } else {
      var f := fs[0];
      var t := CRLF + FieldLines(fs[1..]) + CRLF + body;
      assert CRLF + FieldLines(fs) + CRLF + body == CRLF + FieldLine(f) + t;
      assert PlainField(f);
      assert FieldLine(f)[|f.name|] == ':';
      SkipLine(FieldLine(f), t);
      BodyAfterFieldLines(fs[1..], body);
    }
  }

  /** Cutting a serialized message at its first CRLF CRLF leaves exactly the
      body, whatever the body itself holds. */
  lemma BodyAfterSerialize(m: Message)
    requires Serializable(m)
    ensures BodyAfterHeaders(Serialize(m)) == Some(m.body)
  {
    var t := CRLF + FieldLines(m.fields) + CRLF + m.body;
    assert Serialize(m) == m.startLine + t;
    SkipNoCR(m.startLine, t);
    BodyAfterFieldLines(m.fields, m.body);
  }

  /** The value of the first field called `name`, if any. */
  function FieldValue(fs: seq<Field>, name: string): (r: Option<string>)
    ensures r.Some? <==> exists i :: 0 <= i < |fs| && fs[i].name == name
    ensures r.Some? ==> exists i :: 0 <= i < |fs| && fs[i] == Field(name, r.value) &&
                                   forall j :: 0 <= j < i ==> fs[j].name != name
    decreases |fs|
  {
    if fs == [] then None
    else if fs[0].name == name then Some(fs[0].value)
    else FieldValue(fs[1..], name)
  }

  // ---------------------------------------------------------------------
  // The fields both request builders write

  /** The Host and Content-Length lines as the builders spell them out. */
  lemma NamedLines(host: string, length: string)
    ensures FieldLine(Field("Host", host)) == "Host: " + host
    ensures FieldLine(Field("Content-Length", length)) == "Content-Length: " + length
  {
    assert "Host" + ": " == "Host: ";
    assert "Content-Length" + ": " == "Content-Length: ";
  }

  /** The Host and Content-Length fields can be read back whenever their
      values hold no carriage return. */
  lemma NamedFieldsPlain(host: string, length: string)
    requires '\r' !in host && '\r' !in length
    ensures PlainField(Field("Host", host))
    ensures PlainField(Field("Content-Length", length))
  {
  }

  lemma FieldLinesOfTwo(f0: Field, f1: Field)
    ensures FieldLines([f0, f1]) == FieldLine(f0) + CRLF + (FieldLine(f1) + CRLF + "")
  {
    var fs := [f0, f1];
    assert fs[1..] == [f1] && fs[1..][1..] == [];
    assert FieldLines([f1]) == FieldLine(f1) + CRLF + "";
  }

  lemma FieldLinesOfThree(f0: Field, f1: Field, f2: Field)
    ensures FieldLines([f0, f1, f2])
         == FieldLine(f0) + CRLF + (FieldLine(f1) + CRLF + (FieldLine(f2) + CRLF + ""))
  {
    var fs := [f0, f1, f2];
    assert fs[1..] == [f1, f2];
    FieldLinesOfTwo(f1, f2);
  }

  lemma {:induction false} FieldLinesAppend(a: seq<Field>, b: seq<Field>)
    ensures FieldLines(a + b) == FieldLines(a) + FieldLines(b)
    decreases |a|
  {
    if a != [] {
      assert (a + b)[1..] == a[1..] + b;
      FieldLinesAppend(a[1..], b);
    } else {
      assert a + b == b;
    }
  }
}

/** Values shared by every component: optional and fallible results, the
    decimal rendering that `fmt` uses for `%d` on a non-negative length, and
    `strings.Join`. Go strings and byte slices are both modelled as
    `seq<char>`, one character per byte. */
module Common {

  datatype Option<+T> = None | Some(value: T)

  datatype Result<+T, +E> = Ok(value: T) | Err(error: E)

  /** The character of one decimal digit. */
  function DigitChar(d: nat): (c: char)
    requires d < 10
    ensures '0' <= c <= '9'
    ensures c as int - '0' as int == d
  {
    ['0', '1', '2', '3', '4', '5', '6', '7', '8', '9'][d]
  }

  predicate IsDigits(s: string) {
    forall i :: 0 <= i < |s| ==> '0' <= s[i] <= '9'
  }

  /** `%d` of a non-negative integer: decimal, no sign, no leading zeros. */
  function Dec(n: nat): (s: string)
    ensures |s| > 0 && IsDigits(s)
    ensures n >= 10 ==> s[0] != '0'
    decreases n
  {
    if n < 10 then [DigitChar(n)] else Dec(n / 10) + [DigitChar(n % 10)]
  }

  /** Reads a string of decimal digits back as a number. */
  function ParseDec(s: string): nat
    requires IsDigits(s)
    decreases |s|
  {
    if s == [] then 0 else ParseDec(s[..|s| - 1]) * 10 + (s[|s| - 1] as int - '0' as int)
  }

  /** `%d` is readable: parsing the rendering of `n` gives `n` back. */
  lemma {:induction false} ParseDecDec(n: nat)
    ensures ParseDec(Dec(n)) == n
    decreases n
  {
    if n >= 10 {
      var s := Dec(n);
      assert s[..|s| - 1] == Dec(n / 10);
      ParseDecDec(n / 10);
    }
  }

  /** The rendering of a number holds no carriage return and no colon, so it
      is safe inside a header field value. */
  lemma DecIsPlain(n: nat)
    ensures '\r' !in Dec(n) && '\n' !in Dec(n) && ':' !in Dec(n)
  {
  }

  /** `strings.Join`: the parts with `sep` between each two neighbours. */
  function Join(parts: seq<string>, sep: string): string
    decreases |parts|
  {
    if |parts| == 0 then ""
    else if |parts| == 1 then parts[0]
    else parts[0] + sep + Join(parts[1..], sep)
  }

  /** Where part `i` starts inside `Join(parts, sep)`. */
  function JoinOffset(parts: seq<string>, sep: string, i: nat): nat
    requires i < |parts|
    decreases i
  {
    if i == 0 then 0 else |parts[0]| + |sep| + JoinOffset(parts[1..], sep, i - 1)
  }

  /** Joining drops no part and keeps their order: part `i` stands in the
      joined string at `JoinOffset`, exactly `sep` lies between it and the
      next part, and nothing follows the last part. */
  lemma {:induction false} JoinKeepsParts(parts: seq<string>, sep: string, i: nat)
    requires i < |parts|
    ensures JoinOffset(parts, sep, i) + |parts[i]| <= |Join(parts, sep)|
    ensures Join(parts, sep)[JoinOffset(parts, sep, i)..JoinOffset(parts, sep, i) + |parts[i]|] == parts[i]
    ensures i + 1 < |parts| ==>
      && JoinOffset(parts, sep, i) + |parts[i]| + |sep| == JoinOffset(parts, sep, i + 1) <= |Join(parts, sep)|
      && Join(parts, sep)[JoinOffset(parts, sep, i) + |parts[i]|..JoinOffset(parts, sep, i + 1)] == sep
    ensures i + 1 == |parts| ==> JoinOffset(parts, sep, i) + |parts[i]| == |Join(parts, sep)|
    decreases i
  {
    if |parts| > 1 {
      var head := parts[0] + sep;
      var rest := Join(parts[1..], sep);
      assert Join(parts, sep) == head + rest;
      if i == 0 {
        SliceOfPrefix(head, rest, 0, |parts[0]|);
        SliceOfPrefix(head, rest, |parts[0]|, |head|);
        SliceOfSuffix(parts[0], sep, 0, |sep|);
      } else {
        JoinKeepsParts(parts[1..], sep, i - 1);
        assert parts[1..][i - 1] == parts[i];
        var o := JoinOffset(parts[1..], sep, i - 1);
        SliceOfSuffix(head, rest, o, o + |parts[i]|);
        if i + 1 < |parts| {
          SliceOfSuffix(head, rest, o + |parts[i]|, JoinOffset(parts[1..], sep, i));
        }
      }
    }
  }

  /** Slicing inside a prefix slices the prefix. */
  lemma SliceOfPrefix(a: string, b: string, lo: nat, hi: nat)
    requires lo <= hi <= |a|
    ensures (a + b)[lo..hi] == a[lo..hi]
  {
  }

  /** Slicing past a prefix slices the rest. */
  lemma SliceOfSuffix(a: string, b: string, lo: nat, hi: nat)
    requires lo <= hi <= |b|
    ensures (a + b)[|a| + lo..|a| + hi] == b[lo..hi]
  {
  }
}

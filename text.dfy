/** The handful of Python string operations the configuration generator relies
    on: `%d` formatting, `lstrip`, `strip`, `split`, `partition`, `''.join` and
    `str.format` with a single `service_name` field. */
module Text {

  /** `s` begins with `p`. */
  predicate StartsWith(s: string, p: string) {
    |p| <= |s| && s[..|p|] == p
  }

  // ---------------------------------------------------------------------------
  // Decimal formatting (`'%d' % n`, `str(n)`)
  // ---------------------------------------------------------------------------

  predicate IsDigit(c: char) { '0' <= c <= '9' }

  function DigitChar(d: nat): (c: char)
    requires d < 10
    ensures IsDigit(c)
  {
    ['0', '1', '2', '3', '4', '5', '6', '7', '8', '9'][d]
  }

  function DigitValue(c: char): (d: nat)
    requires IsDigit(c)
    ensures d < 10
  {
    (c as int - '0' as int) as nat
  }

  lemma DigitRoundTrip(d: nat)
    requires d < 10
    ensures DigitValue(DigitChar(d)) == d
  {
  }

  /** The decimal representation of `n`: digits only, no leading zero. */
  function NatToString(n: nat): (r: string)
    ensures |r| >= 1
    ensures forall i :: 0 <= i < |r| ==> IsDigit(r[i])
    ensures |r| > 1 ==> r[0] != '0'
    decreases n
  {
    if n < 10 then [DigitChar(n)] else NatToString(n / 10) + [DigitChar(n % 10)]
  }

  /** The value of a string of decimal digits. */
  function ParseDigits(s: string): nat
    requires forall i :: 0 <= i < |s| ==> IsDigit(s[i])
    decreases |s|
  {
    if s == [] then 0 else ParseDigits(s[..|s| - 1]) * 10 + DigitValue(s[|s| - 1])
  }

  /** Reading back the digits that `NatToString` writes gives the number. */
  lemma {:induction false} ParseNatToString(n: nat)
    ensures ParseDigits(NatToString(n)) == n
    decreases n
  {
    var s := NatToString(n);
    if n < 10 {
      assert s[..|s| - 1] == [];
      DigitRoundTrip(n);
    } else {
      ParseNatToString(n / 10);
      assert s[..|s| - 1] == NatToString(n / 10);
      DigitRoundTrip(n % 10);
    }
  }

  /** What Python's `'%d' % i` and `str(i)` produce for an integer. */
  function IntToString(i: int): (r: string)
    ensures |r| >= 1
    ensures (i < 0) == (r[0] == '-')
  {
    if i < 0 then "-" + NatToString(-i) else NatToString(i)
  }

  /** The inverse of `IntToString`. */
  function ParseInt(s: string): int
    requires |s| >= 1
    requires s[0] == '-' ==> forall i :: 1 <= i < |s| ==> IsDigit(s[i])
    requires s[0] != '-' ==> forall i :: 0 <= i < |s| ==> IsDigit(s[i])
  {
    if s[0] == '-' then -(ParseDigits(s[1..]) as int) else ParseDigits(s)
  }

  /** `'%d'` loses nothing: the number can be read back from its text. */
  lemma IntToStringRoundTrip(i: int)
    ensures var r := IntToString(i);
      (r[0] == '-' ==> forall k :: 1 <= k < |r| ==> IsDigit(r[k])) &&
      (r[0] != '-' ==> forall k :: 0 <= k < |r| ==> IsDigit(r[k])) &&
      ParseInt(r) == i
  {
    if i < 0 {
      ParseNatToString(-i);
      assert IntToString(i)[1..] == NatToString(-i);
    } else {
      ParseNatToString(i);
    }
  }

  /** Different numbers never print the same. */
  lemma IntToStringInjective(i: int, j: int)
    requires IntToString(i) == IntToString(j)
    ensures i == j
  {
    IntToStringRoundTrip(i);
    IntToStringRoundTrip(j);
  }

  // ---------------------------------------------------------------------------
  // Stripping (`s.lstrip(c)`, `s.strip()`)
  // ---------------------------------------------------------------------------

  /** `s.lstrip(c)`: every leading occurrence of `c` removed (not only the first). */
  function LStrip(s: string, c: char): (r: string)
    ensures |r| <= |s| && r == s[|s| - |r|..]
    ensures forall i :: 0 <= i < |s| - |r| ==> s[i] == c
    ensures |r| > 0 ==> r[0] != c
    decreases |s|
  {
    if |s| > 0 && s[0] == c then LStrip(s[1..], c) else s
  }

  /** The characters Python 2's `str.strip()` removes by default. */
  predicate IsSpace(c: char) {
    c == ' ' || c == '\t' || c == '\n' || c == '\r' || c == '\U{0B}' || c == '\U{0C}'
  }

  /** `s.lstrip()` */
  function TrimLeft(s: string): (r: string)
    ensures |r| <= |s| && r == s[|s| - |r|..]
    ensures forall i :: 0 <= i < |s| - |r| ==> IsSpace(s[i])
    ensures |r| > 0 ==> !IsSpace(r[0])
    decreases |s|
  {
    if |s| > 0 && IsSpace(s[0]) then TrimLeft(s[1..]) else s
  }

  /** `s.rstrip()` */
  function TrimRight(s: string): (r: string)
    ensures |r| <= |s| && r == s[..|r|]
    ensures forall i :: |r| <= i < |s| ==> IsSpace(s[i])
    ensures |r| > 0 ==> !IsSpace(r[|r| - 1])
    decreases |s|
  {
    if |s| > 0 && IsSpace(s[|s| - 1]) then TrimRight(s[..|s| - 1]) else s
  }

  /** Text that ends in a visible character has nothing to trim on the right. */
  lemma TrimRightVisible(s: string)
    requires |s| > 0 && !IsSpace(s[|s| - 1])
    ensures TrimRight(s) == s
  {
  }

  /** `s.strip()` */
  function Strip(s: string): string {
    TrimLeft(TrimRight(s))
  }

  /** Whitespace on the right of `q` is all `rstrip` can reach when `p` ends in a
      visible character. */
  lemma {:induction false} TrimRightAppend(p: string, q: string)
    requires |p| > 0 && !IsSpace(p[|p| - 1])
    ensures TrimRight(p + q) == p + TrimRight(q)
    decreases |q|
  {
    if |q| > 0 && IsSpace(q[|q| - 1]) {
      assert (p + q)[..|p + q| - 1] == p + q[..|q| - 1];
      TrimRightAppend(p, q[..|q| - 1]);
    } else if |q| == 0 {
      assert p + q == p;
    }
  }

  /** Stripping a string that starts with the visible prefix `p` (itself ending in
      a visible character) keeps `p` and trims only the right end of the rest. */
  lemma StripKeepsPrefix(p: string, q: string)
    requires |p| > 0 && !IsSpace(p[0]) && !IsSpace(p[|p| - 1])
    ensures Strip(p + q) == p + TrimRight(q)
  {
    TrimRightAppend(p, q);
    assert (p + TrimRight(q))[0] == p[0];
  }

  // ---------------------------------------------------------------------------
  // `s.split(sep)`, `sep.join(pieces)`, `s.partition(c)`
  // ---------------------------------------------------------------------------

  /** `sep.join(pieces)` for a one-character separator. */
  function Join(pieces: seq<string>, sep: char): string
    requires |pieces| >= 1
    decreases |pieces|
  {
    if |pieces| == 1 then pieces[0] else pieces[0] + [sep] + Join(pieces[1..], sep)
  }

  /** `s.split(sep)` with an explicit separator: empty pieces are kept, so there is
      always one more piece than there are separators. */
  function Split(s: string, sep: char): (r: seq<string>)
    ensures |r| >= 1
    ensures Join(r, sep) == s
    ensures forall i :: 0 <= i < |r| ==> sep !in r[i]
    decreases |s|
  {
    if s == [] then [""]
    else
      var rest := Split(s[1..], sep);
      if s[0] == sep then [""] + rest else [[s[0]] + rest[0]] + rest[1..]
  }

  /** The other direction of the round trip: splitting what `Join` wrote gives the
      pieces back, provided no piece holds the separator. */
  lemma {:induction false} SplitJoin(pieces: seq<string>, sep: char)
    requires |pieces| >= 1
    requires forall i :: 0 <= i < |pieces| ==> sep !in pieces[i]
    ensures Split(Join(pieces, sep), sep) == pieces
    decreases |pieces|, |pieces[0]|
  {
    var p := pieces[0];
    if |pieces| == 1 {
      if p != [] {
        SplitJoin([p[1..]], sep);
        assert [p[1..]][0] == p[1..];
        assert Join(pieces, sep)[1..] == p[1..];
      }
    } else if p == [] {
      assert Join(pieces, sep) == [sep] + Join(pieces[1..], sep);
      SplitJoin(pieces[1..], sep);
      assert [""] + pieces[1..] == pieces;
    } else {
      var shorter := [p[1..]] + pieces[1..];
      assert shorter[1..] == pieces[1..];
      SplitJoin(shorter, sep);
      assert Join(shorter, sep) == p[1..] + [sep] + Join(pieces[1..], sep);
      assert Join(pieces, sep)[1..] == Join(shorter, sep);
      assert [p[0]] + p[1..] == p;
      assert [p] + pieces[1..] == pieces;
    }
  }

  /** `s.partition(c)`: the text before the first `c`, the separator found, and
      the rest; with no `c` in `s`, the whole string and two empty strings. */
  function Partition(s: string, c: char): (r: (string, string, string))
    ensures r.0 + r.1 + r.2 == s
    ensures c !in r.0
    ensures r.1 == [c] || (r.1 == "" && r.2 == "" && c !in s)
    decreases |s|
  {
    if s == [] then ("", "", "")
    else if s[0] == c then ("", [c], s[1..])
    else
      var rest := Partition(s[1..], c);
      ([s[0]] + rest.0, rest.1, rest.2)
  }

  /** `(h + c + t).partition(c)` finds the `c` right after `h` when `h` has none. */
  lemma {:induction false} PartitionAt(h: string, t: string, c: char)
    requires c !in h
    ensures Partition(h + [c] + t, c) == (h, [c], t)
    decreases |h|
  {
    if h != [] {
      var s := h + [c] + t;
      assert s[0] == h[0] && s[0] != c;
      assert s[1..] == h[1..] + [c] + t;
      PartitionAt(h[1..], t, c);
      assert [h[0]] + h[1..] == h;
    } else {
      assert h + [c] + t == [c] + t;
    }
  }
  /** Partitioning text without the separator keeps it whole. */
  lemma {:induction false} PartitionAbsent(s: string, c: char)
    requires c !in s
    ensures Partition(s, c) == (s, "", "")
  {
    var r := Partition(s, c);
    assert r.0 + "" + "" == r.0;
  }

  /** Text without whitespace is its own `strip()`. */
  lemma StripPlain(s: string)
    requires forall i :: 0 <= i < |s| ==> !IsSpace(s[i])
    ensures Strip(s) == s
  {
  }

  // ---------------------------------------------------------------------------
  // `fmt.format(service_name=name)`
  // ---------------------------------------------------------------------------

  const ServiceNameField: string := "{service_name}"

  /** `fmt.format(service_name=name)`: every `{service_name}` replaced by `name`. */
  function FormatServiceName(fmt: string, name: string): string
    decreases |fmt|
  {
    if StartsWith(fmt, ServiceNameField) then name + FormatServiceName(fmt[|ServiceNameField|..], name)
    else if fmt == [] then ""
    else [fmt[0]] + FormatServiceName(fmt[1..], name)
  }

  /** Text without braces is copied through unchanged. */
  lemma {:induction false} FormatPlainPrefix(p: string, rest: string, name: string)
    requires '{' !in p
    ensures FormatServiceName(p + rest, name) == p + FormatServiceName(rest, name)
    decreases |p|
  {
    if p != [] {
      assert (p + rest)[0] == p[0];
      assert !StartsWith(p + rest, ServiceNameField);
      assert (p + rest)[1..] == p[1..] + rest;
      FormatPlainPrefix(p[1..], rest, name);
    } else {
      assert p + rest == rest;
    }
  }

  /** Text without braces formats to itself. */
  lemma {:induction false} FormatPlain(q: string, name: string)
    requires '{' !in q
    ensures FormatServiceName(q, name) == q
    decreases |q|
  {
    if q != [] {
      assert q[0] != ServiceNameField[0];
      assert !StartsWith(q, ServiceNameField) by {
        if |ServiceNameField| <= |q| {
          assert q[..|ServiceNameField|][0] != ServiceNameField[0];
        }
      }
      FormatPlain(q[1..], name);
      assert [q[0]] + q[1..] == q;
    }
  }

  /** A template with one `{service_name}` between brace-free text formats to that
      text around the name; the socket path templates have this shape. */
  lemma FormatTemplate(p: string, q: string, name: string)
    requires '{' !in p && '{' !in q
    ensures FormatServiceName(p + ServiceNameField + q, name) == p + name + q
  {
    var f := ServiceNameField + q;
    SeqAssoc(p, ServiceNameField, q);
    FormatPlainPrefix(p, f, name);
    FormatField(q, name);
    FormatPlain(q, name);
  }

  lemma SeqAssoc(a: string, b: string, c: string)
    ensures a + b + c == a + (b + c)
  {
  }

  lemma FormatField(q: string, name: string)
    ensures FormatServiceName(ServiceNameField + q, name) == name + FormatServiceName(q, name)
  {
    var f := ServiceNameField + q;
    assert f[..|ServiceNameField|] == ServiceNameField;
    assert f[|ServiceNameField|..] == q;
  }
}

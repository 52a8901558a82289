/** The printable form of a descriptor, and exactly which descriptors it confuses. */
module Canonical {
  import opened Types

  // ---- escaping ----

  predicate Special(c: char) { c == '\\' || c == ';' || c == ':' || c == ',' || c == '[' || c == ']' }

  function Hex(n: nat): char
    requires n < 16
  {
    if n < 10 then '0' + n as char else 'a' + (n - 10) as char
  }

  function EscapeByte(b: U8): string {
    var c := b as char;
    if Special(c) then ['\\', c]
    else if b < 0x20 then ['\\', 'x', Hex(b / 16), Hex(b % 16)]
    else [c]
  }

  /** The bytes of `v`, escaped, in front of `rest`. */
  function Escape(v: Bytes, rest: string): string {
    if v == [] then rest else EscapeByte(v[0]) + Escape(v[1..], rest)
  }

  function HexValue(c: char): nat {
    if '0' <= c <= '9' then (c - '0') as nat else if 'a' <= c <= 'f' then (c - 'a') as nat + 10 else 0
  }

  /** Undoes escaping up to the first special character that is not escaped. */
  function Unescape(s: string): (Bytes, string) {
    if s == [] then ([], s) else
    if s[0] == '\\' then
      if |s| >= 4 && s[1] == 'x' then
        var (v, rest) := Unescape(s[4..]);
        ([(16 * HexValue(s[2]) + HexValue(s[3])) % 256] + v, rest)
      else if |s| >= 2 then
        var (v, rest) := Unescape(s[2..]);
        ([s[1] as int % 256] + v, rest)
      else ([], s)
    else if Special(s[0]) then ([], s)
    else
      var (v, rest) := Unescape(s[1..]);
      ([s[0] as int % 256] + v, rest)
  }

  /** Where an unescaped run stops. */
  predicate Stops(s: string) { s != [] && s[0] != '\\' && Special(s[0]) }

  lemma HexRoundTrip(n: nat)
    requires n < 16
    ensures HexValue(Hex(n)) == n
  {
  }

  lemma UnescapeByte(b: U8, tail: string)
    ensures Unescape(EscapeByte(b) + tail) == ([b] + Unescape(tail).0, Unescape(tail).1)
  {
    var c := b as char;
    var s := EscapeByte(b) + tail;
    if Special(c) {
      assert s[2..] == tail;
    } else if b < 0x20 {
      HexRoundTrip(b / 16);
      HexRoundTrip(b % 16);
      assert s[4..] == tail;
    } else {
      assert s[1..] == tail;
    }
  }

  /** Escaped text followed by a stop character can be read back. */
  lemma {:induction false} UnescapeEscape(v: Bytes, rest: string)
    requires Stops(rest)
    ensures Unescape(Escape(v, rest)) == (v, rest)
  {
    if v != [] {
      UnescapeByte(v[0], Escape(v[1..], rest));
      UnescapeEscape(v[1..], rest);
      assert v == [v[0]] + v[1..];
    }
  }

  lemma EscapeInjective(v: Bytes, r: string, w: Bytes, s: string)
    requires Stops(r) && Stops(s) && Escape(v, r) == Escape(w, s)
    ensures v == w && r == s
  {
    hide Unescape, Escape;
    UnescapeEscape(v, r);
    UnescapeEscape(w, s);
  }

  // ---- runs that end at the first character of another kind ----

  lemma RunsInjective(a: string, r: string, b: string, s: string, inside: char -> bool)
    requires a + r == b + s && r != [] && s != [] && !inside(r[0]) && !inside(s[0])
    requires (forall c :: c in a ==> inside(c)) && (forall c :: c in b ==> inside(c))
    ensures a == b && r == s
  {
    assert (a + r)[|a|] == r[0] && (b + s)[|b|] == s[0];
    assert forall k :: 0 <= k < |a| ==> inside((a + r)[k]);
    assert forall k :: 0 <= k < |b| ==> inside((b + s)[k]);
    assert |a| == |b|;
    assert a == (a + r)[..|a|] && b == (b + s)[..|b|];
    assert r == (a + r)[|a|..] && s == (b + s)[|b|..];
  }

  // ---- decimal numbers ----

  predicate Digit(c: char) { '0' <= c <= '9' }

  function Decimal(n: nat): (s: string)
    ensures forall c :: c in s ==> Digit(c)
  {
    var last := '0' + (n % 10) as char;
    if n < 10 then [last] else Decimal(n / 10) + [last]
  }

  function DecimalValue(s: string): nat {
    if s == [] then 0 else 10 * DecimalValue(s[..|s| - 1]) + HexValue(s[|s| - 1])
  }

  lemma {:induction false} DecimalRoundTrip(n: nat)
    ensures DecimalValue(Decimal(n)) == n
  {
    var s := Decimal(n);
    if n < 10 {
      assert s[..0] == [];
    } else {
      DecimalRoundTrip(n / 10);
      assert s[..|s| - 1] == Decimal(n / 10);
    }
  }

  lemma DecimalInjective(m: nat, r: string, n: nat, s: string)
    requires Decimal(m) + r == Decimal(n) + s && r != [] && s != [] && !Digit(r[0]) && !Digit(s[0])
    ensures m == n && r == s
  {
    hide Decimal, DecimalValue;
    RunsInjective(Decimal(m), r, Decimal(n), s, Digit);
    DecimalRoundTrip(m);
    DecimalRoundTrip(n);
  }

  // ---- enumeration names ----

  function PhaseName(p: U8): string { if p == 0 then "prefill" else if p == 1 then "decode" else "unknown" }

  function DtypeName(d: U8): string {
    if d == 0 then "float16" else if d == 1 then "bfloat16" else if d == 2 then "float32"
    else if d == 3 then "int8" else if d == 4 then "int4" else "unknown"
  }

  function BackendName(b: U8): string {
    if b == 0 then "cpu" else if b == 1 then "cuda" else if b == 2 then "rocm"
    else if b == 3 then "mps" else if b == 4 then "trt" else "unknown"
  }

  function ModeName(m: U8): string {
    if m == 0 then "eager" else if m == 1 then "graph" else if m == 2 then "compiled" else "unknown"
  }

  predicate NotSemicolon(c: char) { c != ';' }

  lemma NamesHaveNoSemicolon(x: U8)
    ensures forall c :: c in PhaseName(x) ==> NotSemicolon(c)
    ensures forall c :: c in DtypeName(x) ==> NotSemicolon(c)
    ensures forall c :: c in BackendName(x) ==> NotSemicolon(c)
    ensures forall c :: c in ModeName(x) ==> NotSemicolon(c)
  {
  }

  /** The values that print the same. */
  function Norm(x: U8, max: U8): U8 { if x <= max then x else 255 }

  lemma NamesInjective(x: U8, y: U8)
    ensures PhaseName(x) == PhaseName(y) <==> Norm(x, 1) == Norm(y, 1)
    ensures DtypeName(x) == DtypeName(y) <==> Norm(x, 4) == Norm(y, 4)
    ensures BackendName(x) == BackendName(y) <==> Norm(x, 4) == Norm(y, 4)
    ensures ModeName(x) == ModeName(y) <==> Norm(x, 2) == Norm(y, 2)
  {
  }

  // ---- the descriptor ----

  function Device(d: Types.Device, rest: string): string {
    "backend" + (Decimal(d.backend) + ("/cc" + (Decimal(d.major) + ("." + (Decimal(d.minor) + ("/mem" + (Decimal(d.minMemory) + rest)))))))
  }

  function LaterExtensions(xs: seq<Bytes>): string {
    if xs == [] then "]" else "," + Escape(xs[0], LaterExtensions(xs[1..]))
  }

  function Extensions(xs: seq<Bytes>): string {
    if xs == [] then "]" else Escape(xs[0], LaterExtensions(xs[1..]))
  }

  function Tail(d: Descriptor): string {
    ";shape=" + Escape(d.shape, ";sampling=" + Escape(d.sampling, ";extensions=[" + Extensions(d.extensions)))
  }

  function Middle(d: Descriptor): string {
    ";phase=" + (PhaseName(d.phase) + (";dtype=" + (DtypeName(d.dtype) + (";backend=" + (BackendName(d.backend) +
      (";execution_mode=" + (ModeName(d.mode) + (";device=" + Device(d.device, Tail(d))))))))))
  }

  /** canonical_string. */
  function Print(d: Descriptor): string {
    "model=" + Escape(d.model, ";revision=" + Escape(d.revision, ";adapter=" + Escape(d.adapter,
      ";tokenizer=" + Escape(d.tokenizer, Middle(d)))))
  }

  // ---- what it confuses ----

  lemma DropPrefix(p: string, a: string, b: string)
    requires p + a == p + b
    ensures a == b
  {
    assert a == (p + a)[|p|..] && b == (p + b)[|p|..];
  }

  lemma DeviceInjective(x: Types.Device, r: string, y: Types.Device, s: string)
    requires Device(x, r) == Device(y, s) && r != [] && s != [] && !Digit(r[0]) && !Digit(s[0])
    ensures x == y && r == s
  {
    hide Decimal;
    var x4, y4 := Decimal(x.minMemory) + r, Decimal(y.minMemory) + s;
    var x3, y3 := Decimal(x.minor) + ("/mem" + x4), Decimal(y.minor) + ("/mem" + y4);
    var x2, y2 := Decimal(x.major) + ("." + x3), Decimal(y.major) + ("." + y3);
    DropPrefix("backend", Decimal(x.backend) + ("/cc" + x2), Decimal(y.backend) + ("/cc" + y2));
    DecimalInjective(x.backend, "/cc" + x2, y.backend, "/cc" + y2);
    DropPrefix("/cc", x2, y2);
    DecimalInjective(x.major, "." + x3, y.major, "." + y3);
    DropPrefix(".", x3, y3);
    DecimalInjective(x.minor, "/mem" + x4, y.minor, "/mem" + y4);
    DropPrefix("/mem", x4, y4);
    DecimalInjective(x.minMemory, r, y.minMemory, s);
  }

  lemma LaterStops(xs: seq<Bytes>)
    ensures Stops(LaterExtensions(xs)) && (LaterExtensions(xs)[0] == ']' <==> xs == [])
  {
  }

  lemma {:induction false} LaterInjective(xs: seq<Bytes>, ys: seq<Bytes>)
    requires LaterExtensions(xs) == LaterExtensions(ys)
    ensures xs == ys
  {
    hide Escape;
    LaterStops(xs);
    LaterStops(ys);
    if xs != [] && ys != [] {
      var a, b := LaterExtensions(xs[1..]), LaterExtensions(ys[1..]);
      DropPrefix(",", Escape(xs[0], a), Escape(ys[0], b));
      LaterStops(xs[1..]);
      LaterStops(ys[1..]);
      EscapeInjective(xs[0], a, ys[0], b);
      LaterInjective(xs[1..], ys[1..]);
      assert xs == [xs[0]] + xs[1..] && ys == [ys[0]] + ys[1..];
    }
  }

  /** One empty extension prints like none. */
  function NormExtensions(xs: seq<Bytes>): seq<Bytes> { if xs == [[]] then [] else xs }

  function First(xs: seq<Bytes>): Bytes { if xs == [] then [] else xs[0] }

  function Others(xs: seq<Bytes>): seq<Bytes> { if xs == [] then [] else xs[1..] }

  /** The printed list determines the first entry, empty if there is none, and the
      others. */
  lemma SplitFirst(xs: seq<Bytes>)
    ensures Unescape(Extensions(xs)) == (First(xs), LaterExtensions(Others(xs)))
    ensures Extensions(xs) == Escape(First(xs), LaterExtensions(Others(xs)))
  {
    LaterStops(Others(xs));
    UnescapeEscape(First(xs), LaterExtensions(Others(xs)));
  }

  lemma SameParts(xs: seq<Bytes>, ys: seq<Bytes>)
    ensures First(xs) == First(ys) && Others(xs) == Others(ys) <==> NormExtensions(xs) == NormExtensions(ys)
  {
    if xs != [] { assert xs == [xs[0]] + xs[1..]; }
    if ys != [] { assert ys == [ys[0]] + ys[1..]; }
  }

  lemma ExtensionsConfusion(xs: seq<Bytes>, ys: seq<Bytes>)
    ensures Extensions(xs) == Extensions(ys) <==> NormExtensions(xs) == NormExtensions(ys)
  {
    hide Unescape, Escape, LaterExtensions;
    SplitFirst(xs);
    SplitFirst(ys);
    hide Extensions;
    if Extensions(xs) == Extensions(ys) { LaterInjective(Others(xs), Others(ys)); }
    SameParts(xs, ys);
  }

  /** Descriptors up to what the printed form cannot tell apart: enumerators without
      a name of their own, and one empty extension against none. */
  function Normal(d: Descriptor): Descriptor {
    d.(phase := Norm(d.phase, 1), dtype := Norm(d.dtype, 4), backend := Norm(d.backend, 4),
       mode := Norm(d.mode, 2), extensions := NormExtensions(d.extensions))
  }

  lemma TailConfusion(a: Descriptor, b: Descriptor)
    ensures Tail(a) == Tail(b)
            <==> a.shape == b.shape && a.sampling == b.sampling && Extensions(a.extensions) == Extensions(b.extensions)
  {
    hide Escape, Extensions;
    if Tail(a) == Tail(b) {
      var x2, y2 := ";extensions=[" + Extensions(a.extensions), ";extensions=[" + Extensions(b.extensions);
      var x1, y1 := ";sampling=" + Escape(a.sampling, x2), ";sampling=" + Escape(b.sampling, y2);
      DropPrefix(";shape=", Escape(a.shape, x1), Escape(b.shape, y1));
      EscapeInjective(a.shape, x1, b.shape, y1);
      DropPrefix(";sampling=", Escape(a.sampling, x2), Escape(b.sampling, y2));
      EscapeInjective(a.sampling, x2, b.sampling, y2);
      DropPrefix(";extensions=[", Extensions(a.extensions), Extensions(b.extensions));
    }
  }

  /** A name and what follows it up to the next semicolon. */
  lemma NameInjective(heading: string, n: string, r: string, m: string, s: string)
    requires heading + (n + r) == heading + (m + s) && r != [] && s != [] && r[0] == ';' && s[0] == ';'
    requires (forall c :: c in n ==> NotSemicolon(c)) && (forall c :: c in m ==> NotSemicolon(c))
    ensures n == m && r == s
  {
    DropPrefix(heading, n + r, m + s);
    RunsInjective(n, r, m, s, NotSemicolon);
  }

  lemma MiddleConfusion(a: Descriptor, b: Descriptor)
    ensures Middle(a) == Middle(b)
            <==> && PhaseName(a.phase) == PhaseName(b.phase) && DtypeName(a.dtype) == DtypeName(b.dtype)
                 && BackendName(a.backend) == BackendName(b.backend) && ModeName(a.mode) == ModeName(b.mode)
                 && a.device == b.device && Tail(a) == Tail(b)
  {
    assert Tail(a)[0] == ';' && Tail(b)[0] == ';';
    hide PhaseName, DtypeName, BackendName, ModeName, Device, Tail, NotSemicolon;
    if Middle(a) == Middle(b) {
      NamesHaveNoSemicolon(a.phase);
      NamesHaveNoSemicolon(b.phase);
      NamesHaveNoSemicolon(a.dtype);
      NamesHaveNoSemicolon(b.dtype);
      NamesHaveNoSemicolon(a.backend);
      NamesHaveNoSemicolon(b.backend);
      NamesHaveNoSemicolon(a.mode);
      NamesHaveNoSemicolon(b.mode);
      var x4, y4 := ";device=" + Device(a.device, Tail(a)), ";device=" + Device(b.device, Tail(b));
      var x3, y3 := ";execution_mode=" + (ModeName(a.mode) + x4), ";execution_mode=" + (ModeName(b.mode) + y4);
      var x2, y2 := ";backend=" + (BackendName(a.backend) + x3), ";backend=" + (BackendName(b.backend) + y3);
      var x1, y1 := ";dtype=" + (DtypeName(a.dtype) + x2), ";dtype=" + (DtypeName(b.dtype) + y2);
      NameInjective(";phase=", PhaseName(a.phase), x1, PhaseName(b.phase), y1);
      NameInjective(";dtype=", DtypeName(a.dtype), x2, DtypeName(b.dtype), y2);
      NameInjective(";backend=", BackendName(a.backend), x3, BackendName(b.backend), y3);
      NameInjective(";execution_mode=", ModeName(a.mode), x4, ModeName(b.mode), y4);
      DropPrefix(";device=", Device(a.device, Tail(a)), Device(b.device, Tail(b)));
      DeviceInjective(a.device, Tail(a), b.device, Tail(b));
    }
  }

  lemma PrintConfusion(a: Descriptor, b: Descriptor)
    ensures Print(a) == Print(b)
            <==> && a.model == b.model && a.revision == b.revision && a.adapter == b.adapter
                 && a.tokenizer == b.tokenizer && Middle(a) == Middle(b)
  {
    assert Middle(a)[0] == ';' && Middle(b)[0] == ';';
    hide Escape, Middle;
    if Print(a) == Print(b) {
      var x3, y3 := ";tokenizer=" + Escape(a.tokenizer, Middle(a)), ";tokenizer=" + Escape(b.tokenizer, Middle(b));
      var x2, y2 := ";adapter=" + Escape(a.adapter, x3), ";adapter=" + Escape(b.adapter, y3);
      var x1, y1 := ";revision=" + Escape(a.revision, x2), ";revision=" + Escape(b.revision, y2);
      DropPrefix("model=", Escape(a.model, x1), Escape(b.model, y1));
      EscapeInjective(a.model, x1, b.model, y1);
      DropPrefix(";revision=", Escape(a.revision, x2), Escape(b.revision, y2));
      EscapeInjective(a.revision, x2, b.revision, y2);
      DropPrefix(";adapter=", Escape(a.adapter, x3), Escape(b.adapter, y3));
      EscapeInjective(a.adapter, x3, b.adapter, y3);
      DropPrefix(";tokenizer=", Escape(a.tokenizer, Middle(a)), Escape(b.tokenizer, Middle(b)));
      EscapeInjective(a.tokenizer, Middle(a), b.tokenizer, Middle(b));
    }
  }

  /** Two descriptors print the same exactly when they are the same up to `Normal`. */
  lemma PrintExact(a: Descriptor, b: Descriptor)
    ensures Print(a) == Print(b) <==> Normal(a) == Normal(b)
  {
    hide Print, Middle, Tail, Extensions, PhaseName, DtypeName, BackendName, ModeName, Norm, NormExtensions;
    PrintConfusion(a, b);
    MiddleConfusion(a, b);
    TailConfusion(a, b);
    ExtensionsConfusion(a.extensions, b.extensions);
    NamesInjective(a.phase, b.phase);
    NamesInjective(a.dtype, b.dtype);
    NamesInjective(a.backend, b.backend);
    NamesInjective(a.mode, b.mode);
  }

  predicate Declared(d: Descriptor) {
    && d.phase <= 1 && (d.dtype <= 4 || d.dtype == 255) && (d.backend <= 4 || d.backend == 255)
    && (d.mode <= 2 || d.mode == 255)
  }

  /** With declared enumerators the empty extension is the only confusion. */
  lemma DeclaredPrintExact(a: Descriptor, b: Descriptor)
    requires Declared(a) && Declared(b)
    ensures Print(a) == Print(b)
            <==> || a == b
                 || (a.(extensions := []) == b.(extensions := []) && {a.extensions, b.extensions} == {[], [[]]})
  {
    hide Print;
    PrintExact(a, b);
    var none: seq<Bytes> := [];
    var one: seq<Bytes> := [[]];
    if a.extensions != b.extensions && NormExtensions(a.extensions) == NormExtensions(b.extensions) {
      assert {a.extensions, b.extensions} == {none, one};
    }
    if {a.extensions, b.extensions} == {none, one} {
      assert a.extensions in {none, one} && b.extensions in {none, one};
    }
  }

  // ---- the printer ----

  /** append_escaped. */
  method AppendEscaped(out: string, v: Bytes, ghost rest: string) returns (r: string)
    ensures r + rest == out + Escape(v, rest)
  {
    r := out;
    for i := 0 to |v|
      invariant r + Escape(v[i..], rest) == out + Escape(v, rest)
    {
      assert v[i..][1..] == v[i + 1..];
      r := r + EscapeByte(v[i]);
    }
  }

  method AppendExtensions(out: string, xs: seq<Bytes>) returns (r: string)
    ensures r == out + Extensions(xs)
  {
    hide Escape;
    r := out;
    var first := true;
    for i := 0 to |xs|
      invariant first == (i == 0)
      invariant r + (if first then Extensions(xs) else LaterExtensions(xs[i..])) == out + Extensions(xs)
    {
      ghost var later := LaterExtensions(xs[i + 1..]);
      assert xs[i..][1..] == xs[i + 1..];
      assert first ==> Extensions(xs) == Escape(xs[i], later);
      if !first { r := r + ","; }
      first := false;
      r := AppendEscaped(r, xs[i], later);
    }
    r := r + "]";
  }

  /** A heading and an escaped value. */
  method AppendField(out: string, heading: string, v: Bytes, ghost rest: string) returns (r: string)
    ensures r + rest == out + (heading + Escape(v, rest))
  {
    hide Escape;
    r := AppendEscaped(out + heading, v, rest);
    assert out + heading + Escape(v, rest) == out + (heading + Escape(v, rest));
  }

  method PrintDescriptor(d: Descriptor) returns (out: string)
    ensures out == Print(d)
  {
    hide Escape, Extensions, Middle;
    ghost var r5 := ";extensions=[" + Extensions(d.extensions);
    ghost var r4 := ";sampling=" + Escape(d.sampling, r5);
    ghost var r3 := ";tokenizer=" + Escape(d.tokenizer, Middle(d));
    ghost var r2 := ";adapter=" + Escape(d.adapter, r3);
    ghost var r1 := ";revision=" + Escape(d.revision, r2);
    out := AppendField([], "model=", d.model, r1);
    out := AppendField(out, ";revision=", d.revision, r2);
    out := AppendField(out, ";adapter=", d.adapter, r3);
    out := AppendField(out, ";tokenizer=", d.tokenizer, Middle(d));
    out := AppendMiddle(out, d);
    out := AppendField(out, ";shape=", d.shape, r4);
    out := AppendField(out, ";sampling=", d.sampling, r5);
    ghost var done := out;
    out := AppendExtensions(out + ";extensions=[", d.extensions);
    assert done + ";extensions=[" + Extensions(d.extensions) == done + r5;
    assert [] + Print(d) == Print(d);
  }

  method AppendMiddle(out: string, d: Descriptor) returns (r: string)
    ensures r + Tail(d) == out + Middle(d)
  {
    hide Tail, PhaseName, DtypeName, BackendName, ModeName, Decimal, Device;
    ghost var device := ";device=" + Device(d.device, Tail(d));
    r := out + ";phase=" + PhaseName(d.phase) + ";dtype=" + DtypeName(d.dtype);
    r := r + ";backend=" + BackendName(d.backend) + ";execution_mode=" + ModeName(d.mode);
    assert r + device == out + Middle(d);
    r := AppendDevice(r, d.device, Tail(d));
  }

  method AppendDevice(out: string, c: Types.Device, ghost rest: string) returns (r: string)
    ensures r + rest == out + (";device=" + Device(c, rest))
  {
    hide Decimal;
    r := out + ";device=backend" + Decimal(c.backend) + "/cc" + Decimal(c.major);
    r := r + "." + Decimal(c.minor) + "/mem" + Decimal(c.minMemory);
  }
}

/** The printed descriptor as a flat list of pieces. */
module Printed {
  import opened Types
  import opened Canonical

  /** The pieces one after another, then `rest`. */
  function Glued(ps: seq<string>, rest: string): string {
    if |ps| == 0 then rest else ps[0] + Glued(ps[1..], rest)
  }

  function Escaped(v: Bytes): string { Escape(v, "") }

  /** Entries of the list behind the first, each behind a comma. */
  function Listed(xs: seq<Bytes>): seq<string> {
    if xs == [] then [] else [",", Escaped(xs[0])] + Listed(xs[1..])
  }

  const PHASES := ["prefill", "decode"]
  const DTYPES := ["float16", "bfloat16", "float32", "int8", "int4"]
  const BACKENDS := ["cpu", "cuda", "rocm", "mps", "trt"]
  const MODES := ["eager", "graph", "compiled"]

  function Called(names: seq<string>, x: U8): string { if x < |names| then names[x] else "unknown" }

  function NamePieces(d: Descriptor): seq<string> {
    ["model=", Escaped(d.model), ";revision=", Escaped(d.revision)]
    + [";adapter=", Escaped(d.adapter), ";tokenizer=", Escaped(d.tokenizer)]
  }

  function TraitPieces(d: Descriptor): seq<string> {
    [";phase=", Called(PHASES, d.phase), ";dtype=", Called(DTYPES, d.dtype)]
    + [";backend=", Called(BACKENDS, d.backend), ";execution_mode=", Called(MODES, d.mode)]
  }

  function DevicePieces(c: Device): seq<string> {
    [";device=backend", Decimal(c.backend), "/cc", Decimal(c.major)] + [".", Decimal(c.minor), "/mem", Decimal(c.minMemory)]
  }

  function ListPieces(xs: seq<Bytes>): seq<string> {
    if xs == [] then ["]"] else [Escaped(xs[0])] + Listed(xs[1..]) + ["]"]
  }

  function Pieces(d: Descriptor): seq<string> {
    NamePieces(d) + TraitPieces(d) + DevicePieces(d.device)
    + [";shape=", Escaped(d.shape), ";sampling=", Escaped(d.sampling)] + [";extensions=["] + ListPieces(d.extensions)
  }

  // ---- lists of pieces ----

  lemma {:induction false} GluedAppend(ps: seq<string>, qs: seq<string>, rest: string)
    ensures Glued(ps + qs, rest) == Glued(ps, Glued(qs, rest))
  {
    if ps == [] {
      assert ps + qs == qs;
    } else {
      assert (ps + qs)[1..] == ps[1..] + qs;
      GluedAppend(ps[1..], qs, rest);
    }
  }

  lemma One(a: string, rest: string)
    ensures Glued([a], rest) == a + rest
  {
    assert [a][1..] == [];
  }

  lemma FourPieces(a: string, b: string, c: string, d: string, rest: string)
    ensures Glued([a, b, c, d], rest) == a + (b + (c + (d + rest)))
  {
    hide Glued;
    One(d, rest);
    One(c, d + rest);
    One(b, c + (d + rest));
    One(a, b + (c + (d + rest)));
    GluedAppend([a, b, c], [d], rest);
    GluedAppend([a, b], [c], d + rest);
    GluedAppend([a], [b], c + (d + rest));
    assert [a] + [b] == [a, b] && [a, b] + [c] == [a, b, c] && [a, b, c] + [d] == [a, b, c, d];
  }

  lemma {:induction false} EscapedFirst(v: Bytes, rest: string)
    ensures Escape(v, rest) == Escaped(v) + rest
  {
    hide EscapeByte;
    if v != [] {
      EscapedFirst(v[1..], rest);
      assert EscapeByte(v[0]) + (Escaped(v[1..]) + rest) == (EscapeByte(v[0]) + Escaped(v[1..])) + rest;
    }
  }

  // ---- the text ----

  lemma NamesAre(x: U8)
    ensures PhaseName(x) == Called(PHASES, x) && DtypeName(x) == Called(DTYPES, x)
    ensures BackendName(x) == Called(BACKENDS, x) && ModeName(x) == Called(MODES, x)
  {
  }

  lemma {:induction false} LaterGlued(xs: seq<Bytes>)
    ensures LaterExtensions(xs) == Glued(Listed(xs) + ["]"], "")
  {
    hide Escape, Escaped, Glued;
    if xs == [] {
      One("]", "");
      assert Listed(xs) + ["]"] == ["]"];
    } else {
      var rest := LaterExtensions(xs[1..]);
      LaterGlued(xs[1..]);
      EscapedFirst(xs[0], rest);
      One(Escaped(xs[0]), rest);
      One(",", Escaped(xs[0]) + rest);
      GluedAppend([","], [Escaped(xs[0])], rest);
      assert [","] + [Escaped(xs[0])] == [",", Escaped(xs[0])];
      GluedAppend([",", Escaped(xs[0])], Listed(xs[1..]) + ["]"], "");
      assert [",", Escaped(xs[0])] + (Listed(xs[1..]) + ["]"]) == Listed(xs) + ["]"];
    }
  }

  lemma ListGlued(xs: seq<Bytes>)
    ensures Extensions(xs) == Glued(ListPieces(xs), "")
  {
    hide Escape, Escaped, Glued, Listed, LaterExtensions;
    if xs == [] { One("]", ""); } else {
      var rest := LaterExtensions(xs[1..]);
      LaterGlued(xs[1..]);
      EscapedFirst(xs[0], rest);
      One(Escaped(xs[0]), rest);
      GluedAppend([Escaped(xs[0])], Listed(xs[1..]) + ["]"], "");
      assert [Escaped(xs[0])] + (Listed(xs[1..]) + ["]"]) == ListPieces(xs);
    }
  }

  lemma TailGlued(d: Descriptor)
    ensures Tail(d) == Glued([";shape=", Escaped(d.shape), ";sampling=", Escaped(d.sampling)] + [";extensions=["] + ListPieces(d.extensions), "")
  {
    hide Escape, Escaped, Glued, Extensions, ListPieces;
    var head, list := [";shape=", Escaped(d.shape), ";sampling=", Escaped(d.sampling)], ListPieces(d.extensions);
    var r2 := Extensions(d.extensions);
    var r1 := ";extensions=[" + r2;
    ListGlued(d.extensions);
    One(";extensions=[", r2);
    EscapedFirst(d.sampling, r1);
    EscapedFirst(d.shape, ";sampling=" + Escape(d.sampling, r1));
    FourPieces(head[0], head[1], head[2], head[3], r1);
    GluedAppend(head + [";extensions=["], list, "");
    GluedAppend(head, [";extensions=["], r2);
  }

  lemma DeviceGlued(c: Device, rest: string)
    ensures ";device=" + Canonical.Device(c, rest) == Glued(DevicePieces(c), rest)
  {
    hide Decimal, Glued;
    var one, two := [";device=backend", Decimal(c.backend), "/cc", Decimal(c.major)], [".", Decimal(c.minor), "/mem", Decimal(c.minMemory)];
    var mid := Glued(two, rest);
    FourPieces(two[0], two[1], two[2], two[3], rest);
    FourPieces(one[0], one[1], one[2], one[3], mid);
    GluedAppend(one, two, rest);
    assert ";device=" + "backend" == ";device=backend";
    Regroup(";device=", "backend", Decimal(c.backend) + ("/cc" + (Decimal(c.major) + mid)));
  }

  lemma Regroup(a: string, b: string, c: string)
    ensures a + (b + c) == (a + b) + c
  {
  }

  lemma MiddleGlued(d: Descriptor)
    ensures Middle(d) == Glued(TraitPieces(d), ";device=" + Canonical.Device(d.device, Tail(d)))
  {
    hide PhaseName, DtypeName, BackendName, ModeName, Called, Glued, Canonical.Device, Tail;
    NamesAre(d.phase);
    NamesAre(d.dtype);
    NamesAre(d.backend);
    NamesAre(d.mode);
    var rest := ";device=" + Canonical.Device(d.device, Tail(d));
    var one, two := [";phase=", Called(PHASES, d.phase), ";dtype=", Called(DTYPES, d.dtype)],
                    [";backend=", Called(BACKENDS, d.backend), ";execution_mode=", Called(MODES, d.mode)];
    FourPieces(two[0], two[1], two[2], two[3], rest);
    FourPieces(one[0], one[1], one[2], one[3], Glued(two, rest));
    GluedAppend(one, two, rest);
  }

  /** The text that canonical_string gives. */
  lemma PrintLayout(d: Descriptor)
    ensures Print(d) == Glued(Pieces(d), "")
  {
    hide Escape, Escaped, Glued, Tail, Middle, Canonical.Device, TraitPieces, DevicePieces, ListPieces;
    var one, two := ["model=", Escaped(d.model), ";revision=", Escaped(d.revision)], [";adapter=", Escaped(d.adapter), ";tokenizer=", Escaped(d.tokenizer)];
    var tail := [";shape=", Escaped(d.shape), ";sampling=", Escaped(d.sampling)] + [";extensions=["] + ListPieces(d.extensions);
    var r3 := Middle(d);
    var r2 := ";tokenizer=" + Escape(d.tokenizer, r3);
    var r1 := ";adapter=" + Escape(d.adapter, r2);
    TailGlued(d);
    DeviceGlued(d.device, Tail(d));
    MiddleGlued(d);
    EscapedFirst(d.tokenizer, r3);
    EscapedFirst(d.adapter, r2);
    FourPieces(two[0], two[1], two[2], two[3], r3);
    EscapedFirst(d.revision, r1);
    EscapedFirst(d.model, ";revision=" + Escape(d.revision, r1));
    FourPieces(one[0], one[1], one[2], one[3], r1);
    GluedAppend(one, two, r3);
    GluedAppend(NamePieces(d) + TraitPieces(d) + DevicePieces(d.device), tail, "");
    GluedAppend(NamePieces(d) + TraitPieces(d), DevicePieces(d.device), Tail(d));
    GluedAppend(NamePieces(d), TraitPieces(d), Glued(DevicePieces(d.device), Tail(d)));
    assert NamePieces(d) + TraitPieces(d) + DevicePieces(d.device) + tail == Pieces(d);
  }
}

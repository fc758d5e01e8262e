/** The part of the core binary format that the rewriter and the shim need:
    sections (5.5.2 of the WebAssembly Core Specification), names (5.2.4), limits
    (5.3.9) and the import section (5.5.5). The parsers follow the grammar, not
    the code. */
module Wasm {
  import opened Base
  import opened Leb128

  /** An import; its descriptor is kept as bytes. */
  datatype Import = Import(mod: bytes, field: bytes, desc: bytes)

  datatype Section = Imports(imports: seq<Import>) | Other(id: byte, body: bytes)

  datatype Module = Module(preamble: bytes, sections: seq<Section>)

  const IMPORT_SECTION: byte := 2
  const PREAMBLE_LEN: nat := 8

  // ---- the grammar ----

  function ParseName(b: bytes): Option<(bytes, bytes)> {
    match ParseU32(b)
    case None => None
    case Some((n, rest)) => if n <= |rest| then Some((rest[..n], rest[n..])) else None
  }

  /** Bytes of limits: no maximum, or one. */
  function LimitsLen(b: bytes): Option<nat> {
    if b == [] || b[0] > 1 then None
    else
      match U32Len(b[1..])
      case None => None
      case Some(n) =>
        if b[0] == 0 then Some(1 + n)
        else
          match U32Len(b[1 + n..])
          case None => None
          case Some(k) => Some(1 + n + k)
  }

  function U32Len(b: bytes): (r: Option<nat>)
    ensures r.Some? ==> 0 < r.value <= |b|
  {
    ParseSuffix(b, 5);
    match ParseU32(b)
    case None => None
    case Some((_, rest)) => Some(|b| - |rest|)
  }

  /** Bytes of an import descriptor: a function, a table, a memory or a global. */
  function DescLen(b: bytes): Option<nat> {
    if b == [] then None
    else
      match b[0]
      case 0 => (match U32Len(b[1..]) case None => None case Some(n) => Some(1 + n))
      case 1 =>
        if |b| < 2 || !(b[1] == 0x70 || b[1] == 0x6F) then None
        else (match LimitsLen(b[2..]) case None => None case Some(n) => Some(2 + n))
      case 2 => (match LimitsLen(b[1..]) case None => None case Some(n) => Some(1 + n))
      case 3 => if |b| >= 3 && b[2] <= 1 then Some(3) else None
      case _ => None
  }

  function ParseImport(b: bytes): Option<(Import, bytes)> {
    match ParseName(b)
    case None => None
    case Some((mod, rest)) =>
      match ParseName(rest)
      case None => None
      case Some((field, more)) =>
        DescLenFits(more);
        match DescLen(more)
        case None => None
        case Some(n) => Some((Import(mod, field, more[..n]), more[n..]))
  }

  function ParseImports(b: bytes, count: nat): Option<(seq<Import>, bytes)>
    decreases count
  {
    if count == 0 then Some(([], b))
    else
      match ParseImport(b)
      case None => None
      case Some((im, rest)) =>
        match ParseImports(rest, count - 1)
        case None => None
        case Some((ims, end)) => Some(([im] + ims, end))
  }

  /** The body of an import section, with nothing behind it. */
  function ParseImportBody(b: bytes): Option<seq<Import>> {
    match ParseU32(b)
    case None => None
    case Some((count, rest)) =>
      match ParseImports(rest, count)
      case None => None
      case Some((ims, end)) => if end == [] then Some(ims) else None
  }

  function ParseSection(b: bytes): Option<(Section, bytes)> {
    if b == [] then None
    else
      match ParseU32(b[1..])
      case None => None
      case Some((size, rest)) =>
        if size > |rest| then None
        else if b[0] != IMPORT_SECTION then Some((Other(b[0], rest[..size]), rest[size..]))
        else
          match ParseImportBody(rest[..size])
          case None => None
          case Some(ims) => Some((Imports(ims), rest[size..]))
  }

  function ParseSections(b: bytes): Option<seq<Section>>
    decreases |b|
  {
    if b == [] then Some([])
    else
      match ParseSection(b)
      case None => None
      case Some((s, rest)) =>
        SectionShorter(b);
        match ParseSections(rest)
        case None => None
        case Some(ss) => Some([s] + ss)
  }

  function ParseModule(b: bytes): Option<Module> {
    if |b| < PREAMBLE_LEN then None
    else
      match ParseSections(b[PREAMBLE_LEN..])
      case None => None
      case Some(ss) => Some(Module(b[..PREAMBLE_LEN], ss))
  }

  lemma DescLenFits(b: bytes)
    ensures LimitsLen(b).Some? ==> LimitsLen(b).value <= |b|
    ensures DescLen(b).Some? ==> 0 < DescLen(b).value <= |b|
  {
  }

  lemma SectionShorter(b: bytes)
    ensures ParseSection(b).Some? ==> |ParseSection(b).value.1| < |b|
  {
    if b != [] {
      ParseSuffix(b[1..], 5);
    }
  }

  // ---- what is written ----

  function EmitName(x: bytes): bytes {
    Encode(|x|) + x
  }

  function EmitImport(im: Import): bytes {
    EmitName(im.mod) + EmitName(im.field) + im.desc
  }

  function EmitImports(ims: seq<Import>): bytes {
    if ims == [] then [] else EmitImport(ims[0]) + EmitImports(ims[1..])
  }

  function SectionId(s: Section): byte {
    if s.Imports? then IMPORT_SECTION else s.id
  }

  function SectionBody(s: Section): bytes {
    if s.Imports? then Encode(|s.imports|) + EmitImports(s.imports) else s.body
  }

  function EmitSection(s: Section): bytes {
    [SectionId(s)] + Encode(|SectionBody(s)|) + SectionBody(s)
  }

  function EmitSections(ss: seq<Section>): bytes {
    if ss == [] then [] else EmitSection(ss[0]) + EmitSections(ss[1..])
  }

  function EmitModule(m: Module): bytes {
    m.preamble + EmitSections(m.sections)
  }

  // ---- round trip ----

  predicate ImportFits(im: Import) {
    |im.mod| < TWO_32 && |im.field| < TWO_32 && DescLen(im.desc) == Some(|im.desc|)
  }

  /** Lengths and counts fit 32 bits, and descriptors are whole. */
  predicate SectionFits(s: Section) {
    && |SectionBody(s)| < TWO_32
    && match s
       case Imports(ims) => |ims| < TWO_32 && forall i :: 0 <= i < |ims| ==> ImportFits(ims[i])
       case Other(id, _) => id != IMPORT_SECTION
  }

  predicate Fits(m: Module) {
    |m.preamble| == PREAMBLE_LEN && forall i :: 0 <= i < |m.sections| ==> SectionFits(m.sections[i])
  }

  lemma NameRoundTrip(x: bytes, rest: bytes)
    requires |x| < TWO_32
    ensures ParseName(EmitName(x) + rest) == Some((x, rest))
  {
    assert EmitName(x) + rest == Encode(|x|) + (x + rest);
    ParseU32Encode(|x|, x + rest);
    assert (x + rest)[..|x|] == x && (x + rest)[|x|..] == rest;
  }

  lemma U32LenLocal(b: bytes, more: bytes)
    requires U32Len(b).Some?
    ensures U32Len(b[..U32Len(b).value] + more) == U32Len(b)
  {
    ParseLocal(b, 5, more);
    ParseSuffix(b, 5);
  }

  /** What is behind i bytes of a prefix of b. */
  lemma Cut(b: bytes, i: nat, n: nat, more: bytes)
    requires i <= n <= |b|
    ensures (b[..n] + more)[i..] == b[i..][..n - i] + more
    ensures b[i..][..n - i] == b[i..n]
  {
  }

  lemma LimitsLenLocal(b: bytes, more: bytes)
    requires LimitsLen(b).Some?
    ensures LimitsLen(b).value <= |b| && LimitsLen(b[..LimitsLen(b).value] + more) == LimitsLen(b)
  {
    hide U32Len;
    DescLenFits(b);
    var len, n := LimitsLen(b).value, U32Len(b[1..]).value;
    var tail := b[1 + n..len] + more;
    U32LenLocal(b[1..], tail);
    Cut(b, 1, len, more);
    Cut(b[1..], n, len - 1, more);
    assert b[1..][..len - 1] + more == b[1..][..n] + tail;
    if b[0] == 1 {
      U32LenLocal(b[1 + n..], more);
      Cut(b, 1 + n, len, more);
    }
  }

  /** Descriptors can be cut out and put in front of anything. */
  lemma DescLenLocal(b: bytes, more: bytes)
    requires DescLen(b).Some?
    ensures DescLen(b).value <= |b| && DescLen(b[..DescLen(b).value] + more) == DescLen(b)
  {
    hide U32Len, LimitsLen;
    DescLenFits(b);
    var n := DescLen(b).value;
    Cut(b, 1, n, more);
    if b[0] == 0 {
      U32LenLocal(b[1..], more);
    } else if b[0] == 1 {
      LimitsLenLocal(b[2..], more);
      Cut(b, 2, n, more);
    } else if b[0] == 2 {
      LimitsLenLocal(b[1..], more);
    }
  }

  lemma Regrouped(a: bytes, b: bytes, c: bytes, d: bytes)
    ensures a + b + c + d == a + (b + (c + d))
  {
  }

  lemma ImportRoundTrip(im: Import, rest: bytes)
    requires ImportFits(im)
    ensures ParseImport(EmitImport(im) + rest) == Some((im, rest))
  {
    hide DescLen, ParseName, EmitName;
    var tail := im.desc + rest;
    Regrouped(EmitName(im.mod), EmitName(im.field), im.desc, rest);
    NameRoundTrip(im.mod, EmitName(im.field) + tail);
    NameRoundTrip(im.field, tail);
    DescLenLocal(im.desc, rest);
    assert im.desc[..|im.desc|] == im.desc;
    assert tail[..|im.desc|] == im.desc && tail[|im.desc|..] == rest;
  }

  /** The module's name stands first, then the field's, then the descriptor. */
  lemma ImportLayout(mod: bytes, field: bytes, desc: bytes, rest: bytes)
    requires ImportFits(Import(mod, field, desc))
    ensures ParseImport(Encode(|mod|) + mod + (Encode(|field|) + field) + desc + rest) ==
      Some((Import(mod, field, desc), rest))
  {
    ImportRoundTrip(Import(mod, field, desc), rest);
  }

  /** The descriptors: 0 and the type of a function; 1, an element type and limits
      for a table; 2 and limits for a memory; 3, a value type and 0 or 1 for a
      global. Limits are 0 and a minimum, or 1, a minimum and a maximum. */
  lemma DescLayout(min: u32, max: u32, c: byte)
    ensures var lo, hi := Encode(min), Encode(max);
      && DescLen([0] + lo) == Some(1 + |lo|)
      && DescLen([1, 0x70, 0] + lo) == Some(3 + |lo|) == DescLen([1, 0x6F, 0] + lo)
      && DescLen([1, 0x70, 1] + (lo + hi)) == Some(3 + |lo| + |hi|) == DescLen([1, 0x6F, 1] + (lo + hi))
      && DescLen([2, 0] + lo) == Some(2 + |lo|) && DescLen([2, 1] + (lo + hi)) == Some(2 + |lo| + |hi|)
    ensures DescLen([3, c, 0]) == Some(3) == DescLen([3, c, 1])
  {
    hide DescLen, Encode;
    FuncDesc(min);
    TableDesc(0x70, min, max);
    TableDesc(0x6F, min, max);
    MemoryDesc(min, max);
    GlobalDesc(c);
  }

  lemma FuncDesc(n: u32)
    ensures DescLen([0] + Encode(n)) == Some(1 + |Encode(n)|)
  {
    hide U32Len, LimitsLen, Encode;
    NumberLen(n, []);
    assert Encode(n) + [] == Encode(n) == ([0] + Encode(n))[1..];
  }

  lemma TableDesc(t: byte, min: u32, max: u32)
    requires t == 0x70 || t == 0x6F
    ensures DescLen([1, t, 0] + Encode(min)) == Some(3 + |Encode(min)|)
    ensures DescLen([1, t, 1] + (Encode(min) + Encode(max))) == Some(3 + |Encode(min)| + |Encode(max)|)
  {
    hide U32Len, LimitsLen, Encode;
    LimitsLayout(min, max);
    assert ([1, t, 0] + Encode(min))[2..] == [0] + Encode(min);
    assert ([1, t, 1] + (Encode(min) + Encode(max)))[2..] == [1] + (Encode(min) + Encode(max));
  }

  lemma MemoryDesc(min: u32, max: u32)
    ensures DescLen([2, 0] + Encode(min)) == Some(2 + |Encode(min)|)
    ensures DescLen([2, 1] + (Encode(min) + Encode(max))) == Some(2 + |Encode(min)| + |Encode(max)|)
  {
    hide U32Len, LimitsLen, Encode;
    LimitsLayout(min, max);
    assert ([2, 0] + Encode(min))[1..] == [0] + Encode(min);
    assert ([2, 1] + (Encode(min) + Encode(max)))[1..] == [1] + (Encode(min) + Encode(max));
  }

  lemma GlobalDesc(c: byte)
    ensures DescLen([3, c, 0]) == Some(3) == DescLen([3, c, 1])
  {
  }

  lemma NumberLen(n: u32, rest: bytes)
    ensures U32Len(Encode(n) + rest) == Some(|Encode(n)|)
  {
    ParseU32Encode(n, rest);
  }

  lemma LimitsLayout(min: u32, max: u32)
    ensures LimitsLen([0] + Encode(min)) == Some(1 + |Encode(min)|)
    ensures LimitsLen([1] + (Encode(min) + Encode(max))) == Some(1 + |Encode(min)| + |Encode(max)|)
  {
    hide U32Len, Encode;
    var lo, hi := Encode(min), Encode(max);
    NumberLen(min, []);
    NumberLen(min, hi);
    NumberLen(max, []);
    assert lo + [] == lo && hi + [] == hi;
    assert ([0] + lo)[1..] == lo && ([1] + (lo + hi))[1..] == lo + hi;
    assert ([1] + (lo + hi))[1 + |lo|..] == hi;
  }

  /** A section is its number, its length and its body; the import section is
      number 2, a count and as many imports. */
  lemma SectionLayout(id: byte, body: bytes, rest: bytes)
    requires |body| < TWO_32
    ensures ParseSection([id] + Encode(|body|) + body + rest) ==
      if id != 2 then Some((Other(id, body), rest))
      else if ParseImportBody(body).Some? then Some((Imports(ParseImportBody(body).value), rest)) else None
  {
    hide ParseSection, Encode;
    var b := [id] + Encode(|body|) + body + rest;
    assert b[1..] == Encode(|body|) + (body + rest);
    SectionRead(id, body, rest, b);
  }

  lemma SectionRead(id: byte, body: bytes, rest: bytes, b: bytes)
    requires |body| < TWO_32 && b != [] && b[0] == id && b[1..] == Encode(|body|) + (body + rest)
    ensures ParseSection(b) ==
      if id != 2 then Some((Other(id, body), rest))
      else if ParseImportBody(body).Some? then Some((Imports(ParseImportBody(body).value), rest)) else None
  {
    hide Encode, ParseU32, ParseImportBody;
    ParseU32Encode(|body|, body + rest);
    assert (body + rest)[..|body|] == body && (body + rest)[|body|..] == rest;
  }

  lemma {:induction false} ImportsRoundTrip(ims: seq<Import>, rest: bytes)
    requires forall i :: 0 <= i < |ims| ==> ImportFits(ims[i])
    ensures ParseImports(EmitImports(ims) + rest, |ims|) == Some((ims, rest))
  {
    hide ParseImport, EmitImport, ImportFits;
    if ims == [] {
      assert EmitImports(ims) + rest == rest;
    } else {
      assert EmitImports(ims) + rest == EmitImport(ims[0]) + (EmitImports(ims[1..]) + rest);
      ImportRoundTrip(ims[0], EmitImports(ims[1..]) + rest);
      ImportsRoundTrip(ims[1..], rest);
      assert ims == [ims[0]] + ims[1..];
    }
  }

  lemma SectionRoundTrip(s: Section, rest: bytes)
    requires SectionFits(s)
    ensures ParseSection(EmitSection(s) + rest) == Some((s, rest))
  {
    hide Encode, EmitImports, ParseImports, ImportFits;
    var body := SectionBody(s);
    var b := EmitSection(s) + rest;
    assert b[1..] == Encode(|body|) + (body + rest);
    ParseU32Encode(|body|, body + rest);
    assert (body + rest)[..|body|] == body && (body + rest)[|body|..] == rest;
    if s.Imports? {
      ParseU32Encode(|s.imports|, EmitImports(s.imports));
      ImportsRoundTrip(s.imports, []);
      assert EmitImports(s.imports) + [] == EmitImports(s.imports);
    }
  }

  lemma EmitSectionLonger(s: Section)
    ensures EmitSection(s) != []
  {
  }

  lemma {:induction false} SectionsRoundTrip(ss: seq<Section>)
    requires forall i :: 0 <= i < |ss| ==> SectionFits(ss[i])
    ensures ParseSections(EmitSections(ss)) == Some(ss)
  {
    hide ParseSection, EmitSection, SectionFits;
    if ss != [] {
      SectionRoundTrip(ss[0], EmitSections(ss[1..]));
      EmitSectionLonger(ss[0]);
      SectionsRoundTrip(ss[1..]);
      assert ss == [ss[0]] + ss[1..];
      assert EmitSections(ss) == EmitSection(ss[0]) + EmitSections(ss[1..]);
    }
  }

  /** A module that is written out is read back. */
  lemma ModuleRoundTrip(m: Module)
    requires Fits(m)
    ensures ParseModule(EmitModule(m)) == Some(m)
  {
    SectionsRoundTrip(m.sections);
    var b := EmitModule(m);
    assert b[..PREAMBLE_LEN] == m.preamble && b[PREAMBLE_LEN..] == EmitSections(m.sections);
  }
}

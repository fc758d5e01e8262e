/** importrewrite.go: every import from the module "" is made to name another
    module, on the bytes of the module. */
module Rewrite {
  import opened Base
  import opened Leb128
  import opened Wasm

  // ---- what it means ----

  function RenamedImport(im: Import, name: bytes): Import {
    if im.mod == [] then Import(name, im.field, im.desc) else im
  }

  function RenamedImports(ims: seq<Import>, name: bytes): seq<Import> {
    seq(|ims|, i requires 0 <= i < |ims| => RenamedImport(ims[i], name))
  }

  function RenamedSection(s: Section, name: bytes): Section {
    if s.Imports? then Imports(RenamedImports(s.imports, name)) else s
  }

  function RenamedSections(ss: seq<Section>, name: bytes): seq<Section> {
    seq(|ss|, i requires 0 <= i < |ss| => RenamedSection(ss[i], name))
  }

  /** The module in which "" is called `name`; nothing else differs. */
  function Renamed(m: Module, name: bytes): Module {
    Module(m.preamble, RenamedSections(m.sections, name))
  }

  /** The second list is the first with "" called `name`: as many imports, with
      the same fields and descriptors. */
  predicate OnlyModRenamed(ims: seq<Import>, outs: seq<Import>, name: bytes) {
    && |outs| == |ims|
    && forall i :: 0 <= i < |ims| ==>
         && outs[i].field == ims[i].field && outs[i].desc == ims[i].desc
         && outs[i].mod == if ims[i].mod == [] then name else ims[i].mod
  }

  lemma RenamedPointwise(ims: seq<Import>, name: bytes)
    ensures OnlyModRenamed(ims, RenamedImports(ims, name), name)
  {
  }

  /** Section by section: the same but for the modules of imports. */
  predicate OnlyImportsRenamed(ss: seq<Section>, outs: seq<Section>, name: bytes) {
    && |outs| == |ss|
    && forall i :: 0 <= i < |ss| ==>
         && (ss[i].Other? ==> outs[i] == ss[i])
         && (ss[i].Imports? ==> outs[i].Imports? && OnlyModRenamed(ss[i].imports, outs[i].imports, name))
  }

  predicate HasEmpty(ims: seq<Import>) {
    exists i :: 0 <= i < |ims| && ims[i].mod == []
  }

  predicate SectionHasEmpty(s: Section) {
    s.Imports? && HasEmpty(s.imports)
  }

  predicate ImportsEmpty(ss: seq<Section>) {
    exists i :: 0 <= i < |ss| && SectionHasEmpty(ss[i])
  }

  /** The sections can still give their sizes in 32 bits. */
  predicate SizesFit(ss: seq<Section>) {
    forall i :: 0 <= i < |ss| ==> |SectionBody(ss[i])| < TWO_32
  }

  /** MEANING PRESERVED. For a well-formed module whose import section does not
      outgrow 32 bits, the rewritten bytes parse to the renamed module, and
      rewriting them once more changes no byte. */
  lemma RewritePreservesMeaning(b: bytes, m: Module, name: bytes)
    requires ParseModule(b) == Some(m) && |name| < TWO_32 && SizesFit(RenamedSections(m.sections, name))
    ensures ParseModule(EmitModule(Renamed(m, name))) == Some(Renamed(m, name))
    ensures var out := ParseModule(EmitModule(Renamed(m, name)));
      out.Some? && out.value.preamble == m.preamble && OnlyImportsRenamed(m.sections, out.value.sections, name)
    ensures name != [] ==>
      && !ImportsEmpty(Renamed(m, name).sections)
      && EmitModule(Renamed(Renamed(m, name), name)) == EmitModule(Renamed(m, name))
  {
    hide EmitModule, EmitSections, SectionBody, SizesFit;
    ParsedFits(b[PREAMBLE_LEN..], m.sections);
    RenamedFits(m.sections, name);
    ModuleRoundTrip(Renamed(m, name));
    SectionsPointwise(m.sections, name);
    if name != [] {
      RenamedTwice(m.sections, name);
    }
  }

  lemma SectionsPointwise(ss: seq<Section>, name: bytes)
    ensures OnlyImportsRenamed(ss, RenamedSections(ss, name), name)
  {
    forall i | 0 <= i < |ss| && ss[i].Imports?
      ensures OnlyModRenamed(ss[i].imports, RenamedSections(ss, name)[i].imports, name)
    {
      RenamedPointwise(ss[i].imports, name);
    }
  }

  lemma RenamedTwice(ss: seq<Section>, name: bytes)
    requires name != []
    ensures RenamedSections(RenamedSections(ss, name), name) == RenamedSections(ss, name)
    ensures !ImportsEmpty(RenamedSections(ss, name))
  {
    forall i | 0 <= i < |ss|
      ensures RenamedSection(RenamedSection(ss[i], name), name) == RenamedSection(ss[i], name)
    {
      if ss[i].Imports? {
        assert RenamedImports(RenamedImports(ss[i].imports, name), name) == RenamedImports(ss[i].imports, name);
      }
    }
  }

  lemma RenamedFits(ss: seq<Section>, name: bytes)
    requires forall i :: 0 <= i < |ss| ==> ParsedSection(ss[i])
    requires |name| < TWO_32 && SizesFit(RenamedSections(ss, name))
    ensures forall i :: 0 <= i < |ss| ==> SectionFits(RenamedSections(ss, name)[i])
  {
    hide SectionBody;
    forall i | 0 <= i < |ss| ensures SectionFits(RenamedSection(ss[i], name)) {
      assert |SectionBody(RenamedSections(ss, name)[i])| < TWO_32;
    }
  }

  /** What parsing yields fits, but for the size of the whole section. */
  predicate ParsedSection(s: Section) {
    match s
    case Imports(ims) => |ims| < TWO_32 && forall i :: 0 <= i < |ims| ==> ImportFits(ims[i])
    case Other(id, body) => id != IMPORT_SECTION && |body| < TWO_32
  }

  lemma {:induction false} ParsedFits(b: bytes, ss: seq<Section>)
    requires ParseSections(b) == Some(ss)
    ensures forall i :: 0 <= i < |ss| ==> ParsedSection(ss[i])
    decreases |b|
  {
    hide ParseImportBody, ParsedSection, ParseU32;
    if b != [] {
      SectionParsed(b);
      SectionShorter(b);
      var (s, rest) := ParseSection(b).value;
      ParsedFits(rest, ss[1..]);
      assert ss == [s] + ss[1..];
    }
  }

  lemma SectionParsed(b: bytes)
    ensures ParseSection(b).Some? ==> ParsedSection(ParseSection(b).value.0)
  {
    if b != [] && ParseU32(b[1..]).Some? {
      var (size, rest) := ParseU32(b[1..]).value;
      if size <= |rest| && ParseU32(rest[..size]).Some? {
        var (count, more) := ParseU32(rest[..size]).value;
        ImportsParsed(more, count);
      }
    }
  }

  lemma {:induction false} ImportsParsed(b: bytes, count: nat)
    ensures ParseImports(b, count).Some? ==>
      && |ParseImports(b, count).value.0| == count
      && forall i :: 0 <= i < count ==> ImportFits(ParseImports(b, count).value.0[i])
    decreases count
  {
    hide ParseImport, ImportFits;
    if count > 0 && ParseImport(b).Some? {
      ImportParsed(b);
      ImportsParsed(ParseImport(b).value.1, count - 1);
    }
  }

  lemma ImportParsed(b: bytes)
    ensures ParseImport(b).Some? ==> ImportFits(ParseImport(b).value.0)
  {
    hide DescLen;
    if ParseImport(b).Some? {
      var more := ParseName(ParseName(b).value.1).value.1;
      DescLenFits(more);
      var n := DescLen(more).value;
      DescLenLocal(more, []);
      assert more[..n] + [] == more[..n];
    }
  }

  // ---- appending to what has been written ----

  lemma {:induction false} EmitImportsAppend(ims: seq<Import>, im: Import)
    ensures EmitImports(ims + [im]) == EmitImports(ims) + EmitImport(im)
  {
    hide EmitImport;
    if ims == [] {
      assert ([] + [im])[1..] == [];
    } else {
      EmitImportsAppend(ims[1..], im);
      assert (ims + [im])[1..] == ims[1..] + [im];
      assert EmitImports(ims + [im]) == EmitImport(ims[0]) + (EmitImports(ims[1..]) + EmitImport(im));
    }
  }

  lemma {:induction false} EmitSectionsAppend(ss: seq<Section>, s: Section)
    ensures EmitSections(ss + [s]) == EmitSections(ss) + EmitSection(s)
  {
    hide EmitSection;
    if ss == [] {
      assert ([] + [s])[1..] == [];
    } else {
      EmitSectionsAppend(ss[1..], s);
      assert (ss + [s])[1..] == ss[1..] + [s];
      assert EmitSections(ss + [s]) == EmitSection(ss[0]) + (EmitSections(ss[1..]) + EmitSection(s));
    }
  }

  // ---- the code ----

  /** readCoreWasmName: the name and the offset behind it. */
  method ReadCoreWasmName(buf: bytes, offset: nat) returns (r: Option<(bytes, nat)>)
    requires offset <= |buf|
    ensures r.None? <==> ParseName(buf[offset..]).None?
    ensures r.Some? ==> offset < r.value.1 <= |buf| && ParseName(buf[offset..]) == Some((r.value.0, buf[r.value.1..]))
  {
    var n := LoadUint32(buf[offset..]);
    if n.None? {
      return None;
    }
    var (length, read) := n.value;
    var start := offset + read;
    if start + length > |buf| {
      return None;
    }
    assert buf[offset..][read..] == buf[start..];
    assert buf[start..][..length] == buf[start..start + length] && buf[start..][length..] == buf[start + length..];
    return Some((buf[start..start + length], start + length));
  }

  method SkipLimits(buf: bytes, at: nat) returns (r: Option<nat>)
    ensures r.Some? ==> r.value > at
    ensures at <= |buf| && LimitsLen(buf[at..]).Some? ==> r == Some(at + LimitsLen(buf[at..]).value)
  {
    if at >= |buf| {
      return None;
    }
    var flag := buf[at];
    var offset := at + 1;
    var n := LoadUint32(buf[offset..]);
    if n.None? {
      return None;
    }
    assert buf[at..][1..] == buf[offset..];
    offset := offset + n.value.1;
    if flag == 0x01 {
      assert buf[at..][1 + n.value.1..] == buf[offset..];
      var k := LoadUint32(buf[offset..]);
      if k.None? {
        return None;
      }
      offset := offset + k.value.1;
    }
    return Some(offset);
  }

  method SkipImportDesc(buf: bytes, at: nat) returns (r: Option<nat>)
    ensures r.Some? ==> r.value > at
    ensures at <= |buf| && DescLen(buf[at..]).Some? ==> r == Some(at + DescLen(buf[at..]).value)
  {
    hide LimitsLen;
    if at >= |buf| {
      return None;
    }
    var kind := buf[at];
    var offset := at + 1;
    assert buf[at..][1..] == buf[offset..];
    match kind
    case 0x00 =>
      var n := LoadUint32(buf[offset..]);
      if n.None? {
        return None;
      }
      return Some(offset + n.value.1);
    case 0x01 =>
      offset := offset + 1;
      assert offset <= |buf| ==> buf[at..][2..] == buf[offset..];
      r := SkipLimits(buf, offset);
    case 0x02 => r := SkipLimits(buf, offset);
    case 0x03 => return Some(offset + 2);
    case _ => return None;
  }

  /** writeName. */
  method WriteName(buf: bytes, name: bytes) returns (out: bytes)
    ensures |name| < TWO_32 ==> out == buf + EmitName(name)
  {
    var n := EncodeUint32(|name| % TWO_32);
    assert |name| < TWO_32 ==> buf + n + name == buf + (n + name);
    out := buf + n + name;
  }

  /** The body of an import section; `changed` says whether "" was named. */
  method RewriteImportSectionBody(body: bytes, newName: bytes) returns (r: Option<(bytes, bool)>)
    ensures ParseImportBody(body).Some? && |newName| < TWO_32 ==>
      var ims := ParseImportBody(body).value;
      r == Some((SectionBody(Imports(RenamedImports(ims, newName))), HasEmpty(ims)))
    ensures ParseImportBody(body).Some? && |newName| < TWO_32 ==>
      && r.Some? && ParseImportBody(r.value.0).Some?
      && OnlyModRenamed(ParseImportBody(body).value, ParseImportBody(r.value.0).value, newName)
      && (r.value.1 <==> exists i :: 0 <= i < |ParseImportBody(body).value| && ParseImportBody(body).value[i].mod == [])
  {
    hide ParseImports, ParseName, ParseU32, Encode, EmitImport, EmitImports, DescLen;
    ghost var good := ParseImportBody(body).Some? && |newName| < TWO_32;
    ghost var ims := if good then ParseImportBody(body).value else [];
    var n := LoadUint32(body);
    if n.None? {
      return None;
    }
    var count := n.value.0;
    var offset: nat := n.value.1;
    var out := EncodeUint32(count);
    var changed := false;
    if good {
      ImportsParsed(body[offset..], count);
    }
    EmitNothing();
    assert RenamedImports(ims[..0], newName) == [] && out + [] == out;
    for i := 0 to count
      invariant offset <= |body|
      invariant good ==> |ims| == count
      invariant good ==> ParseImports(body[offset..], count - i) == Some((ims[i..], []))
      invariant good ==> out == Encode(count) + EmitImports(RenamedImports(ims[..i], newName))
      invariant good ==> (changed <==> HasEmpty(ims[..i]))
    {
      ghost var start := offset;
      if good {
        NextImport(body[start..], ims, i);
      }
      var mod := ReadCoreWasmName(body, offset);
      if mod.None? {
        return None;
      }
      offset := mod.value.1;
      var field := ReadCoreWasmName(body, offset);
      if field.None? {
        return None;
      }
      offset := field.value.1;
      var descStart := offset;
      DescLenFits(body[descStart..]);
      var off := SkipImportDesc(body, offset);
      // A global may be said to end behind the section: Go panics or reads on there.
      if off.None? || off.value > |body| {
        return None;
      }
      offset := off.value;
      var modName := mod.value.0;
      if modName == [] {
        modName := newName;
        changed := true;
      }
      ghost var before := out;
      out := WriteName(out, modName);
      out := WriteName(out, field.value.0);
      out := out + body[descStart..offset];
      if good {
        assert body[descStart..][..offset - descStart] == body[descStart..offset];
        assert body[descStart..][offset - descStart..] == body[offset..];
        assert ims[i] == Import(mod.value.0, field.value.0, body[descStart..offset]);
        assert out == before + EmitImport(RenamedImport(ims[i], newName)) by {
          Concatenated(before, ims[i], newName);
        }
        RenamedAppend(ims, i, newName);
        EmptyAppend(ims, i);
        assert out == Encode(count) + EmitImports(RenamedImports(ims[..i + 1], newName));
      }
    }
    assert good ==> ims[..count] == ims;
    if good {
      BodyPointwise(ims, newName);
    }
    return Some((out, changed));
  }

  /** The body that was written has the imports that were read, renamed. */
  lemma BodyPointwise(ims: seq<Import>, name: bytes)
    requires |ims| < TWO_32 && |name| < TWO_32 && forall i :: 0 <= i < |ims| ==> ImportFits(ims[i])
    ensures var outs := RenamedImports(ims, name);
      ParseImportBody(SectionBody(Imports(outs))) == Some(outs) && OnlyModRenamed(ims, outs, name)
  {
    hide Encode, EmitImports, ParseImports;
    var outs := RenamedImports(ims, name);
    RenamedPointwise(ims, name);
    ParseU32Encode(|outs|, EmitImports(outs));
    ImportsRoundTrip(outs, []);
    assert EmitImports(outs) + [] == EmitImports(outs);
  }

  lemma EmitNothing()
    ensures EmitImports([]) == []
  {
  }

  lemma Concatenated(before: bytes, im: Import, name: bytes)
    ensures var r := RenamedImport(im, name);
      before + EmitName(r.mod) + EmitName(r.field) + im.desc == before + EmitImport(r)
  {
  }

  /** The next import to read. */
  lemma NextImport(b: bytes, ims: seq<Import>, i: nat)
    requires i < |ims| && ParseImports(b, |ims| - i) == Some((ims[i..], []))
    ensures ParseImport(b).Some? && ParseImport(b).value.0 == ims[i] && ImportFits(ims[i])
    ensures ParseImports(ParseImport(b).value.1, |ims| - i - 1) == Some((ims[i + 1..], []))
    ensures ParseName(b).Some? && ParseName(ParseName(b).value.1).Some?
      && DescLen(ParseName(ParseName(b).value.1).value.1).Some?
  {
    hide ParseName, DescLen;
    ImportParsed(b);
    assert ims[i..][0] == ims[i] && ims[i..][1..] == ims[i + 1..];
  }

  lemma RenamedAppend(ims: seq<Import>, i: nat, name: bytes)
    requires i < |ims|
    ensures EmitImports(RenamedImports(ims[..i + 1], name)) ==
      EmitImports(RenamedImports(ims[..i], name)) + EmitImport(RenamedImport(ims[i], name))
  {
    hide EmitImport, RenamedImport;
    assert RenamedImports(ims[..i + 1], name) == RenamedImports(ims[..i], name) + [RenamedImport(ims[i], name)];
    EmitImportsAppend(RenamedImports(ims[..i], name), RenamedImport(ims[i], name));
  }

  lemma EmptyAppend(ims: seq<Import>, i: nat)
    requires i < |ims|
    ensures HasEmpty(ims[..i + 1]) <==> HasEmpty(ims[..i]) || ims[i].mod == []
  {
    var a, b := ims[..i], ims[..i + 1];
    assert b[i] == ims[i];
    assert forall j :: 0 <= j < i ==> a[j] == b[j];
  }

  /** One section, at an offset: what is written for it, where the next one begins,
      and whether it had the empty name. */
  method RewriteSection(b: bytes, at: nat, newName: bytes) returns (r: Option<(bytes, nat, bool)>)
    requires at < |b|
    ensures r.Some? ==> at < r.value.1 <= |b|
    ensures ParseSection(b[at..]).Some? && |newName| < TWO_32 ==>
      var (s, rest) := ParseSection(b[at..]).value;
      |SectionBody(RenamedSection(s, newName))| < TWO_32 ==>
      && r.Some? && r.value.0 == EmitSection(RenamedSection(s, newName))
      && b[r.value.1..] == rest && (r.value.2 <==> SectionHasEmpty(s))
  {
    hide ParseImportBody, ParseU32, Encode, SectionBody, RenamedImports, OnlyModRenamed, HasEmpty;
    var id, offset := b[at], at + 1;
    assert b[at..][1..] == b[offset..];
    var n := LoadUint32(b[offset..]);
    if n.None? {
      return None;
    }
    var (size, read) := n.value;
    assert b[offset..][read..] == b[offset + read..];
    offset := offset + read;
    if offset + size > |b| {
      return None;
    }
    var body := b[offset..offset + size];
    assert b[offset..][..size] == body && b[offset..][size..] == b[offset + size..];
    offset := offset + size;
    if id != IMPORT_SECTION {
      var header := EncodeUint32(size);
      Verbatim(Other(id, body), header, newName);
      return Some(([id] + header + body, offset, false));
    }
    var newBody := RewriteImportSectionBody(body, newName);
    if newBody.None? {
      return None;
    }
    var header := EncodeUint32(|newBody.value.0| % TWO_32);
    return Some(([id] + header + newBody.value.0, offset, newBody.value.1));
  }

  /** The loop over the sections. */
  method RewriteSections(b: bytes, newName: bytes) returns (r: Option<(bytes, bool)>)
    ensures ParseModule(b).Some? && |newName| < TWO_32 ==>
      var m := ParseModule(b).value;
      SizesFit(RenamedSections(m.sections, newName)) ==>
      r == Some((EmitModule(Renamed(m, newName)), ImportsEmpty(m.sections)))
  {
    hide ParseSections, ParseSection, ParseU32, SectionBody, EmitSections, EmitSection, RenamedSection, SectionHasEmpty;
    if |b| < PREAMBLE_LEN {
      return None;
    }
    ghost var good := ParseModule(b).Some? && |newName| < TWO_32
      && SizesFit(RenamedSections(ParseModule(b).value.sections, newName));
    ghost var ss := if good then ParseModule(b).value.sections else [];
    var out := b[..PREAMBLE_LEN];
    var changed := false;
    var offset := PREAMBLE_LEN;
    ghost var i: nat := 0;
    EmitNoSections();
    assert RenamedSections(ss[..0], newName) == [] && out + [] == out;
    while offset < |b|
      invariant PREAMBLE_LEN <= offset <= |b|
      invariant good ==> i <= |ss| && ParseSections(b[offset..]) == Some(ss[i..])
      invariant good ==> out == b[..PREAMBLE_LEN] + EmitSections(RenamedSections(ss[..i], newName))
      invariant good ==> (changed <==> ImportsEmpty(ss[..i]))
      decreases |b| - offset
    {
      if good {
        NextSection(b[offset..], ss, i);
        assert |SectionBody(RenamedSections(ss, newName)[i])| < TWO_32;
      }
      var next := RewriteSection(b, offset, newName);
      if next.None? {
        return None;
      }
      if good {
        SectionsAppend(ss, i, newName);
        SectionEmptyAppend(ss, i);
        i := i + 1;
      }
      out := out + next.value.0;
      offset := next.value.1;
      changed := changed || next.value.2;
    }
    if good {
      NoMoreSections(b[offset..], ss[i..]);
      assert ss[..i] == ss;
    }
    return Some((out, changed));
  }

  /** THE REWRITER. On every well-formed module with plain limits, the result is
      the renamed module, and `changed` is true exactly when "" was imported. */
  method RewriteEmptyImportModuleName(b: bytes, newName: bytes) returns (r: Option<(bytes, bool)>)
    ensures ParseModule(b).Some? && |newName| < TWO_32 ==>
      var m := ParseModule(b).value;
      SizesFit(RenamedSections(m.sections, newName)) ==>
      r == Some((EmitModule(Renamed(m, newName)), ImportsEmpty(m.sections)))
    ensures ParseModule(b).Some? && |newName| < TWO_32 ==>
      var m := ParseModule(b).value;
      SizesFit(RenamedSections(m.sections, newName)) ==>
      && r.Some? && ParseModule(r.value.0).Some?
      && ParseModule(r.value.0).value.preamble == m.preamble
      && OnlyImportsRenamed(m.sections, ParseModule(r.value.0).value.sections, newName)
  {
    hide ParseModule, EmitModule, Renamed, SizesFit, OnlyImportsRenamed, ImportsEmpty;
    r := RewriteSections(b, newName);
    ghost var m := ParseModule(b);
    if m.Some? && |newName| < TWO_32 && SizesFit(RenamedSections(m.value.sections, newName)) {
      RewritePreservesMeaning(b, m.value, newName);
    }
  }

  lemma EmitNoSections()
    ensures EmitSections([]) == []
  {
  }

  lemma NoMoreSections(b: bytes, ss: seq<Section>)
    requires b == [] && ParseSections(b) == Some(ss)
    ensures ss == []
  {
  }

  /** The next section to read. */
  lemma NextSection(b: bytes, ss: seq<Section>, i: nat)
    requires b != [] && i <= |ss| && ParseSections(b) == Some(ss[i..])
    ensures i < |ss| && ParseSection(b).Some? && ParseSection(b).value.0 == ss[i]
    ensures ParseSections(ParseSection(b).value.1) == Some(ss[i + 1..])
  {
    hide ParseSection;
    assert ss[i..][1..] == ss[i + 1..] || i == |ss|;
  }

  lemma Verbatim(s: Section, header: bytes, name: bytes)
    requires s.Other? && header == Encode(|s.body|)
    ensures [s.id] + header + s.body == EmitSection(RenamedSection(s, name))
  {
  }

  lemma SectionsAppend(ss: seq<Section>, i: nat, name: bytes)
    requires i < |ss|
    ensures EmitSections(RenamedSections(ss[..i + 1], name)) ==
      EmitSections(RenamedSections(ss[..i], name)) + EmitSection(RenamedSection(ss[i], name))
  {
    hide EmitSection, RenamedSection;
    assert RenamedSections(ss[..i + 1], name) == RenamedSections(ss[..i], name) + [RenamedSection(ss[i], name)];
    EmitSectionsAppend(RenamedSections(ss[..i], name), RenamedSection(ss[i], name));
  }

  lemma SectionEmptyAppend(ss: seq<Section>, i: nat)
    requires i < |ss|
    ensures ImportsEmpty(ss[..i + 1]) <==> ImportsEmpty(ss[..i]) || SectionHasEmpty(ss[i])
  {
    var a, b := ss[..i], ss[..i + 1];
    assert b[i] == ss[i];
    assert forall j :: 0 <= j < i ==> a[j] == b[j];
  }
}

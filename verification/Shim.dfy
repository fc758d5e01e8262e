/** shim.go: a module that imports items and exports each of them again, written
    byte by byte into three sections with one index counter per sort. */
module Shim {
  import opened Base
  import opened Leb128
  import opened Wasm
  import Rewrite

  datatype Sort = Func | Table | Memory | Global | Unsupported {
    function Kind(): byte {
      match this
      case Func => 0
      case Table => 1
      case Memory => 2
      case Global => 3
      case Unsupported => 4
    }
  }

  datatype Item = Item(sort: Sort, fromModule: bytes, fromName: bytes, exportName: bytes,
                       params: bytes, results: bytes, globalType: byte, globalMutable: bool)

  datatype FuncType = FuncType(params: bytes, results: bytes)

  datatype Export = Export(name: bytes, kind: byte, index: u32)

  // ---- what the module should be ----

  predicate Buildable(it: Item) {
    it.fromModule != [] && !it.sort.Unsupported? && (it.sort.Global? ==> it.globalType != 0)
  }

  /** How many of the first n items have this sort. */
  function Count(items: seq<Item>, s: Sort, n: nat): (c: nat)
    requires n <= |items|
    ensures c <= n
  {
    if n == 0 then 0 else Count(items, s, n - 1) + if items[n - 1].sort == s then 1 else 0
  }

  /** The function types of the first n items. */
  function Types(items: seq<Item>, n: nat): (ts: seq<FuncType>)
    requires n <= |items|
    ensures |ts| == Count(items, Func, n)
  {
    if n == 0 then []
    else Types(items, n - 1) + if items[n - 1].sort.Func? then [FuncType(items[n - 1].params, items[n - 1].results)]
      else []
  }

  /** The descriptor of an import: a function of a given type, no bounds, or the
      value type of the global. */
  function DescBytes(it: Item, typeIdx: nat): bytes {
    match it.sort
    case Func => [0] + Encode(typeIdx)
    case Table => [1, 0x70, 0, 0]
    case Memory => [2, 0, 0]
    case Global => [3, it.globalType, if it.globalMutable then 1 else 0]
    case Unsupported => []
  }

  /** Functions are typed in order. */
  function DescOf(items: seq<Item>, i: nat): bytes
    requires i < |items|
  {
    DescBytes(items[i], Count(items, Func, i))
  }

  function ImportsOf(items: seq<Item>, n: nat): (ims: seq<Import>)
    requires n <= |items|
    ensures |ims| == n
  {
    seq(n, i requires 0 <= i < n => Import(items[i].fromModule, items[i].fromName, DescOf(items, i)))
  }

  /** Export i names the item that is the Count-th of its sort. */
  function ExportsOf(items: seq<Item>, n: nat): (es: seq<Export>)
    requires n <= |items| < TWO_32
    ensures |es| == n
  {
    seq(n, i requires 0 <= i < n => Export(items[i].exportName, items[i].sort.Kind(), Count(items, items[i].sort, i)))
  }

  /** The places of the imports of one kind: the index space of that sort. */
  function Space(ims: seq<Import>, kind: byte, n: nat): (ps: seq<nat>)
    requires n <= |ims|
    ensures forall k :: 0 <= k < |ps| ==> ps[k] < n
  {
    if n == 0 then []
    else Space(ims, kind, n - 1) + if ims[n - 1].desc != [] && ims[n - 1].desc[0] == kind then [n - 1] else []
  }

  lemma {:induction false} SpaceCounts(items: seq<Item>, s: Sort, n: nat)
    requires n <= |items| && !s.Unsupported? && forall i :: 0 <= i < |items| ==> Buildable(items[i])
    ensures |Space(ImportsOf(items, |items|), s.Kind(), n)| == Count(items, s, n)
  {
    if n > 0 {
      SpaceCounts(items, s, n - 1);
    }
  }

  lemma {:induction false} SpaceAt(items: seq<Item>, s: Sort, i: nat, n: nat)
    requires i < n <= |items| && !s.Unsupported? && items[i].sort == s
    requires forall i :: 0 <= i < |items| ==> Buildable(items[i])
    ensures var sp := Space(ImportsOf(items, |items|), s.Kind(), n);
      Count(items, s, i) < |sp| && sp[Count(items, s, i)] == i
  {
    if i == n - 1 {
      SpaceCounts(items, s, i);
    } else {
      SpaceAt(items, s, i, n - 1);
    }
  }

  /** EACH EXPORT NAMES ITS OWN IMPORT. The index of export i, looked up in the
      index space of its sort, is import i; and the type of a function import is
      that item's own type. */
  lemma {:induction false} ExportsNameOwnImports(items: seq<Item>, i: nat)
    requires i < |items| < TWO_32 && forall i :: 0 <= i < |items| ==> Buildable(items[i])
    ensures var e := ExportsOf(items, |items|)[i]; var sp := Space(ImportsOf(items, |items|), e.kind, |items|);
      e.name == items[i].exportName && e.index < |sp| && sp[e.index] == i
    ensures items[i].sort.Func? ==> var k := Count(items, Func, i); var ts := Types(items, |items|);
      && ImportsOf(items, |items|)[i].desc == [0] + Encode(k)
      && k < |ts| && ts[k] == FuncType(items[i].params, items[i].results)
  {
    SpaceAt(items, items[i].sort, i, |items|);
    if items[i].sort.Func? {
      TypeAt(items, i, |items|);
    }
  }

  lemma {:induction false} TypeAt(items: seq<Item>, i: nat, n: nat)
    requires i < n <= |items| && items[i].sort.Func?
    ensures Count(items, Func, i) < |Types(items, n)|
    ensures Types(items, n)[Count(items, Func, i)] == FuncType(items[i].params, items[i].results)
  {
    if i < n - 1 {
      TypeAt(items, i, n - 1);
    }
  }

  // ---- the type section and the export section ----

  function ParseTypes(b: bytes, count: nat): Option<(seq<FuncType>, bytes)>
    decreases count
  {
    if count == 0 then Some(([], b))
    else if b == [] || b[0] != 0x60 then None
    else
      match ParseName(b[1..])
      case None => None
      case Some((params, rest)) =>
        match ParseName(rest)
        case None => None
        case Some((results, more)) =>
          match ParseTypes(more, count - 1)
          case None => None
          case Some((ts, end)) => Some(([FuncType(params, results)] + ts, end))
  }

  function ParseExports(b: bytes, count: nat): Option<(seq<Export>, bytes)>
    decreases count
  {
    if count == 0 then Some(([], b))
    else
      match ParseName(b)
      case None => None
      case Some((name, rest)) =>
        if rest == [] || rest[0] > 3 then None
        else
          match ParseU32(rest[1..])
          case None => None
          case Some((index, more)) =>
            match ParseExports(more, count - 1)
            case None => None
            case Some((es, end)) => Some(([Export(name, rest[0], index)] + es, end))
  }

  function ParseTypeBody(b: bytes): Option<seq<FuncType>> {
    match ParseU32(b)
    case None => None
    case Some((n, rest)) => match ParseTypes(rest, n) case None => None
      case Some((ts, end)) => if end == [] then Some(ts) else None
  }

  function ParseExportBody(b: bytes): Option<seq<Export>> {
    match ParseU32(b)
    case None => None
    case Some((n, rest)) => match ParseExports(rest, n) case None => None
      case Some((es, end)) => if end == [] then Some(es) else None
  }

  function EmitType(t: FuncType): bytes {
    [0x60] + EmitName(t.params) + EmitName(t.results)
  }

  function EmitTypes(ts: seq<FuncType>): bytes {
    if ts == [] then [] else EmitTypes(ts[..|ts| - 1]) + EmitType(ts[|ts| - 1])
  }

  function EmitExport(e: Export): bytes {
    EmitName(e.name) + [e.kind] + Encode(e.index)
  }

  function EmitExports(es: seq<Export>): bytes {
    if es == [] then [] else EmitExports(es[..|es| - 1]) + EmitExport(es[|es| - 1])
  }

  lemma TypeRoundTrip(t: FuncType, rest: bytes, count: nat)
    requires |t.params| < TWO_32 && |t.results| < TWO_32 && count > 0
    ensures ParseTypes(EmitType(t) + rest, count) == match ParseTypes(rest, count - 1)
                                                     case None => None
                                                     case Some((ts, end)) => Some(([t] + ts, end))
  {
    var b := EmitType(t) + rest;
    assert b[1..] == EmitName(t.params) + (EmitName(t.results) + rest);
    NameRoundTrip(t.params, EmitName(t.results) + rest);
    NameRoundTrip(t.results, rest);
  }

  lemma {:induction false} TypesRoundTrip(ts: seq<FuncType>, rest: bytes, more: nat)
    requires forall i :: 0 <= i < |ts| ==> |ts[i].params| < TWO_32 && |ts[i].results| < TWO_32
    ensures ParseTypes(EmitTypes(ts) + rest, |ts| + more) == match ParseTypes(rest, more)
                                                             case None => None
                                                             case Some((us, end)) => Some((ts + us, end))
    decreases |ts|
  {
    hide ParseTypes, EmitType;
    if ts == [] {
      assert EmitTypes(ts) + rest == rest;
      assert forall us: seq<FuncType> :: [] + us == us;
    } else {
      var n := |ts| - 1;
      assert EmitTypes(ts) + rest == EmitTypes(ts[..n]) + (EmitType(ts[n]) + rest);
      TypesRoundTrip(ts[..n], EmitType(ts[n]) + rest, 1 + more);
      TypeRoundTrip(ts[n], rest, 1 + more);
      assert forall us: seq<FuncType> :: ts[..n] + ([ts[n]] + us) == ts + us;
    }
  }

  lemma ExportRoundTrip(e: Export, rest: bytes, count: nat)
    requires |e.name| < TWO_32 && e.kind <= 3 && count > 0
    ensures ParseExports(EmitExport(e) + rest, count) == match ParseExports(rest, count - 1)
                                                         case None => None
                                                         case Some((es, end)) => Some(([e] + es, end))
  {
    var tail := [e.kind] + Encode(e.index) + rest;
    assert EmitExport(e) + rest == EmitName(e.name) + tail;
    NameRoundTrip(e.name, tail);
    assert tail[1..] == Encode(e.index) + rest;
    ParseU32Encode(e.index, rest);
  }

  lemma {:induction false} ExportsRoundTrip(es: seq<Export>, rest: bytes, more: nat)
    requires forall i :: 0 <= i < |es| ==> |es[i].name| < TWO_32 && es[i].kind <= 3
    ensures ParseExports(EmitExports(es) + rest, |es| + more) == match ParseExports(rest, more)
                                                                 case None => None
                                                                 case Some((us, end)) => Some((es + us, end))
    decreases |es|
  {
    hide ParseExports, EmitExport;
    if es == [] {
      assert EmitExports(es) + rest == rest;
      assert forall us: seq<Export> :: [] + us == us;
    } else {
      var n := |es| - 1;
      assert EmitExports(es) + rest == EmitExports(es[..n]) + (EmitExport(es[n]) + rest);
      ExportsRoundTrip(es[..n], EmitExport(es[n]) + rest, 1 + more);
      ExportRoundTrip(es[n], rest, 1 + more);
      assert forall us: seq<Export> :: es[..n] + ([es[n]] + us) == es + us;
    }
  }

  // ---- the module ----

  const PREAMBLE: bytes := [0x00, 0x61, 0x73, 0x6d, 0x01, 0x00, 0x00, 0x00]

  function TypeSection(items: seq<Item>): Section {
    Other(1, Encode(Count(items, Func, |items|)) + EmitTypes(Types(items, |items|)))
  }

  function ExportSection(items: seq<Item>): Section
    requires |items| < TWO_32
  {
    Other(7, Encode(|items|) + EmitExports(ExportsOf(items, |items|)))
  }

  /** The module; a type section only when there are functions. */
  function Passthrough(items: seq<Item>): Module
    requires |items| < TWO_32
  {
    Module(PREAMBLE, (if Count(items, Func, |items|) > 0 then [TypeSection(items)] else [])
                     + [Imports(ImportsOf(items, |items|)), ExportSection(items)])
  }

  predicate NamesFit(items: seq<Item>) {
    forall i :: 0 <= i < |items| ==>
      && |items[i].fromModule| < TWO_32 && |items[i].fromName| < TWO_32 && |items[i].exportName| < TWO_32
      && |items[i].params| < TWO_32 && |items[i].results| < TWO_32
  }

  /** THE SHIM SAYS WHAT IT SHOULD. Its bytes parse to the items: their imports,
      the types of the functions, and one export each. */
  lemma {:induction false} ShimParses(items: seq<Item>)
    requires 0 < |items| < TWO_32 && NamesFit(items) && Rewrite.SizesFit(Passthrough(items).sections)
    requires forall i :: 0 <= i < |items| ==> Buildable(items[i])
    ensures ParseModule(EmitModule(Passthrough(items))) == Some(Passthrough(items))
    ensures ParseTypeBody(TypeSection(items).body) == Some(Types(items, |items|))
    ensures ParseExportBody(ExportSection(items).body) == Some(ExportsOf(items, |items|))
  {
    hide EmitModule, ParseModule, ParseTypes, ParseExports, EmitTypes, EmitExports, Encode, DescLen;
    var ims, ts, es := ImportsOf(items, |items|), Types(items, |items|), ExportsOf(items, |items|);
    forall i | 0 <= i < |items| ensures ImportFits(ims[i]) {
      DescOfWhole(items, i);
    }
    var m := Passthrough(items);
    forall i | 0 <= i < |m.sections| ensures SectionFits(m.sections[i]) {
      assert |SectionBody(m.sections[i])| < TWO_32;
    }
    ModuleRoundTrip(m);
    TypesFit(items, |items|);
    ParseU32Encode(|ts|, EmitTypes(ts));
    TypesRoundTrip(ts, [], 0);
    NothingLeft();
    assert EmitTypes(ts) + [] == EmitTypes(ts) && ts + [] == ts;
    ParseU32Encode(|es|, EmitExports(es));
    ExportsRoundTrip(es, [], 0);
    assert EmitExports(es) + [] == EmitExports(es) && es + [] == es;
  }

  /** What the module says of item i, in the numbers of the binary format: the
      preamble, sections 1, 2 and 7, the import under the names the item comes
      from, and the export under its own name. */
  lemma {:induction false} PassthroughIs(items: seq<Item>, i: nat)
    requires i < |items| < TWO_32 && Buildable(items[i])
    ensures var m, funcs := Passthrough(items), Count(items, Func, |items|);
      && m.preamble == [0, 0x61, 0x73, 0x6D, 1, 0, 0, 0]
      && |m.sections| == (if funcs > 0 then 3 else 2)
      && (funcs > 0 ==> m.sections[0].Other? && m.sections[0].id == 1)
      && m.sections[|m.sections| - 2].Imports? && |m.sections[|m.sections| - 2].imports| == |items|
      && m.sections[|m.sections| - 1].Other? && m.sections[|m.sections| - 1].id == 7
    ensures var m, it := Passthrough(items), items[i];
      var im, e := m.sections[|m.sections| - 2].imports[i], ExportsOf(items, |items|)[i];
      && im.mod == it.fromModule && im.field == it.fromName && e.name == it.exportName
      && (it.sort.Func? ==> im.desc == [0] + Encode(Count(items, Func, i)) && e.kind == 0)
      && (it.sort.Table? ==> im.desc == [1, 0x70, 0, 0] && e.kind == 1)
      && (it.sort.Memory? ==> im.desc == [2, 0, 0] && e.kind == 2)
      && (it.sort.Global? ==> im.desc == [3, it.globalType, if it.globalMutable then 1 else 0] && e.kind == 3)
  {
    hide Encode, EmitTypes, EmitExports;
  }

  lemma NothingLeft()
    ensures ParseTypes([], 0) == Some(([], [])) && ParseExports([], 0) == Some(([], []))
  {
  }

  lemma {:induction false} TypesFit(items: seq<Item>, n: nat)
    requires n <= |items| && NamesFit(items)
    ensures forall i :: 0 <= i < |Types(items, n)| ==>
      |Types(items, n)[i].params| < TWO_32 && |Types(items, n)[i].results| < TWO_32
  {
    if n > 0 {
      TypesFit(items, n - 1);
    }
  }

  lemma {:induction false} DescOfWhole(items: seq<Item>, i: nat)
    requires i < |items| < TWO_32 && Buildable(items[i])
    ensures DescLen(DescOf(items, i)) == Some(|DescOf(items, i)|)
  {
    var d := DescOf(items, i);
    match items[i].sort
    case Func =>
      var k := Count(items, Func, i);
      assert d[1..] == Encode(k) + [];
      ParseU32Encode(k, []);
    case Table => NoBounds(d[2..]);
    case Memory => NoBounds(d[1..]);
    case Global =>
  }

  lemma NoBounds(b: bytes)
    requires b == [0, 0]
    ensures LimitsLen(b) == Some(2)
  {
    ParseU32Encode(0, []);
    assert b[1..] == Encode(0) + [];
  }

  // ---- the code ----

  /** writeLimits. */
  method WriteLimits(buf: bytes, min: u32) returns (out: bytes)
    ensures out == buf + ([0] + Encode(min))
  {
    var n := EncodeUint32(min);
    out := buf + ([0x00] + n);
  }

  method WriteDesc(buf: bytes, it: Item, typeIdx: u32) returns (out: bytes)
    requires !it.sort.Unsupported?
    ensures out == buf + DescBytes(it, typeIdx)
  {
    assert Encode(0) == [0];
    match it.sort
    case Func =>
      var n := EncodeUint32(typeIdx);
      out := buf + ([0x00] + n);
    case Table =>
      out := buf + [0x01, 0x70];
      out := WriteLimits(out, 0);
    case Memory =>
      out := buf + [0x02];
      out := WriteLimits(out, 0);
    case Global => out := buf + [0x03, it.globalType, if it.globalMutable then 0x01 else 0x00];
  }

  /** One section behind what has been written. */
  function Framed(buf: bytes, id: byte, body: bytes): bytes {
    buf + ([id] + Encode(|body|) + body)
  }

  method WriteSection(buf: bytes, id: byte, count: u32, body: bytes) returns (out: bytes)
    ensures |Encode(count) + body| < TWO_32 ==> out == Framed(buf, id, Encode(count) + body)
  {
    var prefix := EncodeUint32(count);
    var whole := prefix + body;
    var size := EncodeUint32(|whole| % TWO_32);
    out := buf + ([id] + size + whole);
  }

  /** The three sections after n items. */
  ghost predicate Written(items: seq<Item>, n: nat, typeSec: bytes, importSec: bytes, exportSec: bytes)
    requires n <= |items| < TWO_32
  {
    typeSec == EmitTypes(Types(items, n)) && importSec == EmitImports(ImportsOf(items, n))
      && exportSec == EmitExports(ExportsOf(items, n))
  }

  /** buildPassthroughShim: refused exactly when there is nothing to export or an
      item is not usable, and otherwise the bytes of `Passthrough`. */
  method BuildPassthroughShim(items: seq<Item>) returns (r: Option<bytes>)
    requires |items| < TWO_32
    ensures r.None? <==> items == [] || exists i :: 0 <= i < |items| && !Buildable(items[i])
    ensures r.Some? && NamesFit(items) && Rewrite.SizesFit(Passthrough(items).sections) ==>
      r.value == EmitModule(Passthrough(items))
  {
    hide EmitTypes, EmitImports, EmitExports, Encode, EmitModule, EmitName, SectionBody, DescBytes, Written,
         Types, ImportsOf, ExportsOf;
    if |items| == 0 {
      return None;
    }
    var typeSec: bytes, importSec: bytes, exportSec: bytes := [], [], [];
    var funcIdx, tableIdx, memIdx, globalIdx := 0, 0, 0, 0;
    NothingWritten(items);
    for i := 0 to |items|
      invariant forall j :: 0 <= j < i ==> Buildable(items[j])
      invariant funcIdx == Count(items, Func, i) && tableIdx == Count(items, Table, i)
      invariant memIdx == Count(items, Memory, i) && globalIdx == Count(items, Global, i)
      invariant NamesFit(items) ==> Written(items, i, typeSec, importSec, exportSec)
    {
      var it := items[i];
      if !(it.fromModule != [] && !it.sort.Unsupported? && (it.sort.Global? ==> it.globalType != 0)) {
        assert !Buildable(items[i]);
        return None;
      }
      ghost var t0, i0, e0 := typeSec, importSec, exportSec;
      importSec := Rewrite.WriteName(importSec, it.fromModule);
      importSec := Rewrite.WriteName(importSec, it.fromName);
      importSec := WriteDesc(importSec, it, funcIdx);
      exportSec := Rewrite.WriteName(exportSec, it.exportName);
      var index: u32 := 0;
      match it.sort {
        case Func =>
          typeSec := typeSec + [0x60];
          typeSec := Rewrite.WriteName(typeSec, it.params);
          typeSec := Rewrite.WriteName(typeSec, it.results);
          index := funcIdx;
          funcIdx := funcIdx + 1;
        case Table =>
          index := tableIdx;
          tableIdx := tableIdx + 1;
        case Memory =>
          index := memIdx;
          memIdx := memIdx + 1;
        case Global =>
          index := globalIdx;
          globalIdx := globalIdx + 1;
      }
      var n := EncodeUint32(index);
      exportSec := exportSec + [it.sort.Kind()] + n;
      ItemWritten(items, i, t0, i0, e0);
    }
    var out := WriteModule(items, funcIdx, typeSec, importSec, exportSec);
    return Some(out);
  }

  /** The preamble and the sections. */
  method WriteModule(items: seq<Item>, typeCount: u32, typeSec: bytes, importSec: bytes, exportSec: bytes)
    returns (out: bytes)
    requires |items| < TWO_32 && typeCount == Count(items, Func, |items|)
    ensures NamesFit(items) && Written(items, |items|, typeSec, importSec, exportSec) ==>
      Rewrite.SizesFit(Passthrough(items).sections) ==> out == EmitModule(Passthrough(items))
  {
    hide EmitTypes, EmitImports, EmitExports, Encode, EmitModule, SectionBody, Framed, Written, Types, ImportsOf,
         ExportsOf, Count, TypeSection, ExportSection;
    ghost var good := Written(items, |items|, typeSec, importSec, exportSec)
      && Rewrite.SizesFit(Passthrough(items).sections);
    if good {
      AllWritten(items, typeSec, importSec, exportSec);
      Assembled(items);
    }
    out := [0x00, 0x61, 0x73, 0x6d, 0x01, 0x00, 0x00, 0x00];
    if typeCount > 0 {
      out := WriteSection(out, 1, typeCount, typeSec);
    }
    out := WriteSection(out, 2, |items|, importSec);
    out := WriteSection(out, 7, |items|, exportSec);
  }

  lemma {:induction false} AllWritten(items: seq<Item>, typeSec: bytes, importSec: bytes, exportSec: bytes)
    requires |items| < TWO_32 && Written(items, |items|, typeSec, importSec, exportSec)
    ensures typeSec == EmitTypes(Types(items, |items|)) && importSec == EmitImports(ImportsOf(items, |items|))
    ensures exportSec == EmitExports(ExportsOf(items, |items|))
  {
  }

  lemma {:induction false} NothingWritten(items: seq<Item>)
    requires |items| < TWO_32
    ensures Written(items, 0, [], [], [])
  {
  }

  /** One item more in each section. */
  lemma {:induction false} ItemWritten(items: seq<Item>, i: nat, t0: bytes, i0: bytes, e0: bytes)
    requires i < |items| < TWO_32
    ensures var it := items[i];
      Written(items, i, t0, i0, e0) ==>
        Written(items, i + 1,
                if it.sort.Func? then t0 + [0x60] + EmitName(it.params) + EmitName(it.results) else t0,
                i0 + EmitName(it.fromModule) + EmitName(it.fromName) + DescOf(items, i),
                e0 + EmitName(it.exportName) + [it.sort.Kind()] + Encode(Count(items, it.sort, i)))
  {
    hide EmitImports, EmitName, DescBytes, Encode, EmitTypes, EmitExports;
    if Written(items, i, t0, i0, e0) {
      ImportWritten(items, i, i0);
      TypeWritten(items, i, t0);
      ExportWritten(items, i, e0);
    }
  }

  lemma {:induction false} ImportWritten(items: seq<Item>, i: nat, i0: bytes)
    requires i < |items| && i0 == EmitImports(ImportsOf(items, i))
    ensures i0 + EmitName(items[i].fromModule) + EmitName(items[i].fromName) + DescOf(items, i) ==
      EmitImports(ImportsOf(items, i + 1))
  {
    hide EmitImports, EmitName, DescOf;
    var im := Import(items[i].fromModule, items[i].fromName, DescOf(items, i));
    assert ImportsOf(items, i + 1) == ImportsOf(items, i) + [im];
    Rewrite.EmitImportsAppend(ImportsOf(items, i), im);
    assert i0 + EmitName(im.mod) + EmitName(im.field) + im.desc == i0 + EmitImport(im);
  }

  lemma {:induction false} TypeWritten(items: seq<Item>, i: nat, t0: bytes)
    requires i < |items| && t0 == EmitTypes(Types(items, i))
    ensures EmitTypes(Types(items, i + 1))
         == if items[i].sort.Func? then t0 + [0x60] + EmitName(items[i].params) + EmitName(items[i].results) else t0
  {
    hide EmitName;
    if items[i].sort.Func? {
      var t := FuncType(items[i].params, items[i].results);
      assert Types(items, i + 1)[..|Types(items, i)|] == Types(items, i);
      assert t0 + [0x60] + EmitName(t.params) + EmitName(t.results) == t0 + EmitType(t);
    } else {
      assert Types(items, i + 1) == Types(items, i);
    }
  }

  lemma {:induction false} ExportWritten(items: seq<Item>, i: nat, e0: bytes)
    requires i < |items| < TWO_32 && e0 == EmitExports(ExportsOf(items, i))
    ensures e0 + EmitName(items[i].exportName) + [items[i].sort.Kind()] + Encode(Count(items, items[i].sort, i)) ==
      EmitExports(ExportsOf(items, i + 1))
  {
    hide EmitName, Encode, Count;
    var e := Export(items[i].exportName, items[i].sort.Kind(), Count(items, items[i].sort, i));
    assert ExportsOf(items, i + 1) == ExportsOf(items, i) + [e];
    assert ExportsOf(items, i + 1)[..i] == ExportsOf(items, i);
    assert e0 + EmitName(e.name) + [e.kind] + Encode(e.index) == e0 + EmitExport(e);
  }

  lemma {:induction false} Assembled(items: seq<Item>)
    requires |items| < TWO_32 && Rewrite.SizesFit(Passthrough(items).sections)
    ensures var n := Count(items, Func, |items|);
      var tb := Encode(n) + EmitTypes(Types(items, |items|));
      var ib := Encode(|items|) + EmitImports(ImportsOf(items, |items|));
      var eb := Encode(|items|) + EmitExports(ExportsOf(items, |items|));
      && |ib| < TWO_32 && |eb| < TWO_32 && (n > 0 ==> |tb| < TWO_32)
      && EmitModule(Passthrough(items)) ==
        Framed(Framed(if n > 0 then Framed(PREAMBLE, 1, tb) else PREAMBLE, 2, ib), 7, eb)
  {
    hide Encode, EmitImports, EmitTypes, EmitExports, Count, ImportsOf, ExportsOf, Types;
    var ss, n := Passthrough(items).sections, Count(items, Func, |items|);
    var k := if n > 0 then 1 else 0;
    assert ss[k] == Imports(ImportsOf(items, |items|)) && ss[k + 1] == ExportSection(items);
    assert |SectionBody(ss[k])| < TWO_32 && |SectionBody(ss[k + 1])| < TWO_32 && |SectionBody(ss[0])| < TWO_32;
    assert ss[k..] == [ss[k]] + ss[k + 1..] && ss[k + 1..] == [ss[k + 1]] + [];
    assert EmitSections(ss[k + 1..]) == EmitSection(ss[k + 1]);
    assert EmitSections(ss[k..]) == EmitSection(ss[k]) + EmitSection(ss[k + 1]);
    assert EmitSections(ss) == (if n > 0 then EmitSection(ss[0]) else []) + EmitSections(ss[k..]);
  }
}

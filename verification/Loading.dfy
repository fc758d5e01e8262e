/** memory.go, loading. Each method is proved to return the host value of what
    the reference `Memory.Load` finds. */
module Loading {
  import opened Base
  import opened Shapes
  import opened ShapeFacts
  import opened Memory
  import opened Values
  import opened ValueFacts
  import opened Layout
  import opened Footprint
  import Utf8

  /** The outcome of loading a `t` at `p`; failure in a memory shorter than
      2^32 bytes is never due to a check made after the first one. */
  ghost predicate Loaded(r: Result<Value>, m: bytes, p: nat, t: Type) {
    var x := Load(m, p, Despec(t));
    && (r.Ok? ==> x.Ok? && r.value == Reify(InMemory, t, x.value))
    && (r.Err? && |m| < TWO_32 ==> r.fault == Rejected && x.Err?)
  }

  /** Overflow of a 32-bit offset, in the largest memory only. */
  lemma LargeLoaded(m: bytes, p: nat, t: Type)
    ensures |m| >= TWO_32 ==> forall f :: Loaded(Err(f), m, p, t)
  {
  }

  // ---- integers ----

  /** The little-endian reads of encoding/binary. */
  method GetUint(mem: array<byte>, start: nat, n: nat) returns (v: nat)
    requires start + n <= mem.Length
    ensures v == FromLittleEndian(mem[start..start + n]) < Pow256(n)
    ensures forall i :: 0 <= i < n ==> v / Pow256(i) % 256 == mem[start + i]
  {
    ghost var bs := mem[start..start + n];
    v := 0;
    for i := n downto 0
      invariant v == FromLittleEndian(bs[i..])
    {
      v := mem[start + i] + 256 * v;
      assert bs[i..][1..] == bs[i + 1..];
    }
    assert bs[0..] == bs;
    FromLittleEndianBound(bs);
    forall i | 0 <= i < n ensures v / Pow256(i) % 256 == mem[start + i] {
      FromLittleEndianAt(bs, i);
    }
  }

  /** The host value of an integer of some bytes: narrow signed values that are
      negative, and wider signed ones, are signed; an 8-bit one that is not
      negative is unsigned. */
  function IntValue(nbytes: nat, signed: bool, n: nat): Value
    requires IsWidth(nbytes) && n < Span(nbytes)
  {
    if nbytes == 1 then (if signed && n >= 0x80 then VS32(Signed(1, n)) else VU32(n))
    else if nbytes == 2 then (if signed then VS32(Signed(2, n)) else VU32(n))
    else if nbytes == 4 then (if signed then VS32(Signed(4, n)) else VU32(n))
    else (if signed then VS64(Signed(8, n)) else VU64(n))
  }

  /** The number of an integer value, modulo 256 to the number of its bytes. */
  function Unsigned(v: Value, nbytes: nat): int {
    match v
    case VU32(u) => u
    case VU64(u) => u
    case VS32(i) => if i < 0 then i + Pow256(nbytes) else i
    case VS64(i) => if i < 0 then i + Pow256(nbytes) else i
    case _ => 0
  }

  method LoadInt(mem: array<byte>, ptr: u32, nbytes: u32, signed: bool) returns (r: Result<Value>)
    requires IsWidth(nbytes)
    ensures if ptr + nbytes <= mem.Length
            then FromLittleEndian(mem[..][ptr..ptr + nbytes]) < Span(nbytes)
              && r == Ok(IntValue(nbytes, signed, FromLittleEndian(mem[..][ptr..ptr + nbytes])))
            else r == Err(InnerCheck)
    ensures r.Ok? ==> 0 <= Unsigned(r.value, nbytes) < Pow256(nbytes)
    ensures r.Ok? ==> ptr + nbytes <= mem.Length && forall i :: 0 <= i < nbytes ==>
      Unsigned(r.value, nbytes) / Pow256(i) % 256 == mem[ptr + i]
    ensures r.Ok? && !signed ==> r.value.VU32? || r.value.VU64?
    ensures r.Ok? && signed && (nbytes > 1 || mem[ptr] >= 0x80) ==>
      if nbytes == 8 then r.value.VS64?
      else r.value.VS32? && 0 <= 2 * r.value.i + Pow256(nbytes) && 2 * r.value.i < Pow256(nbytes)
    ensures r.Ok? && signed && nbytes == 1 && mem[ptr] < 0x80 ==> r.value == VU32(mem[ptr])
  {
    Pow256Values();
    if ptr + nbytes > mem.Length {
      return Err(InnerCheck);
    }
    assert mem[..][ptr..ptr + nbytes] == mem[ptr..ptr + nbytes];
    var v: int := GetUint(mem, ptr, nbytes);
    match nbytes {
      case 1 =>
        if signed {
          if v >= 0x80 {
            return Ok(VS32(v - 0x100));
          }
        }
        return Ok(VU32(v));
      case 2 =>
        if signed {
          return Ok(VS32(if v >= 0x8000 then v - 0x1_0000 else v));
        }
        return Ok(VU32(v));
      case 4 =>
        if signed {
          return Ok(VS32(if v >= 0x8000_0000 then v - 0x1_0000_0000 else v));
        }
        return Ok(VU32(v));
      case _ =>
        if signed {
          return Ok(VS64(if v >= 0x8000_0000_0000_0000 then v - 0x1_0000_0000_0000_0000 else v));
        }
        return Ok(VU64(v));
    }
  }

  // ---- scalars ----

  /** A scalar found in its bytes. */
  lemma ScalarLoaded(m: bytes, p: nat, t: Type, l: Scalar, n: nat)
    requires Despec(t) == Leaf(l) && Ready(|m|, p, t)
    requires p + ScalarBytes(l) <= |m| ==> n == FromLittleEndian(m[p..p + ScalarBytes(l)])
    ensures p + ScalarBytes(l) <= |m|
    ensures ReadScalar(l, n).Ok? ==> Loaded(Ok(Reify(InMemory, t, SInt(ReadScalar(l, n).value))), m, p, t)
    ensures ReadScalar(l, n).Err? ==> Loaded(Err(Rejected), m, p, t)
  {
  }

  /** What a primitive reads as. */
  function PrimValue(p: Prim, n: nat): Result<Value>
    requires p != Str
  {
    var x :- ReadScalar(ScalarOf(p), n);
    Ok(ReifyPrim(InMemory, p, SInt(x)))
  }

  lemma PrimLoaded(m: bytes, at: nat, p: Prim, n: nat)
    requires p != Str && Ready(|m|, at, PrimT(p))
    requires var b := ScalarBytes(ScalarOf(p)); at + b <= |m| ==> n == FromLittleEndian(m[at..at + b])
    ensures Loaded(PrimValue(p, n), m, at, PrimT(p))
  {
    ScalarLoaded(m, at, PrimT(p), ScalarOf(p), n);
  }

  /** What the primitives that are one integer read as. */
  lemma IntegerValue(p: Prim, n: nat)
    requires p != Str && n < Span(ScalarBytes(ScalarOf(p)))
    ensures p == U8 || p == U16 || p == U32 || p == U64 || p == ErrorContext ==>
      PrimValue(p, n) == Ok(IntValue(ScalarBytes(ScalarOf(p)), false, n))
    ensures p == S8 || p == S16 || p == S32 || p == S64 ==>
      PrimValue(p, n) == Ok(IntValue(ScalarBytes(ScalarOf(p)), true, n))
  {
    Pow256Values();
  }

  /** What the others read as. */
  lemma OtherValue(p: Prim, n: nat)
    requires p != Str && n < Span(ScalarBytes(ScalarOf(p)))
    ensures p == Bool ==> PrimValue(p, n) == Ok(VBool(n != 0))
    ensures p == Float32 ==> n < TWO_32 && PrimValue(p, n) == Ok(VF32(n))
    ensures p == Float64 ==> n < TWO_64 && PrimValue(p, n) == Ok(VF64(n))
    ensures p == Char ==> PrimValue(p, n) == if n < 0x11_0000 && !(0xD800 <= n <= 0xDFFF) then Ok(VS32(n))
      else Err(Rejected)
  {
    Pow256Values();
  }

  /** Which primitives loadInt reads, how wide and whether signed. */
  function IntegerWidth(p: Prim): Option<(u32, bool)> {
    match p
    case U8 => Some((1, false))
    case U16 => Some((2, false))
    case U32 | ErrorContext => Some((4, false))
    case U64 => Some((8, false))
    case S8 => Some((1, true))
    case S16 => Some((2, true))
    case S32 => Some((4, true))
    case S64 => Some((8, true))
    case _ => None
  }

  method LoadPrimitive(mem: array<byte>, ptr: u32, p: Prim) returns (r: Result<Value>)
    ensures Ready(mem.Length, ptr, PrimT(p)) ==> Loaded(r, mem[..], ptr, PrimT(p))
  {
    hide Loaded, Ready, FromLittleEndian, PrimValue;
    if p == Str {
      r := LoadStringValue(mem, ptr);
      return;
    }
    ghost var b := ScalarBytes(ScalarOf(p));
    if Ready(mem.Length, ptr, PrimT(p)) {
      ScalarFits(mem.Length, ptr, p);
    }
    if ptr + b <= mem.Length {
      PrimFound(mem[..], ptr, p);
    }
    var wide := IntegerWidth(p);
    if wide.Some? {
      r := LoadInt(mem, ptr, wide.value.0, wide.value.1);
      return;
    }
    match p {
      case Bool =>
        var v :- LoadInt(mem, ptr, 1, false);
        r := Ok(VBool(v.u != 0));
      case Float32 =>
        var v :- LoadInt(mem, ptr, 4, false);
        r := Ok(VF32(v.u));
      case Float64 =>
        var v :- LoadInt(mem, ptr, 8, false);
        r := Ok(VF64(v.ul));
      case Char =>
        var v :- LoadInt(mem, ptr, 4, false);
        if v.u >= 0x11_0000 || 0xD800 <= v.u <= 0xDFFF {
          return Err(Rejected);
        }
        r := Ok(VS32(v.u));
    }
  }

  /** What is found in the bytes of a primitive. */
  lemma PrimFound(m: bytes, at: nat, p: Prim)
    requires p != Str && at + ScalarBytes(ScalarOf(p)) <= |m|
    ensures var n := FromLittleEndian(m[at..at + ScalarBytes(ScalarOf(p))]);
      && n < Span(ScalarBytes(ScalarOf(p)))
      && (Ready(|m|, at, PrimT(p)) ==> Loaded(PrimValue(p, n), m, at, PrimT(p)))
      && (IntegerWidth(p).Some? ==> var (w, s) := IntegerWidth(p).value;
            w == ScalarBytes(ScalarOf(p)) && PrimValue(p, n) == Ok(IntValue(w, s, n)))
      && (p == Bool ==> PrimValue(p, n) == Ok(VBool(n != 0)))
      && (p == Float32 ==> n < TWO_32 && PrimValue(p, n) == Ok(VF32(n)))
      && (p == Float64 ==> n < TWO_64 && PrimValue(p, n) == Ok(VF64(n)))
      && (p == Char ==> PrimValue(p, n) == if n < 0x11_0000 && !(0xD800 <= n <= 0xDFFF) then Ok(VS32(n))
        else Err(Rejected))
  {
    hide Loaded, Ready, FromLittleEndian, PrimValue;
    var n := FromLittleEndian(m[at..at + ScalarBytes(ScalarOf(p))]);
    Pow256Values();
    FromLittleEndianBound(m[at..at + ScalarBytes(ScalarOf(p))]);
    IntegerValue(p, n);
    OtherValue(p, n);
    if Ready(|m|, at, PrimT(p)) {
      PrimLoaded(m, at, p, n);
    }
  }

  lemma ScalarFits(m: nat, at: nat, p: Prim)
    requires p != Str && Ready(m, at, PrimT(p))
    ensures at + ScalarBytes(ScalarOf(p)) <= m
  {
  }

  // ---- text ----

  method ReadU32(mem: array<byte>, ptr: u32) returns (r: Result<u32>)
    ensures if ptr + 4 <= mem.Length then r == Ok(FromLittleEndian(mem[ptr..ptr + 4]) as int) else r == Err(InnerCheck)
    ensures r.Ok? ==> ptr + 4 <= mem.Length && forall i :: 0 <= i < 4 ==> r.value / Pow256(i) % 256 == mem[ptr + i]
  {
    if ptr + 4 > mem.Length {
      return Err(InnerCheck);
    }
    Pow256Values();
    var v := GetUint(mem, ptr, 4);
    return Ok(v);
  }

  /** The pointer and the length of a string or of a list. */
  method ReadPair(mem: array<byte>, ptr: u32) returns (r: Result<(u32, u32)>)
    ensures r.Ok? ==>
      && ptr + 8 <= mem.Length
      && r.value.0 == FromLittleEndian(mem[..][ptr..ptr + 4])
        && r.value.1 == FromLittleEndian(mem[..][ptr + 4..ptr + 8])
    ensures r.Ok? ==> forall i :: 0 <= i < 4 ==>
      r.value.0 / Pow256(i) % 256 == mem[ptr + i] && r.value.1 / Pow256(i) % 256 == mem[ptr + 4 + i]
    ensures r.Err? ==> ptr + 8 > mem.Length || ptr + 4 >= TWO_32
  {
    var q :- ReadU32(mem, ptr);
    var lenPtr :- CheckedAdd(ptr, 4);
    var n :- ReadU32(mem, lenPtr);
    assert mem[..][ptr..ptr + 4] == mem[ptr..ptr + 4];
    assert mem[..][ptr + 4..ptr + 8] == mem[ptr + 4..ptr + 8];
    return Ok((q, n));
  }

  method LoadStringValue(mem: array<byte>, ptr: u32) returns (r: Result<Value>)
    ensures Ready(mem.Length, ptr, PrimT(Str)) ==> Loaded(r, mem[..], ptr, PrimT(Str))
  {
    var pair :- ReadPair(mem, ptr);
    var s :- LoadStringFromRange(mem, pair.0, pair.1);
    r := Ok(VString(s));
  }

  method LoadStringFromRange(mem: array<byte>, ptr: u32, byteLen: u32) returns (r: Result<bytes>)
    ensures var x := LoadText(mem[..], ptr, byteLen);
            if r.Ok? then x == Ok(SText(r.value)) else r.fault == Rejected && x.Err?
  {
    if ptr + byteLen > mem.Length {
      return Err(Rejected);
    }
    assert mem[..][ptr..ptr + byteLen] == mem[ptr..ptr + byteLen];
    if !Utf8.Valid(mem[ptr..ptr + byteLen]) {
      return Err(Rejected);
    }
    return Ok(mem[ptr..ptr + byteLen]);
  }

  // ---- lists ----

  /** The outcome of loading the elements of a list. */
  ghost predicate ListLoaded(r: Result<seq<Value>>, m: bytes, q: nat, n: nat, e: Type) {
    var x := LoadList(m, q, n, Checked(e));
    && (r.Ok? ==> x.Ok? && x.value.SList? && r.value == ReifyElems(e, x.value.elems))
    && (r.Err? && |m| < TWO_32 ==> r.fault == Rejected && x.Err?)
  }

  method LoadListValue(mem: array<byte>, ptr: u32, e: Type) returns (r: Result<Value>)
    ensures Ready(mem.Length, ptr, ListT(e)) ==> Loaded(r, mem[..], ptr, ListT(e))
    decreases ListT(e), 0
  {
    var pair :- ReadPair(mem, ptr);
    var vs :- LoadListFromRange(mem, pair.0, pair.1, e);
    r := Ok(VList(vs));
  }

  method LoadListFromRange(mem: array<byte>, ptr: u32, length: u32, e: Type) returns (r: Result<seq<Value>>)
    ensures ListLoaded(r, mem[..], ptr, length, e)
    decreases e, 3
  {
    hide ListLoaded, ElemsLoaded, Within, Despec, Valid, ElemsSize, Size, Align, Aligned, Checked, IsAlignOf, IsSizeOf;
    RefusedLoaded(mem[..], ptr, length, e);
    var size := SizeOf(e);
    SizeKnown(size, e);
    ElemsSizeIsProduct(Checked(e), length);
    if size.Err? || length * size.value > 0xFFFF_FFFF || length > MAX_LIST_ELEMENTS
       || ptr + length * size.value > mem.Length {
      return Err(Rejected);
    }
    var align := Alignment(e);
    AlignKnown(align, e);
    AlignedIsMod(ptr, align.value);
    if ptr % align.value != 0 {
      return Err(Rejected);
    }
    r := LoadElements(mem, ptr, length, e, size.value);
    ElemsFound(r, mem[..], ptr, length, e);
  }

  ghost predicate ListRefused(m: bytes, q: nat, n: nat, elem: Shape) {
    || !Valid(elem) || Size(elem) >= TWO_32 || ElemsSize(elem, n) >= TWO_32 || n > MAX_LIST_ELEMENTS
    || !InRange(m, q, ElemsSize(elem, n)) || !Aligned(q, Align(elem))
  }

  lemma RefusedLoaded(m: bytes, q: nat, n: nat, e: Type)
    ensures ListRefused(m, q, n, Checked(e)) ==> ListLoaded(Err(Rejected), m, q, n, e)
  {
  }

  /** All elements are loaded, or one could not be. */
  ghost predicate ElemsLoaded(r: Result<seq<Value>>, m: bytes, q: nat, n: nat, e: Type) {
    var x := LoadElems(m, q, Despec(e), n);
    && (r.Ok? ==> x.Ok? && r.value == ReifyElems(e, x.value))
    && (r.Err? && |m| < TWO_32 ==> r.fault == Rejected && x.Err?)
  }

  lemma ElemsFound(r: Result<seq<Value>>, m: bytes, q: nat, n: nat, e: Type)
    requires Checked(e) == Despec(e) && !ListRefused(m, q, n, Despec(e)) && ElemsLoaded(r, m, q, n, e)
    ensures ListLoaded(r, m, q, n, e)
  {
    hide Despec, Within, Align, Aligned, Size, ElemsSize, LoadElems, Valid;
  }

  /** The loop of loadListFromRange. */
  method LoadElements(mem: array<byte>, q: u32, n: u32, e: Type, size: u32) returns (r: Result<seq<Value>>)
    requires Within(e, 0) && Valid(Despec(e)) && size == Size(Despec(e)) && Aligned(q, Align(Despec(e)))
    requires q + ElemsSize(Despec(e), n) <= mem.Length
    ensures ElemsLoaded(r, mem[..], q, n, e)
    decreases e, 2
  {
    hide Loaded, ElemsLoaded, Ready, Within, Despec, Valid, ElemsSize, Size, Align, Aligned;
    ElemsBegin(mem[..], q, n, e);
    var elemPtr := q;
    var vs := [];
    for i := 0 to n
      invariant i < n ==> elemPtr == q + ElemsSize(Despec(e), i)
      invariant ElemsLoaded(Ok(vs), mem[..], q, i, e)
    {
      ElementReady(mem.Length, q, e, i, n);
      var v := LoadValue(mem, elemPtr, e);
      NextElemLoaded(vs, v, mem[..], q, i, n, e);
      if v.Err? {
        return Err(v.fault);
      }
      vs := vs + [v.value];
      if i + 1 < n {
        elemPtr :- CheckedAdd(elemPtr, size);
      }
    }
    return Ok(vs);
  }

  lemma ElemsBegin(m: bytes, q: nat, n: nat, e: Type)
    ensures ElemsLoaded(Ok([]), m, q, 0, e)
    ensures ElemsSize(Despec(e), 0) == 0
    ensures |m| >= TWO_32 ==> forall f :: ElemsLoaded(Err(f), m, q, n, e)
  {
  }

  lemma {:induction false} LoadElemsStops(m: bytes, p: nat, elem: Shape, i: nat, n: nat)
    requires i <= n && LoadElems(m, p, elem, i).Err?
    ensures LoadElems(m, p, elem, n).Err?
    decreases n
  {
    if i < n {
      LoadElemsStops(m, p, elem, i, n - 1);
    }
  }

  /** One element loaded after the first i, or an element that could not be. */
  lemma NextElemLoaded(vs: seq<Value>, v: Result<Value>, m: bytes, q: nat, i: nat, n: nat, e: Type)
    requires i < n && ElemsLoaded(Ok(vs), m, q, i, e) && Loaded(v, m, q + ElemsSize(Despec(e), i), e)
    ensures v.Ok? ==> ElemsLoaded(Ok(vs + [v.value]), m, q, i + 1, e)
    ensures v.Err? ==> ElemsLoaded(Err(v.fault), m, q, n, e)
  {
    hide Load, LoadElems, ElemsSize, Despec, Reify, ReifyElems;
    NextElem(m, q, Despec(e), i);
    var x := Load(m, q + ElemsSize(Despec(e), i), Despec(e));
    if v.Ok? {
      ReifyElemsSnoc(e, LoadElems(m, q, Despec(e), i).value, x.value);
    } else if |m| < TWO_32 {
      LoadElemsStops(m, q, Despec(e), i + 1, n);
    }
  }

  lemma NextElem(m: bytes, q: nat, elem: Shape, i: nat)
    requires LoadElems(m, q, elem, i).Ok?
    ensures var x := Load(m, q + ElemsSize(elem, i), elem);
      LoadElems(m, q, elem, i + 1) == if x.Ok? then Ok(LoadElems(m, q, elem, i).value + [x.value]) else Err(x.fault)
  {
  }

  lemma ReifyElemsSnoc(e: Type, xs: seq<Sem>, x: Sem)
    ensures ReifyElems(e, xs + [x]) == ReifyElems(e, xs) + [Reify(InMemory, e, x)]
  {
  }

  // ---- records and tuples ----

  /** The first i fields are loaded. */
  ghost predicate FieldsSoFar(m: bytes, p: nat, ts: seq<Type>, i: nat, vs: seq<Value>) {
    && i == |vs| <= |ts|
    && var x := LoadFields(m, p, DespecAll(ts), i);
       x.Ok? && forall j :: 0 <= j < i ==> vs[j] == Reify(InMemory, ts[j], x.value[j])
  }

  lemma FieldsBegin(m: bytes, p: nat, ts: seq<Type>)
    ensures FieldsSoFar(m, p, ts, 0, [])
    ensures FieldsEnd(DespecAll(ts), 0) == 0
  {
  }

  lemma {:induction false} LoadFieldsStops(m: bytes, p: nat, fs: seq<Shape>, i: nat, n: nat)
    requires i <= n <= |fs| && LoadFields(m, p, fs, i).Err?
    ensures LoadFields(m, p, fs, n).Err?
    decreases n
  {
    if i < n {
      LoadFieldsStops(m, p, fs, i, n - 1);
    }
  }

  /** One field loaded after the first i, or a field that could not be. */
  lemma NextFieldLoaded(vs: seq<Value>, v: Result<Value>, m: bytes, p: nat, t: Type, ts: seq<Type>, i: nat)
    requires (t == RecordT(ts) || t == TupleT(ts)) && i < |ts| && FieldsSoFar(m, p, ts, i, vs)
    requires Loaded(v, m, p + FieldOffset(DespecAll(ts), i), ts[i])
    ensures v.Ok? ==> FieldsSoFar(m, p, ts, i + 1, vs + [v.value])
    ensures v.Err? ==> Loaded(Err(v.fault), m, p, t)
  {
    hide Load, LoadFields, FieldOffset, Despec, Reify;
    var fs := DespecAll(ts);
    assert fs[i] == Despec(ts[i]);
    OneFieldMore(m, p, fs, i);
    if v.Err? && |m| < TWO_32 {
      LoadFieldsStops(m, p, fs, i + 1, |ts|);
      FieldsStopped(m, p, t, ts);
    }
  }

  lemma OneFieldMore(m: bytes, p: nat, fs: seq<Shape>, i: nat)
    requires i < |fs| && LoadFields(m, p, fs, i).Ok?
    ensures var x := Load(m, p + FieldOffset(fs, i), fs[i]);
      LoadFields(m, p, fs, i + 1) == if x.Ok? then Ok(LoadFields(m, p, fs, i).value + [x.value]) else Err(x.fault)
  {
    hide Load, FieldOffset;
  }

  lemma FieldsStopped(m: bytes, p: nat, t: Type, ts: seq<Type>)
    requires (t == RecordT(ts) || t == TupleT(ts)) && LoadFields(m, p, DespecAll(ts), |ts|).Err?
    ensures Loaded(Err(Rejected), m, p, t)
  {
  }

  lemma FieldsFinished(m: bytes, p: nat, t: Type, ts: seq<Type>, vs: seq<Value>)
    requires (t == RecordT(ts) || t == TupleT(ts)) && FieldsSoFar(m, p, ts, |ts|, vs)
    ensures Loaded(Ok(VList(vs)), m, p, t)
  {
    assert vs == ReifyAll(InMemory, ts, LoadFields(m, p, DespecAll(ts), |ts|).value);
  }

  /** loadRecord and loadTuple. */
  method LoadProductValue(mem: array<byte>, ptr: u32, ghost t: Type, ts: seq<Type>) returns (r: Result<Value>)
    requires t == RecordT(ts) || t == TupleT(ts)
    ensures Ready(mem.Length, ptr, t) ==> Loaded(r, mem[..], ptr, t)
    decreases ts, 0
  {
    hide Loaded, Ready, FieldsSoFar, Within, Despec, DespecAll, Checked, Valid, FieldsEnd, FieldOffset,
         Size, Align, AlignUp, Aligned, CheckedAlign, Reify;
    ghost var m, fs, ready := mem[..], DespecAll(ts), Ready(mem.Length, ptr, t);
    LargeLoaded(m, ptr, t);
    FieldsBegin(m, ptr, ts);
    var offset := ptr;
    var vs := [];
    for i := 0 to |ts|
      invariant ready ==> offset == ptr + FieldsEnd(fs, i) && FieldsSoFar(m, ptr, ts, i, vs)
    {
      if ready {
        FieldReady(mem.Length, ptr, t, ts, i);
        FieldReached(mem.Length, ptr, t, ts, i);
      }
      var align :- Alignment(ts[i]);
      CheckedAlignExact(offset, align);
      offset :- CheckedAlign(offset, align);
      var v := LoadValue(mem, offset, ts[i]);
      if ready {
        NextFieldLoaded(vs, v, m, ptr, t, ts, i);
      }
      if v.Err? {
        return Err(v.fault);
      }
      vs := vs + [v.value];
      var size :- SizeOf(ts[i]);
      offset :- CheckedAdd(offset, size);
    }
    if ready {
      FieldsFinished(m, ptr, t, ts, vs);
    }
    return Ok(VList(vs));
  }

  // ---- variants, options and results ----

  /** The outcome of loading what a case carries, if anything. */
  ghost predicate LoadedCase(r: Result<Value>, m: bytes, p: nat, c: Case) {
    var x := Load(m, p, DespecCase(c));
    && (r.Ok? ==> x.Ok? && r.value == ReifyCase(InMemory, c, x.value))
    && (r.Err? && |m| < TWO_32 ==> r.fault == Rejected && x.Err?)
  }

  lemma EmptyLoaded(m: bytes, p: nat)
    ensures LoadedCase(Ok(Nil), m, p, Empty)
  {
  }

  lemma CarryingLoaded(r: Result<Value>, m: bytes, p: nat, t: Type)
    ensures LoadedCase(r, m, p, Carrying(t)) <==> Loaded(r, m, p, t)
  {
  }

  /** The host value of case d of a sum type. */
  function Build(t: Type, d: u32, carried: Value): Value {
    match t
    case VariantT(_) => VVariant(d, carried)
    case OptionT(_) => carried
    case _ => VResult(d == 1, carried)
  }

  lemma BuildReify(path: Path, t: Type, d: u32, x: Sem)
    requires IsSum(t) && d < |CasesOf(t)|
    ensures Reify(path, t, SSum(d, x)) == Build(t, d, ReifyCase(path, CasesOf(t)[d], x))
  {
  }

  lemma LoadOfSum(m: bytes, p: nat, ss: seq<Shape>, d: nat)
    requires var b := DiscBytes(|ss|); p + b <= |m| && d == FromLittleEndian(m[p..p + b])
    ensures Load(m, p, Sum(ss))
         == if d >= |ss| then Err(Rejected) else
            var x := Load(m, p + PayloadOffset(ss), ss[d]);
            if x.Ok? then Ok(SSum(d, x.value)) else Err(x.fault)
  {
  }

  /** Discriminant loaded, then the payload, or one of them could not be. */
  lemma SumLoaded(r: Result<Value>, m: bytes, p: nat, t: Type, d: u32)
    requires IsSum(t) && Ready(|m|, p, t)
    requires var ss := DespecCases(CasesOf(t)); var b := DiscBytes(|ss|);
      && p + b <= |m| && d == FromLittleEndian(m[p..p + b])
      && (d < |ss| ==> LoadedCase(r, m, p + PayloadOffset(ss), CasesOf(t)[d]))
    ensures d >= |CasesOf(t)| ==> Loaded(Err(Rejected), m, p, t)
    ensures d < |CasesOf(t)| && r.Ok? ==> Loaded(Ok(Build(t, d, r.value)), m, p, t)
    ensures d < |CasesOf(t)| && r.Err? ==> Loaded(Err(r.fault), m, p, t)
  {
    hide Load, Despec, DespecCase, PayloadOffset, DiscBytes, Build, Reify, ReifyCase, Ready, CasesOf, FromLittleEndian;
    CasesShape(t);
    var ss := DespecCases(CasesOf(t));
    LoadOfSum(m, p, ss, d);
    if d < |ss| {
      assert ss[d] == DespecCase(CasesOf(t)[d]);
      var x := Load(m, p + PayloadOffset(ss), ss[d]);
      if x.Ok? {
        BuildReify(InMemory, t, d, x.value);
      }
    }
  }

  method LoadPayload(mem: array<byte>, ptr: u32, c: Case) returns (r: Result<Value>)
    ensures (c.Carrying? ==> Ready(mem.Length, ptr, c.t)) ==> LoadedCase(r, mem[..], ptr, c)
    decreases c, 0
  {
    if c.Carrying? {
      r := LoadValue(mem, ptr, c.t);
      CarryingLoaded(r, mem[..], ptr, c.t);
    } else {
      r := Ok(Nil);
      EmptyLoaded(mem[..], ptr);
    }
  }

  method LoadVariant(mem: array<byte>, ptr: u32, cs: seq<Case>) returns (r: Result<Value>)
    ensures Ready(mem.Length, ptr, VariantT(cs)) ==> Loaded(r, mem[..], ptr, VariantT(cs))
    decreases VariantT(cs), 0
  {
    hide Ready, Loaded, LoadedCase, Valid, MaxAlign, AlignUp, Aligned, CheckedAlign, PayloadOffset, DespecCases,
         FromLittleEndian, DiscriminantType;
    ghost var m, t := mem[..], VariantT(cs);
    ghost var ready := Ready(mem.Length, ptr, t);
    LargeLoaded(m, ptr, t);
    DiscriminantHoldsCases(|cs|);
    if ready {
      SumReady(mem.Length, ptr, t);
      CaseSizes(mem.Length, ptr, cs);
    }
    var disc :- DiscriminantType(|cs|);
    var discSize := SizePrimitive(disc);
    var d :- LoadInt(mem, ptr, discSize, false);
    if d.u >= |cs| {
      if ready {
        SumLoaded(Ok(Nil), m, ptr, t, d.u);
      }
      return Err(Rejected);
    }
    var offset :- CheckedAdd(ptr, discSize);
    var align :- MaxCaseAlignment(cs);
    CheckedAlignExact(offset, align);
    offset :- CheckedAlign(offset, align);
    assert cs[d.u].Carrying? ==> cs[d.u] == Carrying(cs[d.u].t);
    if ready {
      CaseReady(mem.Length, ptr, t, d.u);
    }
    var v := LoadPayload(mem, offset, cs[d.u]);
    if ready {
      SumLoaded(v, m, ptr, t, d.u);
    }
    return if v.Ok? then Ok(VVariant(d.u, v.value)) else v;
  }

  method LoadOption(mem: array<byte>, ptr: u32, e: Type) returns (r: Result<Value>)
    ensures Ready(mem.Length, ptr, OptionT(e)) ==> Loaded(r, mem[..], ptr, OptionT(e))
    decreases OptionT(e), 0
  {
    hide Ready, Loaded, LoadedCase, Valid, MaxAlign, AlignUp, Aligned, CheckedAlign, PayloadOffset, DespecCases,
      FromLittleEndian;
    ghost var m, t := mem[..], OptionT(e);
    ghost var ready := Ready(mem.Length, ptr, t);
    LargeLoaded(m, ptr, t);
    if ready {
      SumReady(mem.Length, ptr, t);
      OptionAlign(mem.Length, ptr, e);
    }
    var d :- LoadInt(mem, ptr, 1, false);
    var offset :- CheckedAdd(ptr, 1);
    var align :- Alignment(e);
    CheckedAlignExact(offset, align);
    offset :- CheckedAlign(offset, align);
    match d.u {
      case 0 =>
        EmptyLoaded(m, offset);
        r := Ok(Nil);
      case 1 =>
        if ready {
          CaseReady(mem.Length, ptr, t, 1);
        }
        r := LoadValue(mem, offset, e);
        CarryingLoaded(r, m, offset, e);
      case _ => r := Err(Rejected);
    }
    if ready {
      SumLoaded(r, m, ptr, t, d.u);
      assert r.Err? ==> Loaded(Err(r.fault), m, ptr, t);
    }
  }

  method LoadResult(mem: array<byte>, ptr: u32, ok: Case, err: Case) returns (r: Result<Value>)
    ensures Ready(mem.Length, ptr, ResultT(ok, err)) ==> Loaded(r, mem[..], ptr, ResultT(ok, err))
    decreases ResultT(ok, err), 0
  {
    hide Ready, Loaded, LoadedCase, Valid, MaxAlign, AlignUp, Aligned, CheckedAlign, PayloadOffset, DespecCases,
      FromLittleEndian;
    ghost var m, t := mem[..], ResultT(ok, err);
    ghost var ready := Ready(mem.Length, ptr, t);
    LargeLoaded(m, ptr, t);
    if ready {
      SumReady(mem.Length, ptr, t);
      ResultAlign(mem.Length, ptr, ok, err);
    }
    var d :- LoadInt(mem, ptr, 1, false);
    var offset :- CheckedAdd(ptr, 1);
    var align :- ArmsAlignment(ok, err);
    CheckedAlignExact(offset, align);
    offset :- CheckedAlign(offset, align);
    if d.u > 1 {
      if ready {
        SumLoaded(Ok(Nil), m, ptr, t, d.u);
      }
      return Err(Rejected);
    }
    if ready {
      CaseReady(mem.Length, ptr, t, d.u);
    }
    var v: Result<Value>;
    if d.u == 0 {
      v := LoadPayload(mem, offset, ok);
    } else {
      v := LoadPayload(mem, offset, err);
    }
    if ready {
      SumLoaded(v, m, ptr, t, d.u);
    }
    return if v.Ok? then Ok(VResult(d.u == 1, v.value)) else v;
  }

  // ---- enums, flags and handles ----

  method LoadEnum(mem: array<byte>, ptr: u32, names: u32) returns (r: Result<Value>)
    ensures Ready(mem.Length, ptr, EnumT(names)) ==> Loaded(r, mem[..], ptr, EnumT(names))
  {
    hide Ready, Loaded, FromLittleEndian, DiscriminantType;
    DiscriminantHoldsCases(names);
    if Ready(mem.Length, ptr, EnumT(names)) {
      EnumFits(mem.Length, ptr, names);
    }
    var disc :- DiscriminantType(names);
    var d :- LoadInt(mem, ptr, SizePrimitive(disc), false);
    if Ready(mem.Length, ptr, EnumT(names)) {
      EnumLoaded(mem[..], ptr, names, d.u);
    }
    if d.u >= names {
      return Err(Rejected);
    }
    return Ok(d);
  }

  lemma EnumFits(m: nat, p: nat, names: u32)
    requires Ready(m, p, EnumT(names))
    ensures 0 < names && p + DiscBytes(names) <= m
  {
    hide Align, AlignUp, Aligned, Size;
    EnumSize(names);
  }

  lemma EnumLoaded(m: bytes, p: nat, names: u32, d: u32)
    requires Ready(|m|, p, EnumT(names)) && p + DiscBytes(names) <= |m|
      && d == FromLittleEndian(m[p..p + DiscBytes(names)])
    ensures Loaded(if d < names then Ok(VU32(d)) else Err(Rejected), m, p, EnumT(names))
  {
    hide Align, AlignUp, Size, Aligned, FromLittleEndian;
    LoadOfSum(m, p, Units(names), d);
    if d < names {
      assert Units(names)[d] == Unit;
    }
  }

  method LoadFlags(mem: array<byte>, ptr: u32, labels: nat) returns (r: Result<Value>)
    ensures Ready(mem.Length, ptr, FlagsT(labels)) ==> Loaded(r, mem[..], ptr, FlagsT(labels))
  {
    hide Loaded, FromLittleEndian;
    var size :- FlagsBytes(labels);
    r := LoadInt(mem, ptr, size, false);
    if Ready(mem.Length, ptr, FlagsT(labels)) {
      ScalarLoaded(mem[..], ptr, FlagsT(labels), FlagsS(FlagsWidth(labels)),
        if ptr + size <= mem.Length then FromLittleEndian(mem[..][ptr..ptr + size]) else 0);
    }
  }

  method LoadHandle(mem: array<byte>, ptr: u32) returns (r: Result<Value>)
    ensures Ready(mem.Length, ptr, HandleT) ==> Loaded(r, mem[..], ptr, HandleT)
  {
    hide Loaded, FromLittleEndian;
    r := LoadInt(mem, ptr, 4, false);
    if Ready(mem.Length, ptr, HandleT) {
      ScalarLoaded(mem[..], ptr, HandleT, IntS(W4),
        if ptr + 4 <= mem.Length then FromLittleEndian(mem[..][ptr..ptr + 4]) else 0);
    }
  }

  // ---- any type ----

  method LoadValue(mem: array<byte>, ptr: u32, t: Type) returns (r: Result<Value>)
    ensures Ready(mem.Length, ptr, t) ==> Loaded(r, mem[..], ptr, t)
    decreases t, 1
  {
    hide Loaded;
    match t {
      case PrimT(p) => r := LoadPrimitive(mem, ptr, p);
      case ListT(e) => r := LoadListValue(mem, ptr, e);
      case RecordT(ts) => r := LoadProductValue(mem, ptr, t, ts);
      case TupleT(ts) => r := LoadProductValue(mem, ptr, t, ts);
      case VariantT(cs) => r := LoadVariant(mem, ptr, cs);
      case FlagsT(labels) => r := LoadFlags(mem, ptr, labels);
      case EnumT(names) => r := LoadEnum(mem, ptr, names);
      case OptionT(e) => r := LoadOption(mem, ptr, e);
      case ResultT(ok, err) => r := LoadResult(mem, ptr, ok, err);
      case HandleT => r := LoadHandle(mem, ptr);
      case OtherT => r := Err(Rejected);
    }
  }

  /** THE LOAD ENTRY POINT: the reference `LoadValueAt`, and no inner check
      fails in a memory shorter than 2^32 bytes. */
  method LoadTop(mem: array<byte>, ptr: u32, t: Type) returns (r: Result<Value>)
    ensures r.Ok? ==> LoadValueAt(mem[..], ptr, t) == r
    ensures r.Err? && mem.Length < TWO_32 ==> r.fault == Rejected && LoadValueAt(mem[..], ptr, t).Err?
  {
    hide Loaded, Ready, LoadValueAt, Checked, IsAlignOf, IsSizeOf, Aligned, Within, Valid, Size, Align;
    var align := Alignment(t);
    var size := SizeOf(t);
    TopRefused(mem[..], ptr, t, align, size);
    if align.Err? || size.Err? {
      return Err(Rejected);
    }
    AlignedIsMod(ptr, align.value);
    if ptr % align.value != 0 || ptr + size.value > mem.Length {
      return Err(Rejected);
    }
    r := LoadValue(mem, ptr, t);
    TopLoaded(r, mem[..], ptr, t, align, size);
  }

  lemma TopRefused(m: bytes, p: nat, t: Type, align: Result<u32>, size: Result<u32>)
    requires IsAlignOf(align, Checked(t)) && IsSizeOf(size, Checked(t))
    ensures align.Ok? ==> IsAlignment(align.value)
    ensures Refused(|m|, p, align, size) ==> LoadValueAt(m, p, t).Err?
  {
  }

  lemma TopLoaded(r: Result<Value>, m: bytes, p: nat, t: Type, align: Result<u32>, size: Result<u32>)
    requires IsAlignOf(align, Checked(t)) && IsSizeOf(size, Checked(t))
    requires (align.Ok? ==> IsAlignment(align.value)) && !Refused(|m|, p, align, size)
    requires Ready(|m|, p, t) ==> Loaded(r, m, p, t)
    ensures r.Ok? ==> LoadValueAt(m, p, t) == r
    ensures r.Err? && |m| < TWO_32 ==> r.fault == Rejected && LoadValueAt(m, p, t).Err?
  {
    assert Within(t, 0);
  }
}

/** The memory encoding outright, byte by byte, for host values: which bytes a
    stored value leaves, and which value the bytes of each type are loaded as. */
module MemoryEncoding {
  import opened Base
  import opened Shapes
  import opened ShapeFacts
  import opened Memory
  import opened MemoryFacts
  import opened Values
  import opened ValueFacts
  import opened Layout
  import opened Footprint
  import opened Storing
  import opened Loading
  import Utf8

  /** The n bytes at `p` are the digits of `x` to the base 256, the lowest digit
      first; those of a negative number are its two's complement. */
  predicate Digits(m: bytes, p: nat, n: nat, x: int) {
    p + n <= |m| && forall i :: 0 <= i < n ==> m[p + i] == x / Pow256(i) % 256
  }

  // ---- loading ----

  lemma LoadedAt(m: bytes, p: nat, t: Type, v: Value)
    ensures LoadValueAt(m, p, t) == Ok(v) <==>
      && Ready(|m|, p, t) && Size(Despec(t)) < TWO_32
      && Load(m, p, Despec(t)).Ok? && v == Reify(InMemory, t, Load(m, p, Despec(t)).value)
  {
    hide Load, Reify, Despec, Valid, Size, Align, Aligned, Within;
    TooDeep(t);
  }

  lemma TooDeep(t: Type)
    ensures !Within(t, 0) ==> !Valid(Checked(t))
  {
  }

  lemma BytesLoaded(m: bytes, p: nat, n: nat)
    requires p + n <= |m|
    ensures Digits(m, p, n, FromLittleEndian(m[p..p + n])) && FromLittleEndian(m[p..p + n]) < Pow256(n)
  {
    forall i | 0 <= i < n ensures m[p + i] == FromLittleEndian(m[p..p + n]) / Pow256(i) % 256 {
      FromLittleEndianAt(m[p..p + n], i);
    }
    FromLittleEndianBound(m[p..p + n]);
  }

  lemma ScalarDigits(m: bytes, p: nat, l: Scalar)
    requires LoadScalar(m, p, l).Ok? && !l.BoolS?
    ensures Digits(m, p, ScalarBytes(l), LoadScalar(m, p, l).value.n)
    ensures LoadScalar(m, p, l).value.n < Pow256(ScalarBytes(l))
    ensures l.CharS? ==> UnicodeScalar(LoadScalar(m, p, l).value.n)
  {
    BytesLoaded(m, p, ScalarBytes(l));
  }

  lemma {:induction false} PowerSplit(n: nat, i: nat)
    requires i <= n
    ensures Pow256(n) == Pow256(n - i) * Pow256(i)
  {
    if i > 0 {
      PowerSplit(n - 1, i - 1);
    }
  }

  lemma DivShift(x: int, p: nat, c: int, d: int)
    requires p > 0 && d == c * p
    ensures (x - d) / p == x / p - c
  {
    var q, r := x / p, x % p;
    assert x == q * p + r;
    assert (q - c) * p == q * p - c * p;
    ModUnique(x - d, p, q - c, r);
  }

  lemma ModShift(y: int, c: int)
    requires c % 256 == 0
    ensures (y - c) % 256 == y % 256
  {
  }

  /** The low digits do not change when a multiple of a higher power is subtracted. */
  lemma DigitShift(x: int, c: int, n: nat, i: nat)
    requires i < n
    ensures (x - c * Pow256(n)) / Pow256(i) % 256 == x / Pow256(i) % 256
  {
    var k := c * Pow256(n - i);
    PowerSplit(n, i);
    Associate(c, Pow256(n - i), Pow256(i));
    DivShift(x, Pow256(i), k, c * Pow256(n));
    PowerMod(n - i, c);
    ModShift(x / Pow256(i), k);
  }

  lemma Associate(a: int, b: int, c: int)
    ensures a * (b * c) == (a * b) * c
  {
  }

  lemma PowerMod(n: nat, c: int)
    requires n > 0
    ensures c * Pow256(n) % 256 == 0
  {
    var q := Pow256(n - 1);
    assert c * (256 * q) == (c * q) * 256;
    ModUnique(c * (256 * q), 256, c * q, 0);
  }

  lemma SignedDigits(m: bytes, p: nat, w: nat, n: nat)
    requires IsWidth(w) && n < Span(w) && Digits(m, p, w, n)
    ensures Digits(m, p, w, Signed(w, n))
  {
    Pow256Values();
    if Signed(w, n) != n {
      forall i | 0 <= i < w ensures m[p + i] == Signed(w, n) / Pow256(i) % 256 {
        DigitShift(n, 1, w, i);
      }
    }
  }

  lemma FirstDigit(m: bytes, p: nat, n: nat)
    requires Digits(m, p, 1, n) && n < 0x100
    ensures p < |m| && m[p] == n
  {
    assert m[p + 0] == n / Pow256(0) % 256;
  }

  lemma ScalarFound(m: bytes, p: nat, prim: Prim, v: Value)
    requires LoadValueAt(m, p, PrimT(prim)) == Ok(v) && prim != Str
    ensures var l := ScalarOf(prim);
      && p + ScalarBytes(l) <= |m|
      && var n := ReadScalar(l, FromLittleEndian(m[p..p + ScalarBytes(l)]));
      n.Ok? && v == ReifyPrim(InMemory, prim, SInt(n.value))
  {
    LoadedAt(m, p, PrimT(prim), v);
  }

  lemma NotSurrogate(n: int)
    ensures UnicodeScalar(n) ==> 0 <= n < 0x11_0000 && !(0xD800 <= n < 0xE000)
  {
  }

  /** A byte other than zero is true; an s8 that is not negative is loaded as
      unsigned. */
  lemma LoadedByte(m: bytes, p: nat, prim: Prim, v: Value)
    requires LoadValueAt(m, p, PrimT(prim)) == Ok(v)
    ensures prim == Bool || prim == U8 || prim == S8 ==> p < |m|
    ensures prim == Bool ==> v == VBool(m[p] != 0)
    ensures prim == U8 ==> v == VU32(m[p])
    ensures prim == S8 && m[p] < 0x80 ==> v == VU32(m[p])
    ensures prim == S8 && m[p] >= 0x80 ==> v.VS32? && v.i == m[p] as int - 0x100
  {
    hide Digits, LoadValueAt, FromLittleEndian, UnicodeScalar;
    Pow256Values();
    if prim == Bool || prim == U8 || prim == S8 {
      ScalarFound(m, p, prim, v);
      BytesLoaded(m, p, 1);
      FirstDigit(m, p, FromLittleEndian(m[p..p + 1]));
    }
  }

  lemma LoadedUnsigned(m: bytes, p: nat, prim: Prim, v: Value)
    requires LoadValueAt(m, p, PrimT(prim)) == Ok(v)
    ensures prim == U16 ==> v.VU32? && v.u < 0x1_0000 && Digits(m, p, 2, v.u)
    ensures prim == U32 || prim == ErrorContext ==> v.VU32? && Digits(m, p, 4, v.u)
    ensures prim == U64 ==> v.VU64? && Digits(m, p, 8, v.ul)
    ensures prim == Float32 ==> v.VF32? && Digits(m, p, 4, v.fbits)
    ensures prim == Float64 ==> v.VF64? && Digits(m, p, 8, v.dbits)
  {
    hide Digits, LoadValueAt, FromLittleEndian, UnicodeScalar;
    Pow256Values();
    if prim != Str {
      ScalarFound(m, p, prim, v);
      BytesLoaded(m, p, ScalarBytes(ScalarOf(prim)));
    }
  }

  /** Two's complement; a character is a Unicode scalar value. */
  lemma LoadedSigned(m: bytes, p: nat, prim: Prim, v: Value)
    requires LoadValueAt(m, p, PrimT(prim)) == Ok(v)
    ensures prim == S16 ==> v.VS32? && -0x8000 <= v.i < 0x8000 && Digits(m, p, 2, v.i)
    ensures prim == S32 ==> v.VS32? && Digits(m, p, 4, v.i)
    ensures prim == S64 ==> v.VS64? && Digits(m, p, 8, v.il)
    ensures prim == Char ==> v.VS32? && Digits(m, p, 4, v.i) && 0 <= v.i < 0x11_0000 && !(0xD800 <= v.i < 0xE000)
  {
    hide Digits, LoadValueAt, FromLittleEndian, UnicodeScalar;
    Pow256Values();
    if prim == S16 || prim == S32 || prim == S64 || prim == Char {
      var w := ScalarBytes(ScalarOf(prim));
      ScalarFound(m, p, prim, v);
      BytesLoaded(m, p, w);
      var n := FromLittleEndian(m[p..p + w]);
      SignedDigits(m, p, w, n);
      NotSurrogate(n);
    }
  }

  lemma LoadedHandle(m: bytes, p: nat, v: Value)
    requires LoadValueAt(m, p, HandleT) == Ok(v)
    ensures v.VU32? && Digits(m, p, 4, v.u)
  {
    hide Digits;
    Pow256Values();
    LoadedAt(m, p, HandleT, v);
    BytesLoaded(m, p, 4);
  }

  lemma LoadedFlags(m: bytes, p: nat, labels: nat, v: Value)
    requires LoadValueAt(m, p, FlagsT(labels)) == Ok(v)
    ensures 0 < labels <= 32 && v.VU32? && Digits(m, p, if labels <= 8 then 1 else if labels <= 16 then 2 else 4, v.u)
  {
    hide Digits;
    Pow256Values();
    LoadedAt(m, p, FlagsT(labels), v);
    BytesLoaded(m, p, FlagsWidth(labels).Bytes());
  }

  /** Text is wherever its address says, as long as its length says. */
  lemma LoadedText(m: bytes, p: nat, v: Value) returns (q: u32)
    requires LoadValueAt(m, p, PrimT(Str)) == Ok(v)
    ensures v.VString? && Digits(m, p, 4, q) && Digits(m, p + 4, 4, |v.s|)
    ensures q + |v.s| <= |m| && v.s == m[q..q + |v.s|] && Utf8.Valid(v.s)
  {
    hide Digits;
    Pow256Values();
    LoadedAt(m, p, PrimT(Str), v);
    BytesLoaded(m, p, 4);
    BytesLoaded(m, p + 4, 4);
    q := FromLittleEndian(m[p..p + 4]);
  }

  /** `vs` are the values of the elements from `q` on, `size` bytes apart. */
  predicate HeldInTurn(m: bytes, q: nat, size: nat, e: Type, vs: seq<Value>) {
    forall i: nat :: i < |vs| ==> LoadValueAt(m, q + i * size, e) == Ok(vs[i])
  }

  lemma {:induction false} LoadElemsAt(m: bytes, q: nat, elem: Shape, n: nat, i: nat)
    requires i < n && LoadElems(m, q, elem, n).Ok?
    ensures Load(m, q + ElemsSize(elem, i), elem) == Ok(LoadElems(m, q, elem, n).value[i])
    decreases n
  {
    hide Load, ElemsSize;
    if i < n - 1 {
      LoadElemsAt(m, q, elem, n - 1, i);
    }
  }

  lemma ListFound(m: bytes, q: nat, n: nat, e: Type)
    requires LoadList(m, q, n, Checked(e)).Ok?
    ensures Checked(e) == Despec(e) && Within(e, 0) && Valid(Despec(e)) && Size(Despec(e)) < TWO_32
    ensures n <= 0x10_0000 && q + ElemsSize(Despec(e), n) <= |m| && Aligned(q, Align(Despec(e)))
    ensures LoadElems(m, q, Despec(e), n).Ok?
    ensures LoadList(m, q, n, Checked(e)) == Ok(SList(LoadElems(m, q, Despec(e), n).value))
  {
    hide LoadElems, Size, ElemsSize, Align, Aligned, Within, Despec;
    TooDeep(e);
  }

  /** At most 2^20 elements stand one behind the other from the address of a list
      on, without gaps. */
  lemma ListElements(m: bytes, q: nat, n: nat, e: Type)
    requires LoadList(m, q, n, Checked(e)).Ok?
    ensures var xs := LoadList(m, q, n, Checked(e)).value;
      xs.SList? && |xs.elems| == n <= 0x10_0000 && q + n * Size(Despec(e)) <= |m|
      && HeldInTurn(m, q, Size(Despec(e)), e, ReifyElems(e, xs.elems))
  {
    hide LoadList, LoadValueAt, Reify, Despec, Load, LoadElems, Valid, Size, ElemsSize, Align, Aligned, Within;
    ListFound(m, q, n, e);
    ElemsSizeIsProduct(Despec(e), n);
    var xs := LoadElems(m, q, Despec(e), n).value;
    forall i: nat | i < n ensures LoadValueAt(m, q + i * Size(Despec(e)), e) == Ok(ReifyElems(e, xs)[i]) {
      LoadElemsAt(m, q, Despec(e), n, i);
      ElemsSizeIsProduct(Despec(e), i);
      ElementReady(|m|, q, e, i, n);
      LoadedAt(m, q + i * Size(Despec(e)), e, ReifyElems(e, xs)[i]);
    }
  }

  lemma ListHeld(m: bytes, p: nat, e: Type)
    requires LoadListRef(m, p, Checked(e)).Ok?
    ensures p + 8 <= |m|
    ensures LoadListRef(m, p, Checked(e))
         == LoadList(m, FromLittleEndian(m[p..p + 4]), FromLittleEndian(m[p + 4..p + 8]), Checked(e))
  {
    hide LoadList, FromLittleEndian, Checked;
  }

  lemma LoadOfList(m: bytes, p: nat, e: Type)
    ensures Load(m, p, Despec(ListT(e))) == LoadListRef(m, p, Checked(e))
    ensures forall x: Sem :: x.SList? ==> Reify(InMemory, ListT(e), x) == VList(ReifyElems(e, x.elems))
  {
    hide LoadListRef, Checked;
  }

  lemma LoadedList(m: bytes, p: nat, e: Type, v: Value) returns (q: u32)
    requires LoadValueAt(m, p, ListT(e)) == Ok(v)
    ensures v.VList? && Digits(m, p, 4, q) && Digits(m, p + 4, 4, |v.vs|) && |v.vs| <= 0x10_0000
    ensures HeldInTurn(m, q, Size(Despec(e)), e, v.vs)
  {
    hide Digits, HeldInTurn, LoadValueAt, Reify, ReifyElems, Despec, Load, LoadListRef, LoadList, Size, Ready, Checked,
      FromLittleEndian;
    Pow256Values();
    LoadedAt(m, p, ListT(e), v);
    LoadOfList(m, p, e);
    ListHeld(m, p, e);
    BytesLoaded(m, p, 4);
    BytesLoaded(m, p + 4, 4);
    q := FromLittleEndian(m[p..p + 4]);
    ListElements(m, q, FromLittleEndian(m[p + 4..p + 8]), e);
  }

  // ---- records, tuples and sums ----

  lemma {:induction false} LoadFieldsAt(m: bytes, p: nat, fs: seq<Shape>, n: nat, i: nat)
    requires i < n <= |fs| && LoadFields(m, p, fs, n).Ok?
    ensures Load(m, p + FieldOffset(fs, i), fs[i]) == Ok(LoadFields(m, p, fs, n).value[i])
    decreases n
  {
    hide Load, FieldOffset;
    if i < n - 1 {
      LoadFieldsAt(m, p, fs, n - 1, i);
    }
  }

  lemma LoadOfProduct(m: bytes, p: nat, t: Type, ts: seq<Type>)
    requires t == RecordT(ts) || t == TupleT(ts)
    ensures var fs := DespecAll(ts);
      Despec(t) == Product(fs)
      && var x, xs := Load(m, p, Despec(t)), LoadFields(m, p, fs, |fs|);
      x.Ok? ==> xs.Ok? && Reify(InMemory, t, x.value) == VList(ReifyAll(InMemory, ts, xs.value))
  {
    var fs := DespecAll(ts);
    assert Load(m, p, Product(fs)) == LoadProduct(m, p, fs);
  }

  lemma FieldSmaller(fs: seq<Shape>, i: nat)
    requires i < |fs|
    ensures Size(fs[i]) <= Size(Product(fs))
  {
    hide Size, Aligned, AlignUp, Align, FieldsEnd, FieldOffset;
    FieldPlaced(fs, i);
    FieldsEndGrows(fs, i + 1, |fs|);
  }

  /** Each field of a record, and each element of a tuple, is loaded from its own
      offset, in order. */
  lemma LoadedFields(m: bytes, p: nat, t: Type, ts: seq<Type>, v: Value)
    requires (t == RecordT(ts) || t == TupleT(ts)) && LoadValueAt(m, p, t) == Ok(v)
    ensures v.VList? && |v.vs| == |ts|
    ensures forall i :: 0 <= i < |ts| ==> LoadValueAt(m, p + FieldOffset(DespecAll(ts), i), ts[i]) == Ok(v.vs[i])
  {
    hide LoadValueAt, Reify, Despec, Load, LoadFields, Valid, Size, Align, Aligned, Within, FieldOffset, Ready;
    var fs := DespecAll(ts);
    LoadedAt(m, p, t, v);
    LoadOfProduct(m, p, t, ts);
    forall i | 0 <= i < |ts| ensures LoadValueAt(m, p + FieldOffset(fs, i), ts[i]) == Ok(v.vs[i]) {
      FieldReady(|m|, p, t, ts, i);
      FieldSmaller(fs, i);
      LoadFieldsAt(m, p, fs, |fs|, i);
      LoadedAt(m, p + FieldOffset(fs, i), ts[i], v.vs[i]);
    }
  }

  /** The case that is loaded, and what it carries. */
  lemma LoadedCase(m: bytes, p: nat, t: Type, v: Value) returns (d: nat, carried: Value)
    requires IsSum(t) && LoadValueAt(m, p, t) == Ok(v)
    ensures d < |CasesOf(t)| && Digits(m, p, DiscBytes(|CasesOf(t)|), d) && d < TWO_32 && v == Build(t, d, carried)
    ensures var c := CasesOf(t)[d];
      if c.Empty? then carried == Nil
      else LoadValueAt(m, p + PayloadOffset(DespecCases(CasesOf(t))), c.t) == Ok(carried)
  {
    hide LoadValueAt, Digits, Load, Reify, ReifyCase, Build, Despec, DespecCase, PayloadOffset, DiscBytes, Size, Ready,
      CasesOf, FromLittleEndian, IsSum;
    LoadedAt(m, p, t, v);
    SumReady(|m|, p, t);
    CasesShape(t);
    var ss := DespecCases(CasesOf(t));
    BytesLoaded(m, p, DiscBytes(|ss|));
    d := FromLittleEndian(m[p..p + DiscBytes(|ss|)]);
    LoadOfSum(m, p, ss, d);
    DiscSmall(|ss|, d);
    var x := Load(m, p + PayloadOffset(ss), ss[d]).value;
    BuildReify(InMemory, t, d, x);
    carried := ReifyCase(InMemory, CasesOf(t)[d], x);
    CarriedLoaded(m, p, t, d, carried);
  }

  lemma DiscSmall(n: nat, d: nat)
    requires d < Pow256(DiscBytes(n))
    ensures d < TWO_32
  {
    Pow256Values();
  }

  lemma CarriedLoaded(m: bytes, p: nat, t: Type, d: nat, carried: Value)
    requires IsSum(t) && Ready(|m|, p, t) && Size(Despec(t)) < TWO_32 && d < |CasesOf(t)|
    requires var ss := DespecCases(CasesOf(t)); var x := Load(m, p + PayloadOffset(ss), ss[d]);
      x.Ok? && carried == ReifyCase(InMemory, CasesOf(t)[d], x.value)
    ensures var c := CasesOf(t)[d];
      if c.Empty? then carried == Nil
      else LoadValueAt(m, p + PayloadOffset(DespecCases(CasesOf(t))), c.t) == Ok(carried)
  {
    hide LoadValueAt, Load, Reify, Despec, PayloadOffset, DiscBytes, Size, Ready, CasesOf, IsSum, Align, Aligned;
    var c, ss := CasesOf(t)[d], DespecCases(CasesOf(t));
    if c.Carrying? {
      CasesShape(t);
      CaseReady(|m|, p, t, d);
      ReadyAligned(|m|, p, t);
      PayloadInside(ss, d, p);
      LoadedAt(m, p + PayloadOffset(ss), c.t, carried);
    }
  }

  lemma ReadyAligned(m: nat, p: nat, t: Type)
    requires Ready(m, p, t)
    ensures Aligned(p, Align(Despec(t)))
  {
  }

  /** VARIANTS. The discriminant is the number of the case; the payload stands at
      the same offset for every case; a case without payload carries nil. */
  lemma LoadedVariant(m: bytes, p: nat, cs: seq<Case>, v: Value)
    requires LoadValueAt(m, p, VariantT(cs)) == Ok(v)
    ensures v.VVariant? && v.disc < |cs| && Digits(m, p, DiscBytes(|cs|), v.disc)
    ensures if cs[v.disc].Empty? then v.payload == Nil
            else LoadValueAt(m, p + PayloadOffset(DespecCases(cs)), cs[v.disc].t) == Ok(v.payload)
  {
    hide LoadValueAt, Digits, PayloadOffset, DiscBytes;
    var d, carried := LoadedCase(m, p, VariantT(cs), v);
  }

  lemma PairOffset(a: Shape, b: Shape)
    ensures PayloadOffset([a, b]) == if Align(a) >= Align(b) then Align(a) else Align(b)
    ensures DiscBytes(2) == 1
  {
    hide Align;
    TwoCases(a, b);
  }

  /** OPTIONS. 0 is none, 1 is some; the payload stands at the alignment of its type. */
  lemma LoadedOption(m: bytes, p: nat, e: Type, v: Value)
    requires LoadValueAt(m, p, OptionT(e)) == Ok(v)
    ensures p < |m| && m[p] <= 1
    ensures m[p] == 0 ==> v == Nil
    ensures m[p] == 1 ==> LoadValueAt(m, p + Align(Despec(e)), e) == Ok(v)
  {
    hide LoadValueAt, Digits, PayloadOffset, DiscBytes, Align, Despec;
    var d, carried := LoadedCase(m, p, OptionT(e), v);
    assert DespecCases([Empty, Carrying(e)]) == [Unit, Despec(e)];
    PairOffset(Unit, Despec(e));
    UnitLayout();
    FirstDigit(m, p, d);
  }

  /** RESULTS. 0 is ok, 1 is an error; the payload stands at the larger alignment
      of both. */
  lemma LoadedResult(m: bytes, p: nat, ok: Case, err: Case, v: Value)
    requires LoadValueAt(m, p, ResultT(ok, err)) == Ok(v)
    ensures p < |m| && m[p] <= 1 && v.VResult? && v.isErr == (m[p] == 1)
    ensures var c, a, b := if m[p] == 1 then err else ok, Align(DespecCase(ok)), Align(DespecCase(err));
      if c.Empty? then v.carried == Nil
      else LoadValueAt(m, p + (if a >= b then a else b), c.t) == Ok(v.carried)
  {
    hide LoadValueAt, Digits, PayloadOffset, DiscBytes, Align, DespecCase;
    var d, carried := LoadedCase(m, p, ResultT(ok, err), v);
    assert DespecCases([ok, err]) == [DespecCase(ok), DespecCase(err)];
    PairOffset(DespecCase(ok), DespecCase(err));
    FirstDigit(m, p, d);
  }

  lemma LoadedEnum(m: bytes, p: nat, names: u32, v: Value)
    requires LoadValueAt(m, p, EnumT(names)) == Ok(v)
    ensures v.VU32? && v.u < names
    ensures Digits(m, p, if names <= 0x100 then 1 else if names <= 0x1_0000 then 2 else 4, v.u)
  {
    hide Digits, Ready, FromLittleEndian, Size, Align, Aligned, AlignUp;
    LoadedAt(m, p, EnumT(names), v);
    EnumFits(|m|, p, names);
    BytesLoaded(m, p, DiscBytes(names));
    LoadOfSum(m, p, Units(names), FromLittleEndian(m[p..p + DiscBytes(names)]));
  }

  // ---- storing ----

  lemma BytesPoked(st: State, p: nat, n: nat, x: nat, sb: State)
    requires Poke(st, p, LittleEndian(n, x)) == Ok(sb)
    ensures Digits(sb.mem, p, n, x)
  {
    forall i | 0 <= i < n ensures sb.mem[p + i] == x / Pow256(i) % 256 {
      LittleEndianAt(n, x, i);
    }
  }

  lemma LowDigits(m: bytes, p: nat, n: nat, w: nat, x: int)
    requires IsWidth(w) && n <= w && Digits(m, p, n, Low(w, x))
    ensures Digits(m, p, n, x)
  {
    Pow256Values();
    var c := x / Span(w);
    assert Low(w, x) == x - c * Span(w);
    forall i | 0 <= i < n ensures m[p + i] == x / Pow256(i) % 256 {
      DigitShift(x, c, w, i);
    }
  }

  lemma StoredScalar(st: State, p: nat, t: Type, l: Scalar, v: Value, sb: State) returns (n: nat)
    requires Despec(t) == Leaf(l) && StoreValueAt(st, p, t, v) == Ok(sb)
    ensures Denote(InMemory, t, v) == Ok(SInt(n)) && Accepts(l, n) && Digits(sb.mem, p, ScalarBytes(l), n)
    ensures sb.heap == st.heap && |sb.mem| == |st.mem|
    ensures forall k: nat :: k < |st.mem| && !(p <= k < p + Size(Despec(t))) ==> sb.mem[k] == st.mem[k]
  {
    n := Denote(InMemory, t, v).value.n;
    BytesPoked(st, p, ScalarBytes(l), n, sb);
  }

  /** The bytes of a stored primitive, and of a handle or flags: the number cut to
      its bytes, a truth value as 1 or 0, a float as its bits. */
  lemma StoredUnsigned(st: State, p: nat, t: Type, v: Value, sb: State)
    requires StoreValueAt(st, p, t, v) == Ok(sb)
    ensures t == PrimT(Bool) ==> v.VBool? && Digits(sb.mem, p, 1, if v.b then 1 else 0)
    ensures t == PrimT(U8) ==> v.VU32? && Digits(sb.mem, p, 1, v.u)
    ensures t == PrimT(U16) ==> v.VU32? && Digits(sb.mem, p, 2, v.u)
    ensures t == PrimT(U32) || t == PrimT(ErrorContext) || t == HandleT ==> v.VU32? && Digits(sb.mem, p, 4, v.u)
    ensures t == PrimT(U64) ==> v.VU64? && Digits(sb.mem, p, 8, v.ul)
    ensures t == PrimT(Float32) ==> v.VF32? && Digits(sb.mem, p, 4, v.fbits)
    ensures t == PrimT(Float64) ==> v.VF64? && Digits(sb.mem, p, 8, v.dbits)
    ensures t.FlagsT? ==>
      && 0 < t.labels <= 32 && v.VU32?
      && Digits(sb.mem, p, if t.labels <= 8 then 1 else if t.labels <= 16 then 2 else 4, v.u)
  {
    hide Digits, StoreValueAt;
    if (t.PrimT? && t.prim != Str) || t.HandleT? || t.FlagsT? {
      FlagsShape(st, p, t, v);
      var n := StoredScalar(st, p, t, Despec(t).scalar, v, sb);
    }
  }

  lemma FlagsShape(st: State, p: nat, t: Type, v: Value)
    requires StoreValueAt(st, p, t, v).Ok?
    ensures t.FlagsT? ==> 0 < t.labels <= 32
  {
    if t.FlagsT? && !(0 < t.labels <= 32) {
      assert Checked(t) == Bad;
    }
  }

  lemma StoredSigned(st: State, p: nat, t: Type, v: Value, sb: State)
    requires StoreValueAt(st, p, t, v) == Ok(sb)
    ensures t == PrimT(S8) ==> v.VS32? && Digits(sb.mem, p, 1, v.i)
    ensures t == PrimT(S16) ==> v.VS32? && Digits(sb.mem, p, 2, v.i)
    ensures t == PrimT(S32) ==> v.VS32? && Digits(sb.mem, p, 4, v.i)
    ensures t == PrimT(S64) ==> v.VS64? && Digits(sb.mem, p, 8, v.il)
    ensures t == PrimT(Char) ==>
      v.VS32? && Digits(sb.mem, p, 4, v.i) && 0 <= v.i < 0x11_0000 && !(0xD800 <= v.i < 0xE000)
  {
    hide Digits, StoreValueAt, UnicodeScalar;
    if t == PrimT(S8) || t == PrimT(S16) || t == PrimT(S32) || t == PrimT(S64) || t == PrimT(Char) {
      var n := StoredScalar(st, p, t, Despec(t).scalar, v, sb);
      if t == PrimT(Char) {
        NotSurrogate(v.i);
      } else if t == PrimT(S64) {
        LowDigits(sb.mem, p, 8, 8, v.il);
      } else {
        LowDigits(sb.mem, p, ScalarBytes(Despec(t).scalar), 4, v.i);
      }
    }
  }

  lemma PairPoked(st: State, p: nat, q: nat, n: nat, sb: State)
    requires Poke(st, p, LittleEndian(4, q) + LittleEndian(4, n)) == Ok(sb)
    ensures Digits(sb.mem, p, 4, q) && Digits(sb.mem, p + 4, 4, n)
    ensures |sb.mem| == |st.mem| && sb.heap == st.heap
    ensures forall k: nat :: k < |st.mem| && !(p <= k < p + 8) ==> sb.mem[k] == st.mem[k]
  {
    PairWritten(st.mem, p, q, n);
  }

  /** Text gets a block of as many bytes, with alignment 1, and the block holds the
      text; the address of the block and the length are at `p`; nothing else
      changes. */
  lemma StoredText(st: State, p: nat, v: Value, sb: State) returns (q: u32)
    requires StoreValueAt(st, p, PrimT(Str), v) == Ok(sb) && Separated(st.heap, sb.heap, p, 8)
    ensures v.VString? && var s := v.s[..|v.s| % 0x1_0000_0000];
      && sb.heap.blocks == st.heap.blocks + [Block(q, 1, |s|)]
      && Digits(sb.mem, p, 4, q) && Digits(sb.mem, p + 4, 4, |s|)
      && q + |s| <= |sb.mem| == |st.mem| && sb.mem[q..q + |s|] == s
      && forall k: nat :: k < |st.mem| && !(p <= k < p + 8) && !(q <= k < q + |s|) ==> sb.mem[k] == st.mem[k]
  {
    hide Digits, StoreValueAt, LittleEndian, Poke;
    TextStored(st, p, v, sb);
    var s := v.s[..Low(4, |v.s|)];
    var (at, sa) := PlaceText(st, s).value;
    q := at;
    PairPoked(sa, p, q, |s|, sb);
    var b := sb.heap.blocks[|st.heap.blocks|];
    assert b == Block(q, 1, |s|) && Apart(b.ptr, b.size, p, 8);
    assert sb.mem[q..q + |s|] == s;
  }

  lemma TextStored(st: State, p: nat, v: Value, sb: State)
    requires StoreValueAt(st, p, PrimT(Str), v) == Ok(sb)
    ensures v.VString? && var s := v.s[..Low(4, |v.s|)];
      PlaceText(st, s).Ok? && var (q, sa) := PlaceText(st, s).value;
      Poke(sa, p, LittleEndian(4, q) + LittleEndian(4, |s|)) == Ok(sb)
  {
    hide PlaceText, Poke;
    assert StoreAt(st, p, Text, SText(v.s[..Low(4, |v.s|)])) == StoreValueAt(st, p, PrimT(Str), v);
  }

  lemma StoredAt(st: State, p: nat, t: Type, v: Value, sb: State)
    ensures StoreValueAt(st, p, t, v) == Ok(sb) <==>
      && Denote(InMemory, t, v).Ok? && Ready(|st.mem|, p, t) && Size(Despec(t)) < TWO_32
      && Store(st, p, Despec(t), Denote(InMemory, t, v).value) == Ok(sb)
  {
    hide Store, Denote, Despec, Valid, Size, Align, Aligned, Within;
    TooDeep(t);
  }

  /** The discriminant is stored first, then the payload, as a value of its own. */
  lemma StoredCase(st: State, p: nat, t: Type, v: Value, sb: State) returns (k: Taken, sa: State)
    requires IsSum(t) && StoreValueAt(st, p, t, v) == Ok(sb)
    ensures k == Choice(t, v) && k.Take? && Digits(sa.mem, p, DiscBytes(|CasesOf(t)|), k.disc)
    ensures sa.heap == st.heap && |sa.mem| == |st.mem|
    ensures forall i: nat :: i < |st.mem| && !(p <= i < p + DiscBytes(|CasesOf(t)|)) ==> sa.mem[i] == st.mem[i]
    ensures var c := CasesOf(t)[k.disc];
      if c.Empty? then sb == sa
      else StoreValueAt(sa, p + PayloadOffset(DespecCases(CasesOf(t))), c.t, k.carried) == Ok(sb)
  {
    hide StoreValueAt, Digits, Store, Denote, DenoteCase, Despec, DespecCase, PayloadOffset, DiscBytes, Size, Ready,
      CasesOf, LittleEndian, IsSum, Choice, Align, Aligned, Valid;
    StoredAt(st, p, t, v, sb);
    SumDenoted(t, v);
    k := Choice(t, v);
    ChoiceDenote(InMemory, t, v);
    SumReady(|st.mem|, p, t);
    CasesShape(t);
    var ss := DespecCases(CasesOf(t));
    sa := Poke(st, p, LittleEndian(DiscBytes(|ss|), k.disc)).value;
    BytesPoked(st, p, DiscBytes(|ss|), k.disc, sa);
    StoreOfSum(st, p, ss, k.disc, sa);
    CarriedStored(sa, p, t, k.disc, k.carried, sb);
  }

  lemma SumDenoted(t: Type, v: Value)
    requires IsSum(t) && Denote(InMemory, t, v).Ok?
    ensures Choice(t, v).Take?
  {
  }

  lemma CarriedStored(sa: State, p: nat, t: Type, d: nat, carried: Value, sb: State)
    requires IsSum(t) && Ready(|sa.mem|, p, t) && Size(Despec(t)) < TWO_32 && d < |CasesOf(t)|
    requires var ss := DespecCases(CasesOf(t)); var x := DenoteCase(InMemory, CasesOf(t)[d], carried);
      x.Ok? && Store(sa, p + PayloadOffset(ss), ss[d], x.value) == Ok(sb)
    ensures var c := CasesOf(t)[d];
      if c.Empty? then sb == sa
      else StoreValueAt(sa, p + PayloadOffset(DespecCases(CasesOf(t))), c.t, carried) == Ok(sb)
  {
    hide StoreValueAt, Store, Denote, Despec, PayloadOffset, DiscBytes, Size, Ready, CasesOf, IsSum, Align, Aligned;
    var c, ss := CasesOf(t)[d], DespecCases(CasesOf(t));
    if c.Carrying? {
      CasesShape(t);
      CaseReady(|sa.mem|, p, t, d);
      ReadyAligned(|sa.mem|, p, t);
      PayloadInside(ss, d, p);
      StoredAt(sa, p + PayloadOffset(ss), c.t, carried, sb);
    } else {
      UnitStored(sa, p + PayloadOffset(ss));
    }
  }

  lemma UnitStored(st: State, p: nat)
    ensures Store(st, p, Unit, SUnit) == Ok(st)
  {
  }

  /** VARIANTS. The number of the case goes first; the payload goes to the same
      offset for every case. */
  lemma StoredVariant(st: State, p: nat, cs: seq<Case>, v: Value, sb: State) returns (sa: State)
    requires StoreValueAt(st, p, VariantT(cs), v) == Ok(sb)
    ensures v.VVariant? && v.disc < |cs| && Digits(sa.mem, p, DiscBytes(|cs|), v.disc)
    ensures sa.heap == st.heap && |sa.mem| == |st.mem|
    ensures forall i: nat :: i < |st.mem| && !(p <= i < p + DiscBytes(|cs|)) ==> sa.mem[i] == st.mem[i]
    ensures if cs[v.disc].Empty? then sb == sa
            else StoreValueAt(sa, p + PayloadOffset(DespecCases(cs)), cs[v.disc].t, v.payload) == Ok(sb)
  {
    hide StoreValueAt, Digits, PayloadOffset, DiscBytes;
    var k: Taken;
    k, sa := StoredCase(st, p, VariantT(cs), v, sb);
  }

  /** OPTIONS. Nil is stored as 0, every other value as 1 and then itself. */
  lemma StoredOption(st: State, p: nat, e: Type, v: Value, sb: State) returns (sa: State)
    requires StoreValueAt(st, p, OptionT(e), v) == Ok(sb)
    ensures p < |st.mem| && sa.heap == st.heap && |sa.mem| == |st.mem|
    ensures sa.mem[p] == if v.Nil? then 0 else 1
    ensures forall i: nat :: i < |st.mem| && i != p ==> sa.mem[i] == st.mem[i]
    ensures if v.Nil? then sb == sa else StoreValueAt(sa, p + Align(Despec(e)), e, v) == Ok(sb)
  {
    hide StoreValueAt, Digits, PayloadOffset, DiscBytes, Align, Despec;
    var k: Taken;
    k, sa := StoredCase(st, p, OptionT(e), v, sb);
    assert DespecCases([Empty, Carrying(e)]) == [Unit, Despec(e)];
    PairOffset(Unit, Despec(e));
    UnitLayout();
    FirstDigit(sa.mem, p, k.disc);
  }

  /** RESULTS. Ok is stored as 0, an error as 1, and then what is carried. */
  lemma StoredResult(st: State, p: nat, ok: Case, err: Case, v: Value, sb: State) returns (sa: State)
    requires StoreValueAt(st, p, ResultT(ok, err), v) == Ok(sb)
    ensures v.VResult? && p < |st.mem| && sa.heap == st.heap && |sa.mem| == |st.mem|
    ensures sa.mem[p] == if v.isErr then 1 else 0
    ensures forall i: nat :: i < |st.mem| && i != p ==> sa.mem[i] == st.mem[i]
    ensures var c, a, b := if v.isErr then err else ok, Align(DespecCase(ok)), Align(DespecCase(err));
      if c.Empty? then sb == sa else StoreValueAt(sa, p + (if a >= b then a else b), c.t, v.carried) == Ok(sb)
  {
    hide StoreValueAt, Digits, PayloadOffset, DiscBytes, Align, DespecCase;
    var k: Taken;
    k, sa := StoredCase(st, p, ResultT(ok, err), v, sb);
    assert DespecCases([ok, err]) == [DespecCase(ok), DespecCase(err)];
    PairOffset(DespecCase(ok), DespecCase(err));
    FirstDigit(sa.mem, p, k.disc);
  }

  lemma StoredEnum(st: State, p: nat, names: u32, v: Value, sb: State)
    requires StoreValueAt(st, p, EnumT(names), v) == Ok(sb)
    ensures v.VU32? && v.u < names && sb.heap == st.heap && |sb.mem| == |st.mem|
    ensures var n := if names <= 0x100 then 1 else if names <= 0x1_0000 then 2 else 4;
      && Digits(sb.mem, p, n, v.u)
      && forall i: nat :: i < |st.mem| && !(p <= i < p + n) ==> sb.mem[i] == st.mem[i]
  {
    hide Digits, Ready, LittleEndian, Size, Align, Aligned, AlignUp;
    StoredAt(st, p, EnumT(names), v, sb);
    EnumFits(|st.mem|, p, names);
    var b := DiscBytes(names);
    var sa := Poke(st, p, LittleEndian(b, v.u)).value;
    BytesPoked(st, p, b, v.u, sa);
    StoreOfSum(st, p, Units(names), v.u, sa);
    UnitStored(sa, p + PayloadOffset(Units(names)));
  }

  // ---- records, tuples and lists ----

  lemma {:induction false} StoreFieldsAt(st: State, p: nat, fs: seq<Shape>, xs: seq<Sem>, n: nat, sb: State)
    returns (steps: seq<State>)
    requires n <= |fs| == |xs| && StoreFields(st, p, fs, xs, n) == Ok(sb)
    ensures |steps| == n + 1 && steps[0] == st && steps[n] == sb
    ensures forall i :: 0 <= i < n ==> Store(steps[i], p + FieldOffset(fs, i), fs[i], xs[i]) == Ok(steps[i + 1])
    ensures forall i :: 0 <= i <= n ==> |steps[i].mem| == |st.mem|
    decreases n
  {
    hide Store, FieldOffset;
    if n == 0 {
      steps := [st];
    } else {
      var sa := StoreFields(st, p, fs, xs, n - 1).value;
      steps := StoreFieldsAt(st, p, fs, xs, n - 1, sa);
      steps := steps + [sb];
    }
  }

  lemma StoreOfProduct(st: State, p: nat, t: Type, ts: seq<Type>, v: Value, sb: State)
    requires t == RecordT(ts) || t == TupleT(ts)
    requires Denote(InMemory, t, v).Ok? && Store(st, p, Despec(t), Denote(InMemory, t, v).value) == Ok(sb)
    ensures v.VList? && |v.vs| == |ts| && DenoteAll(InMemory, ts, v.vs, |ts|).Ok?
    ensures StoreFields(st, p, DespecAll(ts), DenoteAll(InMemory, ts, v.vs, |ts|).value, |ts|) == Ok(sb)
  {
    var xs := DenoteAll(InMemory, ts, v.vs, |ts|).value;
    assert Store(st, p, Product(DespecAll(ts)), SProduct(xs)) == StoreProduct(st, p, DespecAll(ts), xs);
  }

  /** Each field of a record, and each element of a tuple, is stored at its own
      offset as a value of its own, in order. */
  lemma StoredFields(st: State, p: nat, t: Type, ts: seq<Type>, v: Value, sb: State) returns (steps: seq<State>)
    requires (t == RecordT(ts) || t == TupleT(ts)) && StoreValueAt(st, p, t, v) == Ok(sb)
    ensures v.VList? && |v.vs| == |ts| && |steps| == |ts| + 1 && steps[0] == st && steps[|ts|] == sb
    ensures forall i :: 0 <= i < |ts| ==>
      StoreValueAt(steps[i], p + FieldOffset(DespecAll(ts), i), ts[i], v.vs[i]) == Ok(steps[i + 1])
  {
    hide StoreValueAt, Denote, DenoteAll, Despec, Store, StoreFields, Valid, Size, Align, Aligned, Within, FieldOffset,
      Ready;
    var fs := DespecAll(ts);
    StoredAt(st, p, t, v, sb);
    StoreOfProduct(st, p, t, ts, v, sb);
    var xs := DenoteAll(InMemory, ts, v.vs, |ts|).value;
    steps := StoreFieldsAt(st, p, fs, xs, |ts|, sb);
    DenoteAllAt(InMemory, ts, v.vs, |ts|);
    forall i | 0 <= i < |ts|
      ensures StoreValueAt(steps[i], p + FieldOffset(fs, i), ts[i], v.vs[i]) == Ok(steps[i + 1])
    {
      FieldReady(|st.mem|, p, t, ts, i);
      FieldSmaller(fs, i);
      ProductIs(t, ts);
      StoredAt(steps[i], p + FieldOffset(fs, i), ts[i], v.vs[i], steps[i + 1]);
    }
  }

  lemma ProductIs(t: Type, ts: seq<Type>)
    requires t == RecordT(ts) || t == TupleT(ts)
    ensures Despec(t) == Product(DespecAll(ts))
  {
  }

  lemma {:induction false} StoreElemsAt(st: State, q: nat, elem: Shape, xs: seq<Sem>, n: nat, sb: State)
    returns (steps: seq<State>)
    requires n <= |xs| && StoreElems(st, q, elem, xs, n) == Ok(sb)
    ensures |steps| == n + 1 && steps[0] == st && steps[n] == sb
    ensures forall i :: 0 <= i < n ==> Store(steps[i], q + ElemsSize(elem, i), elem, xs[i]) == Ok(steps[i + 1])
    ensures forall i :: 0 <= i <= n ==> |steps[i].mem| == |st.mem|
    decreases n
  {
    hide Store, ElemsSize;
    if n == 0 {
      steps := [st];
    } else {
      var sa := StoreElems(st, q, elem, xs, n - 1).value;
      steps := StoreElemsAt(st, q, elem, xs, n - 1, sa);
      steps := steps + [sb];
    }
  }

  lemma ListPlaced(st: State, e: Type, xs: seq<Sem>, q: nat, sb: State)
    requires PlaceList(st, Checked(e), xs) == Ok((q, sb))
    ensures Checked(e) == Despec(e) && Within(e, 0) && Valid(Despec(e)) && Size(Despec(e)) < TWO_32
    ensures q + ElemsSize(Despec(e), |xs|) <= |st.mem| && Aligned(q, Align(Despec(e)))
    ensures var g := Grow(st.heap, Align(Despec(e)), ElemsSize(Despec(e), |xs|));
      g.Ok? && g.value.0 == q && StoreElems(st.(heap := g.value.1), q, Despec(e), xs, |xs|) == Ok(sb)
  {
    hide StoreElems, Size, ElemsSize, Align, Aligned, Within, Despec;
    TooDeep(e);
  }

  /** Each of `vs` is stored as a value of its own, `size` bytes behind the one
      before it, from `q` on. */
  ghost predicate StoredInTurn(steps: seq<State>, q: nat, size: nat, e: Type, vs: seq<Value>) {
    |steps| == |vs| + 1 && forall i: nat :: i < |vs| ==>
      StoreValueAt(steps[i], q + i * size, e, vs[i]) == Ok(steps[i + 1])
  }

  /** One more block, at `q`, for n elements. */
  predicate Granted(h: Heap, h': Heap, q: nat, align: nat, n: nat, size: nat) {
    h'.blocks == h.blocks + [Block(q, align, n * size)]
  }

  /** The elements of a list go to one block, with the alignment of the element
      type, one behind the other and in order. */
  lemma ElementsPlaced(st: State, e: Type, vs: seq<Value>, q: nat, sb: State) returns (steps: seq<State>)
    requires DenoteElems(e, vs, |vs|).Ok?
    requires PlaceList(st, Checked(e), DenoteElems(e, vs, |vs|).value) == Ok((q, sb))
    ensures |steps| == |vs| + 1 && StoredInTurn(steps, q, Size(Despec(e)), e, vs)
    ensures steps[0].mem == st.mem && steps[|vs|] == sb
    ensures Granted(st.heap, steps[0].heap, q, Align(Despec(e)), |vs|, Size(Despec(e)))
  {
    hide StoreValueAt, Denote, DenoteElems, Despec, Store, StoreElems, PlaceList, Valid, Size, ElemsSize, Align,
      Aligned, Within;
    var xs := DenoteElems(e, vs, |vs|).value;
    ListPlaced(st, e, xs, q, sb);
    ElemsSizeIsProduct(Despec(e), |vs|);
    var sa := st.(heap := Grow(st.heap, Align(Despec(e)), ElemsSize(Despec(e), |vs|)).value.1);
    steps := StoreElemsAt(sa, q, Despec(e), xs, |vs|, sb);
    DenoteElemsAt(e, vs, |vs|);
    forall i: nat | i < |vs|
      ensures StoreValueAt(steps[i], q + i * Size(Despec(e)), e, vs[i]) == Ok(steps[i + 1])
    {
      ElemsSizeIsProduct(Despec(e), i);
      ElementReady(|st.mem|, q, e, i, |vs|);
      StoredAt(steps[i], q + i * Size(Despec(e)), e, vs[i], steps[i + 1]);
    }
  }

  lemma StoreOfList(st: State, p: nat, e: Type, v: Value, sb: State) returns (xs: seq<Sem>)
    requires StoreValueAt(st, p, ListT(e), v) == Ok(sb)
    ensures Denote(InMemory, ListT(e), v) == Ok(SList(xs)) && PlaceList(st, Checked(e), xs).Ok?
    ensures v.VList? || (v.VBytes? && e == PrimT(U8))
    ensures v.VList? ==> DenoteElems(e, v.vs, |v.vs|) == Ok(xs)
    ensures v.VBytes? ==> xs == DenoteBytes(v.bs[..Low(4, |v.bs|)])
    ensures var (q, sa) := PlaceList(st, Checked(e), xs).value;
      Poke(sa, p, LittleEndian(4, q) + LittleEndian(4, |xs|)) == Ok(sb)
  {
    hide PlaceList, Poke, LittleEndian, DenoteElems, Checked;
    xs := Denote(InMemory, ListT(e), v).value.elems;
    ListStored(st, p, e, v, xs, sb);
  }

  lemma ListStored(st: State, p: nat, e: Type, v: Value, xs: seq<Sem>, sb: State)
    requires StoreValueAt(st, p, ListT(e), v) == Ok(sb) && Denote(InMemory, ListT(e), v) == Ok(SList(xs))
    ensures StoreList(st, p, Checked(e), xs) == Ok(sb)
  {
    hide StoreList, Denote;
    assert Checked(ListT(e)) == List(Checked(e));
  }

  /** LISTS. The elements go to one block, one behind the other; then the address
      of the block and the number of elements go to `p`. */
  lemma StoredList(st: State, p: nat, e: Type, vs: seq<Value>, sb: State) returns (q: u32, steps: seq<State>)
    requires StoreValueAt(st, p, ListT(e), VList(vs)) == Ok(sb)
    ensures |steps| == |vs| + 1 && StoredInTurn(steps, q, Size(Despec(e)), e, vs) && steps[0].mem == st.mem
    ensures Granted(st.heap, steps[0].heap, q, Align(Despec(e)), |vs|, Size(Despec(e)))
    ensures Digits(sb.mem, p, 4, q) && Digits(sb.mem, p + 4, 4, |vs|)
    ensures sb.heap == steps[|vs|].heap && |sb.mem| == |steps[|vs|].mem|
    ensures forall k: nat :: k < |sb.mem| && !(p <= k < p + 8) ==> sb.mem[k] == steps[|vs|].mem[k]
  {
    hide StoredInTurn, StoreValueAt, Denote, DenoteElems, Despec, PlaceList, Size, Align, Digits, Poke, LittleEndian,
      Checked;
    var xs := StoreOfList(st, p, e, VList(vs), sb);
    var (at, sa) := PlaceList(st, Checked(e), xs).value;
    q := at;
    steps := ElementsPlaced(st, e, vs, q, sa);
    PairPoked(sa, p, q, |vs|, sb);
  }

  /** Bytes given for a list of u8 are copied to a block of their own. */
  lemma StoredBytes(st: State, p: nat, bs: bytes, sb: State) returns (q: u32)
    requires StoreValueAt(st, p, ListT(PrimT(U8)), VBytes(bs)) == Ok(sb) && Separated(st.heap, sb.heap, p, 8)
    ensures var s := bs[..|bs| % 0x1_0000_0000];
      && sb.heap.blocks == st.heap.blocks + [Block(q, 1, |s|)]
      && Digits(sb.mem, p, 4, q) && Digits(sb.mem, p + 4, 4, |s|)
      && q + |s| <= |sb.mem| == |st.mem| && sb.mem[q..q + |s|] == s
      && forall k: nat :: k < |st.mem| && !(p <= k < p + 8) && !(q <= k < q + |s|) ==> sb.mem[k] == st.mem[k]
  {
    hide Digits, StoreValueAt, LittleEndian, Poke, Denote, PlaceList;
    var s := bs[..Low(4, |bs|)];
    var xs := StoreOfList(st, p, PrimT(U8), VBytes(bs), sb);
    BytesPlaced(st, s);
    var (at, sa) := PlaceList(st, Checked(PrimT(U8)), xs).value;
    q := at;
    PairPoked(sa, p, q, |s|, sb);
    var b := sb.heap.blocks[|st.heap.blocks|];
    assert b == Block(q, 1, |s|) && Apart(b.ptr, b.size, p, 8);
    assert sb.mem[q..q + |s|] == s;
  }
}

/** decoder.go: the bookkeeping of the index spaces while sections are read. A
    section is the list of definitions that it holds; the resolvers over the
    spaces are in `Resolving`. */
module IndexSpaces {
  import opened Base
  import opened TypeTable

  type Name = seq<byte>

  /** The sorts of Binary.md. */
  const CORE: byte := 0
  const FUNC: byte := 1
  const TYPE: byte := 3
  const INSTANCE: byte := 5

  datatype AliasTarget = OfInstance(instance: u32, name: Name) | OfCore | Outer(count: u32, index: u32)
  datatype Alias = Alias(sort: byte, coreSort: byte, target: AliasTarget)
  datatype Import = Import(externType: byte, eqBound: Option<u32>)
  datatype Export = Export(externType: byte, externIndex: u32)
  datatype InlineExport = InlineExport(name: Name, sort: byte, sortIdx: u32)
  datatype Inst = Instantiate | InlineExports(exports: seq<InlineExport>)

  datatype Section =
    | InstanceSec(instances: seq<Inst>)
    | AliasSec(aliases: seq<Alias>)
    | TypeSec(types: seq<Desc>)
    | CanonSec(lifts: seq<bool>)
    | ImportSec(imports: seq<Import>)
    | ExportSec(exports: seq<Export>)
    | StartSec
    | CoreSec
    | UnsupportedSec

  /** One definition in file order. */
  datatype Item =
    | InstanceI(inst: Inst)
    | AliasI(al: Alias)
    | TypeI(desc: Desc)
    | CanonI(lift: bool)
    | ImportI(im: Import)
    | ExportI(ex: Export)

  datatype Kind = InstanceK | AliasK | TypeK | CanonK | ImportK | ExportK

  /** A slot of an index space: which definition of which kind it is. */
  datatype Entry = FromDef(i: nat) | FromAlias(i: nat) | FromCanon(i: nat) | FromImport(i: nat) | FromExport(i: nat)

  datatype Space = Types | CoreFuncs | Funcs | Instances

  function KindOf(it: Item): Kind {
    match it
    case InstanceI(_) => InstanceK
    case AliasI(_) => AliasK
    case TypeI(_) => TypeK
    case CanonI(_) => CanonK
    case ImportI(_) => ImportK
    case ExportI(_) => ExportK
  }

  /** Binary.md, "Index Spaces": what a definition adds to. Every export adds an
      alias of what it exports. */
  predicate Produces(it: Item, s: Space) {
    match (it, s)
    case (TypeI(_), Types) => true
    case (InstanceI(_), Instances) => true
    case (CanonI(lift), Funcs) => lift
    case (CanonI(lift), CoreFuncs) => !lift
    case (AliasI(al), CoreFuncs) => al.sort == CORE && al.coreSort == 0
    case (AliasI(al), Types) => al.sort == TYPE
    case (AliasI(al), Funcs) => al.sort == FUNC
    case (AliasI(al), Instances) => al.sort == INSTANCE
    case (ImportI(im), Types) => im.externType == TYPE
    case (ImportI(im), Funcs) => im.externType == FUNC
    case (ImportI(im), Instances) => im.externType == INSTANCE
    case (ExportI(ex), Types) => ex.externType == TYPE
    case (ExportI(ex), Funcs) => ex.externType == FUNC
    case (ExportI(ex), Instances) => ex.externType == INSTANCE
    case _ => false
  }

  /** The definitions of one kind. */
  function Select(items: seq<Item>, k: Kind): seq<Item> {
    if items == [] then []
    else
      var n := |items| - 1;
      Select(items[..n], k) + if KindOf(items[n]) == k then [items[n]] else []
  }

  /** The slot of a definition that comes after these. */
  function EntryOf(before: seq<Item>, it: Item): Entry {
    var i := |Select(before, KindOf(it))|;
    match it
    case InstanceI(_) => FromDef(i)
    case TypeI(_) => FromDef(i)
    case AliasI(_) => FromAlias(i)
    case CanonI(_) => FromCanon(i)
    case ImportI(_) => FromImport(i)
    case ExportI(_) => FromExport(i)
  }

  /** An index space: a slot for each definition that produces one, in file order. */
  function SpaceOf(items: seq<Item>, s: Space): seq<Entry> {
    if items == [] then []
    else
      var n := |items| - 1;
      SpaceOf(items[..n], s) + if Produces(items[n], s) then [EntryOf(items[..n], items[n])] else []
  }

  // ---- every producing definition exactly once, in file order ----

  lemma {:induction false} PrefixSelected(items: seq<Item>, k: Kind, n: nat)
    requires n <= |items|
    ensures Select(items[..n], k) <= Select(items, k)
  {
    if n == |items| {
      assert items[..n] == items;
    } else {
      PrefixSelected(items[..|items| - 1], k, n);
      assert items[..|items| - 1][..n] == items[..n];
    }
  }

  lemma {:induction false} PrefixSpace(items: seq<Item>, s: Space, n: nat)
    requires n <= |items|
    ensures SpaceOf(items[..n], s) <= SpaceOf(items, s)
  {
    if n == |items| {
      assert items[..n] == items;
    } else {
      PrefixSpace(items[..|items| - 1], s, n);
      assert items[..|items| - 1][..n] == items[..n];
    }
  }

  /** A definition that produces has the slot whose number is how many came
      before it, and that slot leads back to it. */
  lemma {:induction false} HasSlot(items: seq<Item>, s: Space, n: nat)
    requires n < |items| && Produces(items[n], s)
    ensures var k := |SpaceOf(items[..n], s)|;
      k < |SpaceOf(items, s)| && SpaceOf(items, s)[k] == EntryOf(items[..n], items[n])
    ensures var defs := Select(items, KindOf(items[n])); var i := EntryOf(items[..n], items[n]).i;
      i < |defs| && defs[i] == items[n]
  {
    assert items[..n + 1][..n] == items[..n];
    PrefixSpace(items, s, n + 1);
    PrefixSelected(items, KindOf(items[n]), n + 1);
  }

  /** Every slot belongs to such a definition. */
  lemma {:induction false} SlotHas(items: seq<Item>, s: Space, k: nat) returns (n: nat)
    requires k < |SpaceOf(items, s)|
    ensures n < |items| && Produces(items[n], s) && |SpaceOf(items[..n], s)| == k
    ensures SpaceOf(items, s)[k] == EntryOf(items[..n], items[n])
  {
    var m := |items| - 1;
    if k < |SpaceOf(items[..m], s)| {
      n := SlotHas(items[..m], s, k);
      assert items[..m][..n] == items[..n];
    } else {
      n := m;
    }
  }

  lemma {:induction false} Later(items: seq<Item>, s: Space, m: nat, n: nat)
    requires m <= |items| && n <= |items|
    ensures n <= m ==> |SpaceOf(items[..n], s)| <= |SpaceOf(items[..m], s)|
  {
    if n <= m {
      PrefixSpace(items[..m], s, n);
      assert items[..m][..n] == items[..n];
    }
  }

  /** No two slots name the same definition. */
  lemma {:induction false} SlotsDiffer(items: seq<Item>, s: Space, j: nat, k: nat)
    requires j < k < |SpaceOf(items, s)|
    ensures SpaceOf(items, s)[j] != SpaceOf(items, s)[k]
  {
    var m := SlotHas(items, s, j);
    var n := SlotHas(items, s, k);
    Later(items, s, m, n);
    if KindOf(items[m]) == KindOf(items[n]) {
      PrefixSelected(items[..n], KindOf(items[m]), m + 1);
      assert items[..n][..m + 1] == items[..m + 1] && items[..m + 1][..m] == items[..m];
    }
  }

  // ---- what lands where ----

  function SlotOf(k: Kind, i: nat): Entry {
    match k
    case InstanceK | TypeK => FromDef(i)
    case AliasK => FromAlias(i)
    case CanonK => FromCanon(i)
    case ImportK => FromImport(i)
    case ExportK => FromExport(i)
  }

  /** Where the i-th definition of a kind stands in the file. */
  lemma {:induction false} NthOfKind(items: seq<Item>, k: Kind, i: nat) returns (n: nat)
    requires i < |Select(items, k)|
    ensures n < |items| && KindOf(items[n]) == k && items[n] == Select(items, k)[i] && |Select(items[..n], k)| == i
  {
    var m := |items| - 1;
    if i < |Select(items[..m], k)| {
      n := NthOfKind(items[..m], k, i);
      assert items[..m][..n] == items[..n];
    } else {
      n := m;
    }
  }

  /** The i-th definition of a kind has a slot in a space exactly when it
      produces one there. */
  lemma {:induction false} Lands(items: seq<Item>, s: Space, k: Kind, i: nat)
    requires i < |Select(items, k)| && (k == InstanceK ==> s == Instances) && (k == TypeK ==> s == Types)
    ensures SlotOf(k, i) in SpaceOf(items, s) <==> Produces(Select(items, k)[i], s)
  {
    hide Select, SpaceOf;
    var n := NthOfKind(items, k, i);
    if Produces(items[n], s) {
      HasSlot(items, s, n);
    }
    if SlotOf(k, i) in SpaceOf(items, s) {
      var j :| 0 <= j < |SpaceOf(items, s)| && SpaceOf(items, s)[j] == SlotOf(k, i);
      var m := SlotHas(items, s, j);
      HasSlot(items, s, m);
    }
  }

  /** Binary.md, "Index Spaces", outright: lifts are functions and lowers core
      functions; aliases, imports and exports go by the byte of their sort, 1 for
      functions, 3 for types, 5 for instances, and 0 with core sort 0 for core
      functions; type and instance definitions go to their own spaces. */
  ghost predicate Landed(l: Lists, sp: Spaces) {
    && (forall i :: 0 <= i < |l.types| ==> FromDef(i) in sp.types)
    && (forall i :: 0 <= i < |l.instances| ==> FromDef(i) in sp.instances)
    && (forall i :: 0 <= i < |l.canons| ==>
          && (FromCanon(i) in sp.funcs <==> l.canons[i]) && (FromCanon(i) in sp.coreFuncs <==> !l.canons[i])
          && FromCanon(i) !in sp.types && FromCanon(i) !in sp.instances)
    && (forall i :: 0 <= i < |l.aliases| ==>
          && (FromAlias(i) in sp.types <==> l.aliases[i].sort == 3)
          && (FromAlias(i) in sp.funcs <==> l.aliases[i].sort == 1)
          && (FromAlias(i) in sp.instances <==> l.aliases[i].sort == 5)
          && (FromAlias(i) in sp.coreFuncs <==> l.aliases[i].sort == 0 && l.aliases[i].coreSort == 0))
    && (forall i :: 0 <= i < |l.imports| ==>
          && (FromImport(i) in sp.types <==> l.imports[i].externType == 3)
          && (FromImport(i) in sp.funcs <==> l.imports[i].externType == 1)
          && (FromImport(i) in sp.instances <==> l.imports[i].externType == 5)
          && FromImport(i) !in sp.coreFuncs)
    && (forall i :: 0 <= i < |l.exports| ==>
          && (FromExport(i) in sp.types <==> l.exports[i].externType == 3)
          && (FromExport(i) in sp.funcs <==> l.exports[i].externType == 1)
          && (FromExport(i) in sp.instances <==> l.exports[i].externType == 5)
          && FromExport(i) !in sp.coreFuncs)
  }

  /** The n-th definition of a kind, in all four spaces. */
  lemma LandsAll(items: seq<Item>, l: Lists, k: Kind, i: nat)
    requires AllListed(items, l) && i < |Listed(l, k)| && k != InstanceK && k != TypeK
    ensures var e, it, sp := SlotOf(k, i), Listed(l, k)[i], SpacesOf(items);
      && (e in sp.types <==> Produces(it, Types)) && (e in sp.coreFuncs <==> Produces(it, CoreFuncs))
      && (e in sp.funcs <==> Produces(it, Funcs)) && (e in sp.instances <==> Produces(it, Instances))
  {
    hide Select, SpaceOf, Produces, Listed;
    assert Select(items, k) == Listed(l, k);
    Lands(items, Types, k, i);
    Lands(items, CoreFuncs, k, i);
    Lands(items, Funcs, k, i);
    Lands(items, Instances, k, i);
  }

  lemma AllLanded(items: seq<Item>, l: Lists)
    requires AllListed(items, l)
    ensures Landed(l, SpacesOf(items))
  {
    hide Select, SpaceOf;
    assert Select(items, TypeK) == Listed(l, TypeK) && Select(items, InstanceK) == Listed(l, InstanceK);
    forall i | 0 <= i < |l.types| ensures FromDef(i) in SpacesOf(items).types {
      Lands(items, Types, TypeK, i);
    }
    forall i | 0 <= i < |l.instances| ensures FromDef(i) in SpacesOf(items).instances {
      Lands(items, Instances, InstanceK, i);
    }
    AliasesLanded(items, l);
    ExternsLanded(items, l);
    CanonsLanded(items, l);
  }

  lemma CanonsLanded(items: seq<Item>, l: Lists)
    requires AllListed(items, l)
    ensures var sp := SpacesOf(items); forall i :: 0 <= i < |l.canons| ==>
      && (FromCanon(i) in sp.funcs <==> l.canons[i]) && (FromCanon(i) in sp.coreFuncs <==> !l.canons[i])
      && FromCanon(i) !in sp.types && FromCanon(i) !in sp.instances
  {
    hide SpacesOf, AllListed;
    var sp := SpacesOf(items);
    forall i | 0 <= i < |l.canons|
      ensures FromCanon(i) in sp.funcs <==> l.canons[i]
      ensures FromCanon(i) in sp.coreFuncs <==> !l.canons[i]
      ensures FromCanon(i) !in sp.types && FromCanon(i) !in sp.instances
    {
      LandsAll(items, l, CanonK, i);
    }
  }

  lemma AliasesLanded(items: seq<Item>, l: Lists)
    requires AllListed(items, l)
    ensures var sp := SpacesOf(items); forall i :: 0 <= i < |l.aliases| ==>
      && (FromAlias(i) in sp.types <==> l.aliases[i].sort == 3)
      && (FromAlias(i) in sp.funcs <==> l.aliases[i].sort == 1)
      && (FromAlias(i) in sp.instances <==> l.aliases[i].sort == 5)
      && (FromAlias(i) in sp.coreFuncs <==> l.aliases[i].sort == 0 && l.aliases[i].coreSort == 0)
  {
    hide SpacesOf, AllListed;
    var sp := SpacesOf(items);
    forall i | 0 <= i < |l.aliases|
      ensures FromAlias(i) in sp.types <==> l.aliases[i].sort == 3
      ensures FromAlias(i) in sp.funcs <==> l.aliases[i].sort == 1
      ensures FromAlias(i) in sp.instances <==> l.aliases[i].sort == 5
      ensures FromAlias(i) in sp.coreFuncs <==> l.aliases[i].sort == 0 && l.aliases[i].coreSort == 0
    {
      LandsAll(items, l, AliasK, i);
    }
  }

  lemma ExternsLanded(items: seq<Item>, l: Lists)
    requires AllListed(items, l)
    ensures var sp := SpacesOf(items); forall i :: 0 <= i < |l.imports| ==>
      && (FromImport(i) in sp.types <==> l.imports[i].externType == 3)
      && (FromImport(i) in sp.funcs <==> l.imports[i].externType == 1)
      && (FromImport(i) in sp.instances <==> l.imports[i].externType == 5)
      && FromImport(i) !in sp.coreFuncs
    ensures var sp := SpacesOf(items); forall i :: 0 <= i < |l.exports| ==>
      && (FromExport(i) in sp.types <==> l.exports[i].externType == 3)
      && (FromExport(i) in sp.funcs <==> l.exports[i].externType == 1)
      && (FromExport(i) in sp.instances <==> l.exports[i].externType == 5)
      && FromExport(i) !in sp.coreFuncs
  {
    hide SpacesOf, AllListed;
    var sp := SpacesOf(items);
    forall i | 0 <= i < |l.imports|
      ensures FromImport(i) in sp.types <==> l.imports[i].externType == 3
      ensures FromImport(i) in sp.funcs <==> l.imports[i].externType == 1
      ensures FromImport(i) in sp.instances <==> l.imports[i].externType == 5
      ensures FromImport(i) !in sp.coreFuncs
    {
      LandsAll(items, l, ImportK, i);
    }
    forall i | 0 <= i < |l.exports|
      ensures FromExport(i) in sp.types <==> l.exports[i].externType == 3
      ensures FromExport(i) in sp.funcs <==> l.exports[i].externType == 1
      ensures FromExport(i) in sp.instances <==> l.exports[i].externType == 5
      ensures FromExport(i) !in sp.coreFuncs
    {
      LandsAll(items, l, ExportK, i);
    }
  }

  // ---- the decoder ----

  /** The four spaces that are kept. */
  datatype Spaces = Spaces(types: seq<Entry>, coreFuncs: seq<Entry>, funcs: seq<Entry>, instances: seq<Entry>)

  function SpacesOf(items: seq<Item>): Spaces {
    Spaces(SpaceOf(items, Types), SpaceOf(items, CoreFuncs), SpaceOf(items, Funcs), SpaceOf(items, Instances))
  }

  /** The definitions of each kind. */
  datatype Lists = Lists(instances: seq<Inst>, aliases: seq<Alias>, types: seq<Desc>, canons: seq<bool>,
    imports: seq<Import>, exports: seq<Export>)

  function Listed(l: Lists, k: Kind): seq<Item> {
    match k
    case InstanceK => ItemsOf(InstanceSec(l.instances))
    case AliasK => ItemsOf(AliasSec(l.aliases))
    case TypeK => ItemsOf(TypeSec(l.types))
    case CanonK => ItemsOf(CanonSec(l.canons))
    case ImportK => ItemsOf(ImportSec(l.imports))
    case ExportK => ItemsOf(ExportSec(l.exports))
  }

  ghost predicate AllListed(items: seq<Item>, l: Lists) {
    forall k :: Select(items, k) == Listed(l, k)
  }

  /** The lists after one more section. */
  function Grown(l: Lists, sec: Section): Lists {
    match sec
    case InstanceSec(xs) => l.(instances := l.instances + xs)
    case AliasSec(xs) => l.(aliases := l.aliases + xs)
    case TypeSec(xs) => l.(types := l.types + xs)
    case CanonSec(xs) => l.(canons := l.canons + xs)
    case ImportSec(xs) => l.(imports := l.imports + xs)
    case ExportSec(xs) => l.(exports := l.exports + xs)
    case _ => l
  }

  function ItemsOf(sec: Section): (its: seq<Item>) {
    match sec
    case InstanceSec(xs) => seq(|xs|, i requires 0 <= i < |xs| => InstanceI(xs[i]))
    case AliasSec(xs) => seq(|xs|, i requires 0 <= i < |xs| => AliasI(xs[i]))
    case TypeSec(xs) => seq(|xs|, i requires 0 <= i < |xs| => TypeI(xs[i]))
    case CanonSec(xs) => seq(|xs|, i requires 0 <= i < |xs| => CanonI(xs[i]))
    case ImportSec(xs) => seq(|xs|, i requires 0 <= i < |xs| => ImportI(xs[i]))
    case ExportSec(xs) => seq(|xs|, i requires 0 <= i < |xs| => ExportI(xs[i]))
    case _ => []
  }

  class Component {
    var lists: Lists
    var spaces: Spaces
    var start: bool
    /** All definitions so far, in file order. */
    ghost var items: seq<Item>

    constructor ()
      ensures Valid() && items == [] && !start
    {
      lists := Lists([], [], [], [], [], []);
      spaces := Spaces([], [], [], []);
      start, items := false, [];
    }

    ghost predicate Valid()
      reads this
    {
      spaces == SpacesOf(items) && AllListed(items, lists)
    }

    method AddInstances(xs: seq<Inst>)
      requires Valid()
      modifies this`lists, this`spaces, this`items
      ensures Valid() && items == old(items) + ItemsOf(InstanceSec(xs))
    {
      hide Select, SpaceOf, SpacesOf, EntryOf, AllListed;
      var base := |lists.instances|;
      ghost var its := ItemsOf(InstanceSec(xs));
      ListsGrow(items, lists, InstanceSec(xs), InstanceK);
      lists := lists.(instances := lists.instances + xs);
      for j := 0 to |xs|
        invariant spaces == SpacesOf(items) && items == old(items) + its[..j]
        invariant lists == Grown(old(lists), InstanceSec(xs))
      {
        SlotAdded(old(items), its, j, InstanceK);
        items := items + [InstanceI(xs[j])];
        spaces := spaces.(instances := spaces.instances + [FromDef(base + j)]);
      }
      assert its[..|xs|] == its;
    }

    method AddAliases(xs: seq<Alias>)
      requires Valid()
      modifies this`lists, this`spaces, this`items
      ensures Valid() && items == old(items) + ItemsOf(AliasSec(xs))
    {
      hide Select, SpaceOf, SpacesOf, EntryOf, AllListed;
      var base := |lists.aliases|;
      ghost var its := ItemsOf(AliasSec(xs));
      ListsGrow(items, lists, AliasSec(xs), AliasK);
      lists := lists.(aliases := lists.aliases + xs);
      for j := 0 to |xs|
        invariant spaces == SpacesOf(items) && items == old(items) + its[..j]
        invariant lists == Grown(old(lists), AliasSec(xs))
      {
        var al := xs[j];
        SlotAdded(old(items), its, j, AliasK);
        items := items + [AliasI(al)];
        if al.sort == TYPE {
          spaces := spaces.(types := spaces.types + [FromAlias(base + j)]);
        }
        if al.sort == CORE && al.coreSort == 0 {
          spaces := spaces.(coreFuncs := spaces.coreFuncs + [FromAlias(base + j)]);
        }
        if al.sort == FUNC {
          spaces := spaces.(funcs := spaces.funcs + [FromAlias(base + j)]);
        }
        if al.sort == INSTANCE {
          spaces := spaces.(instances := spaces.instances + [FromAlias(base + j)]);
        }
      }
      assert its[..|xs|] == its;
    }

    method AddTypes(xs: seq<Desc>)
      requires Valid()
      modifies this`lists, this`spaces, this`items
      ensures Valid() && items == old(items) + ItemsOf(TypeSec(xs))
    {
      hide Select, SpaceOf, SpacesOf, EntryOf, AllListed;
      var base := |lists.types|;
      ghost var its := ItemsOf(TypeSec(xs));
      ListsGrow(items, lists, TypeSec(xs), TypeK);
      for j := 0 to |xs|
        invariant spaces == SpacesOf(items) && items == old(items) + its[..j]
        invariant lists == old(lists)
      {
        SlotAdded(old(items), its, j, TypeK);
        items := items + [TypeI(xs[j])];
        spaces := spaces.(types := spaces.types + [FromDef(base + j)]);
      }
      assert its[..|xs|] == its;
      lists := lists.(types := lists.types + xs);
    }

    method AddCanons(xs: seq<bool>)
      requires Valid()
      modifies this`lists, this`spaces, this`items
      ensures Valid() && items == old(items) + ItemsOf(CanonSec(xs))
    {
      hide Select, SpaceOf, SpacesOf, EntryOf, AllListed;
      var base := |lists.canons|;
      ghost var its := ItemsOf(CanonSec(xs));
      ListsGrow(items, lists, CanonSec(xs), CanonK);
      lists := lists.(canons := lists.canons + xs);
      for j := 0 to |xs|
        invariant spaces == SpacesOf(items) && items == old(items) + its[..j]
        invariant lists == Grown(old(lists), CanonSec(xs))
      {
        SlotAdded(old(items), its, j, CanonK);
        items := items + [CanonI(xs[j])];
        if xs[j] {
          spaces := spaces.(funcs := spaces.funcs + [FromCanon(base + j)]);
        } else {
          spaces := spaces.(coreFuncs := spaces.coreFuncs + [FromCanon(base + j)]);
        }
      }
      assert its[..|xs|] == its;
    }

    method AddImports(xs: seq<Import>)
      requires Valid()
      modifies this`lists, this`spaces, this`items
      ensures Valid() && items == old(items) + ItemsOf(ImportSec(xs))
    {
      hide Select, SpaceOf, SpacesOf, EntryOf, AllListed;
      var base := |lists.imports|;
      ghost var its := ItemsOf(ImportSec(xs));
      ListsGrow(items, lists, ImportSec(xs), ImportK);
      lists := lists.(imports := lists.imports + xs);
      for j := 0 to |xs|
        invariant spaces == SpacesOf(items) && items == old(items) + its[..j]
        invariant lists == Grown(old(lists), ImportSec(xs))
      {
        var im := xs[j];
        SlotAdded(old(items), its, j, ImportK);
        items := items + [ImportI(im)];
        if im.externType == TYPE {
          spaces := spaces.(types := spaces.types + [FromImport(base + j)]);
        }
        if im.externType == FUNC {
          spaces := spaces.(funcs := spaces.funcs + [FromImport(base + j)]);
        }
        if im.externType == INSTANCE {
          spaces := spaces.(instances := spaces.instances + [FromImport(base + j)]);
        }
      }
      assert its[..|xs|] == its;
    }

    method AddExports(xs: seq<Export>)
      requires Valid()
      modifies this`lists, this`spaces, this`items
      ensures Valid() && items == old(items) + ItemsOf(ExportSec(xs))
    {
      hide Select, SpaceOf, SpacesOf, EntryOf, AllListed;
      var base := |lists.exports|;
      ghost var its := ItemsOf(ExportSec(xs));
      ListsGrow(items, lists, ExportSec(xs), ExportK);
      lists := lists.(exports := lists.exports + xs);
      for j := 0 to |xs|
        invariant spaces == SpacesOf(items) && items == old(items) + its[..j]
        invariant lists == Grown(old(lists), ExportSec(xs))
      {
        var ex := xs[j];
        SlotAdded(old(items), its, j, ExportK);
        items := items + [ExportI(ex)];
        match ex.externType {
          case 1 => spaces := spaces.(funcs := spaces.funcs + [FromExport(base + j)]);
          case 3 => spaces := spaces.(types := spaces.types + [FromExport(base + j)]);
          case 5 => spaces := spaces.(instances := spaces.instances + [FromExport(base + j)]);
          case _ =>
        }
      }
      assert its[..|xs|] == its;
    }

    /** One section. A second start section, and a section this decoder does not
        support, end the decoding. */
    method AddSection(sec: Section) returns (ok: bool)
      requires Valid()
      modifies this
      ensures Valid() && items == old(items) + ItemsOf(sec)
      ensures ok <==> !sec.UnsupportedSec? && !(sec.StartSec? && old(start))
      ensures start == (old(start) || sec.StartSec?)
    {
      hide Select, SpacesOf, AllListed;
      ok := true;
      match sec
      case InstanceSec(xs) => AddInstances(xs);
      case AliasSec(xs) => AddAliases(xs);
      case TypeSec(xs) => AddTypes(xs);
      case CanonSec(xs) => AddCanons(xs);
      case ImportSec(xs) => AddImports(xs);
      case ExportSec(xs) => AddExports(xs);
      case StartSec =>
        ok := !start;
        start := true;
      case CoreSec =>
      case UnsupportedSec => ok := false;
    }
  }

  /** The definitions of a file in order. */
  function FileItems(secs: seq<Section>, n: nat): seq<Item>
    requires n <= |secs|
  {
    if n == 0 then [] else FileItems(secs, n - 1) + ItemsOf(secs[n - 1])
  }

  /** decodeComponent: whatever the order of the sections, each space is the one
      that the definitions in file order have. */
  method DecodeComponent(secs: seq<Section>) returns (c: Component, ok: bool)
    ensures fresh(c) && c.Valid() && Landed(c.lists, c.spaces)
    ensures ok ==> c.items == FileItems(secs, |secs|)
    ensures ok <==> UnsupportedSec !in secs && forall i, j :: 0 <= i < j < |secs| ==>
      !(secs[i].StartSec? && secs[j].StartSec?)
  {
    hide Select, SpacesOf, AllListed, ItemsOf, Landed;
    c := new Component();
    for n := 0 to |secs|
      invariant fresh(c) && c.Valid() && c.items == FileItems(secs, n)
      invariant c.start <==> exists i :: 0 <= i < n && secs[i].StartSec?
      invariant forall i :: 0 <= i < n ==> secs[i] != UnsupportedSec
      invariant forall i, j :: 0 <= i < j < n ==> !(secs[i].StartSec? && secs[j].StartSec?)
    {
      ok := c.AddSection(secs[n]);
      if !ok {
        ComponentLanded(c);
        return;
      }
    }
    ok := true;
    ComponentLanded(c);
  }

  lemma ComponentLanded(c: Component)
    requires c.Valid()
    ensures Landed(c.lists, c.spaces)
  {
    AllLanded(c.items, c.lists);
  }

  // ---- one definition more ----

  lemma {:induction false} SelectConcat(a: seq<Item>, b: seq<Item>, k: Kind)
    ensures Select(a + b, k) == Select(a, k) + Select(b, k)
  {
    if b == [] {
      assert a + b == a;
    } else {
      var n := |b| - 1;
      assert (a + b)[..|a + b| - 1] == a + b[..n];
      SelectConcat(a, b[..n], k);
    }
  }

  lemma {:induction false} SelectSame(its: seq<Item>, k: Kind, j: Kind)
    requires forall i :: 0 <= i < |its| ==> KindOf(its[i]) == k
    ensures Select(its, j) == if j == k then its else []
  {
    if its != [] {
      SelectSame(its[..|its| - 1], k, j);
    }
  }

  /** A section of one kind extends the list of that kind. */
  lemma {:induction false} ListsGrow(items: seq<Item>, l: Lists, sec: Section, k: Kind)
    requires AllListed(items, l) && sec.InstanceSec? == k.InstanceK? && sec.AliasSec? == k.AliasK?
      && sec.TypeSec? == k.TypeK?
    requires sec.CanonSec? == k.CanonK? && sec.ImportSec? == k.ImportK? && sec.ExportSec? == k.ExportK?
    ensures AllListed(items + ItemsOf(sec), Grown(l, sec)) && |Select(items, k)| == |Listed(l, k)|
  {
    hide Select;
    forall j ensures Select(items + ItemsOf(sec), j) == Listed(Grown(l, sec), j) {
      SelectConcat(items, ItemsOf(sec), j);
      SelectSame(ItemsOf(sec), k, j);
      assert Select(items, j) == Listed(l, j);
      ListedGrown(l, sec, k, j);
    }
  }

  lemma ListedGrown(l: Lists, sec: Section, k: Kind, j: Kind)
    requires sec.InstanceSec? == k.InstanceK? && sec.AliasSec? == k.AliasK? && sec.TypeSec? == k.TypeK?
    requires sec.CanonSec? == k.CanonK? && sec.ImportSec? == k.ImportK? && sec.ExportSec? == k.ExportK?
    ensures Listed(Grown(l, sec), j) == Listed(l, j) + if j == k then ItemsOf(sec) else []
  {
    assert Listed(l, j) + [] == Listed(l, j);
  }

  /** The spaces after one more definition of a section of one kind. */
  lemma {:induction false} SlotAdded(items: seq<Item>, its: seq<Item>, j: nat, k: Kind)
    requires j < |its| && forall i :: 0 <= i < |its| ==> KindOf(its[i]) == k
    ensures var before := items + its[..j]; var it := its[j]; var e := EntryOf(before, it); var sp := SpacesOf(before);
      && items + its[..j + 1] == before + [it]
      && e == (match it case InstanceI(_) => FromDef(e.i) case TypeI(_) => FromDef(e.i) case AliasI(_) => FromAlias(e.i)
                        case CanonI(_) => FromCanon(e.i) case ImportI(_) => FromImport(e.i)
                        case ExportI(_) => FromExport(e.i))
      && e.i == |Select(items, k)| + j
      && SpacesOf(before + [it]) == Spaces(sp.types + (if Produces(it, Types) then [e] else []),
                                           sp.coreFuncs + (if Produces(it, CoreFuncs) then [e] else []),
                                           sp.funcs + (if Produces(it, Funcs) then [e] else []),
                                           sp.instances + if Produces(it, Instances) then [e] else [])
  {
    hide Select;
    var before, it := items + its[..j], its[j];
    assert its[..j + 1] == its[..j] + [it];
    SelectConcat(items, its[..j], k);
    SelectSame(its[..j], k, k);
    assert (before + [it])[..|before|] == before;
  }
}

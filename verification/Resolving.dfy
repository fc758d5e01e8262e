/** typespace.go, componentinstancespace.go and the index functions of graph.go:
    following the links between the slots of an index space, with a bound on the
    number of links. */
module Resolving {
  import opened Base
  import opened TypeTable
  import opened IndexSpaces

  const MAX_ALIAS_DEPTH: nat := 32
  const MAX_INSTANCE_DEPTH: nat := 64

  // ---- types ----

  /** The first type of that name among the exports of an instance. */
  function FindType(es: seq<InlineExport>, name: Name): Option<u32> {
    if es == [] then None
    else if es[0].name == name && es[0].sort == TYPE then Some(es[0].sortIdx)
    else FindType(es[1..], name)
  }

  function ResolveTypeDepth(l: Lists, space: seq<Entry>, idx: nat, depth: nat): Option<Desc>
    decreases MAX_ALIAS_DEPTH + 1 - depth, 1
  {
    if depth > MAX_ALIAS_DEPTH then None
    else if space == [] then (if idx < |l.types| then Some(l.types[idx]) else None)
    else if idx >= |space| then None
    else
      match space[idx]
      case FromDef(d) => if d < |l.types| then Some(l.types[d]) else None
      case FromImport(i) =>
        if i < |l.imports| && l.imports[i].eqBound.Some? then ResolveTypeDepth(l, space, l.imports[i].eqBound.value,
          depth + 1) else None
      case FromAlias(a) => if a < |l.aliases| then ResolveAlias(l, space, l.aliases[a], depth) else None
      case FromExport(e) => if e < |l.exports| then ResolveTypeDepth(l, space, l.exports[e].externIndex, depth + 1)
        else None
      case FromCanon(_) => None
  }

  function ResolveAlias(l: Lists, space: seq<Entry>, al: Alias, depth: nat): Option<Desc>
    requires depth <= MAX_ALIAS_DEPTH
    decreases MAX_ALIAS_DEPTH + 1 - depth, 0
  {
    match al.target
    case OfInstance(i, name) =>
      if i < |l.instances| && l.instances[i].InlineExports? && FindType(l.instances[i].exports, name).Some?
      then ResolveTypeDepth(l, space, FindType(l.instances[i].exports, name).value, depth + 1) else None
    case OfCore => None
    case Outer(count, index) => if count == 0 then ResolveTypeDepth(l, space, index, depth + 1) else None
  }

  function ResolveType(l: Lists, space: seq<Entry>, idx: nat): Option<Desc> {
    ResolveTypeDepth(l, space, idx, 0)
  }

  function ResourceDefIndexDepth(l: Lists, space: seq<Entry>, idx: nat, depth: nat): nat
    decreases MAX_ALIAS_DEPTH + 1 - depth
  {
    if depth > MAX_ALIAS_DEPTH || idx >= |space| then idx
    else
      match space[idx]
      case FromExport(e) => if e < |l.exports| then ResourceDefIndexDepth(l, space, l.exports[e].externIndex,
        depth + 1) else idx
      case FromImport(i) =>
        if i < |l.imports| && l.imports[i].eqBound.Some? then ResourceDefIndexDepth(l, space,
          l.imports[i].eqBound.value, depth + 1) else idx
      case FromAlias(a) =>
        if a < |l.aliases| && l.aliases[a].sort == TYPE && l.aliases[a].target.Outer? && l.aliases[a].target.count == 0
        then ResourceDefIndexDepth(l, space, l.aliases[a].target.index, depth + 1) else idx
      case _ => idx
  }

  function ResourceDefIndex(l: Lists, space: seq<Entry>, idx: nat): nat {
    ResourceDefIndexDepth(l, space, idx, 0)
  }

  /** With more links to spare the answer is the same. */
  lemma {:induction false} ShallowerSame(l: Lists, space: seq<Entry>, idx: nat, depth: nat, less: nat)
    requires less <= depth && ResolveTypeDepth(l, space, idx, depth).Some?
    ensures ResolveTypeDepth(l, space, idx, less) == ResolveTypeDepth(l, space, idx, depth)
    decreases MAX_ALIAS_DEPTH + 1 - depth
  {
    if idx < |space| {
      match space[idx]
      case FromImport(i) => ShallowerSame(l, space, l.imports[i].eqBound.value, depth + 1, less + 1);
      case FromAlias(a) =>
        match l.aliases[a].target {
          case OfInstance(i, name) => ShallowerSame(l, space, FindType(l.instances[i].exports, name).value, depth + 1,
            less + 1);
          case Outer(_, index) => ShallowerSame(l, space, index, depth + 1, less + 1);
        }
      case FromExport(e) => ShallowerSame(l, space, l.exports[e].externIndex, depth + 1, less + 1);
      case _ =>
    }
  }

  // ---- where a chain of links ends ----

  /** The next index that the resolver goes to, if it goes on. */
  function Link(l: Lists, space: seq<Entry>, idx: nat): Option<nat> {
    if idx >= |space| then None
    else
      match space[idx]
      case FromImport(i) =>
        if i < |l.imports| && l.imports[i].eqBound.Some? then Some(l.imports[i].eqBound.value) else None
      case FromAlias(a) => if a < |l.aliases| then AliasLink(l, l.aliases[a]) else None
      case FromExport(e) => if e < |l.exports| then Some(l.exports[e].externIndex) else None
      case _ => None
  }

  function AliasLink(l: Lists, al: Alias): Option<nat> {
    match al.target
    case OfInstance(i, name) =>
      if i < |l.instances| && l.instances[i].InlineExports? && FindType(l.instances[i].exports, name).Some?
      then Some(FindType(l.instances[i].exports, name).value) else None
    case OfCore => None
    case Outer(count, index) => if count == 0 then Some(index) else None
  }

  /** Export k is the first type of that name. */
  predicate FirstOfName(es: seq<InlineExport>, name: Name, k: nat) {
    && k < |es| && es[k].name == name && es[k].sort == 3
    && forall j :: 0 <= j < k ==> es[j].name != name || es[j].sort != 3
  }

  /** The first type of that name is type x. */
  ghost predicate Names(es: seq<InlineExport>, name: Name, x: nat) {
    exists k: nat :: FirstOfName(es, name, k) && es[k].sortIdx == x
  }

  lemma {:induction false} FindTypeIs(es: seq<InlineExport>, name: Name, x: u32)
    ensures FindType(es, name) == Some(x) <==> Names(es, name, x)
  {
    if es != [] {
      var rest := es[1..];
      assert forall k :: 0 <= k < |rest| ==> rest[k] == es[k + 1];
      if es[0].name == name && es[0].sort == 3 {
        assert FirstOfName(es, name, 0);
      } else {
        FindTypeIs(rest, name, x);
        if Names(rest, name, x) {
          var k: nat :| FirstOfName(rest, name, k) && rest[k].sortIdx == x;
          LaterFirst(es, name, k);
        }
        if Names(es, name, x) {
          var k: nat :| FirstOfName(es, name, k) && es[k].sortIdx == x;
          LaterFirst(es, name, k - 1);
        }
      }
    }
  }

  lemma LaterFirst(es: seq<InlineExport>, name: Name, k: nat)
    requires es != [] && !(es[0].name == name && es[0].sort == 3)
    ensures FirstOfName(es, name, k + 1) <==> FirstOfName(es[1..], name, k)
  {
    var rest := es[1..];
    assert forall j :: 0 <= j < |rest| ==> rest[j] == es[j + 1];
    if FirstOfName(rest, name, k) {
      forall j | 0 <= j < k + 1 ensures es[j].name != name || es[j].sort != 3 {
        if j > 0 {
          assert rest[j - 1] == es[j];
        }
      }
    }
  }

  /** Slot a leads to index b: an import bounded by b, an export of b, an alias of b
      in the component itself, or an alias of a type that an instance exports as b. */
  ghost predicate Leads(l: Lists, space: seq<Entry>, a: nat, b: nat) {
    a < |space| &&
    match space[a]
    case FromImport(i) => i < |l.imports| && l.imports[i].eqBound.Some? && l.imports[i].eqBound.value == b
    case FromExport(e) => e < |l.exports| && l.exports[e].externIndex == b
    case FromAlias(i) =>
      i < |l.aliases| && (
      var target := l.aliases[i].target;
      || (target.Outer? && target.count == 0 && target.index == b)
      || (target.OfInstance? && target.instance < |l.instances| && l.instances[target.instance].InlineExports?
         && Names(l.instances[target.instance].exports, target.name, b)))
    case _ => false
  }

  lemma LinkLeads(l: Lists, space: seq<Entry>, a: nat, b: nat)
    ensures Link(l, space, a) == Some(b) <==> Leads(l, space, a, b)
  {
    if a < |space| && space[a].FromAlias? && space[a].i < |l.aliases| {
      var target := l.aliases[space[a].i].target;
      if target.OfInstance? && target.instance < |l.instances| && l.instances[target.instance].InlineExports? {
        var es := l.instances[target.instance].exports;
        if FindType(es, target.name).Some? {
          FindTypeIs(es, target.name, FindType(es, target.name).value);
        }
        if b < 0x1_0000_0000 {
          FindTypeIs(es, target.name, b);
        }
      }
    }
  }

  ghost predicate Chain(l: Lists, space: seq<Entry>, c: seq<nat>) {
    c != [] && forall i :: 0 <= i < |c| - 1 ==> Leads(l, space, c[i], c[i + 1])
  }

  /** The chain ends at the definition d. */
  predicate EndsAt(l: Lists, space: seq<Entry>, c: seq<nat>, d: Desc) {
    && c != [] && c[|c| - 1] < |space| && space[c[|c| - 1]].FromDef?
    && space[c[|c| - 1]].i < |l.types| && l.types[space[c[|c| - 1]].i] == d
  }

  lemma {:induction false} ChainFound(l: Lists, space: seq<Entry>, idx: nat, depth: nat, d: Desc) returns (c: seq<nat>)
    requires space != [] && ResolveTypeDepth(l, space, idx, depth) == Some(d)
    ensures Chain(l, space, c) && c[0] == idx && |c| <= 33 - depth && EndsAt(l, space, c, d)
    decreases MAX_ALIAS_DEPTH + 1 - depth
  {
    c := [idx];
    if Link(l, space, idx).Some? {
      var next := Link(l, space, idx).value;
      LinkLeads(l, space, idx, next);
      var rest := ChainFound(l, space, next, depth + 1, d);
      c := [idx] + rest;
      assert c[1..] == rest && c[|c| - 1] == rest[|rest| - 1];
    }
  }

  lemma {:induction false} ChainFollowed(l: Lists, space: seq<Entry>, c: seq<nat>, depth: nat, d: Desc)
    requires space != [] && Chain(l, space, c) && |c| <= 33 - depth && EndsAt(l, space, c, d)
    ensures ResolveTypeDepth(l, space, c[0], depth) == Some(d)
    decreases |c|
  {
    if |c| > 1 {
      LinkLeads(l, space, c[0], c[1]);
      var rest := c[1..];
      assert forall i :: 0 <= i < |rest| ==> rest[i] == c[i + 1];
      ChainFollowed(l, space, rest, depth + 1, d);
    }
  }

  /** WHAT A TYPE INDEX RESOLVES TO: the definition at the end of a chain of at most
      32 links. */
  lemma ResolvesAlong(l: Lists, space: seq<Entry>, idx: nat, d: Desc)
    requires space != []
    ensures ResolveType(l, space, idx) == Some(d) <==>
      exists c: seq<nat> :: Chain(l, space, c) && c[0] == idx && |c| <= 33 && EndsAt(l, space, c, d)
  {
    hide Leads, EndsAt;
    if ResolveType(l, space, idx) == Some(d) {
      var c := ChainFound(l, space, idx, 0, d);
    }
    forall c: seq<nat> | Chain(l, space, c) && c[0] == idx && |c| <= 33 && EndsAt(l, space, c, d)
      ensures ResolveType(l, space, idx) == Some(d)
    {
      ChainFollowed(l, space, c, 0, d);
    }
  }

  /** An alias of an instance's export, which only the resolver follows. */
  predicate InlineAlias(l: Lists, space: seq<Entry>, idx: nat) {
    idx < |space| && space[idx].FromAlias? && space[idx].i < |l.aliases| && l.aliases[space[idx].i].target.OfInstance?
  }

  /** Aliases in the type space are aliases of types. */
  predicate TypeAliases(l: Lists, space: seq<Entry>) {
    forall k :: 0 <= k < |space| && space[k].FromAlias? && space[k].i < |l.aliases| ==>
      l.aliases[space[k].i].sort == TYPE
  }

  /** Where the links lead, at most 32 of them. */
  function EndOf(l: Lists, space: seq<Entry>, idx: nat, depth: nat): nat
    decreases MAX_ALIAS_DEPTH + 1 - depth
  {
    if depth > MAX_ALIAS_DEPTH || Link(l, space, idx).None? then idx
    else EndOf(l, space, Link(l, space, idx).value, depth + 1)
  }

  /** The first alias of an instance's export on the way, if there is one. */
  function FirstInline(l: Lists, space: seq<Entry>, idx: nat, depth: nat): Option<nat>
    decreases MAX_ALIAS_DEPTH + 1 - depth
  {
    if depth > MAX_ALIAS_DEPTH || Link(l, space, idx).None? then None
    else if InlineAlias(l, space, idx) then Some(idx)
    else FirstInline(l, space, Link(l, space, idx).value, depth + 1)
  }

  /** A resolved index ends at a definition, and resolves to it. */
  lemma {:induction false} EndsAtDefinition(l: Lists, space: seq<Entry>, idx: nat, depth: nat)
    requires ResolveTypeDepth(l, space, idx, depth).Some? && space != []
    ensures var e := EndOf(l, space, idx, depth);
      && e < |space| && space[e].FromDef? && space[e].i < |l.types|
      && ResolveTypeDepth(l, space, idx, depth) == Some(l.types[space[e].i]) == ResolveType(l, space, e)
      && ResourceDefIndex(l, space, e) == e
    decreases MAX_ALIAS_DEPTH + 1 - depth
  {
    if Link(l, space, idx).Some? {
      EndsAtDefinition(l, space, Link(l, space, idx).value, depth + 1);
    }
  }

  /** The resource index stops at the first alias that only the resolver follows. */
  lemma {:induction false} StopsAt(l: Lists, space: seq<Entry>, idx: nat, depth: nat)
    requires ResolveTypeDepth(l, space, idx, depth).Some? && space != [] && TypeAliases(l, space)
    ensures var first := FirstInline(l, space, idx, depth);
      ResourceDefIndexDepth(l, space, idx, depth) == if first.Some? then first.value else EndOf(l, space, idx, depth)
    ensures FirstInline(l, space, idx, depth).Some? ==> InlineAlias(l, space, FirstInline(l, space, idx, depth).value)
    decreases MAX_ALIAS_DEPTH + 1 - depth
  {
    if Link(l, space, idx).Some? && !InlineAlias(l, space, idx) {
      StopsAt(l, space, Link(l, space, idx).value, depth + 1);
    }
  }

  /** Where the resource index stops, it stays. */
  lemma {:induction false} StopsResolved(l: Lists, space: seq<Entry>, idx: nat, depth: nat)
    requires ResolveTypeDepth(l, space, idx, depth).Some?
    ensures var r := ResourceDefIndexDepth(l, space, idx, depth);
      && ResourceDefIndex(l, space, r) == r && ResolveType(l, space, r) == ResolveTypeDepth(l, space, idx, depth)
    decreases MAX_ALIAS_DEPTH + 1 - depth
  {
    if idx < |space| {
      match space[idx]
      case FromImport(i) => StopsResolved(l, space, l.imports[i].eqBound.value, depth + 1);
      case FromAlias(a) =>
        var al := l.aliases[a];
        if al.sort == TYPE && al.target.Outer? && al.target.count == 0 {
          StopsResolved(l, space, al.target.index, depth + 1);
        } else {
          ShallowerSame(l, space, idx, depth, 0);
        }
      case FromExport(e) => StopsResolved(l, space, l.exports[e].externIndex, depth + 1);
      case _ =>
    }
  }

  /** RESOURCE INDICES. If a type index resolves, its resource index is a fixed
      point and resolves to the same descriptor. */
  lemma ResolvesToFixedPoint(l: Lists, space: seq<Entry>, idx: nat)
    requires ResolveType(l, space, idx).Some?
    ensures var r := ResourceDefIndex(l, space, idx);
      && ResourceDefIndex(l, space, r) == r && ResolveType(l, space, r) == ResolveType(l, space, idx)
  {
    StopsResolved(l, space, idx, 0);
  }

  /** ONE INDEX PER RESOURCE, EXACTLY WHEN. It is the index of the definition if
      and only if no alias of an instance's export lies on the way there. */
  lemma ReducedIffNoInlineAlias(l: Lists, space: seq<Entry>, idx: nat)
    requires ResolveType(l, space, idx).Some? && space != [] && TypeAliases(l, space)
    ensures ResourceDefIndex(l, space, idx) == EndOf(l, space, idx, 0) <==> FirstInline(l, space, idx, 0).None?
  {
    EndsAtDefinition(l, space, idx, 0);
    StopsAt(l, space, idx, 0);
  }

  /** Two indices of one definition have one resource index if and only if they
      have the same first alias of an instance's export on the way, or none. */
  lemma SameIndexIff(l: Lists, space: seq<Entry>, i: nat, j: nat)
    requires ResolveType(l, space, i).Some? && ResolveType(l, space, j).Some? && space != [] && TypeAliases(l, space)
    requires EndOf(l, space, i, 0) == EndOf(l, space, j, 0)
    ensures ResourceDefIndex(l, space, i) == ResourceDefIndex(l, space, j)
       <==> FirstInline(l, space, i, 0) == FirstInline(l, space, j, 0)
  {
    EndsAtDefinition(l, space, i, 0);
    StopsAt(l, space, i, 0);
    StopsAt(l, space, j, 0);
  }

  /** In a decoded component the aliases of the type space are aliases of types. */
  lemma {:induction false} DecodedTypeAliases(c: Component)
    requires c.Valid()
    ensures TypeAliases(c.lists, c.spaces.types)
  {
    var items, space := c.items, c.spaces.types;
    forall k | 0 <= k < |space| && space[k].FromAlias? && space[k].i < |c.lists.aliases|
      ensures c.lists.aliases[space[k].i].sort == TYPE
    {
      var n := SlotHas(items, Types, k);
      HasSlot(items, Types, n);
      assert Select(items, AliasK) == Listed(c.lists, AliasK);
    }
  }

  /** A file with one type, an instance that exports it as "r", and an alias of
      that export: both type indices name the one definition, and they have two
      resource indices. */
  method InlineAliasKeepsItsIndex() returns (c: Component)
    ensures c.Valid() && c.items == FileItems(InlineAliasFile(), 3)
    ensures var l, space := c.lists, c.spaces.types;
      && ResolveType(l, space, 0) == ResolveType(l, space, 1) == Some(OtherD)
      && EndOf(l, space, 0, 0) == EndOf(l, space, 1, 0) == 0
      && ResourceDefIndex(l, space, 0) == 0 && ResourceDefIndex(l, space, 1) == 1
  {
    var ok;
    c, ok := DecodeComponent(InlineAliasFile());
    InlineAliasSpaces(c);
    InlineAliasResolves(c.lists, c.spaces.types);
  }

  const R: Name := [0x72]

  function InlineAliasFile(): seq<Section> {
    [TypeSec([OtherD]), InstanceSec([InlineExports([InlineExport(R, TYPE, 0)])]),
      AliasSec([Alias(TYPE, 0, OfInstance(0, R))])]
  }

  lemma InlineAliasSpaces(c: Component)
    requires c.Valid() && c.items == FileItems(InlineAliasFile(), 3)
    ensures c.spaces.types == [FromDef(0), FromAlias(0)] && c.lists.types == [OtherD]
    ensures c.lists.instances == [InlineExports([InlineExport(R, TYPE, 0)])]
    ensures c.lists.aliases == [Alias(TYPE, 0, OfInstance(0, R))]
  {
    var t, i, a := TypeI(OtherD), InstanceI(InlineExports([InlineExport(R, TYPE, 0)])),
      AliasI(Alias(TYPE, 0, OfInstance(0, R)));
    hide Select, SpaceOf, EntryOf;
    FileOfThree(t, i, a);
    ThreeItems(t, i, a);
    assert Select(c.items, TypeK) == Listed(c.lists, TypeK);
    assert Select(c.items, InstanceK) == Listed(c.lists, InstanceK);
    assert Select(c.items, AliasK) == Listed(c.lists, AliasK);
    assert [t][0] == t && [i][0] == i && [a][0] == a;
  }

  lemma FileOfThree(t: Item, i: Item, a: Item)
    requires t == TypeI(OtherD) && i == InstanceI(InlineExports([InlineExport(R, TYPE, 0)]))
    requires a == AliasI(Alias(TYPE, 0, OfInstance(0, R)))
    ensures FileItems(InlineAliasFile(), 3) == [t, i, a]
  {
    var secs := InlineAliasFile();
    assert FileItems(secs, 1) == [t];
    assert FileItems(secs, 2) == [t, i];
  }

  lemma ThreeItems(t: Item, i: Item, a: Item)
    requires t.TypeI? && i.InstanceI? && a.AliasI? && a.al.sort == TYPE
    ensures Select([t, i, a], TypeK) == [t] && Select([t, i, a], InstanceK) == [i] && Select([t, i, a], AliasK) == [a]
    ensures SpaceOf([t, i, a], Types) == [FromDef(0), FromAlias(0)]
  {
    hide Select, SpaceOf;
    NoItems();
    ItemAdded([], t);
    ItemAdded([t], i);
    ItemAdded([t, i], a);
    assert [] + [t] == [t] && [t] + [i] == [t, i] && [t, i] + [a] == [t, i, a];
  }

  lemma NoItems()
    ensures (forall k :: Select([], k) == []) && (forall s :: SpaceOf([], s) == [])
  {
  }

  lemma ItemAdded(items: seq<Item>, it: Item)
    ensures forall k :: Select(items + [it], k) == Select(items, k) + if KindOf(it) == k then [it] else []
    ensures forall s :: SpaceOf(items + [it], s) == SpaceOf(items, s) + if Produces(it, s) then [EntryOf(items, it)]
      else []
  {
    assert (items + [it])[..|items|] == items;
  }

  lemma InlineAliasResolves(l: Lists, space: seq<Entry>)
    requires space == [FromDef(0), FromAlias(0)] && l.types == [OtherD]
    requires l.instances == [InlineExports([InlineExport(R, TYPE, 0)])]
    requires l.aliases == [Alias(TYPE, 0, OfInstance(0, R))]
    ensures ResolveType(l, space, 0) == ResolveType(l, space, 1) == Some(OtherD)
    ensures EndOf(l, space, 0, 0) == EndOf(l, space, 1, 0) == 0
    ensures ResourceDefIndex(l, space, 0) == 0 && ResourceDefIndex(l, space, 1) == 1
  {
    assert FindType([InlineExport(R, TYPE, 0)], R) == Some(0);
    assert Link(l, space, 1) == Some(0) && Link(l, space, 0) == None;
    assert ResolveTypeDepth(l, space, 0, 1) == Some(OtherD);
    assert EndOf(l, space, 0, 1) == 0;
  }

  // ---- component instances ----

  function ResolveInstance(l: Lists, space: seq<Entry>, idx: nat, left: nat): Option<nat>
    decreases left
  {
    if left == 0 || idx >= |space| then None
    else
      match space[idx]
      case FromDef(i) => if i < |l.instances| then Some(i) else None
      case FromExport(e) => if e < |l.exports| then ResolveInstance(l, space, l.exports[e].externIndex, left - 1)
        else None
      case _ => None
  }

  /** ResolveComponentInstance: follow exports, at most 64 of them. */
  method ResolveComponentInstance(l: Lists, space: seq<Entry>, index: u32) returns (r: Option<nat>)
    ensures r == ResolveInstance(l, space, index, MAX_INSTANCE_DEPTH)
  {
    var idx: nat := index;
    for depth := 0 to MAX_INSTANCE_DEPTH
      invariant ResolveInstance(l, space, index, MAX_INSTANCE_DEPTH) ==
        ResolveInstance(l, space, idx, MAX_INSTANCE_DEPTH - depth)
    {
      if idx >= |space| {
        return None;
      }
      match space[idx] {
        case FromDef(i) => return if i < |l.instances| then Some(i) else None;
        case FromExport(e) =>
          if e >= |l.exports| {
            return None;
          }
          idx := l.exports[e].externIndex;
        case _ => return None;
      }
    }
    return None;
  }

  /** The exports that lead from one instance slot to the next. */
  predicate ExportChain(l: Lists, space: seq<Entry>, c: seq<nat>) {
    c != [] && forall i :: 0 <= i < |c| - 1 ==>
      && c[i] < |space| && space[c[i]].FromExport? && space[c[i]].i < |l.exports|
      && l.exports[space[c[i]].i].externIndex == c[i + 1]
  }

  lemma {:induction false} InstanceFound(l: Lists, space: seq<Entry>, idx: nat, left: nat, d: nat)
    returns (c: seq<nat>)
    requires ResolveInstance(l, space, idx, left) == Some(d)
    ensures ExportChain(l, space, c) && c[0] == idx && |c| <= left
    ensures c[|c| - 1] < |space| && space[c[|c| - 1]] == FromDef(d) && d < |l.instances|
    decreases left
  {
    c := [idx];
    if space[idx].FromExport? {
      var rest := InstanceFound(l, space, l.exports[space[idx].i].externIndex, left - 1, d);
      c := [idx] + rest;
      assert c[1..] == rest && c[|c| - 1] == rest[|rest| - 1];
    }
  }

  lemma {:induction false} InstanceFollowed(l: Lists, space: seq<Entry>, c: seq<nat>, left: nat, d: nat)
    requires ExportChain(l, space, c) && |c| <= left && d < |l.instances|
    requires c[|c| - 1] < |space| && space[c[|c| - 1]] == FromDef(d)
    ensures ResolveInstance(l, space, c[0], left) == Some(d)
    decreases |c|
  {
    if |c| > 1 {
      var rest := c[1..];
      assert forall i :: 0 <= i < |rest| ==> rest[i] == c[i + 1];
      InstanceFollowed(l, space, rest, left - 1, d);
    }
  }

  /** WHAT AN INSTANCE INDEX RESOLVES TO: the definition at the end of a chain of
      exports, of at most 64 slots. */
  lemma InstanceAlong(l: Lists, space: seq<Entry>, idx: nat, d: nat)
    ensures ResolveInstance(l, space, idx, MAX_INSTANCE_DEPTH) == Some(d) <==>
      exists c: seq<nat> ::
        && ExportChain(l, space, c) && c[0] == idx && |c| <= 64
        && c[|c| - 1] < |space| && space[c[|c| - 1]] == FromDef(d) && d < |l.instances|
  {
    if ResolveInstance(l, space, idx, MAX_INSTANCE_DEPTH) == Some(d) {
      var c := InstanceFound(l, space, idx, MAX_INSTANCE_DEPTH, d);
    }
    forall c: seq<nat> | ExportChain(l, space, c) && c[0] == idx && |c| <= 64
        && c[|c| - 1] < |space| && space[c[|c| - 1]] == FromDef(d) && d < |l.instances|
      ensures ResolveInstance(l, space, idx, MAX_INSTANCE_DEPTH) == Some(d)
    {
      InstanceFollowed(l, space, c, MAX_INSTANCE_DEPTH, d);
    }
  }

  function NumImportedInstances(ims: seq<Import>): nat {
    if ims == [] then 0 else NumImportedInstances(ims[1..]) + if ims[0].externType == INSTANCE then 1 else 0
  }

  /** The definition that an instance index names, also for a component that was
      not decoded and has no spaces. */
  function ComponentInstanceDef(l: Lists, space: seq<Entry>, idx: nat): Option<nat> {
    if space != [] then ResolveInstance(l, space, idx, MAX_INSTANCE_DEPTH)
    else
      var local := idx - NumImportedInstances(l.imports);
      if local < 0 || local >= |l.instances| then None else Some(local)
  }

  /** Each definition has one slot, and only definitions have such slots. */
  ghost predicate OneSlotEach(l: Lists, space: seq<Entry>) {
    && (forall i :: 0 <= i < |l.instances| ==> FromDef(i) in space)
    && (forall k :: 0 <= k < |space| && space[k].FromDef? ==> space[k].i < |l.instances|)
    && (forall j, k :: 0 <= j < k < |space| ==> space[j] != space[k])
  }

  /** componentInstanceSpaceIndices INVERTS componentInstanceDef. */
  method ComponentInstanceSpaceIndices(l: Lists, space: seq<Entry>) returns (out: seq<int>)
    ensures |out| == |l.instances|
    ensures space == [] || OneSlotEach(l, space) ==>
      forall i :: 0 <= i < |out| ==> out[i] >= 0 && ComponentInstanceDef(l, space, out[i]) == Some(i)
    ensures OneSlotEach(l, space) ==> forall k :: 0 <= k < |space| && space[k].FromDef? ==> out[space[k].i] == k
  {
    hide ComponentInstanceDef;
    if |space| > 0 {
      out := seq(|l.instances|, _ => -1);
      for k := 0 to |space|
        invariant |out| == |l.instances|
        invariant OneSlotEach(l, space) ==> forall j :: 0 <= j < k && space[j].FromDef? ==> out[space[j].i] == j
      {
        if space[k].FromDef? && space[k].i < |out| {
          out := out[space[k].i := k];
        }
      }
      if OneSlotEach(l, space) {
        SlotsInvert(l, space, out);
      }
    } else {
      var base := NumImported(l.imports);
      out := seq(|l.instances|, i => base + i);
      forall i | 0 <= i < |out| ensures ComponentInstanceDef(l, space, out[i]) == Some(i) {
        FlatInverts(l, i);
      }
    }
  }

  lemma FlatInverts(l: Lists, i: nat)
    requires i < |l.instances|
    ensures ComponentInstanceDef(l, [], NumImportedInstances(l.imports) + i) == Some(i)
  {
  }

  lemma SlotsInvert(l: Lists, space: seq<Entry>, out: seq<int>)
    requires OneSlotEach(l, space) && space != [] && |out| == |l.instances|
    requires forall k :: 0 <= k < |space| && space[k].FromDef? ==> out[space[k].i] == k
    ensures forall i :: 0 <= i < |out| ==> out[i] >= 0 && ComponentInstanceDef(l, space, out[i]) == Some(i)
  {
    forall i | 0 <= i < |out| ensures out[i] >= 0 && ComponentInstanceDef(l, space, out[i]) == Some(i) {
      var k :| 0 <= k < |space| && space[k] == FromDef(i);
      assert out[space[k].i] == k;
    }
  }

  method NumImported(ims: seq<Import>) returns (n: nat)
    ensures n == NumImportedInstances(ims)
  {
    n := 0;
    for k := 0 to |ims|
      invariant NumImportedInstances(ims) == n + NumImportedInstances(ims[k..])
    {
      assert ims[k..][0] == ims[k] && ims[k..][1..] == ims[k + 1..];
      n := n + if ims[k].externType == INSTANCE then 1 else 0;
    }
  }

  /** The decoder's spaces are such. */
  lemma {:induction false} DecodedSlots(c: Component)
    requires c.Valid()
    ensures OneSlotEach(c.lists, c.spaces.instances)
  {
    var items, space := c.items, c.spaces.instances;
    assert Select(items, InstanceK) == Listed(c.lists, InstanceK);
    forall i | 0 <= i < |c.lists.instances| ensures FromDef(i) in space {
      DefHasSlot(items, i);
    }
    forall k | 0 <= k < |space| && space[k].FromDef? ensures space[k].i < |c.lists.instances| {
      var n := SlotHas(items, Instances, k);
      HasSlot(items, Instances, n);
    }
    forall j, k | 0 <= j < k < |space| ensures space[j] != space[k] {
      SlotsDiffer(items, Instances, j, k);
    }
  }

  lemma {:induction false} DefHasSlot(items: seq<Item>, i: nat)
    requires i < |Select(items, InstanceK)|
    ensures FromDef(i) in SpaceOf(items, Instances)
  {
    var m := |items| - 1;
    if i < |Select(items[..m], InstanceK)| {
      DefHasSlot(items[..m], i);
    }
  }
}

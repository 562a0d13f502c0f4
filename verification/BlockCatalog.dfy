/** The browse catalogue: sort, keep the best entry of each canonical type, sort again, and index by id. */
module BlockCatalog {
  import opened Common

  /** The fields of a block descriptor that the catalogue looks at, and the rest of it. */
  datatype Block = Block(id: string, canonicalType: Option<string>, name: string, category: string, details: int)

  datatype Catalog = Catalog(browse: seq<Block>, exact: map<string, Block>)

  // ----- orders -----

  /** The order of both sorts: category, name, id. */
  predicate Before(a: Block, b: Block) {
    if a.category != b.category then Less(a.category, b.category)
    else if a.name != b.name then Less(a.name, b.name)
    else Less(a.id, b.id)
  }

  function CanonicalKey(block: Block): string {
    if block.canonicalType.Some? && block.canonicalType.value != "" then block.canonicalType.value else block.id
  }

  predicate IsImplementation(block: Block) {
    block.canonicalType.Some? && block.canonicalType.value != "" && block.id == block.canonicalType.value
  }

  /** Aliases before implementations, longer ids before shorter ones, then the sort order. */
  predicate Better(candidate: Block, current: Block) {
    if IsImplementation(candidate) != IsImplementation(current) then !IsImplementation(candidate)
    else if |candidate.id| != |current.id| then |candidate.id| > |current.id|
    else if candidate.category != current.category then Less(candidate.category, current.category)
    else if candidate.name != current.name then Less(candidate.name, current.name)
    else Less(candidate.id, current.id)
  }

  /** The two blocks have the same category, name and id, so neither order tells them apart. */
  predicate Tied(a: Block, b: Block) {
    a.category == b.category && a.name == b.name && a.id == b.id
  }

  /** Both orders are strict, and total but for ties. */
  lemma OrdersAreTotal(a: Block, b: Block)
    ensures !Tied(a, b) <==> Before(a, b) || Before(b, a)
    ensures !Tied(a, b) ==> Better(a, b) || Better(b, a)
    ensures !(Before(a, b) && Before(b, a)) && !Before(a, a)
    ensures !(Better(a, b) && Better(b, a)) && !Better(a, a)
  {
    LessIsTotal(a.category, b.category);
    LessIsTotal(a.name, b.name);
    LessIsTotal(a.id, b.id);
    LessIsTotal(a.id, a.id);
  }

  lemma BeforeIsTransitive(a: Block, b: Block, c: Block)
    requires Before(a, b) && Before(b, c)
    ensures Before(a, c)
  {
    hide Less;
    if a.category != b.category && b.category != c.category { LessIsTransitive(a.category, b.category, c.category); }
    if a.name != b.name && b.name != c.name && Less(a.name, b.name) && Less(b.name, c.name) {
      LessIsTransitive(a.name, b.name, c.name);
    }
    if Less(a.id, b.id) && Less(b.id, c.id) { LessIsTransitive(a.id, b.id, c.id); }
    LessIsTotal(a.category, b.category);
    LessIsTotal(a.name, b.name);
  }

  lemma BetterIsTransitive(a: Block, b: Block, c: Block)
    requires Better(a, b) && Better(b, c)
    ensures Better(a, c)
  {
    hide Less;
    if a.category != b.category && b.category != c.category && Less(a.category, b.category) && Less(b.category, c.category) {
      LessIsTransitive(a.category, b.category, c.category);
    }
    if a.name != b.name && b.name != c.name && Less(a.name, b.name) && Less(b.name, c.name) {
      LessIsTransitive(a.name, b.name, c.name);
    }
    if Less(a.id, b.id) && Less(b.id, c.id) { LessIsTransitive(a.id, b.id, c.id); }
    LessIsTotal(a.category, b.category);
    LessIsTotal(a.name, b.name);
  }

  /** What is not before something that is not before a third block is not before that third block. */
  lemma NotBeforeIsTransitive(a: Block, b: Block, c: Block)
    requires !Before(b, a) && !Before(c, b)
    ensures !Before(c, a)
  {
    hide Less;
    OrdersAreTotal(a, b);
    OrdersAreTotal(b, c);
    if Before(c, a) && Before(a, b) { BeforeIsTransitive(c, a, b); }
  }

  // ----- what the catalogue should be -----

  ghost predicate Sorted(blocks: seq<Block>) {
    forall i, j :: 0 <= i < j < |blocks| ==> !Before(blocks[j], blocks[i])
  }

  /** Category, name and id together tell the blocks apart; ids that differ are enough for that. */
  ghost predicate NoTies(blocks: set<Block>) {
    forall a, b :: a in blocks && b in blocks && Tied(a, b) ==> a == b
  }

  /** No block of its canonical type is better. */
  ghost predicate IsBest(block: Block, blocks: set<Block>) {
    && block in blocks
    && forall other :: other in blocks && CanonicalKey(other) == CanonicalKey(block) ==> !Better(other, block)
  }

  /** One entry for every canonical type, and that entry a best one of its type. */
  ghost predicate KeepsBest(browse: seq<Block>, blocks: set<Block>) {
    && (forall i, j :: 0 <= i < j < |browse| ==> CanonicalKey(browse[i]) != CanonicalKey(browse[j]))
    && (forall i :: 0 <= i < |browse| ==> IsBest(browse[i], blocks))
    && (forall block :: block in blocks ==> exists i :: 0 <= i < |browse| && CanonicalKey(browse[i]) == CanonicalKey(block))
  }

  /** A browse list of a set of blocks: a best block of each canonical type, in sort order. */
  ghost predicate IsBrowseList(browse: seq<Block>, blocks: set<Block>) {
    Sorted(browse) && KeepsBest(browse, blocks)
  }

  /** The exact index: every id, and of several blocks with one id the last in sort order. */
  ghost predicate IndexesById(exact: map<string, Block>, blocks: set<Block>) {
    && (forall block :: block in blocks ==> block.id in exact)
    && (forall id :: id in exact ==>
          && exact[id] in blocks && exact[id].id == id
          && forall other :: other in blocks && other.id == id ==> !Before(exact[id], other))
  }

  ghost predicate IsCatalogOf(catalog: Catalog, blocks: seq<Block>) {
    IsBrowseList(catalog.browse, Elements(blocks)) && IndexesById(catalog.exact, Elements(blocks))
  }

  /** A sorted list without ties is determined by its elements. */
  lemma {:induction false} SortedListsAreUnique(a: seq<Block>, b: seq<Block>)
    requires Sorted(a) && Sorted(b) && forall block :: block in a <==> block in b
    requires NoTies(Elements(a)) && Distinct(a) && Distinct(b)
    ensures a == b
  {
    hide Before;
    if a == [] {
      assert forall k :: 0 <= k < |b| ==> b[k] in a;
    } else {
      assert a[0] in b && b != [];
      assert b[0] in b && b[0] in a;
      var i :| 0 <= i < |b| && b[i] == a[0];
      var j :| 0 <= j < |a| && a[j] == b[0];
      assert !Before(a[0], b[0]) by { OrdersAreTotal(a[0], b[0]); if i == 0 { OrdersAreTotal(a[0], a[0]); } }
      assert !Before(b[0], a[0]) by { OrdersAreTotal(a[0], b[0]); if j == 0 { OrdersAreTotal(a[0], a[0]); } }
      OrdersAreTotal(a[0], b[0]);
      assert a[0] in Elements(a) && b[0] in Elements(a);
      assert a[0] == b[0];
      SameTails(a, b);
      SortedListsAreUnique(a[1..], b[1..]);
    }
  }

  lemma SameTails(a: seq<Block>, b: seq<Block>)
    requires a != [] && b != [] && a[0] == b[0] && Distinct(a) && Distinct(b) && forall block :: block in a <==> block in b
    ensures (forall block :: block in a[1..] <==> block in b[1..]) && Distinct(a[1..]) && Distinct(b[1..])
    ensures Elements(a[1..]) <= Elements(a)
  {
    forall block ensures block in a[1..] <==> block in a && block != a[0] { }
    forall block ensures block in b[1..] <==> block in b && block != b[0] { }
  }

  /** Among any blocks every canonical type has a best block. */
  lemma {:induction false} BestExists(blocks: set<Block>, block: Block) returns (best: Block)
    requires block in blocks
    ensures IsBest(best, blocks) && CanonicalKey(best) == CanonicalKey(block)
    decreases |blocks|
  {
    hide CanonicalKey, Better;
    if IsBest(block, blocks) { return block; }
    var other :| other in blocks && CanonicalKey(other) == CanonicalKey(block) && Better(other, block);
    OrdersAreTotal(block, block);
    best := BestExists(blocks - {block}, other);
    OrdersAreTotal(best, block);
    if Better(block, best) { BetterIsTransitive(other, block, best); }
    assert IsBest(best, blocks);
  }

  /** Without ties the best block of a canonical type is unique. */
  lemma BestIsUnique(a: Block, b: Block, blocks: set<Block>)
    requires NoTies(blocks) && IsBest(a, blocks) && IsBest(b, blocks) && CanonicalKey(a) == CanonicalKey(b)
    ensures a == b
  {
    hide CanonicalKey, Better;
    OrdersAreTotal(a, b);
  }

  lemma SameEntries(a: seq<Block>, b: seq<Block>, blocks: set<Block>)
    requires NoTies(blocks) && KeepsBest(a, blocks) && KeepsBest(b, blocks)
    ensures (forall block :: block in a ==> block in b) && Distinct(a) && NoTies(Elements(a))
  {
    hide CanonicalKey, Better, IsBest;
    forall block | block in a ensures block in b && block in blocks {
      var i :| 0 <= i < |a| && a[i] == block;
      BestIsSeen(block, blocks);
      var k :| 0 <= k < |b| && CanonicalKey(b[k]) == CanonicalKey(block);
      BestIsUnique(block, b[k], blocks);
    }
  }

  lemma BestIsSeen(block: Block, blocks: set<Block>)
    requires IsBest(block, blocks)
    ensures block in blocks
  {
  }

  /** Without ties there is one catalogue for a set of blocks, whatever order the provider lists them in. */
  lemma CatalogIsUnique(one: Catalog, other: Catalog, blocks: set<Block>)
    requires NoTies(blocks)
    requires IsBrowseList(one.browse, blocks) && IndexesById(one.exact, blocks)
    requires IsBrowseList(other.browse, blocks) && IndexesById(other.exact, blocks)
    ensures one == other
  {
    hide KeepsBest, Before, Sorted;
    SameEntries(one.browse, other.browse, blocks);
    SameEntries(other.browse, one.browse, blocks);
    SortedListsAreUnique(one.browse, other.browse);
    forall id | id in one.exact ensures id in other.exact && other.exact[id] == one.exact[id] {
      OrdersAreTotal(one.exact[id], other.exact[id]);
    }
    assert one.exact.Keys == other.exact.Keys;
    assert one.exact == other.exact;
  }

  /** With a tie it can depend on the order in which the sort happens to leave the two. */
  lemma TiesLeaveTheCatalogOpen()
    ensures var a, b := Block("x", None, "n", "c", 0), Block("x", None, "n", "c", 1);
      && a != b && Tied(a, b)
      && IsCatalogOf(Catalog([a], map["x" := a]), [a, b]) && IsCatalogOf(Catalog([b], map["x" := b]), [a, b])
  {
    var a, b := Block("x", None, "n", "c", 0), Block("x", None, "n", "c", 1);
    EitherWillDo(a, a, b);
    EitherWillDo(b, a, b);
  }

  lemma EitherWillDo(entry: Block, a: Block, b: Block)
    requires Tied(a, b) && a.canonicalType == b.canonicalType && (entry == a || entry == b)
    ensures IsCatalogOf(Catalog([entry], map[entry.id := entry]), [a, b])
  {
    OrdersAreTotal(a, a);
    OrdersAreTotal(a, b);
    assert !Better(a, b) && !Better(b, a) && !Better(a, a) && !Better(b, b);
    hide Better, Before, Less;
    assert Elements([a, b]) == {a, b};
    OnlyEntry(entry, {a, b});
  }

  /** Of tied blocks of one canonical type any one makes the catalogue. */
  lemma OnlyEntry(entry: Block, blocks: set<Block>)
    requires entry in blocks
    requires forall other :: other in blocks ==>
        other.id == entry.id && CanonicalKey(other) == CanonicalKey(entry) && !Better(other, entry) && !Before(entry, other)
    ensures IsBrowseList([entry], blocks) && IndexesById(map[entry.id := entry], blocks)
  {
    hide Better, Before, CanonicalKey;
    assert [entry][0] == entry;
  }

  // ----- the same, read off the blocks -----

  predicate Typed(block: Block) {
    block.canonicalType.Some? && block.canonicalType.value != ""
  }

  /** Blocks of a canonical type are of one class if it is the same; any other block goes by its id. */
  predicate SameClass(a: Block, b: Block) {
    if Typed(a) && Typed(b) then a.canonicalType == b.canonicalType
    else if Typed(a) then b.id == a.canonicalType.value
    else if Typed(b) then a.id == b.canonicalType.value
    else a.id == b.id
  }

  /** The block stands for its canonical type itself. */
  predicate IsItsType(block: Block) {
    Typed(block) && block.canonicalType == Some(block.id)
  }

  /** Lexicographically smaller in category, name and id. */
  predicate Smaller(a: Block, b: Block) {
    || Less(a.category, b.category)
    || (a.category == b.category && Less(a.name, b.name))
    || (a.category == b.category && a.name == b.name && Less(a.id, b.id))
  }

  /**
   * The entry that stands for its class: the type itself only if nothing else is in the class; else
   * of the blocks that are not, one with the longest id, and of those one with nothing smaller.
   */
  ghost predicate StandsForItsClass(entry: Block, blocks: set<Block>) {
    && entry in blocks
    && forall other :: other in blocks && SameClass(other, entry) ==>
         && (IsItsType(entry) ==> IsItsType(other))
         && (IsItsType(other) == IsItsType(entry) ==> |other.id| <= |entry.id|)
         && (IsItsType(other) == IsItsType(entry) && |other.id| == |entry.id| ==> !Smaller(other, entry))
  }

  /** The browse list in these terms: one entry for each class, and none smaller than the one before it. */
  ghost predicate ShowsEachClass(browse: seq<Block>, provided: seq<Block>) {
    && (forall entry :: entry in browse ==> StandsForItsClass(entry, Elements(provided)))
    && (forall i, j :: 0 <= i < j < |browse| ==> !SameClass(browse[i], browse[j]))
    && (forall block :: block in provided ==> exists entry :: entry in browse && SameClass(entry, block))
    && (forall i :: 0 < i < |browse| ==> !Smaller(browse[i], browse[i - 1]))
  }

  /** And the index: of several blocks with one id it has one that is not smaller than another. */
  ghost predicate FindsEachId(exact: map<string, Block>, provided: seq<Block>) {
    && (forall block :: block in provided ==> block.id in exact)
    && (forall id :: id in exact ==>
          && exact[id] in provided && exact[id].id == id
          && forall other :: other in provided && other.id == id ==> !Smaller(exact[id], other))
  }

  ghost predicate Shows(catalog: Catalog, provided: seq<Block>) {
    ShowsEachClass(catalog.browse, provided) && FindsEachId(catalog.exact, provided)
  }

  lemma ClassesAreKeys(a: Block, b: Block)
    ensures SameClass(a, b) <==> CanonicalKey(a) == CanonicalKey(b)
    ensures IsItsType(a) <==> IsImplementation(a)
  {
  }

  lemma SmallerIsBefore(a: Block, b: Block)
    ensures Smaller(a, b) <==> Before(a, b)
  {
    LessIsTotal(a.category, b.category);
    LessIsTotal(a.name, b.name);
    LessIsTotal(a.category, a.category);
    LessIsTotal(a.name, a.name);
  }

  lemma BestStandsForItsClass(entry: Block, blocks: set<Block>)
    ensures IsBest(entry, blocks) <==> StandsForItsClass(entry, blocks)
  {
    hide Less, CanonicalKey, SameClass, IsItsType, IsImplementation, Smaller, Before;
    forall other
      ensures SameClass(other, entry) <==> CanonicalKey(other) == CanonicalKey(entry)
      ensures IsItsType(other) <==> IsImplementation(other)
      ensures Smaller(other, entry) <==> Before(other, entry)
      ensures Better(other, entry) <==>
        || (IsImplementation(entry) && !IsImplementation(other))
        || (IsImplementation(other) == IsImplementation(entry) && |other.id| > |entry.id|)
        || (IsImplementation(other) == IsImplementation(entry) && |other.id| == |entry.id| && Before(other, entry))
    {
      ClassesAreKeys(other, entry);
      SmallerIsBefore(other, entry);
      BetterMeans(other, entry);
    }
    ClassesAreKeys(entry, entry);
  }

  lemma BetterMeans(a: Block, b: Block)
    ensures Better(a, b) <==>
      || (IsImplementation(b) && !IsImplementation(a))
      || (IsImplementation(a) == IsImplementation(b) && |a.id| > |b.id|)
      || (IsImplementation(a) == IsImplementation(b) && |a.id| == |b.id| && Before(a, b))
  {
  }

  /** A list is sorted exactly if no neighbours are the wrong way round. */
  lemma {:induction false} SortedByNeighbours(blocks: seq<Block>)
    ensures Sorted(blocks) <==> forall i :: 0 < i < |blocks| ==> !Smaller(blocks[i], blocks[i - 1])
  {
    hide Before, Smaller;
    forall a, b ensures Smaller(a, b) <==> Before(a, b) { SmallerIsBefore(a, b); }
    if |blocks| > 1 && forall i :: 0 < i < |blocks| ==> !Smaller(blocks[i], blocks[i - 1]) {
      var front, n := blocks[..|blocks| - 1], |blocks|;
      assert forall i :: 0 <= i < n - 1 ==> front[i] == blocks[i];
      SortedByNeighbours(front);
      assert Sorted(front);
      forall i | 0 <= i < n - 1 ensures !Before(blocks[n - 1], blocks[i]) {
        assert !Smaller(blocks[n - 1], blocks[n - 2]);
        if i < n - 2 {
          assert !Before(front[n - 2], front[i]);
          NotBeforeIsTransitive(blocks[i], blocks[n - 2], blocks[n - 1]);
        }
      }
    }
  }

  /** What a catalogue of the provided blocks is, said without the preference and the sort order of the code. */
  lemma CatalogMeans(catalog: Catalog, provided: seq<Block>)
    ensures IsCatalogOf(catalog, provided) <==> Shows(catalog, provided)
  {
    hide CanonicalKey, SameClass, IsBest, StandsForItsClass, Sorted, Smaller, Before;
    forall a, b
      ensures SameClass(a, b) <==> CanonicalKey(a) == CanonicalKey(b)
      ensures Smaller(a, b) <==> Before(a, b)
    {
      ClassesAreKeys(a, b);
      SmallerIsBefore(a, b);
    }
    forall entry ensures IsBest(entry, Elements(provided)) <==> StandsForItsClass(entry, Elements(provided)) {
      BestStandsForItsClass(entry, Elements(provided));
    }
    SortedByNeighbours(catalog.browse);
    EntriesMean(catalog.browse, Elements(provided));
    IndexMeans(catalog.exact, provided);
  }

  lemma EntriesMean(browse: seq<Block>, blocks: set<Block>)
    ensures KeepsBest(browse, blocks) <==>
      && (forall entry :: entry in browse ==> IsBest(entry, blocks))
      && (forall i, j :: 0 <= i < j < |browse| ==> CanonicalKey(browse[i]) != CanonicalKey(browse[j]))
      && (forall block :: block in blocks ==> exists entry :: entry in browse && CanonicalKey(entry) == CanonicalKey(block))
  {
    hide CanonicalKey, IsBest;
    if KeepsBest(browse, blocks) {
      forall block | block in blocks ensures exists entry :: entry in browse && CanonicalKey(entry) == CanonicalKey(block) {
        var i :| 0 <= i < |browse| && CanonicalKey(browse[i]) == CanonicalKey(block);
        assert browse[i] in browse;
      }
    }
    if (forall block :: block in blocks ==> exists entry :: entry in browse && CanonicalKey(entry) == CanonicalKey(block)) {
      forall block | block in blocks ensures exists i :: 0 <= i < |browse| && CanonicalKey(browse[i]) == CanonicalKey(block) {
        var entry :| entry in browse && CanonicalKey(entry) == CanonicalKey(block);
        var i :| 0 <= i < |browse| && browse[i] == entry;
      }
    }
  }

  lemma IndexMeans(exact: map<string, Block>, provided: seq<Block>)
    ensures IndexesById(exact, Elements(provided)) <==>
      && (forall block :: block in provided ==> block.id in exact)
      && (forall id :: id in exact ==>
            && exact[id] in provided && exact[id].id == id
            && forall other :: other in provided && other.id == id ==> !Before(exact[id], other))
  {
    hide Before;
    assert forall block :: block in Elements(provided) <==> block in provided;
  }

  // ----- the service -----

  /** The provider's blocks in sort order, with ties in any order. */
  method SortBlocks(blocks: seq<Block>) returns (sorted: seq<Block>)
    ensures Sorted(sorted) && multiset(sorted) == multiset(blocks)
  {
    hide Before, Sorted;
    sorted := [];
    NothingSorted();
    var i := 0;
    while i < |blocks|
      invariant 0 <= i <= |blocks|
      invariant Sorted(sorted) && multiset(sorted) == multiset(blocks[..i])
    {
      var k := 0;
      while k < |sorted| && !Before(blocks[i], sorted[k])
        invariant 0 <= k <= |sorted|
        invariant forall j :: 0 <= j < k ==> !Before(blocks[i], sorted[j])
      {
        k := k + 1;
      }
      InsertKeepsSorted(sorted, k, blocks[i]);
      InsertedElements(sorted, k, blocks[i]);
      assert blocks[..i + 1] == blocks[..i] + [blocks[i]];
      sorted := sorted[..k] + [blocks[i]] + sorted[k..];
      i := i + 1;
    }
    assert blocks[..i] == blocks;
  }

  lemma NothingSorted()
    ensures Sorted([])
  {
  }

  lemma SameElements(a: seq<Block>, b: seq<Block>)
    requires multiset(a) == multiset(b)
    ensures (forall block :: block in a <==> block in b) && Elements(a) == Elements(b)
  {
    forall block ensures block in a <==> block in b {
      assert block in a <==> multiset(a)[block] > 0;
      assert block in b <==> multiset(b)[block] > 0;
    }
  }

  lemma InsertedElements(sorted: seq<Block>, k: nat, block: Block)
    requires k <= |sorted|
    ensures multiset(sorted[..k] + [block] + sorted[k..]) == multiset(sorted) + multiset{block}
  {
    assert sorted == sorted[..k] + sorted[k..];
  }

  lemma InsertKeepsSorted(sorted: seq<Block>, k: nat, block: Block)
    requires Sorted(sorted) && k <= |sorted|
    requires forall j :: 0 <= j < k ==> !Before(block, sorted[j])
    requires k < |sorted| ==> Before(block, sorted[k])
    ensures Sorted(sorted[..k] + [block] + sorted[k..])
  {
    hide Before;
    forall j | k <= j < |sorted| ensures !Before(sorted[j], block) {
      OrdersAreTotal(block, sorted[k]);
      if j > k { NotBeforeIsTransitive(block, sorted[k], sorted[j]); }
    }
  }

  lemma FirstIsBest(block: Block, seen: set<Block>)
    requires forall other :: other in seen ==> CanonicalKey(other) != CanonicalKey(block)
    ensures IsBest(block, seen + {block})
  {
    hide CanonicalKey, Better;
    OrdersAreTotal(block, block);
  }

  lemma NewTypeKeepsBest(browse: seq<Block>, seen: set<Block>, block: Block)
    requires KeepsBest(browse, seen) && forall i :: 0 <= i < |browse| ==> CanonicalKey(browse[i]) != CanonicalKey(block)
    ensures KeepsBest(browse + [block], seen + {block})
  {
    hide CanonicalKey, Better, IsBest;
    var longer, more := browse + [block], seen + {block};
    FirstIsBest(block, seen);
    forall i | 0 <= i < |longer| ensures IsBest(longer[i], more) {
      if i < |browse| { BestElsewhere(browse[i], seen, block); }
    }
    forall other | other in more ensures exists i :: 0 <= i < |longer| && CanonicalKey(longer[i]) == CanonicalKey(other) {
      if other == block {
        assert longer[|browse|] == block;
      } else {
        var i :| 0 <= i < |browse| && CanonicalKey(browse[i]) == CanonicalKey(other);
        assert longer[i] == browse[i];
      }
    }
  }

  /** Of an entry and a challenger of its type, the better one is a best one among all. */
  lemma BestUnderChallenge(entry: Block, seen: set<Block>, block: Block)
    requires IsBest(entry, seen) && CanonicalKey(entry) == CanonicalKey(block)
    ensures IsBest(if Better(block, entry) then block else entry, seen + {block})
  {
    hide CanonicalKey, Better;
    OrdersAreTotal(block, block);
    if Better(block, entry) {
      forall other | other in seen && CanonicalKey(other) == CanonicalKey(block) ensures !Better(other, block) {
        if Better(other, block) { BetterIsTransitive(other, block, entry); }
      }
    }
  }

  lemma BestElsewhere(entry: Block, seen: set<Block>, block: Block)
    requires IsBest(entry, seen) && CanonicalKey(entry) != CanonicalKey(block)
    ensures IsBest(entry, seen + {block})
  {
    hide CanonicalKey, Better;
  }

  /** A challenger of a known type takes the place of the entry exactly if it is better. */
  lemma ChallengeKeepsBest(browse: seq<Block>, seen: set<Block>, block: Block, k: nat)
    requires KeepsBest(browse, seen) && k < |browse| && CanonicalKey(browse[k]) == CanonicalKey(block)
    ensures KeepsBest(if Better(block, browse[k]) then browse[k := block] else browse, seen + {block})
  {
    hide CanonicalKey, Better, IsBest;
    var entry, more := browse[k], seen + {block};
    var after := if Better(block, entry) then browse[k := block] else browse;
    assert forall i :: 0 <= i < |browse| ==> CanonicalKey(after[i]) == CanonicalKey(browse[i]);
    forall i | 0 <= i < |after| ensures IsBest(after[i], more) {
      if i == k { BestUnderChallenge(entry, seen, block); } else { BestElsewhere(browse[i], seen, block); }
    }
    forall other | other in more ensures exists i :: 0 <= i < |after| && CanonicalKey(after[i]) == CanonicalKey(other) {
      if other == block {
        assert CanonicalKey(after[k]) == CanonicalKey(block);
      } else {
        var i :| 0 <= i < |browse| && CanonicalKey(browse[i]) == CanonicalKey(other);
        assert CanonicalKey(after[i]) == CanonicalKey(other);
      }
    }
  }

  /** `find_if` for the entry of a canonical type that has one. */
  method FindKey(browse: seq<Block>, key: string) returns (k: nat)
    requires exists l :: 0 <= l < |browse| && CanonicalKey(browse[l]) == key
    ensures k < |browse| && CanonicalKey(browse[k]) == key
    ensures forall l :: 0 <= l < k ==> CanonicalKey(browse[l]) != key
  {
    hide CanonicalKey;
    k := 0;
    while CanonicalKey(browse[k]) != key
      invariant k < |browse| && forall l :: 0 <= l < k ==> CanonicalKey(browse[l]) != key
      invariant exists l :: k <= l < |browse| && CanonicalKey(browse[l]) == key
      decreases |browse| - k
    {
      k := k + 1;
    }
  }

  ghost predicate IsKeySet(keys: set<string>, browse: seq<Block>) {
    forall key :: key in keys <==> exists k :: 0 <= k < |browse| && CanonicalKey(browse[k]) == key
  }

  /** What the loop of BuildCatalog has made of the blocks it has seen. */
  ghost predicate Scanned(browse: seq<Block>, keys: set<string>, exact: map<string, Block>, seen: set<Block>) {
    KeepsBest(browse, seen) && IsKeySet(keys, browse) && IndexesById(exact, seen)
  }

  lemma IndexGrows(exact: map<string, Block>, seen: set<Block>, block: Block)
    requires IndexesById(exact, seen) && forall other :: other in seen ==> !Before(block, other)
    ensures IndexesById(exact[block.id := block], seen + {block})
  {
    hide Before;
    OrdersAreTotal(block, block);
  }

  lemma ScanNewType(browse: seq<Block>, keys: set<string>, exact: map<string, Block>, seen: set<Block>, block: Block)
    requires Scanned(browse, keys, exact, seen) && CanonicalKey(block) !in keys
    requires forall other :: other in seen ==> !Before(block, other)
    ensures Scanned(browse + [block], keys + {CanonicalKey(block)}, exact[block.id := block], seen + {block})
  {
    hide CanonicalKey, IndexesById, KeepsBest, Before;
    var longer := browse + [block];
    IndexGrows(exact, seen, block);
    NewTypeKeepsBest(browse, seen, block);
    forall key | key in keys + {CanonicalKey(block)} ensures exists k :: 0 <= k < |longer| && CanonicalKey(longer[k]) == key {
      if key in keys {
        var k :| 0 <= k < |browse| && CanonicalKey(browse[k]) == key;
        assert longer[k] == browse[k];
      } else {
        assert longer[|browse|] == block;
      }
    }
  }

  lemma ScanKnownType(browse: seq<Block>, keys: set<string>, exact: map<string, Block>, seen: set<Block>, block: Block, k: nat)
    requires Scanned(browse, keys, exact, seen) && k < |browse| && CanonicalKey(browse[k]) == CanonicalKey(block)
    requires forall other :: other in seen ==> !Before(block, other)
    ensures Scanned(if Better(block, browse[k]) then browse[k := block] else browse, keys, exact[block.id := block], seen + {block})
  {
    hide CanonicalKey, Better, IndexesById, KeepsBest, Before;
    IndexGrows(exact, seen, block);
    ChallengeKeepsBest(browse, seen, block, k);
    assert forall l :: 0 <= l < |browse| ==> CanonicalKey(browse[k := block][l]) == CanonicalKey(browse[l]);
  }

  /** Sort, keep a best entry of each canonical type, index by id, and sort again: for any list a provider gives. */
  method BuildCatalog(provided: seq<Block>) returns (catalog: Catalog)
    ensures IsCatalogOf(catalog, provided) && Shows(catalog, provided)
  {
    hide CanonicalKey, Better, Before, Scanned, KeepsBest, Sorted, IndexesById, Shows;
    var blocks := SortBlocks(provided);
    SameElements(blocks, provided);
    var exact: map<string, Block> := map[];
    var browseKeys: set<string> := {};
    var browse: seq<Block> := [];
    NothingScanned();
    assert blocks[..0] == [];
    var i := 0;
    while i < |blocks|
      invariant 0 <= i <= |blocks|
      invariant Scanned(browse, browseKeys, exact, Elements(blocks[..i]))
    {
      var block := blocks[i];
      OneMoreSeen(blocks, i);
      var key := CanonicalKey(block);
      if key !in browseKeys {
        ScanNewType(browse, browseKeys, exact, Elements(blocks[..i]), block);
        browseKeys := browseKeys + {key};
        browse := browse + [block];
      } else {
        ScannedKeys(browse, browseKeys, exact, Elements(blocks[..i]));
        var k := FindKey(browse, key);
        ScanKnownType(browse, browseKeys, exact, Elements(blocks[..i]), block, k);
        if Better(block, browse[k]) {
          browse := browse[k := block];
        }
      }
      exact := exact[block.id := block];
      i := i + 1;
    }
    assert blocks[..i] == blocks;
    ScannedKeys(browse, browseKeys, exact, Elements(blocks));
    ghost var kept := browse;
    browse := SortBlocks(browse);
    ReorderedKeepsBest(browse, kept, Elements(provided));
    CatalogMeans(Catalog(browse, exact), provided);
    return Catalog(browse, exact);
  }

  lemma NothingScanned()
    ensures Scanned([], {}, map[], Elements([]))
  {
  }

  lemma ScannedKeys(browse: seq<Block>, keys: set<string>, exact: map<string, Block>, seen: set<Block>)
    requires Scanned(browse, keys, exact, seen)
    ensures KeepsBest(browse, seen) && IndexesById(exact, seen)
    ensures forall key :: key in keys ==> exists k :: 0 <= k < |browse| && CanonicalKey(browse[k]) == key
  {
    hide CanonicalKey, KeepsBest, IndexesById;
  }

  /** A block is no earlier in the sort order than the blocks seen before it. */
  lemma OneMoreSeen(blocks: seq<Block>, i: nat)
    requires Sorted(blocks) && i < |blocks|
    ensures Elements(blocks[..i + 1]) == Elements(blocks[..i]) + {blocks[i]}
    ensures forall block :: block in Elements(blocks[..i]) ==> !Before(blocks[i], block)
  {
    hide Before;
    assert blocks[..i + 1] == blocks[..i] + [blocks[i]];
  }

  lemma {:induction false} DistinctIsCounted(kept: seq<Block>)
    ensures Distinct(kept) <==> forall block :: multiset(kept)[block] <= 1
  {
    if kept != [] {
      var front, last := kept[..|kept| - 1], kept[|kept| - 1];
      DistinctIsCounted(front);
      assert kept == front + [last];
      assert multiset(kept) == multiset(front) + multiset{last};
      assert last in front <==> multiset(front)[last] > 0;
      if Distinct(kept) { assert last !in front; }
      if forall block :: multiset(kept)[block] <= 1 {
        assert multiset(kept)[last] == multiset(front)[last] + 1;
        forall block ensures multiset(front)[block] <= 1 { assert multiset(front)[block] <= multiset(kept)[block]; }
      }
    }
  }

  /** Reordering the entries keeps one best entry for each canonical type. */
  lemma ReorderedKeepsBest(sorted: seq<Block>, kept: seq<Block>, blocks: set<Block>)
    requires KeepsBest(kept, blocks) && multiset(sorted) == multiset(kept)
    ensures KeepsBest(sorted, blocks)
  {
    hide CanonicalKey, IsBest;
    SameElements(sorted, kept);
    DistinctIsCounted(kept);
    DistinctIsCounted(sorted);
    forall i, j | 0 <= i < j < |sorted| ensures CanonicalKey(sorted[i]) != CanonicalKey(sorted[j]) {
      assert sorted[i] in kept && sorted[j] in kept && sorted[i] != sorted[j];
    }
    forall i | 0 <= i < |sorted| ensures IsBest(sorted[i], blocks) { assert sorted[i] in kept; }
    forall block | block in blocks ensures exists i :: 0 <= i < |sorted| && CanonicalKey(sorted[i]) == CanonicalKey(block) {
      var k :| 0 <= k < |kept| && CanonicalKey(kept[k]) == CanonicalKey(block);
      assert kept[k] in sorted;
    }
  }

  /** The service computes the catalogue once and answers from it afterwards. */
  class BlockCatalogService {
    const provided: seq<Block>
    var cachedCatalog: Option<Catalog>

    ghost predicate Valid()
      reads this
    {
      cachedCatalog.Some? ==> IsCatalogOf(cachedCatalog.value, provided)
    }

    constructor (provided: seq<Block>)
      ensures Valid() && this.provided == provided && cachedCatalog == None
    {
      this.provided := provided;
      cachedCatalog := None;
    }

    method CachedCatalog() returns (catalog: Catalog)
      requires Valid()
      modifies this
      ensures Valid() && cachedCatalog == Some(catalog)
      ensures old(cachedCatalog).Some? ==> cachedCatalog == old(cachedCatalog)
    {
      if cachedCatalog.None? {
        catalog := BuildCatalog(provided);
        cachedCatalog := Some(catalog);
      }
      catalog := cachedCatalog.value;
    }

    method List() returns (browse: seq<Block>)
      requires Valid()
      modifies this
      ensures Valid() && IsBrowseList(browse, Elements(provided))
      ensures ShowsEachClass(browse, provided)
    {
      hide ShowsEachClass, FindsEachId, IsBrowseList, IndexesById;
      var catalog := CachedCatalog();
      CatalogMeans(catalog, provided);
      return catalog.browse;
    }

    /** `None` stands for the not-found error. Every provided block can be got, browsable or not. */
    method Get(id: string) returns (block: Option<Block>)
      requires Valid()
      modifies this
      ensures Valid()
      ensures block.Some? ==>
        && block.value in provided && block.value.id == id
        && forall other :: other in provided && other.id == id ==> !Smaller(block.value, other)
      ensures block.None? ==> forall other :: other in provided ==> other.id != id
    {
      hide IsCatalogOf, StandsForItsClass, Smaller;
      var catalog := CachedCatalog();
      CatalogMeans(catalog, provided);
      if id !in catalog.exact { return None; }
      return Some(catalog.exact[id]);
    }
  }

  /**
   * Two services whose providers list the same blocks, in any order, hold the same catalogue, unless
   * two of the blocks agree in category, name and id.
   */
  lemma CatalogDependsOnTheSetOnly(one: seq<Block>, other: seq<Block>, catalogOne: Catalog, catalogOther: Catalog)
    requires multiset(one) == multiset(other) && NoTies(Elements(one))
    requires IsCatalogOf(catalogOne, one) && IsCatalogOf(catalogOther, other)
    ensures catalogOne == catalogOther
  {
    SameElements(one, other);
    CatalogIsUnique(catalogOne, catalogOther, Elements(one));
  }
}

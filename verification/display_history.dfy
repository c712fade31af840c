/** The displayed history of a native session: the leaf-to-root walk over parent links,
    its reversal, and the relocation of compaction cards to the entry they keep from. */
module DisplayHistory {
  import opened Common

  datatype Kind = Message(wellFormed: bool) | Compaction(firstKept: string) | BranchSummary | OtherKind

  datatype Entry = Entry(id: string, parent: Option<string>, kind: Kind, body: string)

  datatype Failure =
    | MissingId
    | DuplicateId(id: string)
    | CycleAt(id: string)
    | MissingEntry(id: string)
    | MalformedMessage(id: string)

  // ------------------------------------------------------------------ the index

  predicate Indexed(entries: seq<Entry>, byId: map<string, Entry>) {
    && (forall i :: 0 <= i < |entries| ==> entries[i].id in byId && byId[entries[i].id] == entries[i])
    && (forall id :: id in byId ==> byId[id].id == id && byId[id] in entries)
  }

  predicate ProperIds(entries: seq<Entry>) {
    && (forall i :: 0 <= i < |entries| ==> entries[i].id != "")
    && (forall i, j :: 0 <= i < j < |entries| ==> entries[i].id != entries[j].id)
  }

  /** The index is refused at its first entry without an id, or with an id seen before. */
  predicate RefusedAt(entries: seq<Entry>, k: nat, error: Failure)
    requires k < |entries|
  {
    && ProperIds(entries[..k])
    && (if entries[k].id == "" then error == MissingId
        else error == DuplicateId(entries[k].id) && exists j :: 0 <= j < k && entries[j].id == entries[k].id)
  }

  method IndexEntries(entries: seq<Entry>) returns (r: Result<map<string, Entry>, Failure>)
    ensures r.Ok? <==> ProperIds(entries)
    ensures r.Ok? ==> Indexed(entries, r.value)
    ensures r.Err? ==> exists k: nat :: k < |entries| && RefusedAt(entries, k, r.error)
  {
    var byId := map[];
    for k := 0 to |entries|
      invariant ProperIds(entries[..k]) && Indexed(entries[..k], byId)
    {
      var entry := entries[k];
      if entry.id == "" {
        assert RefusedAt(entries, k, MissingId);
        return Err(MissingId);
      }
      if entry.id in byId {
        ghost var twin :| 0 <= twin < k && entries[..k][twin] == byId[entry.id];
        assert entries[twin].id == entries[k].id;
        assert RefusedAt(entries, k, DuplicateId(entry.id));
        return Err(DuplicateId(entry.id));
      }
      byId := byId[entry.id := entry];
      assert entries[..k + 1] == entries[..k] + [entry];
    }
    assert entries[..|entries|] == entries;
    return Ok(byId);
  }

  // ------------------------------------------------------------------- the walk

  /** The id reached after `n` parent links from the leaf; "" beyond the root. */
  function Cursor(byId: map<string, Entry>, leaf: string, n: nat): string {
    if n == 0 then leaf
    else
      var c := Cursor(byId, leaf, n - 1);
      if c in byId && byId[c].parent.Some? then byId[c].parent.value else ""
  }

  /** `path` runs from the root to the leaf along parent links, without repetition. */
  ghost predicate RootPath(byId: map<string, Entry>, leaf: string, path: seq<Entry>) {
    && Cursor(byId, leaf, |path|) == ""
    && (forall k :: 0 <= k < |path| ==>
          var e := path[|path| - 1 - k];
          e.id == Cursor(byId, leaf, k) && e.id != "" && e.id in byId && byId[e.id] == e)
    && DistinctIds(path)
  }

  predicate DistinctIds(path: seq<Entry>) {
    forall i, j :: 0 <= i < j < |path| ==> path[i].id != path[j].id
  }

  /** The walk meets `id` a second time before it meets a missing entry or the root. */
  ghost predicate Revisits(byId: map<string, Entry>, leaf: string, id: string) {
    exists m: nat, n: nat :: m < n && Visits(byId, leaf, id, m) && Visits(byId, leaf, id, n)
  }

  ghost predicate Visits(byId: map<string, Entry>, leaf: string, id: string, n: nat) {
    id != "" && Cursor(byId, leaf, n) == id && forall k: nat :: k < n ==> Cursor(byId, leaf, k) in byId
  }

  ghost predicate Dangles(byId: map<string, Entry>, leaf: string, id: string) {
    id !in byId && exists n: nat :: Visits(byId, leaf, id, n)
  }

  /** The visited links from the leaf, most recent first, before the reversal. */
  ghost predicate Walked(byId: map<string, Entry>, leaf: string, path: seq<Entry>) {
    && (forall k :: 0 <= k < |path| ==>
          path[k].id == Cursor(byId, leaf, k) && path[k].id != "" && path[k].id in byId && byId[path[k].id] == path[k])
    && DistinctIds(path)
  }

  lemma WalkedExtends(byId: map<string, Entry>, leaf: string, path: seq<Entry>, entry: Entry)
    requires Walked(byId, leaf, path)
    requires entry.id == Cursor(byId, leaf, |path|) && entry.id != "" && entry.id in byId && byId[entry.id] == entry
    requires forall k :: 0 <= k < |path| ==> path[k].id != entry.id
    ensures Walked(byId, leaf, path + [entry])
    ensures Cursor(byId, leaf, |path| + 1) == if entry.parent.None? then "" else entry.parent.value
  {
  }

  lemma WalkedVisits(byId: map<string, Entry>, leaf: string, path: seq<Entry>, k: nat)
    requires Walked(byId, leaf, path) && k <= |path| && Cursor(byId, leaf, k) != ""
    ensures Visits(byId, leaf, Cursor(byId, leaf, k), k)
  {
    forall j: nat | j < k ensures Cursor(byId, leaf, j) in byId {
      assert path[j].id == Cursor(byId, leaf, j);
    }
  }

  lemma ReversedIsRootPath(byId: map<string, Entry>, leaf: string, walk: seq<Entry>, path: seq<Entry>)
    requires Walked(byId, leaf, walk) && Cursor(byId, leaf, |walk|) == ""
    requires |path| == |walk| && forall k :: 0 <= k < |walk| ==> path[k] == walk[|walk| - 1 - k]
    ensures RootPath(byId, leaf, path)
  {
    hide Cursor;
    var n := |path|;
    forall k | 0 <= k < n ensures path[n - 1 - k] == walk[k] {
    }
    forall i, j | 0 <= i < j < n ensures path[i].id != path[j].id {
      var x, y := n - 1 - j, n - 1 - i;
      assert walk[x].id != walk[y].id;
    }
    assert DistinctIds(path);
    hide DistinctIds;
  }

  method Walk(byId: map<string, Entry>, leaf: string) returns (r: Result<seq<Entry>, Failure>)
    requires forall id :: id in byId ==> id != "" && byId[id].id == id
    ensures r.Ok? ==> RootPath(byId, leaf, r.value)
    ensures r.Err? ==> r.error.CycleAt? || r.error.MissingEntry?
    ensures r.Err? && r.error.CycleAt? ==> Revisits(byId, leaf, r.error.id)
    ensures r.Err? && r.error.MissingEntry? ==> Dangles(byId, leaf, r.error.id)
  {
    hide Cursor, Walked, Visits, RootPath;
    var path := [];
    var cursor := leaf;
    var visited := {};
    EmptyWalk(byId, leaf);
    while cursor != ""
      invariant Walked(byId, leaf, path) && cursor == Cursor(byId, leaf, |path|)
      invariant forall id :: id in visited <==> exists k :: 0 <= k < |path| && path[k].id == id
      decreases byId.Keys - visited
    {
      WalkedVisits(byId, leaf, path, |path|);
      if cursor in visited {
        var k :| 0 <= k < |path| && path[k].id == cursor;
        WalkedIds(byId, leaf, path, k);
        WalkedVisits(byId, leaf, path, k);
        return Err(CycleAt(cursor));
      }
      ghost var seen := visited;
      visited := visited + {cursor};
      if cursor !in byId {
        return Err(MissingEntry(cursor));
      }
      var entry := byId[cursor];
      WalkedExtends(byId, leaf, path, entry);
      ghost var before := path;
      path := path + [entry];
      forall id ensures id in visited <==> exists k :: 0 <= k < |path| && path[k].id == id {
        if id in seen {
          var k :| 0 <= k < |before| && before[k].id == id;
          assert path[k].id == id;
        }
        assert path[|before|].id == cursor;
      }
      cursor := if entry.parent.None? then "" else entry.parent.value;
      assert before == path[..|before|] && cursor == Cursor(byId, leaf, |path|);
      assert byId.Keys - visited < byId.Keys - seen;
    }
    var reversed := new Entry[|path|](i requires 0 <= i < |path| => path[i]);
    ReverseInPlace(reversed);
    ReversedIsRootPath(byId, leaf, path, reversed[..]);
    return Ok(reversed[..]);
  }

  lemma EmptyWalk(byId: map<string, Entry>, leaf: string)
    ensures Walked(byId, leaf, []) && Cursor(byId, leaf, 0) == leaf
  {
  }

  lemma WalkedIds(byId: map<string, Entry>, leaf: string, path: seq<Entry>, k: nat)
    requires Walked(byId, leaf, path) && k < |path|
    ensures path[k].id == Cursor(byId, leaf, k)
  {
  }

  /** The swap loop that turns the walk into a root-to-leaf path. */
  method ReverseInPlace(path: array<Entry>)
    modifies path
    ensures forall k :: 0 <= k < path.Length ==> path[k] == old(path[path.Length - 1 - k])
  {
    var left, right := 0, path.Length - 1;
    while left < right
      invariant 0 <= left && right == path.Length - 1 - left && left <= right + 1
      invariant forall k :: 0 <= k < left ==> path[k] == old(path[path.Length - 1 - k])
      invariant forall k :: right < k < path.Length ==> path[k] == old(path[path.Length - 1 - k])
      invariant forall k :: left <= k <= right ==> path[k] == old(path[k])
    {
      path[left], path[right] := path[right], path[left];
      left, right := left + 1, right - 1;
    }
  }

  lemma RootPathIds(byId: map<string, Entry>, leaf: string, path: seq<Entry>, k: nat)
    requires RootPath(byId, leaf, path) && k < |path|
    ensures path[|path| - 1 - k].id == Cursor(byId, leaf, k) != ""
    ensures path[|path| - 1 - k].id in byId && byId[path[|path| - 1 - k].id] == path[|path| - 1 - k]
  {
  }

  /** There is at most one root path, so a successful walk is determined by the entries. */
  lemma RootPathIsUnique(byId: map<string, Entry>, leaf: string, path: seq<Entry>, other: seq<Entry>)
    requires RootPath(byId, leaf, path) && RootPath(byId, leaf, other)
    ensures path == other
  {
    forall k: nat | k < |path| ensures Cursor(byId, leaf, k) != "" {
      RootPathIds(byId, leaf, path, k);
    }
    forall k: nat | k < |other| ensures Cursor(byId, leaf, k) != "" {
      RootPathIds(byId, leaf, other, k);
    }
    assert |path| == |other|;
    forall i | 0 <= i < |path| ensures path[i] == other[i] {
      RootPathIds(byId, leaf, path, |path| - 1 - i);
      RootPathIds(byId, leaf, other, |path| - 1 - i);
    }
  }

  lemma VisitsOnPath(byId: map<string, Entry>, leaf: string, path: seq<Entry>, id: string, n: nat)
    requires RootPath(byId, leaf, path) && "" !in byId && Visits(byId, leaf, id, n)
    ensures n < |path| && path[|path| - 1 - n].id == id && id in byId
  {
    if n < |path| {
      RootPathIds(byId, leaf, path, n);
    }
  }

  lemma SamePlace(path: seq<Entry>, i: nat, j: nat)
    requires DistinctIds(path) && i < |path| && j < |path| && path[i].id == path[j].id
    ensures i == j
  {
  }

  /** Errors are real: when a root path exists the walk finds neither a cycle nor a
      missing entry. */
  lemma FailuresAreReal(byId: map<string, Entry>, leaf: string, path: seq<Entry>, id: string)
    requires RootPath(byId, leaf, path) && "" !in byId
    ensures !Revisits(byId, leaf, id) && !Dangles(byId, leaf, id)
  {
    hide Visits, Cursor;
    if Revisits(byId, leaf, id) {
      var m: nat, n: nat :| m < n && Visits(byId, leaf, id, m) && Visits(byId, leaf, id, n);
      VisitsOnPath(byId, leaf, path, id, m);
      VisitsOnPath(byId, leaf, path, id, n);
      SamePlace(path, |path| - 1 - m, |path| - 1 - n);
    }
    if Dangles(byId, leaf, id) {
      var n: nat :| Visits(byId, leaf, id, n);
      VisitsOnPath(byId, leaf, path, id, n);
    }
  }

  // ------------------------------------------------------------------ relocation

  /** The earlier entry of the path at which a compaction's card belongs. */
  function BoundaryBelow(path: seq<Entry>, first: string, n: nat): (b: Option<nat>)
    requires n <= |path|
    ensures b.Some? ==> b.value < n
  {
    if n == 0 then None
    else if path[n - 1].id == first then Some(n - 1)
    else BoundaryBelow(path, first, n - 1)
  }

  function Boundary(path: seq<Entry>, i: nat): (b: Option<nat>)
    requires i < |path|
    ensures b.Some? ==> b.value < i
  {
    if path[i].kind.Compaction? && path[i].kind.firstKept != "" then BoundaryBelow(path, path[i].kind.firstKept, i)
    else None
  }

  lemma {:induction false} BoundaryBelowMeaning(path: seq<Entry>, first: string, n: nat, j: nat)
    requires n <= |path| && j < n && DistinctIds(path)
    ensures path[j].id == first <==> BoundaryBelow(path, first, n) == Some(j)
  {
    if j < n - 1 {
      BoundaryBelowMeaning(path, first, n - 1, j);
    } else {
      assert path[n - 1].id == path[j].id;
    }
  }

  /** The boundary is the one earlier entry whose id the compaction keeps from. */
  lemma BoundaryMeaning(path: seq<Entry>, i: nat, j: nat)
    requires i < |path| && DistinctIds(path)
    ensures Boundary(path, i) == Some(j) <==>
      j < i && path[i].kind.Compaction? && path[i].kind.firstKept != "" && path[j].id == path[i].kind.firstKept
  {
    if j < i && path[i].kind.Compaction? {
      BoundaryBelowMeaning(path, path[i].kind.firstKept, i, j);
    }
  }

  predicate Shown(e: Entry) {
    !e.kind.OtherKind?
  }

  /** The card of entry `i`, if it belongs at position `j`. */
  function CardAt(path: seq<Entry>, j: nat, i: nat): seq<Entry>
    requires i < |path|
  {
    if Boundary(path, i) == Some(j) then [path[i]] else []
  }

  /** The relocated compactions among the first `n` entries that belong before entry `j`. */
  function CardsBefore(path: seq<Entry>, j: nat, n: nat): seq<Entry>
    requires n <= |path|
  {
    if n == 0 then []
    else CardsBefore(path, j, n - 1) + CardAt(path, j, n - 1)
  }

  /** What entry `j` itself shows at its own place. */
  function OwnCard(path: seq<Entry>, j: nat): seq<Entry>
    requires j < |path|
  {
    if Shown(path[j]) && Boundary(path, j).None? then [path[j]] else []
  }

  /** The cards shown for the first `n` positions of the path. */
  function Display(path: seq<Entry>, n: nat): seq<Entry>
    requires n <= |path|
  {
    if n == 0 then []
    else Display(path, n - 1) + CardsBefore(path, n - 1, |path|) + OwnCard(path, n - 1)
  }

  lemma NextPosition(path: seq<Entry>, j: nat)
    requires j < |path|
    ensures Display(path, j + 1) == Display(path, j) + CardsBefore(path, j, |path|) + OwnCard(path, j)
  {
    hide CardsBefore, OwnCard;
  }

  // ------------------------------------------- relocation moves and never rewrites

  function ShownEntries(path: seq<Entry>): seq<Entry> {
    if path == [] then []
    else ShownEntries(path[..|path| - 1]) + ShownCard(path[|path| - 1])
  }

  function WithoutCompactions(cards: seq<Entry>): seq<Entry> {
    if cards == [] then []
    else
      var last := cards[|cards| - 1];
      WithoutCompactions(cards[..|cards| - 1]) + if last.kind.Compaction? then [] else [last]
  }

  /** All relocated cards of the first `n` entries whose boundary lies below `m`. */
  function Cards(path: seq<Entry>, m: nat, n: nat): seq<Entry>
    requires n <= |path|
  {
    if m == 0 then [] else Cards(path, m - 1, n) + CardsBefore(path, m - 1, n)
  }

  function OwnCards(path: seq<Entry>, n: nat): seq<Entry>
    requires n <= |path|
  {
    if n == 0 then [] else OwnCards(path, n - 1) + OwnCard(path, n - 1)
  }

  /** How often `x` is among the cards. */
  function Times(cards: seq<Entry>, x: Entry): nat {
    if cards == [] then 0
    else Times(cards[..|cards| - 1], x) + if cards[|cards| - 1] == x then 1 else 0
  }

  lemma {:induction false} TimesAppend(a: seq<Entry>, b: seq<Entry>, x: Entry)
    ensures Times(a + b, x) == Times(a, x) + Times(b, x)
  {
    if b == [] {
      assert a + b == a;
    } else {
      assert (a + b)[..|a + b| - 1] == a + b[..|b| - 1];
      TimesAppend(a, b[..|b| - 1], x);
    }
  }

  lemma {:induction false} TimesIsMultiplicity(cards: seq<Entry>, x: Entry)
    ensures multiset(cards)[x] == Times(cards, x)
  {
    if cards != [] {
      assert cards == cards[..|cards| - 1] + [cards[|cards| - 1]];
      TimesIsMultiplicity(cards[..|cards| - 1], x);
    }
  }

  lemma TimesOfThree(a: seq<Entry>, b: seq<Entry>, c: seq<Entry>, x: Entry)
    ensures Times(a + b + c, x) == Times(a, x) + Times(b, x) + Times(c, x)
  {
    hide Times;
    TimesAppend(a + b, c, x);
    TimesAppend(a, b, x);
  }

  lemma TimesInCards(path: seq<Entry>, m: nat, n: nat, x: Entry)
    requires m > 0 && n <= |path|
    ensures Times(Cards(path, m, n), x) == Times(Cards(path, m - 1, n), x) + Times(CardsBefore(path, m - 1, n), x)
  {
    hide Boundary, CardAt, Times, CardsBefore;
    TimesAppend(Cards(path, m - 1, n), CardsBefore(path, m - 1, n), x);
  }

  lemma TimesInOwnCards(path: seq<Entry>, n: nat, x: Entry)
    requires n < |path|
    ensures Times(OwnCards(path, n + 1), x) == Times(OwnCards(path, n), x) + Times(OwnCard(path, n), x)
  {
    hide OwnCard, Times;
    TimesAppend(OwnCards(path, n), OwnCard(path, n), x);
  }

  lemma TimesInDisplay(path: seq<Entry>, n: nat, x: Entry)
    requires n < |path|
    ensures Times(Display(path, n + 1), x) ==
      Times(Display(path, n), x) + Times(CardsBefore(path, n, |path|), x) + Times(OwnCard(path, n), x)
  {
    hide *;
    NextPosition(path, n);
    TimesOfThree(Display(path, n), CardsBefore(path, n, |path|), OwnCard(path, n), x);
  }

  lemma NothingYet(path: seq<Entry>, x: Entry)
    ensures Display(path, 0) == Cards(path, 0, |path|) == OwnCards(path, 0) == ShownEntries(path[..0]) == []
    ensures Times([], x) == 0
  {
  }

  lemma {:induction false} DisplaySplits(path: seq<Entry>, n: nat, x: Entry)
    requires n <= |path|
    ensures Times(Display(path, n), x) == Times(Cards(path, n, |path|), x) + Times(OwnCards(path, n), x)
  {
    hide *;
    if n == 0 {
      NothingYet(path, x);
    } else {
      DisplaySplits(path, n - 1, x);
      TimesInDisplay(path, n - 1, x);
      TimesInCards(path, n, |path|, x);
      TimesInOwnCards(path, n - 1, x);
    }
  }

  /** The card of entry `i`, if it belongs below position `m`. */
  function CardBelow(path: seq<Entry>, m: nat, i: nat): seq<Entry>
    requires i < |path|
  {
    if Boundary(path, i).Some? && Boundary(path, i).value < m then [path[i]] else []
  }

  lemma CardBelowSplits(path: seq<Entry>, m: nat, i: nat, x: Entry)
    requires i < |path| && m > 0
    ensures Times(CardBelow(path, m, i), x) == Times(CardBelow(path, m - 1, i), x) + Times(CardAt(path, m - 1, i), x)
  {
    hide Boundary;
  }

  lemma TimesInCardsBefore(path: seq<Entry>, j: nat, n: nat, x: Entry)
    requires n < |path|
    ensures Times(CardsBefore(path, j, n + 1), x) == Times(CardsBefore(path, j, n), x) + Times(CardAt(path, j, n), x)
  {
    hide Boundary, CardAt, Times;
    TimesAppend(CardsBefore(path, j, n), CardAt(path, j, n), x);
  }

  lemma NothingBelowZero(path: seq<Entry>, n: nat, x: Entry)
    requires n < |path|
    ensures Times(CardBelow(path, 0, n), x) == 0
  {
    hide Boundary;
  }

  lemma {:induction false} NextCardJoinsOnce(path: seq<Entry>, m: nat, n: nat, x: Entry)
    requires n < |path|
    ensures Times(Cards(path, m, n + 1), x) == Times(Cards(path, m, n), x) + Times(CardBelow(path, m, n), x)
  {
    hide *;
    if m == 0 {
      NothingBelowZero(path, n, x);
      NoCardsBelowZero(path, n);
      NoCardsBelowZero(path, n + 1);
    } else {
      NextCardJoinsOnce(path, m - 1, n, x);
      CardBelowSplits(path, m, n, x);
      TimesInCardsBefore(path, m - 1, n, x);
      TimesInCards(path, m, n, x);
      TimesInCards(path, m, n + 1, x);
    }
  }

  lemma NoCardsBelowZero(path: seq<Entry>, n: nat)
    requires n <= |path|
    ensures Cards(path, 0, n) == []
  {
  }

  lemma {:induction false} NoCardsYet(path: seq<Entry>, m: nat)
    ensures Cards(path, m, 0) == []
  {
    if m > 0 {
      NoCardsYet(path, m - 1);
    }
  }

  lemma OnlyCompactionsMove(path: seq<Entry>, i: nat)
    requires i < |path|
    ensures Boundary(path, i).Some? ==> path[i].kind.Compaction? && Boundary(path, i).value < i
  {
  }

  function ShownCard(e: Entry): seq<Entry> {
    if Shown(e) then [e] else []
  }

  lemma OneCardEach(path: seq<Entry>, i: nat, x: Entry)
    requires i < |path|
    ensures Times(CardBelow(path, |path|, i), x) + Times(OwnCard(path, i), x) == Times(ShownCard(path[i]), x)
  {
    OnlyCompactionsMove(path, i);
    hide Boundary;
  }

  lemma TimesInShown(path: seq<Entry>, n: nat, x: Entry)
    requires n < |path|
    ensures Times(ShownEntries(path[..n + 1]), x) == Times(ShownEntries(path[..n]), x) + Times(ShownCard(path[n]), x)
  {
    hide Times, ShownCard;
    assert path[..n + 1][..n] == path[..n];
    TimesAppend(ShownEntries(path[..n]), ShownCard(path[n]), x);
  }

  lemma {:induction false} EveryEntryOnce(path: seq<Entry>, n: nat, x: Entry)
    requires n <= |path|
    ensures Times(Cards(path, |path|, n), x) + Times(OwnCards(path, n), x) == Times(ShownEntries(path[..n]), x)
  {
    hide *;
    if n == 0 {
      NoCardsYet(path, |path|);
      NothingYet(path, x);
    } else {
      EveryEntryOnce(path, n - 1, x);
      NextCardJoinsOnce(path, |path|, n - 1, x);
      OneCardEach(path, n - 1, x);
      TimesInOwnCards(path, n - 1, x);
      TimesInShown(path, n - 1, x);
    }
  }

  /** Every message, compaction and branch summary of the path is shown exactly once. */
  lemma ShownExactlyOnce(path: seq<Entry>)
    ensures multiset(Display(path, |path|)) == multiset(ShownEntries(path))
  {
    assert path[..|path|] == path;
    forall x ensures multiset(Display(path, |path|))[x] == multiset(ShownEntries(path))[x] {
      DisplaySplits(path, |path|, x);
      EveryEntryOnce(path, |path|, x);
      TimesIsMultiplicity(Display(path, |path|), x);
      TimesIsMultiplicity(ShownEntries(path), x);
    }
  }

  lemma {:induction false} ShownTimes(path: seq<Entry>, x: Entry)
    ensures multiset(ShownEntries(path))[x] == if x.kind.OtherKind? then 0 else multiset(path)[x]
  {
    if path != [] {
      var init, last := path[..|path| - 1], path[|path| - 1];
      ShownTimes(init, x);
      assert path == init + [last];
      assert multiset(ShownEntries(path)) == multiset(ShownEntries(init)) + multiset(ShownCard(last));
    }
  }

  /** What is shown, entry by entry: messages, compactions and branch summaries as often as
      the path has them, and nothing else. */
  lemma ShownAsOftenAsOnPath(path: seq<Entry>, x: Entry)
    ensures multiset(Display(path, |path|))[x] == if x.kind.OtherKind? then 0 else multiset(path)[x]
  {
    hide Display;
    ShownExactlyOnce(path);
    ShownTimes(path, x);
  }

  lemma {:induction false} WithoutCompactionsAppend(a: seq<Entry>, b: seq<Entry>)
    ensures WithoutCompactions(a + b) == WithoutCompactions(a) + WithoutCompactions(b)
  {
    if b == [] {
      assert a + b == a;
    } else {
      assert (a + b)[..|a + b| - 1] == a + b[..|b| - 1];
      WithoutCompactionsAppend(a, b[..|b| - 1]);
    }
  }

  lemma {:induction false} CardsAreCompactions(path: seq<Entry>, j: nat, n: nat)
    requires n <= |path|
    ensures WithoutCompactions(CardsBefore(path, j, n)) == []
  {
    if n > 0 {
      CardsAreCompactions(path, j, n - 1);
      WithoutCompactionsAppend(CardsBefore(path, j, n - 1), CardAt(path, j, n - 1));
    }
  }

  lemma OwnCardKeepsMessages(path: seq<Entry>, j: nat)
    requires j < |path|
    ensures WithoutCompactions(OwnCard(path, j)) == WithoutCompactions(ShownCard(path[j]))
  {
    OnlyCompactionsMove(path, j);
    assert [path[j]][..0] == [];
  }

  lemma WithoutCompactionsOfThree(a: seq<Entry>, b: seq<Entry>, c: seq<Entry>)
    ensures WithoutCompactions(a + b + c) == WithoutCompactions(a) + WithoutCompactions(b) + WithoutCompactions(c)
  {
    hide *;
    WithoutCompactionsAppend(a + b, c);
    WithoutCompactionsAppend(a, b);
  }

  lemma ShownStep(path: seq<Entry>, n: nat)
    requires n < |path|
    ensures ShownEntries(path[..n + 1]) == ShownEntries(path[..n]) + ShownCard(path[n])
  {
    hide ShownCard;
    assert path[..n + 1][..n] == path[..n];
  }

  lemma EmptyKeepsOrder(path: seq<Entry>)
    ensures WithoutCompactions(Display(path, 0)) == WithoutCompactions(ShownEntries(path[..0]))
  {
  }

  /** One position adds its entry's own card, and cards that are compactions only. */
  lemma PositionKeepsOrder(path: seq<Entry>, n: nat)
    requires n < |path|
    ensures WithoutCompactions(Display(path, n + 1)) ==
      WithoutCompactions(Display(path, n)) + WithoutCompactions(ShownCard(path[n]))
  {
    hide *;
    var shown, cards, own := Display(path, n), CardsBefore(path, n, |path|), OwnCard(path, n);
    NextPosition(path, n);
    WithoutCompactionsOfThree(shown, cards, own);
    CardsAreCompactions(path, n, |path|);
    OwnCardKeepsMessages(path, n);
    calc {
      WithoutCompactions(Display(path, n + 1));
    ==
      WithoutCompactions(shown) + WithoutCompactions(cards) + WithoutCompactions(own);
    ==  { assert WithoutCompactions(shown) + [] == WithoutCompactions(shown); }
      WithoutCompactions(shown) + WithoutCompactions(own);
    }
  }

  /** Messages and branch summaries keep their path order. */
  lemma {:induction false} MessagesKeepOrder(path: seq<Entry>, n: nat)
    requires n <= |path|
    ensures WithoutCompactions(Display(path, n)) == WithoutCompactions(ShownEntries(path[..n]))
  {
    hide *;
    if n == 0 {
      EmptyKeepsOrder(path);
    } else {
      MessagesKeepOrder(path, n - 1);
      PositionKeepsOrder(path, n - 1);
      ShownStep(path, n - 1);
      WithoutCompactionsAppend(ShownEntries(path[..n - 1]), ShownCard(path[n - 1]));
    }
  }

  lemma {:induction false} DisplayIsPrefix(path: seq<Entry>, m: nat, n: nat)
    requires m <= n <= |path|
    ensures Display(path, m) <= Display(path, n)
    decreases n
  {
    hide *;
    if m < n {
      DisplayIsPrefix(path, m, n - 1);
      NextPosition(path, n - 1);
    }
  }

  lemma CardsBeforeStep(path: seq<Entry>, j: nat, n: nat)
    requires n < |path|
    ensures CardsBefore(path, j, n + 1) == CardsBefore(path, j, n) + CardAt(path, j, n)
  {
    hide CardAt;
  }

  lemma {:induction false} CardPosition(path: seq<Entry>, j: nat, n: nat, i: nat) returns (k: nat)
    requires i < n <= |path| && Boundary(path, i) == Some(j)
    ensures k < |CardsBefore(path, j, n)| && CardsBefore(path, j, n)[k] == path[i]
    decreases n
  {
    hide Boundary, CardsBefore;
    CardsBeforeStep(path, j, n - 1);
    if i == n - 1 {
      k := |CardsBefore(path, j, n - 1)|;
    } else {
      k := CardPosition(path, j, n - 1, i);
    }
  }

  /** A relocated compaction is shown at the entry it keeps from: after everything shown
      for earlier entries and before that entry's own card. */
  lemma RelocatedSitsAtBoundary(path: seq<Entry>, i: nat) returns (k: nat)
    requires i < |path| && Boundary(path, i).Some?
    ensures var j := Boundary(path, i).value;
      && Display(path, j) <= Display(path, j + 1) <= Display(path, |path|)
      && |Display(path, j)| <= k < |Display(path, j + 1)| - |OwnCard(path, j)|
      && Display(path, |path|)[k] == path[i]
  {
    hide *;
    var j := Boundary(path, i).value;
    var c := CardPosition(path, j, |path|, i);
    k := |Display(path, j)| + c;
    NextPosition(path, j);
    DisplayIsPrefix(path, j, j + 1);
    DisplayIsPrefix(path, j + 1, |path|);
    MiddleElement(Display(path, j), CardsBefore(path, j, |path|), OwnCard(path, j), c);
  }

  lemma {:induction false} CardsKeepOrder(path: seq<Entry>, j: nat, n: nat, i: nat, later: nat)
      returns (k: nat, l: nat)
    requires i < later < n <= |path| && Boundary(path, i) == Some(j) == Boundary(path, later)
    ensures k < l < |CardsBefore(path, j, n)|
    ensures CardsBefore(path, j, n)[k] == path[i] && CardsBefore(path, j, n)[l] == path[later]
    decreases n
  {
    hide Boundary, CardsBefore;
    CardsBeforeStep(path, j, n - 1);
    if later == n - 1 {
      k := CardPosition(path, j, n - 1, i);
      l := |CardsBefore(path, j, n - 1)|;
    } else {
      k, l := CardsKeepOrder(path, j, n - 1, i, later);
    }
  }

  /** Compactions that keep from the same entry are shown in the order of the path. */
  lemma SharedBoundaryKeepsOrder(path: seq<Entry>, i: nat, later: nat) returns (k: nat, l: nat)
    requires i < later < |path| && Boundary(path, i).Some? && Boundary(path, later) == Boundary(path, i)
    ensures k < l < |Display(path, |path|)|
    ensures Display(path, |path|)[k] == path[i] && Display(path, |path|)[l] == path[later]
  {
    hide *;
    var j := Boundary(path, i).value;
    var c, d := CardsKeepOrder(path, j, |path|, i, later);
    k, l := |Display(path, j)| + c, |Display(path, j)| + d;
    NextPosition(path, j);
    DisplayIsPrefix(path, j + 1, |path|);
    MiddleElement(Display(path, j), CardsBefore(path, j, |path|), OwnCard(path, j), c);
    MiddleElement(Display(path, j), CardsBefore(path, j, |path|), OwnCard(path, j), d);
  }

  lemma MiddleElement(a: seq<Entry>, b: seq<Entry>, c: seq<Entry>, k: nat)
    requires k < |b|
    ensures (a + b + c)[|a| + k] == b[k]
  {
  }

  /** Every other shown entry keeps its own place. */
  lemma OthersStay(path: seq<Entry>, j: nat)
    requires j < |path| && Shown(path[j]) && Boundary(path, j).None?
    ensures |Display(path, j + 1)| > 0 && Display(path, j + 1)[|Display(path, j + 1)| - 1] == path[j]
    ensures Display(path, j + 1) <= Display(path, |path|)
  {
    DisplayIsPrefix(path, j + 1, |path|);
  }

  // ------------------------------------------------------------------- the algorithm

  predicate Malformed(e: Entry) {
    e.kind.Message? && !e.kind.wellFormed
  }

  predicate FirstMalformed(path: seq<Entry>, i: int) {
    0 <= i < |path| && Malformed(path[i]) && forall k :: 0 <= k < i ==> !Malformed(path[k])
  }

  function Listed(before: map<string, seq<Entry>>, id: string): seq<Entry> {
    if id in before then before[id] else []
  }

  /** `before` lists, under each entry's id, the cards that belong before it. */
  ghost predicate ListsCards(path: seq<Entry>, before: map<string, seq<Entry>>, n: nat)
    requires n <= |path|
  {
    forall j :: 0 <= j < |path| ==> Listed(before, path[j].id) == CardsBefore(path, j, n)
  }

  ghost predicate MarksMoved(path: seq<Entry>, relocated: set<string>, n: nat)
    requires n <= |path|
  {
    && (forall id :: id in relocated ==> exists k :: 0 <= k < n && path[k].id == id)
    && (forall i :: 0 <= i < n ==> (path[i].id in relocated <==> Boundary(path, i).Some?))
  }

  ghost predicate IndexesIds(path: seq<Entry>, indexById: map<string, nat>, n: nat)
    requires n <= |path|
  {
    && (forall id :: id in indexById ==> indexById[id] < n && path[indexById[id]].id == id)
    && (forall k :: 0 <= k < n ==> path[k].id in indexById)
  }

  /** One entry's list grows by the moved card, the others stay. */
  lemma CardJoins(path: seq<Entry>, before: map<string, seq<Entry>>, n: nat, j: nat, k: nat)
    requires DistinctIds(path) && n < |path| && j < n && k < |path| && Boundary(path, n) == Some(j)
    requires Listed(before, path[k].id) == CardsBefore(path, k, n)
    ensures Listed(before[path[j].id := Listed(before, path[j].id) + [path[n]]], path[k].id) ==
      CardsBefore(path, k, n + 1)
  {
    hide Boundary, CardsBefore, DistinctIds;
    CardsBeforeStep(path, k, n);
    if path[k].id == path[j].id {
      SamePlace(path, k, j);
      assert CardAt(path, k, n) == [path[n]];
    } else {
      assert CardAt(path, k, n) == [];
      assert CardsBefore(path, k, n) + [] == CardsBefore(path, k, n);
    }
  }

  lemma CardMoves(path: seq<Entry>, before: map<string, seq<Entry>>, n: nat, j: nat)
    requires DistinctIds(path) && n < |path| && j < n && ListsCards(path, before, n)
    requires Boundary(path, n) == Some(j)
    ensures ListsCards(path, before[path[j].id := Listed(before, path[j].id) + [path[n]]], n + 1)
  {
    hide Boundary, CardsBefore, DistinctIds, Listed;
    var after := before[path[j].id := Listed(before, path[j].id) + [path[n]]];
    forall k | 0 <= k < |path| ensures Listed(after, path[k].id) == CardsBefore(path, k, n + 1) {
      CardJoins(path, before, n, j, k);
    }
  }

  lemma CardStays(path: seq<Entry>, before: map<string, seq<Entry>>, n: nat)
    requires n < |path| && ListsCards(path, before, n)
    requires Boundary(path, n).None?
    ensures ListsCards(path, before, n + 1)
  {
    hide Boundary, CardsBefore;
    forall k | 0 <= k < |path| ensures Listed(before, path[k].id) == CardsBefore(path, k, n + 1) {
      CardsBeforeStep(path, k, n);
      assert CardsBefore(path, k, n) + [] == CardsBefore(path, k, n);
    }
  }

  lemma MarkExtends(path: seq<Entry>, relocated: set<string>, n: nat)
    requires DistinctIds(path) && n < |path| && MarksMoved(path, relocated, n)
    ensures MarksMoved(path, if Boundary(path, n).Some? then relocated + {path[n].id} else relocated, n + 1)
  {
    hide Boundary;
  }

  /** The index lookup finds exactly the boundary. */
  lemma LookupIsBoundary(path: seq<Entry>, indexById: map<string, nat>, i: nat)
    requires DistinctIds(path) && i < |path| && IndexesIds(path, indexById, |path|)
    requires path[i].kind.Compaction? && path[i].kind.firstKept != ""
    ensures var first := path[i].kind.firstKept;
      Boundary(path, i) == if first in indexById && indexById[first] < i then Some(indexById[first]) else None
  {
    var first := path[i].kind.firstKept;
    if first in indexById {
      BoundaryMeaning(path, i, indexById[first]);
    }
    var b := Boundary(path, i);
    if b.Some? {
      BoundaryMeaning(path, i, b.value);
    }
  }

  lemma NothingMovedYet(path: seq<Entry>)
    ensures IndexesIds(path, map[], 0) && ListsCards(path, map[], 0) && MarksMoved(path, {}, 0)
  {
    hide Boundary;
  }

  lemma IndexExtends(path: seq<Entry>, indexById: map<string, nat>, n: nat)
    requires n < |path| && IndexesIds(path, indexById, n)
    ensures IndexesIds(path, indexById[path[n].id := n], n + 1)
  {
  }

  /** Collects, per boundary entry, the compactions to show before it. */
  method RelocateCompactions(path: seq<Entry>) returns (before: map<string, seq<Entry>>, relocated: set<string>)
    requires DistinctIds(path)
    ensures ListsCards(path, before, |path|)
    ensures MarksMoved(path, relocated, |path|)
  {
    hide *;
    NothingMovedYet(path);
    var indexById: map<string, nat> := map[];
    for i := 0 to |path|
      invariant IndexesIds(path, indexById, i)
    {
      IndexExtends(path, indexById, i);
      indexById := indexById[path[i].id := i];
    }
    before, relocated := map[], {};
    for i := 0 to |path|
      invariant ListsCards(path, before, i)
      invariant MarksMoved(path, relocated, i)
    {
      var entry := path[i];
      MarkExtends(path, relocated, i);
      if entry.kind.Compaction? && entry.kind.firstKept != "" {
        var first := entry.kind.firstKept;
        LookupIsBoundary(path, indexById, i);
        if first in indexById && indexById[first] < i {
          LookupHits(path, indexById, first);
          CardMoves(path, before, i, indexById[first]);
          before := before[first := Listed(before, first) + [entry]];
          relocated := relocated + {entry.id};
        } else {
          CardStays(path, before, i);
        }
      } else {
        BoundaryNeedsCompaction(path, i);
        CardStays(path, before, i);
      }
    }
  }

  lemma LookupHits(path: seq<Entry>, indexById: map<string, nat>, id: string)
    requires IndexesIds(path, indexById, |path|) && id in indexById
    ensures indexById[id] < |path| && path[indexById[id]].id == id
  {
  }

  lemma BoundaryNeedsCompaction(path: seq<Entry>, i: nat)
    requires i < |path|
    ensures Boundary(path, i).Some? ==> path[i].kind.Compaction? && path[i].kind.firstKept != ""
  {
  }

  lemma EmptyDisplay(path: seq<Entry>)
    ensures Display(path, 0) == []
  {
  }

  /** An entry shows its own card unless it was relocated or is of another kind. */
  lemma OwnCardOf(path: seq<Entry>, relocated: set<string>, j: nat)
    requires MarksMoved(path, relocated, |path|) && j < |path|
    ensures var moved := path[j].kind.Compaction? && path[j].id in relocated;
      OwnCard(path, j) == if path[j].kind.OtherKind? || moved then [] else [path[j]]
  {
    OnlyCompactionsMove(path, j);
    assert path[j].id in relocated <==> Boundary(path, j).Some?;
    hide Boundary;
  }

  method EmitCards(path: seq<Entry>, before: map<string, seq<Entry>>, relocated: set<string>)
    returns (r: Result<seq<Entry>, Failure>)
    requires ListsCards(path, before, |path|) && MarksMoved(path, relocated, |path|)
    ensures r.Ok? <==> forall i :: 0 <= i < |path| ==> !Malformed(path[i])
    ensures r.Ok? ==> r.value == Display(path, |path|)
    ensures r.Err? ==> exists i :: FirstMalformed(path, i) && r.error == MalformedMessage(path[i].id)
  {
    hide CardsBefore, OwnCard, Boundary, MarksMoved, Display;
    EmptyDisplay(path);
    var messages := [];
    for j := 0 to |path|
      invariant messages == Display(path, j)
      invariant forall k :: 0 <= k < j ==> !Malformed(path[k])
    {
      var entry := path[j];
      ghost var shown := messages;
      messages := messages + Listed(before, entry.id);
      assert messages == shown + CardsBefore(path, j, |path|);
      ghost var own := OwnCard(path, j);
      OwnCardOf(path, relocated, j);
      NextPosition(path, j);
      match entry.kind {
        case Message(wellFormed) =>
          if !wellFormed {
            assert FirstMalformed(path, j);
            return Err(MalformedMessage(entry.id));
          }
          messages := messages + [entry];
        case Compaction(_) =>
          if entry.id !in relocated {
            messages := messages + [entry];
          }
        case BranchSummary => messages := messages + [entry];
        case OtherKind =>
      }
    }
    return Ok(messages);
  }

  ghost predicate Clean(path: seq<Entry>) {
    forall i :: 0 <= i < |path| ==> !Malformed(path[i])
  }

  ghost predicate FailsOn(path: seq<Entry>, id: string) {
    exists i :: FirstMalformed(path, i) && id == path[i].id
  }

  /** What the history of a well-indexed session may be. */
  ghost predicate Outcome(byId: map<string, Entry>, leaf: string, r: Result<seq<Entry>, Failure>) {
    match r
    case Ok(cards) => exists path :: RootPath(byId, leaf, path) && Clean(path) && cards == Display(path, |path|)
    case Err(CycleAt(id)) => Revisits(byId, leaf, id)
    case Err(MissingEntry(id)) => Dangles(byId, leaf, id)
    case Err(MalformedMessage(id)) => exists path :: RootPath(byId, leaf, path) && FailsOn(path, id)
    case Err(_) => false
  }

  /** A session with a clean root path has exactly one outcome: that path's display. */
  lemma CleanPathIsShown(byId: map<string, Entry>, leaf: string, path: seq<Entry>, r: Result<seq<Entry>, Failure>)
    requires RootPath(byId, leaf, path) && Clean(path) && "" !in byId
    requires Outcome(byId, leaf, r)
    ensures r == Ok(Display(path, |path|))
  {
    hide RootPath, Display, Revisits, Dangles;
    forall id {
      FailuresAreReal(byId, leaf, path, id);
    }
    forall other | RootPath(byId, leaf, other) ensures other == path {
      RootPathIsUnique(byId, leaf, path, other);
    }
  }

  ghost predicate EventOutcome(entries: seq<Entry>, leaf: string, r: Result<seq<Entry>, Failure>) {
    exists byId :: Indexed(entries, byId) && "" !in byId && Outcome(byId, leaf, r)
  }

  /** The whole history event. An absent or empty leaf shows nothing. */
  method DisplayHistoryEvent(entries: seq<Entry>, leaf: Option<string>) returns (r: Result<seq<Entry>, Failure>)
    ensures ProperIds(entries) ==> EventOutcome(entries, if leaf.Some? then leaf.value else "", r)
    ensures !ProperIds(entries) ==>
      r.Err? && exists k: nat :: k < |entries| && RefusedAt(entries, k, r.error)
  {
    hide RootPath, Display, Revisits, Dangles;
    var indexed := IndexEntries(entries);
    if indexed.Err? {
      return Err(indexed.error);
    }
    var byId := indexed.value;
    forall id | id in byId ensures id != "" && byId[id].id == id {
      var i :| 0 <= i < |entries| && entries[i] == byId[id];
    }
    var start := if leaf.Some? then leaf.value else "";
    var walked := Walk(byId, start);
    if walked.Err? {
      r := Err(walked.error);
      assert Outcome(byId, start, r);
      return;
    }
    var path := walked.value;
    RootPathIsDistinct(byId, start, path);
    var before, relocated := RelocateCompactions(path);
    r := EmitCards(path, before, relocated);
    assert Outcome(byId, start, r);
  }

  lemma RootPathIsDistinct(byId: map<string, Entry>, leaf: string, path: seq<Entry>)
    requires RootPath(byId, leaf, path)
    ensures DistinctIds(path)
  {
  }
}

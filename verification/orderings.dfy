/** The order of projects and threads: adding and reordering within one profile leave the
    slots of every other profile alone. */
module Orderings {
  import opened Common

  datatype Thread = Thread(id: string, pending: bool, settled: bool, title: string)

  datatype Project = Project(id: string, profile: string, path: string, threads: seq<Thread>)

  datatype OrderError = NotFound | ProfileNotFound | InvalidOrder | RollbackPending | AlreadyListed

  // --------------------------------------------------------------- slots of a profile

  /** The projects of one profile, in list order. */
  function OfProfile(list: seq<Project>, profile: string): seq<Project> {
    if list == [] then []
    else OfProfile(list[..|list| - 1], profile) + OwnSlot(list[|list| - 1], profile)
  }

  function OwnSlot(p: Project, profile: string): seq<Project> {
    if p.profile == profile then [p] else []
  }

  /** `after` has the profile pattern of `before` and its other-profile projects. */
  ghost predicate SameSlots(before: seq<Project>, after: seq<Project>, profile: string) {
    && |after| == |before|
    && forall i :: 0 <= i < |before| ==> SameSlot(before[i], after[i], profile)
  }

  predicate SameSlot(x: Project, y: Project, profile: string) {
    if x.profile == profile then y.profile == profile else y == x
  }

  lemma {:induction false} OfProfileAppend(a: seq<Project>, b: seq<Project>, profile: string)
    ensures OfProfile(a + b, profile) == OfProfile(a, profile) + OfProfile(b, profile)
  {
    hide OwnSlot;
    if b == [] {
      assert a + b == a;
    } else {
      assert (a + b)[..|a + b| - 1] == a + b[..|b| - 1];
      OfProfileAppend(a, b[..|b| - 1], profile);
    }
  }

  lemma OfProfileLast(list: seq<Project>, profile: string)
    requires list != []
    ensures OfProfile(list, profile) == OfProfile(list[..|list| - 1], profile) + OwnSlot(list[|list| - 1], profile)
  {
  }

  lemma SlotsBut(before: seq<Project>, after: seq<Project>, profile: string)
    requires SameSlots(before, after, profile) && before != []
    ensures after != [] && SameSlots(before[..|before| - 1], after[..|before| - 1], profile)
    ensures SameSlot(before[|before| - 1], after[|before| - 1], profile)
  {
  }

  lemma SameEnd<T>(a: seq<T>, x: T, b: seq<T>, y: T)
    requires a + [x] == b + [y]
    ensures a == b && x == y
  {
    assert (a + [x])[..|a|] == a && (b + [y])[..|b|] == b;
    assert (a + [x])[|a|] == x && (b + [y])[|b|] == y;
  }

  /** The slots of the other profiles and the order within the profile determine the list. */
  lemma {:induction false} SlotsDetermineList(before: seq<Project>, a: seq<Project>, b: seq<Project>, profile: string)
    requires SameSlots(before, a, profile) && SameSlots(before, b, profile)
    requires OfProfile(a, profile) == OfProfile(b, profile)
    ensures a == b
    decreases |before|
  {
    hide OfProfile;
    if before != [] {
      var n := |before| - 1;
      SlotsBut(before, a, profile);
      SlotsBut(before, b, profile);
      OfProfileLast(a, profile);
      OfProfileLast(b, profile);
      assert |a| == n + 1 && |b| == n + 1;
      if before[n].profile == profile {
        SameEnd(OfProfile(a[..n], profile), a[n], OfProfile(b[..n], profile), b[n]);
      } else {
        assert OfProfile(a[..n], profile) + [] == OfProfile(a[..n], profile);
        assert OfProfile(b[..n], profile) + [] == OfProfile(b[..n], profile);
      }
      SlotsDetermineList(before[..n], a[..n], b[..n], profile);
      assert a == a[..n] + [a[n]] && b == b[..n] + [b[n]];
    }
  }

  function Times(list: seq<Project>, x: Project): nat {
    if list == [] then 0 else Times(list[..|list| - 1], x) + if list[|list| - 1] == x then 1 else 0
  }

  lemma {:induction false} TimesIsMultiplicity(list: seq<Project>, x: Project)
    ensures multiset(list)[x] == Times(list, x)
  {
    if list != [] {
      assert list == list[..|list| - 1] + [list[|list| - 1]];
      TimesIsMultiplicity(list[..|list| - 1], x);
    }
  }

  /** A project is counted among its own profile, or among the untouched slots. */
  lemma {:induction false} TimesBySlot(before: seq<Project>, after: seq<Project>, profile: string, x: Project)
    requires SameSlots(before, after, profile)
    ensures x.profile == profile ==> Times(after, x) == Times(OfProfile(after, profile), x)
    ensures x.profile != profile ==> Times(after, x) == Times(before, x)
  {
    if before != [] {
      var n := |before| - 1;
      TimesBySlot(before[..n], after[..n], profile, x);
      assert SameSlot(before[n], after[n], profile);
      if after[n].profile == profile {
        assert OfProfile(after, profile)[..|OfProfile(after, profile)| - 1] == OfProfile(after[..n], profile);
      } else {
        assert OfProfile(after, profile) == OfProfile(after[..n], profile);
      }
    }
  }

  /** Permuting the projects of one profile within its slots loses and doubles nothing. */
  lemma SlotsConserve(before: seq<Project>, after: seq<Project>, profile: string)
    requires SameSlots(before, after, profile)
    requires multiset(OfProfile(after, profile)) == multiset(OfProfile(before, profile))
    ensures multiset(after) == multiset(before)
  {
    forall x ensures multiset(after)[x] == multiset(before)[x] {
      assert SameSlots(before, before, profile);
      TimesBySlot(before, after, profile, x);
      TimesBySlot(before, before, profile, x);
      TimesIsMultiplicity(after, x);
      TimesIsMultiplicity(before, x);
      TimesIsMultiplicity(OfProfile(after, profile), x);
      TimesIsMultiplicity(OfProfile(before, profile), x);
    }
  }

  // -------------------------------------------------------------------- adding a project

  /** The new project is the first of its profile, the others follow in their old order,
      and every other profile keeps its slots. */
  ghost predicate AddedFirst(before: seq<Project>, item: Project, after: seq<Project>) {
    && SameSlots(before + [item], after, item.profile)
    && OfProfile(after, item.profile) == [item] + OfProfile(before, item.profile)
  }

  /** State of the swap loop: everything before `at` is as it was, the new item stands at
      `at`, and behind it the projects of its profile follow in order. */
  ghost predicate Sifted(before: seq<Project>, item: Project, list: seq<Project>, at: nat) {
    && at <= |before| && |list| == |before| + 1
    && list[..at] == before[..at] && list[at] == item
    && SameSlots(before + [item], list, item.profile)
    && OfProfile(list[at + 1..], item.profile) == OfProfile(before[at..], item.profile)
  }

  lemma {:induction false} NoneOfProfile(list: seq<Project>, profile: string)
    requires forall i :: 0 <= i < |list| ==> list[i].profile != profile
    ensures OfProfile(list, profile) == []
  {
    if list != [] {
      NoneOfProfile(list[..|list| - 1], profile);
    }
  }

  lemma OfOne(p: Project, profile: string)
    ensures OfProfile([p], profile) == OwnSlot(p, profile)
  {
    assert [p][..0] == [];
  }

  /** How the swap rearranges the list: the skipped stretch stays, the old project moves
      behind it. */
  lemma SwapShape<T>(before: seq<T>, list: seq<T>, at: nat, k: nat)
    requires k < at <= |before| && at < |list| && list[..at] == before[..at]
    ensures var next := list[k := list[at]][at := list[k]];
      && next[..k] == before[..k] && list[k] == before[k]
      && next[k + 1..] == before[k + 1..at] + ([before[k]] + list[at + 1..])
    ensures before[k..] == [before[k]] + (before[k + 1..at] + before[at..])
  {
    assert list[k] == list[..at][k] == before[k];
    assert list[k + 1..at] == list[..at][k + 1..] == before[k + 1..at];
  }

  /** Skipping projects of other profiles does not show in the profile's order. */
  lemma SkippedGap(gap: seq<Project>, moved: Project, tail: seq<Project>, profile: string)
    requires forall i :: 0 <= i < |gap| ==> gap[i].profile != profile
    ensures OfProfile(gap + ([moved] + tail), profile) == OwnSlot(moved, profile) + OfProfile(tail, profile)
    ensures OfProfile([moved] + (gap + tail), profile) == OwnSlot(moved, profile) + OfProfile(tail, profile)
  {
    hide OfProfile, OwnSlot;
    NoneOfProfile(gap, profile);
    OfOne(moved, profile);
    OfProfileAppend(gap, [moved] + tail, profile);
    OfProfileAppend([moved], tail, profile);
    OfProfileAppend([moved], gap + tail, profile);
    OfProfileAppend(gap, tail, profile);
    assert [] + OfProfile(tail, profile) == OfProfile(tail, profile);
    var rest := OfProfile([moved] + tail, profile);
    assert [] + rest == rest;
  }

  lemma SwapKeepsOrder(before: seq<Project>, item: Project, list: seq<Project>, at: nat, k: nat)
    requires Sifted(before, item, list, at) && k < at && before[k].profile == item.profile
    requires forall i :: k < i < at ==> before[i].profile != item.profile
    ensures Sifted(before, item, list[k := list[at]][at := list[k]], k)
  {
    hide OfProfile, OwnSlot, SameSlots;
    var p := item.profile;
    SwapShape(before, list, at, k);
    SkippedGap(before[k + 1..at], before[k], list[at + 1..], p);
    SkippedGap(before[k + 1..at], before[k], before[at..], p);
    SwapKeepsSlots(before + [item], list, k, at, p);
  }

  lemma SwapKeepsSlots(before: seq<Project>, list: seq<Project>, k: nat, at: nat, profile: string)
    requires SameSlots(before, list, profile) && k < at < |list|
    requires list[k].profile == profile && list[at].profile == profile
    ensures SameSlots(before, list[k := list[at]][at := list[k]], profile)
  {
    assert SameSlot(before[k], list[k], profile) && SameSlot(before[at], list[at], profile);
  }

  lemma SiftedAtEnd(before: seq<Project>, item: Project)
    ensures Sifted(before, item, before + [item], |before|)
  {
  }

  lemma SiftedToFront(before: seq<Project>, item: Project, list: seq<Project>, at: nat)
    requires Sifted(before, item, list, at)
    requires forall i :: 0 <= i < at ==> before[i].profile != item.profile
    ensures AddedFirst(before, item, list)
  {
    hide OfProfile, SameSlots;
    var p := item.profile;
    SkippedGap(before[..at], item, list[at + 1..], p);
    assert list == before[..at] + ([item] + list[at + 1..]);
    NoneOfProfile(before[..at], p);
    OfProfileAppend(before[..at], before[at..], p);
    assert before == before[..at] + before[at..];
    assert [] + OfProfile(before[at..], p) == OfProfile(before[at..], p);
  }

  /** The in-place loop over the copied array: each project of the profile swaps with the
      new one, from the end to the front. */
  method SwapToFront(updated: array<Project>, ghost before: seq<Project>, item: Project)
    requires updated[..] == before + [item]
    modifies updated
    ensures AddedFirst(before, item, updated[..])
  {
    hide Sifted, AddedFirst;
    var newIndex := updated.Length - 1;
    SiftedAtEnd(before, item);
    var index := newIndex;
    while index > 0
      invariant 0 <= index <= newIndex < updated.Length == |before| + 1
      invariant Sifted(before, item, updated[..], newIndex)
      invariant forall i :: index <= i < newIndex ==> before[i].profile != item.profile
    {
      index := index - 1;
      SiftedPrefix(before, item, updated[..], newIndex, index);
      if updated[index].profile != item.profile {
        continue;
      }
      ghost var list := updated[..];
      SwapKeepsOrder(before, item, list, newIndex, index);
      updated[index], updated[newIndex] := updated[newIndex], updated[index];
      assert updated[..] == list[index := list[newIndex]][newIndex := list[index]];
      newIndex := index;
    }
    SiftedToFront(before, item, updated[..], newIndex);
  }

  lemma SiftedPrefix(before: seq<Project>, item: Project, list: seq<Project>, at: nat, i: nat)
    requires Sifted(before, item, list, at) && i < at
    ensures list[i] == before[i]
  {
    assert list[i] == list[..at][i];
  }

  /** Adding conserves the projects and determines the resulting list. */
  lemma AddedFirstMeans(before: seq<Project>, item: Project, a: seq<Project>, b: seq<Project>)
    requires AddedFirst(before, item, a)
    ensures multiset(a) == multiset(before + [item])
    ensures AddedFirst(before, item, b) ==> a == b
  {
    var p := item.profile;
    OfProfileAppend(before, [item], p);
    OfOne(item, p);
    hide OfProfile, SameSlots;
    assert multiset(OfProfile(a, p)) == multiset(OfProfile(before + [item], p));
    SlotsConserve(before + [item], a, p);
    if AddedFirst(before, item, b) {
      SlotsDetermineList(before + [item], a, b, p);
    }
  }

  // --------------------------------------------------------- taking items by their ids

  ghost predicate Distinct(ids: seq<string>) {
    forall i, j :: 0 <= i < j < |ids| ==> ids[i] != ids[j]
  }

  /** What the map of not yet named items holds. */
  ghost predicate Available<T(!new)>(id: T -> string, available: map<string, T>, members: seq<T>, named: seq<T>) {
    && (forall k :: k in available ==> available[k] in members && id(available[k]) == k && available[k] !in named)
    && (forall p :: p in members && p !in named ==> id(p) in available)
  }

  ghost predicate DistinctBy<T(!new)>(id: T -> string, items: seq<T>) {
    forall i, j :: 0 <= i < j < |items| ==> id(items[i]) != id(items[j])
  }

  /** The items in the requested order. */
  ghost predicate Ordered<T(!new)>(id: T -> string, members: seq<T>, ids: seq<string>, ordered: seq<T>) {
    && |ordered| == |ids|
    && forall k :: 0 <= k < |ids| ==> ordered[k] in members && id(ordered[k]) == ids[k]
  }

  lemma SameIdSameItem<T(!new)>(id: T -> string, members: seq<T>, x: T, y: T)
    requires DistinctBy(id, members) && x in members && y in members && id(x) == id(y)
    ensures x == y
  {
  }

  /** The request names every item exactly once. */
  ghost predicate NamesEach<T(!new)>(id: T -> string, members: seq<T>, ids: seq<string>) {
    && |ids| == |members| && Distinct(ids)
    && forall k :: 0 <= k < |ids| ==> Named(id, members, ids[k])
  }

  ghost predicate Named<T(!new)>(id: T -> string, members: seq<T>, name: string) {
    exists p :: p in members && id(p) == name
  }

  method CollectAvailable<T(!new, ==)>(id: T -> string, members: seq<T>) returns (available: map<string, T>)
    requires DistinctBy(id, members)
    ensures Available(id, available, members, []) && |available| == |members|
  {
    available := map[];
    for i := 0 to |members|
      invariant Available(id, available, members[..i], []) && |available| == i
    {
      assert members[..i + 1] == members[..i] + [members[i]];
      available := available[id(members[i]) := members[i]];
    }
    assert members[..|members|] == members;
  }

  lemma NameTaken<T(!new)>(id: T -> string, available: map<string, T>, members: seq<T>, ids: seq<string>,
                           ordered: seq<T>, k: nat)
    requires DistinctBy(id, members) && k < |ids| && Ordered(id, members, ids[..k], ordered)
    requires Available(id, available, members, ordered) && ids[k] !in available
    ensures !NamesEach(id, members, ids)
  {
    if Named(id, members, ids[k]) {
      var p :| p in members && id(p) == ids[k];
      assert p in ordered;
      var j :| 0 <= j < |ordered| && ordered[j] == p;
      assert ids[..k][j] == ids[j] == ids[k];
    }
  }

  lemma NameIsNew<T(!new)>(id: T -> string, available: map<string, T>, members: seq<T>, ids: seq<string>,
                           ordered: seq<T>, k: nat)
    requires DistinctBy(id, members) && k < |ids| && Ordered(id, members, ids[..k], ordered)
    requires Available(id, available, members, ordered) && ids[k] in available
    requires Distinct(ids[..k])
    ensures Distinct(ids[..k + 1]) && Named(id, members, ids[k])
    ensures Ordered(id, members, ids[..k + 1], ordered + [available[ids[k]]])
    ensures Available(id, available - {ids[k]}, members, ordered + [available[ids[k]]])
  {
    var item := available[ids[k]];
    forall j | 0 <= j < k ensures ids[j] != ids[k] {
      assert ids[..k][j] == ids[j] == id(ordered[j]);
      if ids[j] == ids[k] {
        SameIdSameItem(id, members, ordered[j], item);
      }
    }
    assert ids[..k + 1] == ids[..k] + [ids[k]];
    forall key | key in available && key != ids[k] ensures available[key] !in ordered + [item] {
    }
    forall p | p in members && p !in ordered + [item] ensures id(p) in available - {ids[k]} {
      if id(p) == ids[k] {
        SameIdSameItem(id, members, p, item);
      }
    }
  }

  /** Takes the items out of the map one by one, in the requested order. */
  method TakeInOrder<T(!new, ==)>(id: T -> string, members: seq<T>, ids: seq<string>) returns (ordered: Option<seq<T>>)
    requires DistinctBy(id, members)
    ensures ordered.Some? <==> NamesEach(id, members, ids)
    ensures ordered.Some? ==> Ordered(id, members, ids, ordered.value)
  {
    hide Available, Ordered, DistinctBy, Distinct, Named;
    var available := CollectAvailable(id, members);
    if |ids| != |available| {
      return None;
    }
    var taken: seq<T> := [];
    NothingTaken(id, members, ids);
    for k := 0 to |ids|
      invariant Available(id, available, members, taken) && Ordered(id, members, ids[..k], taken) && Distinct(ids[..k])
      invariant forall j :: 0 <= j < k ==> Named(id, members, ids[j])
    {
      if ids[k] !in available {
        NameTaken(id, available, members, ids, taken, k);
        return None;
      }
      NameIsNew(id, available, members, ids, taken, k);
      taken := taken + [available[ids[k]]];
      available := available - {ids[k]};
    }
    assert ids[..|ids|] == ids;
    return Some(taken);
  }

  lemma NothingTaken<T(!new)>(id: T -> string, members: seq<T>, ids: seq<string>)
    ensures Ordered(id, members, ids[..0], []) && Distinct(ids[..0])
  {
  }

  // -------------------------------------------------------------- reordering a profile

  function ProjectID(p: Project): string {
    p.id
  }

  /** The profile's slots hold its projects in the requested order; every other slot is
      untouched. */
  ghost predicate Reordered(before: seq<Project>, profile: string, ids: seq<string>, after: seq<Project>) {
    && SameSlots(before, after, profile)
    && Ordered(ProjectID, OfProfile(before, profile), ids, OfProfile(after, profile))
  }

  lemma {:induction false} OfProfileMembers(list: seq<Project>, profile: string, p: Project)
    ensures p in OfProfile(list, profile) <==> p in list && p.profile == profile
  {
    if list != [] {
      OfProfileMembers(list[..|list| - 1], profile, p);
      assert list == list[..|list| - 1] + [list[|list| - 1]];
    }
  }

  lemma {:induction false} OfProfileDistinct(list: seq<Project>, profile: string)
    requires DistinctBy(ProjectID, list)
    ensures DistinctBy(ProjectID, OfProfile(list, profile))
  {
    if list != [] {
      var n := |list| - 1;
      OfProfileDistinct(list[..n], profile);
      var head := OfProfile(list[..n], profile);
      forall i | 0 <= i < |head| ensures head[i].id != list[n].id {
        OfProfileMembers(list[..n], profile, head[i]);
        assert head[i] in list[..n];
        var j :| 0 <= j < n && list[..n][j] == head[i];
        assert ProjectID(list[j]) != ProjectID(list[n]);
      }
    }
  }

  /** State of the refill: the first `index` slots are done with `next` projects placed. */
  ghost predicate Refilled(before: seq<Project>, profile: string, ordered: seq<Project>, list: seq<Project>, index: nat,
                           next: nat)
  {
    && index <= |before| && next <= |ordered| && |list| == |before|
    && list[index..] == before[index..]
    && SameSlots(before[..index], list[..index], profile)
    && OfProfile(list[..index], profile) == ordered[..next]
    && |OfProfile(before[..index], profile)| == next
  }

  lemma RefillOne(before: seq<Project>, profile: string, ordered: seq<Project>, list: seq<Project>, index: nat,
                  next: nat)
    requires Refilled(before, profile, ordered, list, index, next) && index < |before|
    requires |OfProfile(before, profile)| == |ordered|
    requires forall p :: p in ordered ==> p.profile == profile
    ensures list[index] == before[index]
    ensures before[index].profile == profile ==>
      next < |ordered| && Refilled(before, profile, ordered, list[index := ordered[next]], index + 1, next + 1)
    ensures before[index].profile != profile ==> Refilled(before, profile, ordered, list, index + 1, next)
  {
    hide OfProfile, SameSlots;
    assert list[index] == list[index..][0] == before[index..][0] == before[index];
    assert before == before[..index + 1] + before[index + 1..];
    OfProfileAppend(before[..index + 1], before[index + 1..], profile);
    OfProfileStep(before, index, profile);
    if before[index].profile == profile {
      var after := list[index := ordered[next]];
      OfProfileStep(after, index, profile);
      assert after[..index] == list[..index];
      assert after[index + 1..] == before[index + 1..];
      SlotsGrow(before, list[..index], after, index, profile);
      assert ordered[..next + 1] == ordered[..next] + [ordered[next]];
    } else {
      OfProfileStep(list, index, profile);
      SlotsGrow(before, list[..index], list, index, profile);
      assert list[index + 1..] == before[index + 1..];
      assert ordered[..next] + [] == ordered[..next];
    }
  }

  lemma OfProfileStep(list: seq<Project>, index: nat, profile: string)
    requires index < |list|
    ensures OfProfile(list[..index + 1], profile) == OfProfile(list[..index], profile) + OwnSlot(list[index], profile)
  {
    assert list[..index + 1][..index] == list[..index];
  }

  lemma SlotsGrow(before: seq<Project>, done: seq<Project>, after: seq<Project>, index: nat, profile: string)
    requires index < |before| == |after| && done == after[..index] && SameSlots(before[..index], done, profile)
    requires SameSlot(before[index], after[index], profile)
    ensures SameSlots(before[..index + 1], after[..index + 1], profile)
  {
    var b, a := before[..index + 1], after[..index + 1];
    forall i | 0 <= i < |b| ensures SameSlot(b[i], a[i], profile) {
      if i < index {
        assert SameSlot(before[..index][i], done[i], profile);
      }
    }
  }

  /** A reordering loses and doubles nothing, and the request determines its result. */
  lemma ReorderedMeans(before: seq<Project>, profile: string, ids: seq<string>, a: seq<Project>, b: seq<Project>)
    requires DistinctBy(ProjectID, before) && NamesEach(ProjectID, OfProfile(before, profile), ids)
    requires Reordered(before, profile, ids, a)
    ensures multiset(a) == multiset(before)
    ensures Reordered(before, profile, ids, b) ==> a == b
  {
    OfProfileDistinct(before, profile);
    var members := OfProfile(before, profile);
    hide OfProfile, SameSlots;
    OrderedConserves(ProjectID, members, ids, OfProfile(a, profile));
    SlotsConserve(before, a, profile);
    if Reordered(before, profile, ids, b) {
      OrderedIsUnique(ProjectID, members, ids, OfProfile(a, profile), OfProfile(b, profile));
      SlotsDetermineList(before, a, b, profile);
    }
  }

  lemma OrderedIsUnique<T(!new)>(id: T -> string, members: seq<T>, ids: seq<string>, a: seq<T>, b: seq<T>)
    requires DistinctBy(id, members) && Ordered(id, members, ids, a) && Ordered(id, members, ids, b)
    ensures a == b
  {
    forall k | 0 <= k < |ids| ensures a[k] == b[k] {
      SameIdSameItem(id, members, a[k], b[k]);
    }
  }

  lemma {:induction false} DistinctIsSet<T>(items: seq<T>)
    requires forall i, j :: 0 <= i < j < |items| ==> items[i] != items[j]
    ensures |set x | x in items| == |items|
    ensures multiset(items) == multiset(set x | x in items)
  {
    if items != [] {
      var init, last := items[..|items| - 1], items[|items| - 1];
      assert items == init + [last];
      DistinctIsSet(init);
      assert last !in init;
      assert (set x | x in items) == (set x | x in init) + {last};
    }
  }

  lemma OrderedConserves<T(!new)>(id: T -> string, members: seq<T>, ids: seq<string>, ordered: seq<T>)
    requires DistinctBy(id, members) && NamesEach(id, members, ids) && Ordered(id, members, ids, ordered)
    ensures multiset(ordered) == multiset(members)
  {
    forall i, j | 0 <= i < j < |ordered| ensures ordered[i] != ordered[j] {
      assert ids[i] != ids[j];
    }
    forall i, j | 0 <= i < j < |members| ensures members[i] != members[j] {
      assert id(members[i]) != id(members[j]);
    }
    hide NamesEach, Ordered, DistinctBy;
    var a, b := set x | x in ordered, set x | x in members;
    DistinctIsSet(ordered);
    DistinctIsSet(members);
    assert |ordered| == |members| && a <= b;
    SubsetOfSameSize(a, b);
  }

  lemma SubsetOfSameSize<T>(a: set<T>, b: set<T>)
    requires a <= b && |a| == |b|
    ensures a == b
  {
    if a != b {
      var x :| x in b && x !in a;
      assert a <= b - {x};
      SubsetIsSmaller(a, b - {x});
    }
  }

  lemma SubsetIsSmaller<T>(a: set<T>, b: set<T>)
    requires a <= b
    ensures |a| <= |b|
  {
    assert b == a + (b - a);
  }

  // -------------------------------------------------------------- reordering threads

  function ThreadID(t: Thread): string {
    t.id
  }

  function Keeping(threads: seq<Thread>, settled: bool): seq<Thread> {
    if threads == [] then []
    else
      var last := threads[|threads| - 1];
      Keeping(threads[..|threads| - 1], settled) + if last.settled == settled then [last] else []
  }

  /** Active threads first, then settled ones, each group in the requested order. */
  function ActiveFirst(ordered: seq<Thread>): seq<Thread> {
    Keeping(ordered, false) + Keeping(ordered, true)
  }

  lemma KeepingLast(init: seq<Thread>, last: Thread, settled: bool)
    ensures Keeping(init + [last], settled) == Keeping(init, settled) + if last.settled == settled then [last] else []
  {
    assert (init + [last])[..|init|] == init;
  }

  lemma {:induction false} KeepingConserves(threads: seq<Thread>)
    ensures multiset(Keeping(threads, false)) + multiset(Keeping(threads, true)) == multiset(threads)
  {
    if threads != [] {
      var init, last := threads[..|threads| - 1], threads[|threads| - 1];
      assert threads == init + [last];
      KeepingConserves(init);
      KeepingLast(init, last, false);
      KeepingLast(init, last, true);
      hide Keeping;
      var active, settled := Keeping(init, false), Keeping(init, true);
      calc {
        multiset(threads);
      ==
        multiset(init) + multiset{last};
      ==
        multiset(active) + multiset(settled) + multiset{last};
      }
      if last.settled {
        assert multiset(settled + [last]) == multiset(settled) + multiset{last};
        assert Keeping(threads, false) == active + [] == active;
      } else {
        assert multiset(active + [last]) == multiset(active) + multiset{last};
        assert Keeping(threads, true) == settled + [] == settled;
      }
    }
  }

  lemma {:induction false} KeepingKeeps(threads: seq<Thread>, settled: bool, i: nat)
    requires i < |Keeping(threads, settled)|
    ensures Keeping(threads, settled)[i].settled == settled
  {
    if i < |Keeping(threads[..|threads| - 1], settled)| {
      KeepingKeeps(threads[..|threads| - 1], settled, i);
    }
  }

  /** A later kept thread was later in the request: the partition is stable. */
  lemma {:induction false} KeepingIsStable(threads: seq<Thread>, settled: bool, i: nat, j: nat) returns (k: nat, l: nat)
    requires i < j < |Keeping(threads, settled)|
    ensures k < l < |threads| && threads[k] == Keeping(threads, settled)[i]
         && threads[l] == Keeping(threads, settled)[j]
  {
    var init := threads[..|threads| - 1];
    if j < |Keeping(init, settled)| {
      k, l := KeepingIsStable(init, settled, i, j);
    } else {
      l := |threads| - 1;
      k := KeptFrom(init, settled, i);
    }
  }

  lemma {:induction false} KeptFrom(threads: seq<Thread>, settled: bool, i: nat) returns (k: nat)
    requires i < |Keeping(threads, settled)|
    ensures k < |threads| && threads[k] == Keeping(threads, settled)[i]
  {
    if i < |Keeping(threads[..|threads| - 1], settled)| {
      k := KeptFrom(threads[..|threads| - 1], settled, i);
    } else {
      k := |threads| - 1;
    }
  }

  /** The new order is a permutation of the requested one, every active thread precedes
      every settled one, and neither group is reordered. */
  lemma PartitionIsStable(ordered: seq<Thread>, i: nat, j: nat) returns (k: nat, l: nat)
    requires i < j < |ActiveFirst(ordered)|
    ensures multiset(ActiveFirst(ordered)) == multiset(ordered)
    ensures var r := ActiveFirst(ordered);
      && (r[i].settled ==> r[j].settled)
      && (r[i].settled == r[j].settled ==> k < l < |ordered| && ordered[k] == r[i] && ordered[l] == r[j])
  {
    KeepingConserves(ordered);
    var active, settled := Keeping(ordered, false), Keeping(ordered, true);
    var r := active + settled;
    hide Keeping;
    k, l := 0, 0;
    if j < |active| {
      KeepingKeeps(ordered, false, i);
      KeepingKeeps(ordered, false, j);
      k, l := KeepingIsStable(ordered, false, i, j);
    } else {
      KeepingKeeps(ordered, true, j - |active|);
      if i < |active| {
        KeepingKeeps(ordered, false, i);
      } else {
        KeepingKeeps(ordered, true, i - |active|);
        k, l := KeepingIsStable(ordered, true, i - |active|, j - |active|);
      }
    }
  }

  // ------------------------------------------------------------------ the Store object

  /** The project list of one Store, with the lock held and freshly reloaded. Every
      mutation restores the list it replaced unless the save became visible. */
  class ProjectList {
    var file: seq<Project>
    var projects: seq<Project>

    constructor (file: seq<Project>)
      ensures this.file == file && projects == file
    {
      this.file, projects := file, file;
    }

    /** Saves the list; when nothing was published the previous list comes back. */
    method SaveMutation(previous: seq<Project>, outcome: SaveOutcome)
      modifies this
      ensures file == if outcome.Visible() then old(projects) else old(file)
      ensures projects == if outcome.Visible() then old(projects) else previous
    {
      if outcome.Visible() {
        file := projects;
      } else {
        projects := previous;
      }
    }

    method Add(item: Project, profileExists: bool, outcome: SaveOutcome) returns (error: Option<OrderError>)
      requires projects == file
      modifies this
      ensures projects == file
      ensures error == (if !profileExists then Some(ProfileNotFound)
                        else if exists p ::
                          p in old(projects) && p.path == item.path then Some(AlreadyListed) else None)
      ensures error.Some? || !outcome.Visible() ==> projects == old(projects)
      ensures error.None? && outcome.Visible() ==> AddedFirst(old(projects), item, projects)
    {
      if !profileExists {
        return Some(ProfileNotFound);
      }
      for i := 0 to |projects|
        invariant forall k :: 0 <= k < i ==> projects[k].path != item.path
      {
        if projects[i].path == item.path {
          return Some(AlreadyListed);
        }
      }
      var previous := projects;
      var updated :=
        new Project[|previous| + 1](i requires 0 <= i <= |previous| => if i < |previous| then previous[i] else item);
      assert updated[..] == previous + [item];
      SwapToFront(updated, previous, item);
      projects := updated[..];
      SaveMutation(previous, outcome);
      return None;
    }

    /** The projects of one profile in the requested order, in that profile's slots. */
    method ReorderProjects(profile: string, ids: seq<string>, profileExists: bool, outcome: SaveOutcome)
      returns (error: Option<OrderError>)
      requires projects == file && DistinctBy(ProjectID, projects)
      modifies this
      ensures projects == file
      ensures error == (if !profileExists then Some(ProfileNotFound)
                        else if NamesEach(ProjectID, OfProfile(old(projects), profile), ids) then None
                        else Some(InvalidOrder))
      ensures error.Some? || !outcome.Visible() ==> projects == old(projects)
      ensures error.None? && outcome.Visible() ==> Reordered(old(projects), profile, ids, projects)
    {
      hide Available, Ordered, DistinctBy, NamesEach, Refilled;
      if !profileExists {
        return Some(ProfileNotFound);
      }
      var members := CollectProfile(projects, profile);
      OfProfileDistinct(projects, profile);
      var taken := TakeInOrder(ProjectID, members, ids);
      if taken.None? {
        return Some(InvalidOrder);
      }
      var ordered, previous := taken.value, projects;
      OrderedOfProfile(previous, profile, ids, ordered);
      var nextIndex := 0;
      NothingRefilled(previous, profile, ordered);
      for index := 0 to |projects|
        invariant |projects| == |previous| && file == previous
        invariant Refilled(previous, profile, ordered, projects, index, nextIndex)
      {
        RefillOne(previous, profile, ordered, projects, index, nextIndex);
        if projects[index].profile == profile {
          projects := projects[index := ordered[nextIndex]];
          nextIndex := nextIndex + 1;
        }
      }
      RefillEnds(previous, profile, ids, ordered, projects, nextIndex);
      SaveMutation(previous, outcome);
      return None;
    }

    /** The threads of one project in the requested order, active ones first. */
    method ReorderThreads(projectID: string, ids: seq<string>, outcome: SaveOutcome)
        returns (error: Option<OrderError>, ghost at: nat)
      requires projects == file
      requires forall p :: p in projects ==> DistinctBy(ThreadID, p.threads)
      modifies this
      ensures projects == file
      ensures error == Some(NotFound) <==> at == |old(projects)|
      ensures at <= |old(projects)| && forall k :: 0 <= k < at ==> old(projects)[k].id != projectID
      ensures at < |old(projects)| ==>
        var before := old(projects)[at];
        && before.id == projectID
        && error == (if exists t :: t in before.threads && t.pending then Some(RollbackPending)
                     else if NamesEach(ThreadID, before.threads, ids) then None else Some(InvalidOrder))
        && (error.None? && outcome.Visible() ==> exists ordered ::
              && Ordered(ThreadID, before.threads, ids, ordered)
              && projects == old(projects)[at := before.(threads := ActiveFirst(ordered))])
      ensures error.Some? || !outcome.Visible() ==> projects == old(projects)
    {
      hide Ordered, NamesEach, Keeping;
      for i := 0 to |projects|
        invariant projects == old(projects) && file == old(file)
        invariant forall k :: 0 <= k < i ==> projects[k].id != projectID
      {
        var project := projects[i];
        if project.id != projectID {
          continue;
        }
        at := i;
        var threads := project.threads;
        var anyPending := HasPending(threads);
        if anyPending {
          return Some(RollbackPending), i;
        }
        var taken := TakeInOrder(ThreadID, threads, ids);
        if taken.None? {
          return Some(InvalidOrder), i;
        }
        var ordered := Partition(taken.value);
        var previous := projects;
        projects := projects[i := project.(threads := ordered)];
        SaveMutation(previous, outcome);
        return None, i;
      }
      return Some(NotFound), |projects|;
    }
  }

  method HasPending(threads: seq<Thread>) returns (pending: bool)
    ensures pending <==> exists t :: t in threads && t.pending
  {
    for i := 0 to |threads|
      invariant forall k :: 0 <= k < i ==> !threads[k].pending
    {
      if threads[i].pending {
        return true;
      }
    }
    return false;
  }

  method Partition(ordered: seq<Thread>) returns (r: seq<Thread>)
    ensures r == ActiveFirst(ordered)
  {
    var active, settled := [], [];
    for i := 0 to |ordered|
      invariant active == Keeping(ordered[..i], false) && settled == Keeping(ordered[..i], true)
    {
      assert ordered[..i + 1][..i] == ordered[..i];
      if !ordered[i].settled {
        active := active + [ordered[i]];
      } else {
        settled := settled + [ordered[i]];
      }
    }
    assert ordered[..|ordered|] == ordered;
    return active + settled;
  }

  method CollectProfile(list: seq<Project>, profile: string) returns (members: seq<Project>)
    ensures members == OfProfile(list, profile)
  {
    members := [];
    for i := 0 to |list|
      invariant members == OfProfile(list[..i], profile)
    {
      assert list[..i + 1][..i] == list[..i];
      if list[i].profile == profile {
        members := members + [list[i]];
      }
    }
    assert list[..|list|] == list;
  }

  lemma OrderedOfProfile(list: seq<Project>, profile: string, ids: seq<string>, ordered: seq<Project>)
    requires Ordered(ProjectID, OfProfile(list, profile), ids, ordered)
          && NamesEach(ProjectID, OfProfile(list, profile), ids)
    ensures forall p :: p in ordered ==> p.profile == profile
    ensures |ordered| == |OfProfile(list, profile)|
  {
    forall p | p in ordered ensures p.profile == profile {
      OfProfileMembers(list, profile, p);
    }
  }

  lemma NothingRefilled(before: seq<Project>, profile: string, ordered: seq<Project>)
    ensures Refilled(before, profile, ordered, before, 0, 0)
  {
  }

  lemma RefillEnds(before: seq<Project>, profile: string, ids: seq<string>, ordered: seq<Project>, list: seq<Project>,
                   next: nat)
    requires Refilled(before, profile, ordered, list, |before|, next)
    requires Ordered(ProjectID, OfProfile(before, profile), ids, ordered) && |ordered| == |OfProfile(before, profile)|
    ensures Reordered(before, profile, ids, list)
  {
    assert before[..|before|] == before && list[..|before|] == list && ordered[..|ordered|] == ordered;
  }
}

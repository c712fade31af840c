/** The name lists inside a terminal-stop marker: normalised before they are written and
    checked again when a marker is read. */
module MarkerLists {
  import opened Common

  // ------------------------------------------------------------- the order of strings

  /** Byte-wise lexicographic order. */
  predicate Less(a: string, b: string)
    decreases |a|
  {
    if b == "" then false
    else if a == "" then true
    else if a[0] == b[0] then Less(a[1..], b[1..])
    else a[0] < b[0]
  }

  lemma {:induction false} LessIsTransitive(a: string, b: string, c: string)
    requires Less(a, b) && Less(b, c)
    ensures Less(a, c)
    decreases |a|
  {
    if a != "" && a[0] == b[0] && b[0] == c[0] {
      LessIsTransitive(a[1..], b[1..], c[1..]);
    }
  }

  lemma {:induction false} LessIsTotal(a: string, b: string)
    ensures a == b || Less(a, b) || Less(b, a)
    ensures !(Less(a, b) && Less(b, a)) && !Less(a, a)
    decreases |a|
  {
    if a != "" && b != "" {
      if a[0] == b[0] {
        LessIsTotal(a[1..], b[1..]);
        assert a == [a[0]] + a[1..] && b == [b[0]] + b[1..];
      }
      LessIsTotal(a[1..], a[1..]);
    } else if a != "" {
      LessIsTotal(a[1..], a[1..]);
    }
  }

  ghost predicate Increasing(names: seq<string>) {
    forall i, j :: 0 <= i < j < |names| ==> Less(names[i], names[j])
  }

  ghost predicate SameNames(a: seq<string>, b: seq<string>) {
    forall x :: x in a <==> x in b
  }

  /** A set of names has one increasing listing. */
  lemma {:induction false} IncreasingIsUnique(a: seq<string>, b: seq<string>)
    requires Increasing(a) && Increasing(b) && SameNames(a, b)
    ensures a == b
    decreases |a|
  {
    if a == [] {
      HasFirstName(b);
    } else {
      var m, n := |a| - 1, |b| - 1;
      assert a[m] in b;
      var k :| 0 <= k < |b| && b[k] == a[m];
      LastIsGreatest(a, b, k);
      DropsLast(a);
      DropsLast(b);
      assert b[n] == a[m];
      forall x ensures x in a[..m] <==> x in b[..n] {
        assert x in a <==> x in b;
      }
      IncreasingIsUnique(a[..m], b[..n]);
      assert a == a[..m] + [a[m]] && b == b[..n] + [b[n]];
    }
  }

  lemma HasFirstName(b: seq<string>)
    ensures b != [] ==> exists x :: x in b
  {
    if b != [] {
      assert b[0] in b;
    }
  }

  lemma LastIsGreatest(a: seq<string>, b: seq<string>, k: nat)
    requires Increasing(a) && Increasing(b) && SameNames(a, b) && a != [] && k < |b| && b[k] == a[|a| - 1]
    ensures k == |b| - 1
  {
    if k < |b| - 1 {
      var y := b[|b| - 1];
      assert y in a;
      var i :| 0 <= i < |a| && a[i] == y;
      assert Less(b[k], y);
      LessIsTotal(a[|a| - 1], y);
    }
  }

  lemma DropsLast(a: seq<string>)
    requires Increasing(a) && a != []
    ensures Increasing(a[..|a| - 1])
    ensures forall x :: x in a[..|a| - 1] <==> x in a && x != a[|a| - 1]
  {
    var init, last := a[..|a| - 1], a[|a| - 1];
    assert a == init + [last];
    forall i | 0 <= i < |init| ensures init[i] != last {
      LessIsTotal(init[i], last);
      assert Less(a[i], a[|a| - 1]);
    }
  }

  // ------------------------------------------------------------------------ sorting

  /** One name put in its place. */
  function Insert(names: seq<string>, x: string): seq<string> {
    if names == [] || Less(names[|names| - 1], x) then names + [x]
    else Insert(names[..|names| - 1], x) + [names[|names| - 1]]
  }

  lemma {:induction false} InsertKeepsOrder(names: seq<string>, x: string)
    requires Increasing(names) && x !in names
    ensures Increasing(Insert(names, x))
    ensures forall y :: y in Insert(names, x) <==> y in names || y == x
    ensures |Insert(names, x)| == |names| + 1
  {
    if names != [] {
      var init, last := names[..|names| - 1], names[|names| - 1];
      assert names == init + [last];
      if Less(last, x) {
        forall i | 0 <= i < |names| ensures Less(names[i], x) {
          if i < |names| - 1 {
            LessIsTransitive(names[i], last, x);
          }
        }
      } else {
        DropsLast(names);
        InsertKeepsOrder(init, x);
        LessIsTotal(last, x);
        var r := Insert(init, x);
        forall i | 0 <= i < |r| ensures Less(r[i], last) {
          assert r[i] in r;
          if r[i] != x {
            var j :| 0 <= j < |init| && init[j] == r[i];
            assert names[j] == init[j];
          }
        }
        assert Insert(names, x) == r + [last];
      }
    }
  }

  /** The library sort, described by insertion. */
  function SortStrings(names: seq<string>): seq<string> {
    if names == [] then [] else Insert(SortStrings(names[..|names| - 1]), names[|names| - 1])
  }

  lemma {:induction false} SortedIsIncreasing(names: seq<string>)
    requires NoRepeats(names)
    ensures Increasing(SortStrings(names)) && SameNames(SortStrings(names), names) && |SortStrings(names)| == |names|
  {
    if names != [] {
      var init, last := names[..|names| - 1], names[|names| - 1];
      assert names == init + [last];
      SortedIsIncreasing(init);
      InsertKeepsOrder(SortStrings(init), last);
    }
  }

  predicate NoRepeats(names: seq<string>) {
    forall i, j :: 0 <= i < j < |names| ==> names[i] != names[j]
  }

  // ------------------------------------------------------------------ normalisation

  /** Exactly the given names, each once, in increasing order. */
  ghost predicate Normal(values: seq<string>, names: seq<string>) {
    Increasing(names) && SameNames(names, values)
  }

  /** Drops repetitions and sorts; an empty name is an error. */
  method NormalizeNames(values: seq<string>) returns (r: Option<seq<string>>)
    ensures r.None? <==> "" in values
    ensures r.Some? ==> Normal(values, r.value) && |r.value| <= |values|
    ensures r.Some? ==> (|r.value| == |values| <==> NoRepeats(values))
  {
    var seen, normalized := {}, [];
    for i := 0 to |values|
      invariant "" !in values[..i]
      invariant (forall x :: x in seen <==> x in normalized) && SameNames(normalized, values[..i])
      invariant NoRepeats(normalized) && |normalized| <= i
      invariant |normalized| == i <==> NoRepeats(values[..i])
    {
      var value := values[i];
      assert values[..i + 1] == values[..i] + [value];
      if value == "" {
        assert value in values;
        return None;
      }
      if value in seen {
        var j :| 0 <= j < i && values[..i][j] == value;
        assert values[..i + 1][j] == values[..i + 1][i];
        continue;
      }
      RepeatsExtend(values[..i], value);
      seen, normalized := seen + {value}, normalized + [value];
    }
    assert values[..|values|] == values;
    SortedIsIncreasing(normalized);
    return Some(SortStrings(normalized));
  }

  lemma RepeatsExtend(names: seq<string>, x: string)
    requires x !in names
    ensures NoRepeats(names + [x]) <==> NoRepeats(names)
  {
    var all := names + [x];
    if NoRepeats(all) {
      forall i, j | 0 <= i < j < |names| ensures names[i] != names[j] {
        assert all[i] != all[j];
      }
    }
  }

  /** The check a read marker must pass: normalising changes neither length nor order. */
  method ValidateNames(values: seq<string>) returns (valid: bool)
    ensures valid <==> "" !in values && Increasing(values)
  {
    var normalized := NormalizeNames(values);
    if normalized.None? {
      return false;
    }
    IncreasingHasNoRepeats(values);
    if |normalized.value| != |values| {
      return false;
    }
    for index := 0 to |values|
      invariant normalized.value[..index] == values[..index]
    {
      if normalized.value[index] != values[index] {
        if Increasing(values) {
          IncreasingIsUnique(normalized.value, values);
        }
        return false;
      }
    }
    assert normalized.value[..|values|] == normalized.value && values[..|values|] == values;
    return true;
  }

  lemma IncreasingHasNoRepeats(names: seq<string>)
    ensures Increasing(names) ==> NoRepeats(names)
  {
    if Increasing(names) {
      forall i, j | 0 <= i < j < |names| ensures names[i] != names[j] {
        LessIsTotal(names[i], names[j]);
      }
    }
  }

  /** A marker that was normalised before it was written is accepted when it is read, and
      the normal form of a list depends on nothing but its names. */
  lemma NormalFormIsAccepted(values: seq<string>, names: seq<string>, others: seq<string>, other: seq<string>)
    requires "" !in values && Normal(values, names)
    requires SameNames(values, others) && Normal(others, other)
    ensures "" !in names && Increasing(names) && other == names
  {
    IncreasingIsUnique(names, other);
  }
}

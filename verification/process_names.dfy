/** The search for a process name no existing window uses. */
module ProcessNames {
  import opened Common

  function Digit(n: nat): char
    requires n < 10
  {
    (n as char) + '0'
  }

  /** The decimal numeral that formatting with %d yields. */
  function Decimal(n: nat): string {
    if n < 10 then [Digit(n)] else Decimal(n / 10) + [Digit(n % 10)]
  }

  lemma {:induction false} DecimalIsInjective(m: nat, n: nat)
    requires Decimal(m) == Decimal(n)
    ensures m == n
  {
    var a, b := Decimal(m), Decimal(n);
    assert a[|a| - 1] == b[|b| - 1];
    DecimalIsNonempty(m / 10);
    DecimalIsNonempty(n / 10);
    if m >= 10 && n >= 10 {
      assert a[..|a| - 1] == Decimal(m / 10) && b[..|b| - 1] == Decimal(n / 10);
      DecimalIsInjective(m / 10, n / 10);
    }
  }

  lemma DecimalIsNonempty(n: nat)
    ensures |Decimal(n)| > 0
  {
  }

  /** The k-th name tried: the base name, then the base name with a number from 2 on. */
  function Candidate(base: string, k: nat): string {
    if k <= 1 then base else base + " " + Decimal(k)
  }

  lemma CandidatesDiffer(base: string, j: nat, k: nat)
    requires 1 <= j < k
    ensures Candidate(base, j) != Candidate(base, k)
  {
    DecimalIsNonempty(k);
    if Candidate(base, j) == Candidate(base, k) && j > 1 {
      assert (base + " " + Decimal(j))[|base| + 1..] == Decimal(j);
      assert (base + " " + Decimal(k))[|base| + 1..] == Decimal(k);
      DecimalIsInjective(j, k);
    }
  }

  /** The names tried before the k-th. */
  function Tried(base: string, k: nat): set<string> {
    set j: nat | 1 <= j < k :: Candidate(base, j)
  }

  lemma {:induction false} TriedAreDistinct(base: string, k: nat)
    requires k >= 1
    ensures |Tried(base, k)| == k - 1
  {
    if k == 1 {
      assert Tried(base, 1) == {};
    } else {
      TriedAreDistinct(base, k - 1);
      assert Tried(base, k) == Tried(base, k - 1) + {Candidate(base, k - 1)};
      forall j: nat | 1 <= j < k - 1 ensures Candidate(base, j) != Candidate(base, k - 1) {
        CandidatesDiffer(base, j, k - 1);
      }
    }
  }

  lemma {:induction false} FewNames(names: seq<string>)
    ensures |set name | name in names| <= |names|
  {
    if names != [] {
      var init, last := names[..|names| - 1], names[|names| - 1];
      FewNames(init);
      assert names == init + [last];
      assert (set name | name in names) == (set name | name in init) + {last};
    }
  }

  lemma SubsetIsSmaller<T>(a: set<T>, b: set<T>)
    requires a <= b
    ensures |a| <= |b|
  {
    assert b == a + (b - a);
  }

  /** Pigeonhole: distinct candidates that are all taken cannot outnumber the windows. */
  lemma TakenCandidatesAreFew(existing: seq<string>, base: string, k: nat)
    requires k >= 1 && forall j: nat :: 1 <= j < k ==> Candidate(base, j) in existing
    ensures k - 1 <= |existing|
  {
    TriedAreDistinct(base, k);
    FewNames(existing);
    SubsetIsSmaller(Tried(base, k), set name | name in existing);
  }

  /** Whether any window has the name. */
  method IsTaken(existing: seq<string>, name: string) returns (taken: bool)
    ensures taken <==> name in existing
  {
    for i := 0 to |existing|
      invariant name !in existing[..i]
    {
      if existing[i] == name {
        return true;
      }
    }
    return false;
  }

  /** The name a new window gets. In unique mode the first free candidate, found within
      one try more than there are windows; otherwise the name itself or an error. */
  method FindName(existing: seq<string>, base: string, unique: bool)
      returns (r: Result<string, string>, ghost tries: nat)
    ensures r.Err? <==> !unique && base in existing
    ensures r.Err? ==> r.error == base
    ensures 1 <= tries <= |existing| + 1
    ensures r.Ok? ==>
      && r.value !in existing && r.value == Candidate(base, tries)
      && (forall j: nat :: 1 <= j < tries ==> Candidate(base, j) in existing)
    ensures !unique ==> tries == 1
  {
    var name, suffix := base, 1;
    while true
      invariant suffix >= 1 && name == Candidate(base, suffix)
      invariant forall j: nat :: 1 <= j < suffix ==> Candidate(base, j) in existing
      invariant !unique ==> suffix == 1
      decreases |existing| + 1 - suffix
    {
      TakenCandidatesAreFew(existing, base, suffix);
      var taken := IsTaken(existing, name);
      if !taken {
        return Ok(name), suffix;
      }
      if !unique {
        return Err(name), suffix;
      }
      name := base + " " + Decimal(suffix + 1);
      suffix := suffix + 1;
      TakenCandidatesAreFew(existing, base, suffix);
    }
  }

  /** The contract leaves no choice: the first free candidate is unique. */
  lemma FirstFreeIsUnique(existing: seq<string>, base: string, j: nat, k: nat)
    requires 1 <= j && 1 <= k
    requires Candidate(base, j) !in existing && (forall i: nat :: 1 <= i < j ==> Candidate(base, i) in existing)
    requires Candidate(base, k) !in existing && (forall i: nat :: 1 <= i < k ==> Candidate(base, i) in existing)
    ensures j == k
  {
  }
}

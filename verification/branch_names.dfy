/** Names of worktree branches: the slug of a thread title, Git's rules for branch names
    and the prefix a project or profile may configure. */
module BranchNames {
  import opened Common

  const MAX_SLUG := 40
  const MAX_PREFIX := 100
  const DEFAULT_PREFIX := "kiwi-code/"
  const DEFAULT_TITLE := "New thread"

  // ------------------------------------------------------------------------- slugs

  predicate Alphanumeric(c: char) {
    'a' <= c <= 'z' || '0' <= c <= '9'
  }

  /** The words of a lower-case title joined by dashes, without any limit. */
  function Words(title: string): string {
    if title == "" then ""
    else
      var init, last := title[..|title| - 1], title[|title| - 1];
      if !Alphanumeric(last) then Words(init)
      else if Words(init) != "" && !Alphanumeric(init[|init| - 1]) then Words(init) + "-" + [last]
      else Words(init) + [last]
  }

  /** The first 40 characters, or 41 when the 40th is a dash. */
  function Cut(words: string): string {
    if |words| <= MAX_SLUG then words
    else if words[MAX_SLUG - 1] == '-' then words[..MAX_SLUG + 1]
    else words[..MAX_SLUG]
  }

  function Slug(title: string): string {
    if Words(title) == "" then "thread" else Cut(Words(title))
  }

  /** Only letters, digits and single dashes between them. */
  predicate Dashed(s: string) {
    && (forall i :: 0 <= i < |s| ==> Alphanumeric(s[i]) || s[i] == '-')
    && (s != "" ==> s[0] != '-' && s[|s| - 1] != '-')
    && (forall i :: 0 <= i < |s| - 1 ==> !(s[i] == '-' && s[i + 1] == '-'))
  }

  lemma {:induction false} WordsAreDashed(title: string)
    ensures Dashed(Words(title))
  {
    if title != "" {
      WordsAreDashed(title[..|title| - 1]);
    }
  }

  lemma CutIsDashed(words: string)
    requires Dashed(words)
    ensures Dashed(Cut(words)) && |Cut(words)| <= MAX_SLUG + 1 && (words != "" ==> Cut(words) != "")
  {
    if |words| > MAX_SLUG {
      assert words[MAX_SLUG - 1] == '-' ==> words[MAX_SLUG] != '-';
    }
  }

  /** A slug is nonempty, at most 41 characters long and has no leading, trailing or
      doubled dash. */
  lemma SlugIsDashed(title: string)
    ensures Dashed(Slug(title)) && 0 < |Slug(title)| <= MAX_SLUG + 1
  {
    WordsAreDashed(title);
    CutIsDashed(Words(title));
  }

  lemma {:induction false} DashedWordsAreKept(s: string, n: nat)
    requires Dashed(s) && n <= |s|
    ensures Words(s[..n]) == if n > 0 && s[n - 1] == '-' then s[..n - 1] else s[..n]
  {
    if n > 0 {
      DashedWordsAreKept(s, n - 1);
      assert s[..n][..n - 1] == s[..n - 1];
      assert s[..n] == s[..n - 1] + [s[n - 1]];
      if s[n - 1] == '-' {
        assert s[n - 2] != '-';
      } else if n > 1 && s[n - 2] == '-' {
        assert n > 2 && s[n - 3] != '-';
        assert s[..n - 1] == s[..n - 2] + "-";
      }
    }
  }

  /** Making a slug of a slug changes nothing. */
  lemma SlugIsIdempotent(title: string)
    ensures Slug(Slug(title)) == Slug(title)
  {
    SlugIsDashed(title);
    var s := Slug(title);
    DashedWordsAreKept(s, |s|);
    assert s[..|s|] == s;
    WordsAreDashed(title);
    if |s| == MAX_SLUG + 1 {
      assert s[MAX_SLUG - 1] == '-';
    }
  }

  predicate OneWord(s: string) {
    forall i :: 0 <= i < |s| ==> Alphanumeric(s[i])
  }

  /** Letters and digits without a separator among them are one word, kept as it is. */
  lemma {:induction false} OneWordIsKept(s: string)
    requires OneWord(s)
    ensures Words(s) == s
  {
    if s != "" {
      OneWordIsKept(s[..|s| - 1]);
      assert s == s[..|s| - 1] + [s[|s| - 1]];
    }
  }

  function Joined(a: string, b: string): string {
    if a == "" || b == "" then a + b else a + "-" + b
  }

  /** Every other character separates: the words on its two sides are joined by one dash, if
      there are any on both. With the lemma above this determines the words of every title. */
  lemma {:induction false} SeparatorSplits(left: string, c: char, right: string)
    requires !Alphanumeric(c)
    ensures Words(left + [c] + right) == Joined(Words(left), Words(right))
  {
    hide Joined, Words;
    var all := left + [c] + right;
    JoinedGrows(Words(left), "", c);
    if right == "" {
      assert all == left + [c];
      WordsStep(left, c);
      NoWords();
    } else {
      var init, last := right[..|right| - 1], right[|right| - 1];
      var middle := left + [c] + init;
      assert all == middle + [last] && right == init + [last];
      SeparatorSplits(left, c, init);
      WordsStep(middle, last);
      WordsStep(init, last);
      assert middle[|middle| - 1] == if init == "" then c else init[|init| - 1];
      JoinedGrows(Words(left), Words(init), last);
      NoWordsYet(init);
      NoWords();
      assert "" + [last] == [last];
    }
  }

  lemma NoWords()
    ensures Words("") == ""
  {
  }

  lemma WordsStep(init: string, c: char)
    ensures Words(init + [c]) ==
      if !Alphanumeric(c) then Words(init)
      else if Words(init) != "" && !Alphanumeric(init[|init| - 1]) then Words(init) + "-" + [c]
      else Words(init) + [c]
    ensures Words(init) != "" ==> init != ""
  {
    assert (init + [c])[..|init|] == init;
  }

  lemma JoinedGrows(a: string, b: string, c: char)
    ensures b != "" ==> Joined(a, b + [c]) == Joined(a, b) + [c] && Joined(a, b + "-" + [c]) == Joined(a, b) + "-" + [c]
    ensures Joined(a, [c]) == (if a == "" then [c] else a + "-" + [c])
    ensures Joined(a, "") == a
    ensures b != "" ==> Joined(a, b) != ""
  {
    assert a + "-" + (b + [c]) == a + "-" + b + [c];
    assert a + "-" + (b + "-" + [c]) == a + "-" + b + "-" + [c];
    assert a + (b + [c]) == a + b + [c] && a + (b + "-" + [c]) == a + b + "-" + [c];
    assert a + [c] == (if a == "" then [c] else a + [c]);
    assert a + "" == a && "" + b == b;
  }

  lemma NoWordsYet(s: string)
    ensures Words(s) == "" && s != "" ==> !Alphanumeric(s[|s| - 1])
  {
  }

  /** A slug is the words of the title, cut after 40 characters, or after the 41st when the
      40th is a dash; a title without words is named thread. */
  lemma SlugKeepsWords(title: string)
    ensures Words(title) == "" ==> Slug(title) == "thread"
    ensures Words(title) != "" ==> Slug(title) <= Words(title)
    ensures 0 < |Words(title)| <= MAX_SLUG ==> Slug(title) == Words(title)
    ensures |Words(title)| > MAX_SLUG ==>
      |Slug(title)| == MAX_SLUG + if Words(title)[MAX_SLUG - 1] == '-' then 1 else 0
  {
    WordsAreDashed(title);
  }

  function LowerASCII(c: char): char {
    if 'A' <= c <= 'Z' then (c as int - 'A' as int + 'a' as int) as char else c
  }

  function Mapped(s: string, f: char -> char): string {
    seq(|s|, i requires 0 <= i < |s| => f(s[i]))
  }

  predicate ASCII(s: string) {
    forall i :: 0 <= i < |s| ==> s[i] as int < 128
  }

  /** What Unicode lower-casing does to ASCII text; on other text it may do anything. */
  ghost predicate LowersASCII(lower: string -> string) {
    forall s :: ASCII(s) ==> lower(s) == Mapped(s, LowerASCII)
  }

  /** Lower-casing fixes every text that holds only what a slug can hold. */
  lemma LoweringFixesSlugs(lower: string -> string, s: string)
    requires LowersASCII(lower) && Dashed(s)
    ensures lower(s) == s
  {
    assert ASCII(s);
    assert Mapped(s, LowerASCII) == s;
  }

  /** Naming a branch after a slug gives that slug again, lower-casing included. */
  lemma NamingIsIdempotent(title: string, lower: string -> string)
    requires LowersASCII(lower)
    ensures Slug(lower(Slug(lower(title)))) == Slug(lower(title))
  {
    hide Slug, Dashed, LowersASCII;
    SlugIsDashed(lower(title));
    SlugIsIdempotent(lower(title));
    LoweringFixesSlugs(lower, Slug(lower(title)));
  }

  lemma WordsExtend(title: string, c: char)
    ensures Words(title) <= Words(title + [c])
    ensures |Words(title + [c])| <= |Words(title)| + 2
    ensures Alphanumeric(c) <==> Words(title + [c]) != Words(title)
  {
    assert (title + [c])[..|title|] == title;
  }

  lemma {:induction false} WordsGrow(title: string, n: nat)
    requires n <= |title|
    ensures Words(title[..n]) <= Words(title)
    decreases |title| - n
  {
    if n < |title| {
      assert title[..n + 1] == title[..n] + [title[n]];
      WordsExtend(title[..n], title[n]);
      WordsGrow(title, n + 1);
    } else {
      assert title[..n] == title;
    }
  }

  /** The first prefix whose words reach the limit already holds the whole slug. */
  lemma LimitReached(title: string, n: nat)
    requires n < |title| && |Words(title[..n])| < MAX_SLUG <= |Words(title[..n + 1])|
    ensures Cut(Words(title)) == Words(title[..n + 1])
  {
    WordsGrow(title, n + 1);
    assert title[..n + 1] == title[..n] + [title[n]];
    WordsExtend(title[..n], title[n]);
    WordsAreDashed(title);
    WordsAreDashed(title[..n + 1]);
    var w, all := Words(title[..n + 1]), Words(title);
    assert all[..|w|] == w;
    if |w| == MAX_SLUG + 1 {
      assert (title[..n + 1])[..n] == title[..n];
      assert w[MAX_SLUG - 1] == '-';
      assert all[MAX_SLUG - 1] == '-';
    } else {
      assert w[MAX_SLUG - 1] != '-' && all[MAX_SLUG - 1] == w[MAX_SLUG - 1];
    }
  }

  /** Removes dashes at both ends. */
  function TrimDashes(s: string): string
    decreases |s|
  {
    if s == "" then ""
    else if s[0] == '-' then TrimDashes(s[1..])
    else if s[|s| - 1] == '-' then TrimDashes(s[..|s| - 1])
    else s
  }

  /** The slug loop: it stops as soon as 40 characters are written. `lower` stands for
      Unicode lower-casing of the whole title. */
  method BranchSlug(value: string, lower: string -> string) returns (slug: string)
    ensures slug == Slug(lower(value))
  {
    var title := lower(value);
    var result, separator := "", false;
    var i := 0;
    assert title[..0] == "";
    while i < |title|
      invariant i <= |title| && result == Words(title[..i]) && |result| < MAX_SLUG
      invariant separator <==> i > 0 && !Alphanumeric(title[i - 1])
    {
      var character := title[i];
      assert title[..i + 1][..i] == title[..i];
      if Alphanumeric(character) {
        if separator && |result| > 0 {
          result := result + "-";
        }
        result := result + [character];
        separator := false;
        if |result| >= MAX_SLUG {
          LimitReached(title, i);
          break;
        }
      } else {
        separator := true;
      }
      i := i + 1;
    }
    assert i == |title| ==> title[..i] == title;
    WordsAreDashed(title[..if i < |title| then i + 1 else i]);
    slug := TrimDashes(result);
    if slug == "" {
      slug := "thread";
    }
  }

  // ------------------------------------------------------------- valid branch names

  predicate HasPrefix(s: string, p: string) {
    p <= s
  }

  predicate HasSuffix(s: string, p: string) {
    |p| <= |s| && s[|s| - |p|..] == p
  }

  predicate OccursAt(s: string, p: string, i: nat) {
    i + |p| <= |s| && s[i..i + |p|] == p
  }

  predicate Contains(s: string, p: string) {
    exists i :: 0 <= i <= |s| && OccursAt(s, p, i)
  }

  /** The parts between slashes; at least one. */
  function Components(name: string): (parts: seq<string>)
    ensures |parts| > 0
  {
    if name == "" then [""]
    else
      var parts, last := Components(name[..|name| - 1]), name[|name| - 1];
      if last == '/' then parts + [""] else parts[..|parts| - 1] + [parts[|parts| - 1] + [last]]
  }

  predicate ForbiddenCharacter(c: char) {
    c <= ' ' || c == 0x7f as char || c in "~^:?*[\\"
  }

  predicate BadComponent(part: string) {
    part == "" || HasPrefix(part, ".") || HasSuffix(part, ".lock")
  }

  predicate ValidGitBranchName(name: string) {
    && name != "" && name != "@" && !HasPrefix(name, "-") && !HasPrefix(name, "/")
    && !HasSuffix(name, "/") && !HasSuffix(name, ".")
    && !Contains(name, "//") && !Contains(name, "..") && !Contains(name, "@{")
    && GoodComponents(Components(name)) && GoodCharacters(name)
  }

  predicate GoodComponents(parts: seq<string>) {
    forall k :: 0 <= k < |parts| ==> !BadComponent(parts[k])
  }

  predicate GoodCharacters(name: string) {
    forall i :: 0 <= i < |name| ==> !ForbiddenCharacter(name[i])
  }

  /** Is there an empty part between slashes, or at an end? */
  predicate HasEmptyPart(name: string) {
    name == "" || HasPrefix(name, "/") || HasSuffix(name, "/") || Contains(name, "//")
  }

  lemma LastCharacter(init: string, c: char)
    ensures HasSuffix(init + [c], "/") <==> c == '/'
    ensures HasPrefix(init + [c], "/") <==> (if init == "" then c == '/' else HasPrefix(init, "/"))
  {
    var name := init + [c];
    assert name[|name| - 1..] == [c];
    assert init != "" ==> name[0] == init[0];
  }

  lemma DoubleSlash(init: string, c: char)
    ensures Contains(init + [c], "//") <==> Contains(init, "//") || (c == '/' && HasSuffix(init, "/"))
  {
    var name := init + [c];
    if Contains(init, "//") {
      var i :| 0 <= i <= |init| && OccursAt(init, "//", i);
      assert name[i..i + 2] == init[i..i + 2];
      assert OccursAt(name, "//", i);
    }
    if c == '/' && HasSuffix(init, "/") {
      assert init[|init| - 1..][0] == init[|init| - 1];
      assert name[|init| - 1..|init| + 1] == "//";
      assert OccursAt(name, "//", |init| - 1);
    }
    if Contains(name, "//") {
      var i :| 0 <= i <= |name| && OccursAt(name, "//", i);
      PairAt(name, "//", i);
      if i + 2 <= |init| {
        assert init[i..i + 2] == name[i..i + 2];
        assert OccursAt(init, "//", i);
      } else {
        assert init[|init| - 1..] == "/";
      }
    }
  }

  /** The last part is empty exactly at the start and behind a slash. */
  lemma LastPart(name: string)
    ensures Components(name)[|Components(name)| - 1] == "" <==> name == "" || HasSuffix(name, "/")
  {
    if name != "" {
      var init, c := name[..|name| - 1], name[|name| - 1];
      assert name == init + [c];
      LastCharacter(init, c);
    }
  }

  /** Splitting at slashes gives an empty part before the last exactly if the name starts
      with a slash or has two in a row. */
  lemma {:induction false} EmptyParts(name: string)
    ensures "" in Components(name)[..|Components(name)| - 1] <==> HasPrefix(name, "/") || Contains(name, "//")
  {
    if name == "" {
      assert !Contains("", "//");
    } else {
      var init, c := name[..|name| - 1], name[|name| - 1];
      assert name == init + [c];
      EmptyParts(init);
      LastPart(init);
      LastCharacter(init, c);
      DoubleSlash(init, c);
      var parts := Components(init);
      hide Contains, HasSuffix, HasPrefix;
      if c == '/' {
        assert (parts + [""])[..|parts|] == parts;
        assert parts == parts[..|parts| - 1] + [parts[|parts| - 1]];
      } else {
        assert (parts[..|parts| - 1] + [parts[|parts| - 1] + [c]])[..|parts| - 1] == parts[..|parts| - 1];
      }
    }
  }

  /** The tests for slashes are exactly the test for an empty part. */
  lemma EmptyPartExactly(name: string)
    ensures "" in Components(name) <==> HasEmptyPart(name)
  {
    EmptyParts(name);
    LastPart(name);
    var parts := Components(name);
    assert parts == parts[..|parts| - 1] + [parts[|parts| - 1]];
  }

  /** Git's rules, part by part: a name is valid exactly when it is not a lone @, does not
      start with a dash or end with a dot, has no two dots and no @{ in a row and no forbidden
      character, and each part between slashes is nonempty, does not start with a dot and
      does not end with .lock. */
  lemma ValidPartByPart(name: string)
    ensures ValidGitBranchName(name) <==>
      && name != "@" && !("-" <= name) && (name != "" ==> name[|name| - 1] != '.')
      && (forall i :: 0 <= i < |name| - 1 ==> !(name[i] == '.' && name[i + 1] == '.'))
      && (forall i :: 0 <= i < |name| - 1 ==> !(name[i] == '@' && name[i + 1] == '{'))
      && (forall c :: c in name ==> c > ' ' && c != 0x7f as char && c !in {'~', '^', ':', '?', '*', '[', '\\'})
      && (forall part :: part in Components(name) ==>
            part != "" && part[0] != '.' && !(|part| >= 5 && part[|part| - 5..] == ".lock"))
  {
    hide Contains, Components, GoodComponents, GoodCharacters, HasSuffix;
    EmptyPartExactly(name);
    PairsExactly(name, "..");
    PairsExactly(name, "@{");
    PartsExactly(Components(name));
    CharactersExactly(name);
    DotSuffix(name);
  }

  lemma DotSuffix(name: string)
    ensures HasSuffix(name, ".") <==> name != "" && name[|name| - 1] == '.'
  {
    if name != "" {
      assert name[|name| - 1..] == [name[|name| - 1]];
    }
  }

  lemma PairsExactly(name: string, pair: string)
    requires |pair| == 2
    ensures Contains(name, pair) <==> exists i :: 0 <= i < |name| - 1 && name[i] == pair[0] && name[i + 1] == pair[1]
  {
    if Contains(name, pair) {
      var i :| 0 <= i <= |name| && OccursAt(name, pair, i);
      PairAt(name, pair, i);
    }
    if i :| 0 <= i < |name| - 1 && name[i] == pair[0] && name[i + 1] == pair[1] {
      assert name[i..i + 2] == pair;
      assert OccursAt(name, pair, i);
    }
  }

  lemma PartsExactly(parts: seq<string>)
    ensures GoodComponents(parts) <==>
      forall part :: part in parts ==> part != "" && part[0] != '.' && !(|part| >= 5 && part[|part| - 5..] == ".lock")
  {
    forall part: string ensures BadComponent(part) <==>
        part == "" || part[0] == '.' || (|part| >= 5 && part[|part| - 5..] == ".lock") {
    }
    hide BadComponent;
  }

  lemma CharactersExactly(name: string)
    ensures GoodCharacters(name) <==>
      forall c :: c in name ==> c > ' ' && c != 0x7f as char && c !in {'~', '^', ':', '?', '*', '[', '\\'}
  {
    forall c: char ensures ForbiddenCharacter(c) <==>
        !(c > ' ' && c != 0x7f as char && c !in {'~', '^', ':', '?', '*', '[', '\\'}) {
    }
    forall i | 0 <= i < |name| ensures name[i] in name {
    }
    assert (forall c :: c in name ==> !ForbiddenCharacter(c)) <==> GoodCharacters(name);
    hide ForbiddenCharacter;
  }

  /** A tail that starts and ends with a letter or digit and has only dashes besides. */
  predicate SafeTail(s: string) {
    && |s| >= 5 && Alphanumeric(s[0]) && Alphanumeric(s[|s| - 1])
    && (forall i :: 0 <= i < |s| ==> Alphanumeric(s[i]) || s[i] == '-')
  }

  /** The last part grows by `tail`, the others stay. */
  function Grown(parts: seq<string>, tail: string): seq<string>
    requires |parts| > 0
  {
    parts[..|parts| - 1] + [parts[|parts| - 1] + tail]
  }

  lemma ComponentsStep(name: string, c: char)
    requires c != '/'
    ensures Components(name + [c]) == Grown(Components(name), [c])
  {
    assert (name + [c])[..|name|] == name;
  }

  lemma GrownTwice(parts: seq<string>, a: string, b: string)
    requires |parts| > 0
    ensures Grown(Grown(parts, a), b) == Grown(parts, a + b) && Grown(parts, "") == parts
  {
    assert parts[|parts| - 1] + a + b == parts[|parts| - 1] + (a + b);
    assert parts[|parts| - 1] + "" == parts[|parts| - 1];
  }

  lemma {:induction false} ComponentsOfTail(prefix: string, tail: string, n: nat)
    requires n <= |tail| && forall i :: 0 <= i < |tail| ==> tail[i] != '/'
    ensures Components(prefix + tail[..n]) == Grown(Components(prefix), tail[..n])
  {
    hide Components, Grown;
    GrownTwice(Components(prefix), "", "");
    if n == 0 {
      assert prefix + tail[..0] == prefix && tail[..0] == "";
    } else {
      ComponentsOfTail(prefix, tail, n - 1);
      assert prefix + tail[..n] == (prefix + tail[..n - 1]) + [tail[n - 1]];
      assert tail[..n] == tail[..n - 1] + [tail[n - 1]];
      ComponentsStep(prefix + tail[..n - 1], tail[n - 1]);
      GrownTwice(Components(prefix), tail[..n - 1], [tail[n - 1]]);
    }
  }

  /** Whether an unwanted pair of characters occurs depends on the prefix alone, provided
      its second character cannot occur in the tail. */
  lemma PairsInPrefix(prefix: string, tail: string, pair: string)
    requires |pair| == 2 && forall i :: 0 <= i < |tail| ==> tail[i] != pair[1]
    ensures Contains(prefix + tail, pair) <==> Contains(prefix, pair)
  {
    var s := prefix + tail;
    if Contains(prefix, pair) {
      var i :| 0 <= i <= |prefix| && OccursAt(prefix, pair, i);
      assert s[i..i + 2] == prefix[i..i + 2];
      assert OccursAt(s, pair, i);
    }
    if Contains(s, pair) {
      var i :| 0 <= i <= |s| && OccursAt(s, pair, i);
      assert s[i..i + 2][1] == s[i + 1] == pair[1];
      assert i + 1 < |prefix|;
      assert prefix[i..i + 2] == s[i..i + 2];
      assert OccursAt(prefix, pair, i);
    }
  }

  lemma LockSuffixHasDot(s: string)
    ensures HasSuffix(s, ".lock") ==> |s| >= 5 && s[|s| - 5] == '.'
  {
    if HasSuffix(s, ".lock") {
      assert s[|s| - 5..][0] == s[|s| - 5];
    }
  }

  lemma LockSuffixInTail(head: string, tail: string)
    requires SafeTail(tail)
    ensures !HasSuffix(head + tail, ".lock")
  {
    var s := head + tail;
    LockSuffixHasDot(s);
    assert s[|s| - 5] == tail[|tail| - 5];
  }

  /** What makes a prefix usable, without reference to any particular tail. */
  predicate UsablePrefix(prefix: string) {
    && !HasPrefix(prefix, "-") && !HasPrefix(prefix, "/")
    && !Contains(prefix, "//") && !Contains(prefix, "..") && !Contains(prefix, "@{")
    && GoodCharacters(prefix) && OpenComponents(Components(prefix))
  }

  /** All parts are good but the last, which still lacks its tail. */
  predicate OpenComponents(parts: seq<string>)
    requires |parts| > 0
  {
    !HasPrefix(parts[|parts| - 1], ".") && GoodComponents(parts[..|parts| - 1])
  }

  lemma EndsSafely(prefix: string, tail: string)
    requires SafeTail(tail)
    ensures var name := prefix + tail;
      && name != "" && name != "@" && !HasSuffix(name, "/") && !HasSuffix(name, ".")
      && (HasPrefix(name, "-") <==> HasPrefix(prefix, "-")) && (HasPrefix(name, "/") <==> HasPrefix(prefix, "/"))
  {
    var name := prefix + tail;
    assert name[|name| - 1] == tail[|tail| - 1];
    assert name[|name| - 1..] == [tail[|tail| - 1]];
    assert prefix != "" ==> name[0] == prefix[0];
    assert prefix == "" ==> name[0] == tail[0];
  }

  lemma CharactersOfTail(prefix: string, tail: string)
    requires SafeTail(tail)
    ensures GoodCharacters(prefix + tail) <==> GoodCharacters(prefix)
  {
    var name := prefix + tail;
    forall i | 0 <= i < |prefix| ensures name[i] == prefix[i] {
    }
    forall i | |prefix| <= i < |name| ensures !ForbiddenCharacter(name[i]) {
      assert name[i] == tail[i - |prefix|];
    }
  }

  lemma LastComponent(last: string, tail: string)
    requires SafeTail(tail)
    ensures BadComponent(last + tail) <==> HasPrefix(last, ".")
  {
    LockSuffixInTail(last, tail);
    assert (last + tail)[0] == if last == "" then tail[0] else last[0];
  }

  lemma GoodComponentsAppend(parts: seq<string>, last: string)
    ensures GoodComponents(parts + [last]) <==> GoodComponents(parts) && !BadComponent(last)
  {
    hide BadComponent;
    assert (parts + [last])[|parts|] == last;
    assert forall k :: 0 <= k < |parts| ==> (parts + [last])[k] == parts[k];
  }

  lemma ComponentsAreGood(prefix: string, tail: string)
    requires SafeTail(tail)
    ensures GoodComponents(Components(prefix + tail)) <==> OpenComponents(Components(prefix))
  {
    var c := Components(prefix);
    ComponentsOfTail(prefix, tail, |tail|);
    assert tail[..|tail|] == tail;
    LastComponent(c[|c| - 1], tail);
    GoodComponentsAppend(c[..|c| - 1], c[|c| - 1] + tail);
    hide BadComponent, Components, GoodComponents, HasPrefix;
  }

  /** A name made of a prefix and a safe tail is valid exactly when the prefix is usable,
      so one tail is as good as any other for deciding it. */
  lemma TailDoesNotMatter(prefix: string, tail: string)
    requires SafeTail(tail)
    ensures ValidGitBranchName(prefix + tail) <==> UsablePrefix(prefix)
  {
    hide HasPrefix, HasSuffix, Contains, Components, GoodComponents, GoodCharacters, OpenComponents;
    EndsSafely(prefix, tail);
    PairsInPrefix(prefix, tail, "//");
    PairsInPrefix(prefix, tail, "..");
    PairsInPrefix(prefix, tail, "@{");
    CharactersOfTail(prefix, tail);
    ComponentsAreGood(prefix, tail);
  }

  // ---------------------------------------------------------- prefixes and branches

  function TrimSpace(s: string, space: char -> bool): string
    decreases |s|
  {
    if s == "" then ""
    else if space(s[0]) then TrimSpace(s[1..], space)
    else if space(s[|s| - 1]) then TrimSpace(s[..|s| - 1], space)
    else s
  }

  datatype PrefixError = Required | TooLong | Unusable

  /** `space` says which characters count as white space. */
  function NormalizeWorktreeBranchPrefix(value: string, space: char -> bool): Result<string, PrefixError> {
    var prefix := TrimSpace(value, space);
    if prefix == "" then Err(Required)
    else if |prefix| > MAX_PREFIX then Err(TooLong)
    else if !ValidGitBranchName(prefix + "thread-12345678") then Err(Unusable)
    else Ok(prefix)
  }

  lemma {:induction false} TrimmedStays(s: string, space: char -> bool)
    ensures TrimSpace(TrimSpace(s, space), space) == TrimSpace(s, space)
    decreases |s|
  {
    if s != "" {
      if space(s[0]) {
        TrimmedStays(s[1..], space);
      } else if space(s[|s| - 1]) {
        TrimmedStays(s[..|s| - 1], space);
      }
    }
  }

  /** An accepted prefix is accepted again unchanged. */
  lemma NormalizationIsStable(value: string, space: char -> bool)
    requires NormalizeWorktreeBranchPrefix(value, space).Ok?
    ensures var p := NormalizeWorktreeBranchPrefix(value, space).value;
      NormalizeWorktreeBranchPrefix(p, space) == Ok(p) && 0 < |p| <= MAX_PREFIX
  {
    TrimmedStays(value, space);
    hide ValidGitBranchName;
  }

  predicate AllSpace(s: string, space: char -> bool) {
    forall i :: 0 <= i < |s| ==> space(s[i])
  }

  /** Trimming takes white space off both ends and nothing else. */
  lemma {:induction false} TrimSpaceMeans(s: string, space: char -> bool) returns (before: string, after: string)
    ensures s == before + TrimSpace(s, space) + after
    ensures AllSpace(before, space) && AllSpace(after, space)
    ensures var t := TrimSpace(s, space); t != "" ==> !space(t[0]) && !space(t[|t| - 1])
    decreases |s|
  {
    hide AllSpace, TrimSpace;
    NoSpace(space);
    before, after := "", "";
    if s == "" {
      TrimEmpty(space);
    } else if space(s[0]) {
      before, after := TrimSpaceMeans(s[1..], space);
      TrimFirst(s, space);
      BothEnds(s);
      SpaceGrows(s[0], before, space);
      FourParts([s[0]], before, TrimSpace(s, space), after);
      before := [s[0]] + before;
    } else if space(s[|s| - 1]) {
      before, after := TrimSpaceMeans(s[..|s| - 1], space);
      TrimLast(s, space);
      BothEnds(s);
      SpaceGrows(s[|s| - 1], after, space);
      FourParts(before, TrimSpace(s, space), after, [s[|s| - 1]]);
      after := after + [s[|s| - 1]];
    } else {
      TrimNothing(s, space);
      assert s == "" + s + "";
    }
  }

  lemma TrimEmpty(space: char -> bool)
    ensures TrimSpace("", space) == ""
  {
  }

  lemma TrimFirst(s: string, space: char -> bool)
    requires s != "" && space(s[0])
    ensures TrimSpace(s, space) == TrimSpace(s[1..], space)
  {
  }

  lemma TrimLast(s: string, space: char -> bool)
    requires s != "" && !space(s[0]) && space(s[|s| - 1])
    ensures TrimSpace(s, space) == TrimSpace(s[..|s| - 1], space)
  {
  }

  lemma TrimNothing(s: string, space: char -> bool)
    requires s != "" && !space(s[0]) && !space(s[|s| - 1])
    ensures TrimSpace(s, space) == s
  {
  }

  lemma BothEnds(s: string)
    requires s != ""
    ensures s == [s[0]] + s[1..] && s == s[..|s| - 1] + [s[|s| - 1]]
  {
  }

  lemma FourParts(a: string, b: string, c: string, d: string)
    ensures a + (b + c + d) == a + b + c + d && a + b + c + d == a + b + (c + d)
  {
  }

  lemma NoSpace(space: char -> bool)
    ensures AllSpace("", space)
  {
  }

  lemma SpaceGrows(c: char, s: string, space: char -> bool)
    requires space(c) && AllSpace(s, space)
    ensures AllSpace([c] + s, space) && AllSpace(s + [c], space)
  {
  }

  /** A configured prefix is accepted exactly when, trimmed, it is nonempty, at most 100
      characters long and usable; it is stored trimmed. */
  lemma PrefixAcceptedExactly(value: string, space: char -> bool)
    ensures var prefix, r := TrimSpace(value, space), NormalizeWorktreeBranchPrefix(value, space);
      && (r.Ok? <==> 0 < |prefix| <= MAX_PREFIX && UsablePrefix(prefix))
      && (r.Ok? ==> r.value == prefix)
      && (r == Err(Required) <==> prefix == "") && (r == Err(TooLong) <==> |prefix| > MAX_PREFIX)
  {
    hide UsablePrefix, ValidGitBranchName, TrimSpace;
    assert SafeTail("thread-12345678");
    TailDoesNotMatter(TrimSpace(value, space), "thread-12345678");
  }

  function ShortThreadID(id: string): string {
    if |id| > 8 then id[..8] else id
  }

  function NamedWorktreeBranch(prefix: string, title: string, id: string): string {
    prefix + Slug(title) + "-" + ShortThreadID(id)
  }

  function InitialWorktreeBranch(prefix: string, title: string, lower: string -> string, id: string): string {
    if title == DEFAULT_TITLE then prefix + "thread-" + ShortThreadID(id)
    else NamedWorktreeBranch(prefix, lower(title), id)
  }

  predicate ThreadID(id: string) {
    |id| == 16 && forall i :: 0 <= i < 16 ==> '0' <= id[i] <= '9' || 'a' <= id[i] <= 'f'
  }

  lemma TailIsSafe(slug: string, id: string)
    requires slug != "" && Dashed(slug) && ThreadID(id)
    ensures SafeTail(slug + "-" + ShortThreadID(id))
  {
    var tail := slug + "-" + ShortThreadID(id);
    assert tail[0] == slug[0];
    assert tail[|tail| - 1] == id[7];
    forall i | 0 <= i < |tail| ensures Alphanumeric(tail[i]) || tail[i] == '-' {
      if i > |slug| {
        assert tail[i] == id[i - |slug| - 1];
      }
    }
  }

  lemma AcceptedIsUsable(value: string, space: char -> bool)
    requires NormalizeWorktreeBranchPrefix(value, space).Ok?
    ensures UsablePrefix(NormalizeWorktreeBranchPrefix(value, space).value)
  {
    hide UsablePrefix, ValidGitBranchName, TrimSpace;
    assert SafeTail("thread-12345678");
    TailDoesNotMatter(NormalizeWorktreeBranchPrefix(value, space).value, "thread-12345678");
  }

  /** Every branch the Store generates is valid: for any accepted prefix, any title and
      any thread id, the initial and the named branch pass Git's rules. */
  lemma GeneratedBranchesAreValid(value: string, space: char -> bool, title: string, lower: string -> string,
                                  id: string)
    requires NormalizeWorktreeBranchPrefix(value, space).Ok? && ThreadID(id)
    ensures var prefix := NormalizeWorktreeBranchPrefix(value, space).value;
      && ValidGitBranchName(NamedWorktreeBranch(prefix, title, id))
      && ValidGitBranchName(InitialWorktreeBranch(prefix, title, lower, id))
  {
    hide UsablePrefix, ValidGitBranchName, NormalizeWorktreeBranchPrefix, NamedWorktreeBranch, ThreadID;
    var prefix := NormalizeWorktreeBranchPrefix(value, space).value;
    AcceptedIsUsable(value, space);
    UsablePrefixNames(prefix, title, id);
    UsablePrefixNames(prefix, lower(title), id);
  }

  lemma UsablePrefixNames(prefix: string, title: string, id: string)
    requires UsablePrefix(prefix) && ThreadID(id)
    ensures ValidGitBranchName(NamedWorktreeBranch(prefix, title, id))
    ensures ValidGitBranchName(prefix + "thread-" + ShortThreadID(id))
  {
    hide UsablePrefix, ValidGitBranchName, Slug, SafeTail;
    SlugIsDashed(title);
    var tail := Slug(title) + "-" + ShortThreadID(id);
    TailIsSafe(Slug(title), id);
    TailDoesNotMatter(prefix, tail);
    assert prefix + tail == NamedWorktreeBranch(prefix, title, id);
    assert Dashed("thread");
    var plain := "thread" + "-" + ShortThreadID(id);
    TailIsSafe("thread", id);
    TailDoesNotMatter(prefix, plain);
    assert prefix + plain == prefix + "thread-" + ShortThreadID(id);
  }

  /** A branch starts with the prefix and ends with a dash and the first eight characters of
      the thread's id, so threads whose ids differ there never share a branch. A thread with
      a title of its own carries the slug of that title in between. */
  lemma BranchNamesItsThread(prefix: string, title: string, lower: string -> string, id: string,
                             other: string, otherID: string)
    requires ThreadID(id) && ThreadID(otherID)
    ensures var branch := InitialWorktreeBranch(prefix, title, lower, id);
      && prefix <= branch && |branch| >= |prefix| + 9 && branch[|branch| - 9..] == "-" + id[..8]
      && (title != DEFAULT_TITLE ==> branch == NamedWorktreeBranch(prefix, lower(title), id))
    ensures var named := NamedWorktreeBranch(prefix, title, id);
      && prefix + Slug(title) <= named && named[|prefix + Slug(title)|..] == "-" + id[..8]
    ensures InitialWorktreeBranch(prefix, title, lower, id) == InitialWorktreeBranch(prefix, other, lower, otherID) ==>
      id[..8] == otherID[..8]
  {
    hide Slug;
    BranchEnds(prefix, title, lower, id);
    BranchEnds(prefix, other, lower, otherID);
    hide InitialWorktreeBranch;
    assert ("-" + id[..8])[1..] == id[..8] && ("-" + otherID[..8])[1..] == otherID[..8];
  }

  lemma BranchEnds(prefix: string, title: string, lower: string -> string, id: string)
    requires ThreadID(id)
    ensures var branch := InitialWorktreeBranch(prefix, title, lower, id);
      prefix <= branch && |branch| >= |prefix| + 9 && branch[|branch| - 9..] == "-" + id[..8]
  {
    hide Slug;
    var branch := InitialWorktreeBranch(prefix, title, lower, id);
    if title == DEFAULT_TITLE {
      assert branch == prefix + "thread" + ("-" + id[..8]);
    } else {
      assert branch == prefix + Slug(lower(title)) + ("-" + id[..8]);
    }
  }

  /** The project's own prefix, then its profile's, then the default. */
  function WorktreeBranchPrefix(own: string, profile: Option<string>): string {
    if own != "" then own
    else if profile.Some? && profile.value != "" then profile.value
    else DEFAULT_PREFIX
  }

  /** A stored prefix is empty, or was accepted when it was set. */
  ghost predicate Stored(prefix: string, space: char -> bool) {
    prefix == "" || NormalizeWorktreeBranchPrefix(prefix, space) == Ok(prefix)
  }

  /** Whatever is configured, the branches of a new thread are valid. */
  lemma ConfiguredBranchesAreValid(own: string, profile: Option<string>, space: char -> bool,
                                   title: string, lower: string -> string, id: string)
    requires Stored(own, space) && (profile.Some? ==> Stored(profile.value, space))
    requires !space('k') && !space('/') && ThreadID(id)
    ensures var prefix := WorktreeBranchPrefix(own, profile);
      && ValidGitBranchName(NamedWorktreeBranch(prefix, title, id))
      && ValidGitBranchName(InitialWorktreeBranch(prefix, title, lower, id))
      && (own != "" ==> own <= InitialWorktreeBranch(prefix, title, lower, id))
      && (own == "" && profile.Some? ==> profile.value <= InitialWorktreeBranch(prefix, title, lower, id))
  {
    hide NormalizeWorktreeBranchPrefix, NamedWorktreeBranch, InitialWorktreeBranch, ValidGitBranchName;
    DefaultPrefixIsUsable(space);
    GeneratedBranchesAreValid(WorktreeBranchPrefix(own, profile), space, title, lower, id);
    BranchEnds(WorktreeBranchPrefix(own, profile), title, lower, id);
  }

  lemma OneComponentAndSlash(name: string)
    requires forall i :: 0 <= i < |name| ==> name[i] != '/'
    ensures Components(name + "/") == [name, ""]
  {
    hide Grown;
    ComponentsOfTail("", name, |name|);
    assert name[..|name|] == name && "" + name == name;
    assert Grown([""], name) == [name] by {
      OnePartGrows(name);
    }
    assert (name + "/")[..|name|] == name;
  }

  lemma OnePartGrows(name: string)
    ensures Grown([""], name) == [name]
  {
    assert "" + name == name;
  }

  lemma PairAt(s: string, pair: string, i: nat)
    requires |pair| == 2 && OccursAt(s, pair, i)
    ensures i + 1 < |s| && s[i] == pair[0] && s[i + 1] == pair[1]
  {
    assert s[i..i + 2][0] == s[i] && s[i..i + 2][1] == s[i + 1];
  }

  lemma DefaultPrefixPairs()
    ensures var p := DEFAULT_PREFIX; !Contains(p, "//") && !Contains(p, "..") && !Contains(p, "@{")
  {
    var p := DEFAULT_PREFIX;
    PairsInPrefix("", p, "..");
    PairsInPrefix("", p, "@{");
    assert "" + p == p;
    if Contains(p, "//") {
      var i :| 0 <= i <= |p| && OccursAt(p, "//", i);
      PairAt(p, "//", i);
    }
  }

  lemma DefaultPrefixCharacters()
    ensures GoodCharacters(DEFAULT_PREFIX)
    ensures !HasPrefix(DEFAULT_PREFIX, "-") && !HasPrefix(DEFAULT_PREFIX, "/")
  {
    assert DEFAULT_PREFIX[0] == 'k';
  }

  lemma DefaultPrefixParts()
    ensures OpenComponents(["kiwi-code", ""])
  {
    var name := "kiwi-code";
    assert SafeTail(name);
    LockSuffixInTail("", name);
    assert "" + name == name;
    assert !BadComponent(name);
    assert [name, ""][..1] == [name];
  }

  /** The built-in default prefix is itself acceptable. */
  lemma DefaultPrefixIsUsable(space: char -> bool)
    requires !space('k') && !space('/')
    ensures NormalizeWorktreeBranchPrefix(DEFAULT_PREFIX, space) == Ok(DEFAULT_PREFIX)
  {
    hide Contains, Components, OpenComponents, GoodCharacters, HasPrefix, ValidGitBranchName;
    OneComponentAndSlash("kiwi-code");
    assert DEFAULT_PREFIX == "kiwi-code" + "/";
    DefaultPrefixPairs();
    DefaultPrefixCharacters();
    DefaultPrefixParts();
    TailDoesNotMatter(DEFAULT_PREFIX, "thread-12345678");
  }
}

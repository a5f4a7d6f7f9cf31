/** Text handling shared by every component: trimming, lower-casing, blankness,
    the dictionary order used by `sorted`, and order-keeping removal of
    duplicates. */
module Text {

  datatype Option<+T> = None | Some(value: T)

  /** The characters `str.strip` removes. */
  predicate IsSpace(c: char) {
    var n := c as int;
    || 9 <= n <= 13
    || 28 <= n <= 32
    || n == 0x85
    || n == 0xA0
    || n == 0x1680
    || 0x2000 <= n <= 0x200A
    || n == 0x2028
    || n == 0x2029
    || n == 0x202F
    || n == 0x205F
    || n == 0x3000
  }

  /** No white space at either end. */
  predicate Trimmed(s: string) {
    s == "" || (!IsSpace(s[0]) && !IsSpace(s[|s| - 1]))
  }

  function TrimStart(s: string): (r: string)
    ensures r == "" || !IsSpace(r[0])
    ensures r != "" ==> s != "" && r[|r| - 1] == s[|s| - 1]
    ensures Trimmed(s) ==> r == s
  {
    if s != "" && IsSpace(s[0]) then TrimStart(s[1..]) else s
  }

  function TrimEnd(s: string): (r: string)
    ensures r == "" || !IsSpace(r[|r| - 1])
    ensures r != "" ==> s != "" && r[0] == s[0]
    ensures Trimmed(s) ==> r == s
    ensures s != "" && !IsSpace(s[0]) ==> r != ""
  {
    if s != "" && IsSpace(s[|s| - 1]) then TrimEnd(s[..|s| - 1]) else s
  }

  /** Trimming yields a trimmed text and leaves a trimmed text alone. */
  function Strip(s: string): (r: string)
    ensures Trimmed(r)
    ensures Trimmed(s) ==> r == s
  {
    TrimEnd(TrimStart(s))
  }

  /** `isinstance(value, str) and bool(value.strip())` on a text. */
  predicate NonBlank(s: string) {
    Strip(s) != ""
  }

  /** `str(value or "").strip() or otherwise`. */
  function Named(s: string, otherwise: string): string {
    if NonBlank(s) then Strip(s) else otherwise
  }

  function LowerChar(c: char): (r: char)
    ensures IsSpace(r) <==> IsSpace(c)
    ensures !('A' <= r <= 'Z')
  {
    if 'A' <= c <= 'Z' then ((c as int) + 32) as char else c
  }

  /** Lower-casing, on the letters A to Z. */
  function Lower(s: string): (r: string)
    ensures |r| == |s|
    ensures forall i :: 0 <= i < |s| ==> r[i] == LowerChar(s[i])
  {
    seq(|s|, i requires 0 <= i < |s| => LowerChar(s[i]))
  }

  lemma LowerIsStable(s: string)
    ensures Lower(Lower(s)) == Lower(s)
    ensures Trimmed(Lower(s)) <==> Trimmed(s)
  {
    assert forall i :: 0 <= i < |s| ==> Lower(Lower(s))[i] == LowerChar(LowerChar(s[i]));
  }

  predicate StartsWith(s: string, prefix: string) {
    |prefix| <= |s| && s[..|prefix|] == prefix
  }

  predicate EndsWith(s: string, suffix: string) {
    |suffix| <= |s| && s[|s| - |suffix|..] == suffix
  }

  predicate Contains(s: string, part: string) {
    exists i :: 0 <= i <= |s| && StartsWith(s[i..], part)
  }

  /** The order of `<` on texts: by first differing character, a proper prefix first. */
  predicate Before(a: string, b: string) {
    if b == "" then false
    else if a == "" then true
    else if a[0] != b[0] then a[0] < b[0]
    else Before(a[1..], b[1..])
  }

  lemma {:induction false} BeforeIsTotalOrder(a: string, b: string, c: string)
    ensures !Before(a, a)
    ensures a != b ==> Before(a, b) || Before(b, a)
    ensures Before(a, b) && Before(b, c) ==> Before(a, c)
    ensures Before(a, b) ==> !Before(b, a)
  {
    if a != "" {
      BeforeIsTotalOrder(a[1..], if b == "" then "" else b[1..], if c == "" then "" else c[1..]);
      if b != "" && a[0] == b[0] && a[1..] == b[1..] {
        assert a == [a[0]] + a[1..] == [b[0]] + b[1..] == b;
      }
    }
  }

  ghost predicate StrictlySorted(s: seq<string>) {
    forall i, j :: 0 <= i < j < |s| ==> Before(s[i], s[j])
  }

  ghost predicate Distinct<T>(xs: seq<T>) {
    forall i, j :: 0 <= i < j < |xs| ==> xs[i] != xs[j]
  }

  ghost function Elements<T>(s: seq<T>): set<T> {
    set x | x in s
  }

  /** `sorted(set(...))`: a set of texts has exactly one strictly sorted listing. */
  lemma {:induction false} SortedListingIsUnique(a: seq<string>, b: seq<string>)
    requires StrictlySorted(a) && StrictlySorted(b)
    requires forall x :: x in a <==> x in b
    ensures a == b
  {
    assert a != [] ==> a[0] in b;
    assert b != [] ==> b[0] in a;
    if a != [] && b != [] {
      if a[0] != b[0] {
        BeforeIsTotalOrder(a[0], b[0], a[0]);
        assert false;
      }
      forall x ensures x in a[1..] <==> x in b[1..] {
        BeforeIsTotalOrder(a[0], a[0], a[0]);
        if x in a[1..] {
          var k :| 1 <= k < |a| && a[k] == x;
          assert Before(a[0], a[k]);
          assert x in b;
        }
        if x in b[1..] {
          var k :| 1 <= k < |b| && b[k] == x;
          assert Before(b[0], b[k]);
          assert x in a;
        }
      }
      SortedListingIsUnique(a[1..], b[1..]);
      assert a == [a[0]] + a[1..] && b == [b[0]] + b[1..];
    }
  }

  lemma {:induction false} SortedListingExists(s: set<string>) returns (r: seq<string>)
    ensures StrictlySorted(r) && forall x :: x in r <==> x in s
  {
    if s == {} {
      r := [];
    } else {
      var x :| x in s;
      var rest := SortedListingExists(s - {x});
      r := InsertSorted(rest, x);
    }
  }

  /** Inserting a new text keeps a strictly sorted list strictly sorted. */
  function InsertSorted(s: seq<string>, x: string): (r: seq<string>)
    ensures forall y :: y in r <==> y in s || y == x
    ensures StrictlySorted(s) && x !in s ==> StrictlySorted(r)
  {
    if s == [] then [x]
    else if Before(x, s[0]) then
      (assert StrictlySorted(s) ==> forall i :: 0 <= i < |s| ==> Before(x, s[i]) by {
         forall i | 0 < i < |s| { BeforeIsTotalOrder(x, s[0], s[i]); }
       }
       [x] + s)
    else
      var t := InsertSorted(s[1..], x);
      assert StrictlySorted(s) && x !in s ==> forall y :: y in t ==> Before(s[0], y) by {
        BeforeIsTotalOrder(s[0], x, x);
      }
      [s[0]] + t
  }

  /** The strictly sorted listing of a finite set of texts. */
  ghost function Sorted(s: set<string>): (r: seq<string>)
    ensures StrictlySorted(r) && forall x :: x in r <==> x in s
  {
    assert exists r :: StrictlySorted(r) && forall x :: x in r <==> x in s by {
      var r := SortedListingExists(s);
    }
    var r :| StrictlySorted(r) && forall x :: x in r <==> x in s;
    r
  }

  /** The sorted listing, computed one element at a time. */
  method SortSet(s: set<string>) returns (r: seq<string>)
    ensures r == Sorted(s)
  {
    r := [];
    var left := s;
    while left != {}
      invariant StrictlySorted(r)
      invariant left <= s
      invariant forall x :: x in r <==> x in s && x !in left
      decreases left
    {
      var x :| x in left;
      r := InsertSorted(r, x);
      left := left - {x};
    }
    SortedListingIsUnique(r, Sorted(s));
  }

  // ---- Lists of texts ---------------------------------------------------

  /** Trimmed, not blank, no text twice. */
  ghost predicate Clean(xs: seq<string>) {
    && (forall i :: 0 <= i < |xs| ==> xs[i] != "" && Trimmed(xs[i]))
    && (forall i, j :: 0 <= i < j < |xs| ==> xs[i] != xs[j])
  }

  /** The trimmed texts of a list, blanks dropped, first occurrences kept in order. */
  function CleanList(xs: seq<string>): seq<string> {
    if xs == [] then []
    else
      var before := CleanList(xs[..|xs| - 1]);
      var t := Strip(xs[|xs| - 1]);
      if t != "" && t !in before then before + [t] else before
  }

  /** `_normalize_string_list`: one pass over the list. */
  method NormalizeStringList(xs: seq<string>) returns (r: seq<string>)
    ensures r == CleanList(xs)
  {
    r := [];
    for i := 0 to |xs|
      invariant r == CleanList(xs[..i])
    {
      assert xs[..i + 1][..i] == xs[..i];
      var t := Strip(xs[i]);
      if t != "" && t !in r {
        r := r + [t];
      }
    }
    assert xs[..|xs|] == xs;
  }

  /** `t` is some text of the list, trimmed. */
  ghost predicate Trims(xs: seq<string>, t: string) {
    exists x :: x in xs && Strip(x) == t
  }

  /** Cleaning yields a clean list of exactly the trimmed texts that are not blank. */
  lemma {:induction false} CleanListIsClean(xs: seq<string>)
    ensures Clean(CleanList(xs))
    ensures forall t :: t in CleanList(xs) <==> t != "" && Trims(xs, t)
  {
    hide Strip, Trimmed;
    if xs != [] {
      var rest, last := xs[..|xs| - 1], xs[|xs| - 1];
      CleanListIsClean(rest);
      assert xs == rest + [last];
      assert forall t :: Trims(xs, t) <==> t == Strip(last) || Trims(rest, t);
    }
  }

  /** A clean list is left alone. */
  lemma {:induction false} CleanListKeepsClean(xs: seq<string>)
    requires Clean(xs)
    ensures CleanList(xs) == xs
  {
    if xs != [] {
      CleanListKeepsClean(xs[..|xs| - 1]);
      assert xs == xs[..|xs| - 1] + [xs[|xs| - 1]];
    }
  }

  function LowerAll(xs: seq<string>): (r: seq<string>)
    ensures |r| == |xs|
    ensures forall i :: 0 <= i < |xs| ==> r[i] == Lower(xs[i])
  {
    seq(|xs|, i requires 0 <= i < |xs| => Lower(xs[i]))
  }

  ghost predicate AllLower(xs: seq<string>) {
    forall i :: 0 <= i < |xs| ==> Lower(xs[i]) == xs[i]
  }

  /** Lower-casing a clean list keeps its texts trimmed and not blank; only
      distinctness can be lost. */
  lemma LowerAllOfClean(xs: seq<string>)
    requires Clean(xs)
    ensures AllLower(LowerAll(xs)) && LowerAll(LowerAll(xs)) == LowerAll(xs)
    ensures forall i :: 0 <= i < |xs| ==> LowerAll(xs)[i] != "" && Trimmed(LowerAll(xs)[i])
  {
    hide Trimmed, LowerChar;
    forall i | 0 <= i < |xs| { LowerIsStable(xs[i]); }
  }

  /** Cleaning a list of lower-case texts leaves lower-case texts. */
  lemma CleanListKeepsLower(xs: seq<string>)
    requires AllLower(xs) && forall i :: 0 <= i < |xs| ==> Trimmed(xs[i])
    ensures AllLower(CleanList(xs))
    ensures LowerAll(CleanList(xs)) == CleanList(xs)
  {
    hide Trimmed, Strip;
    CleanListIsClean(xs);
    forall i | 0 <= i < |CleanList(xs)| ensures Lower(CleanList(xs)[i]) == CleanList(xs)[i] {
      assert CleanList(xs)[i] in CleanList(xs);
    }
  }

  /** `[item.lower() for item in _normalize_string_list(value)]`. */
  function LowerList(xs: seq<string>): seq<string> {
    LowerAll(CleanList(xs))
  }

  /** Two passes always reach a fixpoint. */
  lemma LowerListSettles(xs: seq<string>)
    ensures Clean(LowerList(LowerList(xs))) && AllLower(LowerList(LowerList(xs)))
    ensures LowerList(LowerList(LowerList(xs))) == LowerList(LowerList(xs))
  {
    var once := LowerList(xs);
    CleanListIsClean(xs);
    LowerAllOfClean(CleanList(xs));
    SecondPass(once);
    SettledListIsKept(LowerList(once));
  }

  lemma SecondPass(once: seq<string>)
    requires AllLower(once) && forall i :: 0 <= i < |once| ==> Trimmed(once[i])
    ensures LowerList(once) == CleanList(once)
    ensures Clean(LowerList(once)) && AllLower(LowerList(once))
  {
    CleanListIsClean(once);
    CleanListKeepsLower(once);
  }

  lemma SettledListIsKept(xs: seq<string>)
    requires Clean(xs) && AllLower(xs)
    ensures LowerList(xs) == xs
  {
    CleanListKeepsClean(xs);
  }

  /** One pass reaches a fixpoint exactly when the list holds no two texts that
      differ only in case: duplicates are removed before lower-casing. */
  lemma OnePassSettlesIff(xs: seq<string>)
    ensures LowerList(LowerList(xs)) == LowerList(xs) <==>
            forall i, j :: 0 <= i < j < |CleanList(xs)| ==> Lower(CleanList(xs)[i]) != Lower(CleanList(xs)[j])
  {
    var once := LowerList(xs);
    CleanListIsClean(xs);
    LowerAllOfClean(CleanList(xs));
    SecondPass(once);
    if Clean(once) {
      SettledListIsKept(once);
    }
  }

  /** The list ["A", "a"] needs a second pass. */
  lemma OnePassCanFallShort()
    ensures LowerList(LowerList(["A", "a"])) != LowerList(["A", "a"])
  {
    assert Trimmed("A") && Trimmed("a");
    assert Lower("A") == "a" == Lower("a");
    hide *;
    TwoAreClean("A", "a");
    OnePassSettlesIff(["A", "a"]);
  }

  lemma TwoAreClean(x: string, y: string)
    requires Trimmed(x) && Trimmed(y) && x != "" && y != "" && x != y
    ensures CleanList([x, y]) == [x, y]
  {
    hide Strip, Trimmed;
    assert CleanList([x]) == [x] by { assert [x][..0] == []; }
    assert [x, y][..1] == [x];
  }
}

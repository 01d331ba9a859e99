/** The version comparison behind the update notice (src/utils/version-check.ts). */
module VersionOrder {
  import opened Characters
  import opened Decimal
  import opened Options

  function TrimStart(s: string): string {
    if s != "" && IsSpace(s[0]) then TrimStart(s[1..]) else s
  }

  /** The longest prefix of digits. */
  function DigitPrefix(s: string): (d: string)
    ensures AllDigits(d)
  {
    if s != "" && IsDigit(s[0]) then [s[0]] + DigitPrefix(s[1..]) else ""
  }

  /** `Number.parseInt` in base ten; `None` stands for NaN. */
  function ParseInt(text: string): Option<int> {
    var s := TrimStart(text);
    var signed := s != "" && s[0] in "+-";
    var digits := DigitPrefix(if signed then s[1..] else s);
    var value: int := Value(digits);
    if digits == "" then None else Some(if signed && s[0] == '-' then -value else value)
  }

  function Split(s: string): (parts: seq<string>)
    ensures |parts| > 0
  {
    if s == "" then [""]
    else if s[0] == '.' then [""] + Split(s[1..])
    else
      var rest := Split(s[1..]);
      [[s[0]] + rest[0]] + rest[1..]
  }

  function NormalizeVersion(v: string): string {
    if v != "" && v[0] == 'v' then v[1..] else v
  }

  function Numbers(parts: seq<string>): (n: seq<Option<int>>)
    ensures |n| == |parts| && forall i :: 0 <= i < |n| ==> n[i] == ParseInt(parts[i])
  {
    seq(|parts|, i requires 0 <= i < |parts| => ParseInt(parts[i]))
  }

  /** The components of a version text. */
  function Components(version: string): seq<Option<int>> {
    Numbers(Split(NormalizeVersion(version)))
  }

  /** Every component is a number. */
  predicate Parses(version: string) {
    None !in Components(version)
  }

  /** Component `i` of a version padded with zeros without end. */
  function At(v: seq<Option<int>>, i: nat): int {
    if i < |v| && v[i].Some? then v[i].value else 0
  }

  ghost predicate Same(a: seq<Option<int>>, b: seq<Option<int>>) {
    forall i: nat :: At(a, i) == At(b, i)
  }

  ghost predicate DiffersFirstAt(a: seq<Option<int>>, b: seq<Option<int>>, i: nat) {
    At(a, i) < At(b, i) && forall j: nat :: j < i ==> At(a, j) == At(b, j)
  }

  /** Lexicographic order of the padded components. */
  ghost predicate Before(a: seq<Option<int>>, b: seq<Option<int>>) {
    exists i: nat :: DiffersFirstAt(a, b, i)
  }

  ghost predicate Outdated(current: string, latest: string) {
    Parses(current) && Parses(latest) && Before(Components(current), Components(latest))
  }

  /** The loop over components decides the lexicographic order, and an unreadable component on
      either side means no verdict. */
  method IsOutdated(current: string, latest: string) returns (older: bool)
    ensures older <==> Outdated(current, latest)
  {
    var c, l := NormalizeVersion(current), NormalizeVersion(latest);
    if c == l {
      NeverBeforeItself(Components(current));
      return false;
    }
    var cp, lp := Numbers(Split(c)), Numbers(Split(l));
    if None in cp || None in lp {
      return false;
    }
    var len := if |cp| > |lp| then |cp| else |lp|;
    for i := 0 to len
      invariant forall j: nat :: j < i ==> At(cp, j) == At(lp, j)
    {
      var cv := if i < |cp| then cp[i].value else 0;
      var lv := if i < |lp| then lp[i].value else 0;
      if cv < lv {
        assert DiffersFirstAt(cp, lp, i);
        return true;
      }
      if cv > lv {
        assert DiffersFirstAt(lp, cp, i);
        NotBoth(lp, cp);
        return false;
      }
    }
    return false;
  }

  // ---------- The order ----------

  lemma NeverBeforeItself(a: seq<Option<int>>)
    ensures !Before(a, a)
  {
  }

  lemma NotBoth(a: seq<Option<int>>, b: seq<Option<int>>)
    requires Before(a, b)
    ensures !Before(b, a)
  {
    var i: nat :| DiffersFirstAt(a, b, i);
    forall j: nat ensures !DiffersFirstAt(b, a, j) {
      assert j < i ==> At(a, j) == At(b, j);
    }
  }

  lemma BeforeTransitive(a: seq<Option<int>>, b: seq<Option<int>>, c: seq<Option<int>>)
    requires Before(a, b) && Before(b, c)
    ensures Before(a, c)
  {
    var i: nat :| DiffersFirstAt(a, b, i);
    var j: nat :| DiffersFirstAt(b, c, j);
    var k := if i < j then i else j;
    assert DiffersFirstAt(a, c, k);
  }

  /** Searching from the left, two versions agree everywhere or differ at a first place. */
  lemma {:induction false} FirstDifference(a: seq<Option<int>>, b: seq<Option<int>>, n: nat)
    ensures Before(a, b) || Before(b, a) || forall j: nat :: j < n ==> At(a, j) == At(b, j)
  {
    if n > 0 {
      FirstDifference(a, b, n - 1);
      if forall j: nat :: j < n - 1 ==> At(a, j) == At(b, j) {
        assert At(a, n - 1) < At(b, n - 1) ==> DiffersFirstAt(a, b, n - 1);
        assert At(a, n - 1) > At(b, n - 1) ==> DiffersFirstAt(b, a, n - 1);
      }
    }
  }

  lemma Trichotomy(a: seq<Option<int>>, b: seq<Option<int>>)
    ensures Same(a, b) <==> !Before(a, b) && !Before(b, a)
  {
    FirstDifference(a, b, |a| + |b|);
  }

  /** On all texts, readable or not: nothing is older than itself, and being older is transitive. */
  lemma OutdatedIsStrict(a: string, b: string, c: string)
    ensures !Outdated(a, a)
    ensures Outdated(a, b) ==> !Outdated(b, a)
    ensures Outdated(a, b) && Outdated(b, c) ==> Outdated(a, c)
  {
    if Outdated(a, b) {
      NotBoth(Components(a), Components(b));
      if Outdated(b, c) {
        BeforeTransitive(Components(a), Components(b), Components(c));
      }
    }
  }

  ghost predicate Tied(a: string, b: string) {
    !Outdated(a, b) && !Outdated(b, a)
  }

  /** The law that makes a strict order weak, at the version in the middle. */
  ghost predicate TiesPassThrough(b: string) {
    forall a, c :: Tied(a, b) && Tied(b, c) ==> Tied(a, c)
  }

  lemma TieIsSame(a: string, b: string)
    ensures Parses(a) && Parses(b) ==> (Tied(a, b) <==> Same(Components(a), Components(b)))
    ensures !(Parses(a) && Parses(b)) ==> Tied(a, b)
  {
    Trichotomy(Components(a), Components(b));
  }

  /** Ties are transitive through a version exactly when all its components are numbers: an
      unreadable version ties with everything, also with two versions that differ. */
  lemma WeakOrderIff(b: string)
    ensures TiesPassThrough(b) <==> Parses(b)
  {
    if Parses(b) {
      forall a, c | Tied(a, b) && Tied(b, c) ensures Tied(a, c) {
        TieIsSame(a, b);
        TieIsSame(b, c);
        TieIsSame(a, c);
      }
    } else {
      OneBeforeTwo();
      assert Tied("1", b) && Tied(b, "2");
    }
  }

  lemma OneBeforeTwo()
    ensures Outdated("1", "2")
  {
    SingleComponent(1);
    SingleComponent(2);
    assert Digits(1) == "1" && Digits(2) == "2";
    assert DiffersFirstAt(Components("1"), Components("2"), 0);
  }

  // ---------- Reading release versions ----------

  lemma {:induction false} SplitPrefix(a: string, b: string)
    requires '.' !in a
    ensures Split(a + b) == [a + Split(b)[0]] + Split(b)[1..]
  {
    if a == "" {
      assert a + b == b && a + Split(b)[0] == Split(b)[0];
    } else {
      assert (a + b)[1..] == a[1..] + b;
      SplitPrefix(a[1..], b);
      assert a == [a[0]] + a[1..];
      assert [a[0]] + (a[1..] + Split(b)[0]) == a + Split(b)[0];
    }
  }

  lemma SplitAtPoint(a: string, b: string)
    requires '.' !in a
    ensures Split(a + "." + b) == [a] + Split(b)
  {
    SplitPrefix(a, "." + b);
    assert a + "." + b == a + ("." + b);
    assert ("." + b)[1..] == b;
    assert a + "" == a;
  }

  lemma SplitWhole(a: string)
    requires '.' !in a
    ensures Split(a) == [a]
  {
    SplitPrefix(a, "");
    assert a + "" == a;
  }

  lemma {:induction false} DigitPrefixOf(d: string, rest: string)
    requires AllDigits(d) && (rest == "" || !IsDigit(rest[0]))
    ensures DigitPrefix(d + rest) == d
  {
    if d == "" {
      assert d + rest == rest;
    } else {
      assert (d + rest)[1..] == d[1..] + rest;
      DigitPrefixOf(d[1..], rest);
    }
  }

  lemma ParseNumeral(n: nat, rest: string)
    requires rest == "" || !IsDigit(rest[0])
    ensures ParseInt(Digits(n) + rest) == Some(n)
  {
    ValueOfDigits(n);
    var s := Digits(n) + rest;
    assert IsDigit(s[0]) && s[0] == Digits(n)[0];
    DigitPrefixOf(Digits(n), rest);
  }

  /** A sign before the digits counts, and what follows them does not. */
  lemma ParseSigned(sign: char, n: nat, rest: string)
    requires sign == '-' || sign == '+'
    requires rest == "" || !IsDigit(rest[0])
    ensures ParseInt([sign] + (Digits(n) + rest)).Some?
    ensures var value := ParseInt([sign] + (Digits(n) + rest)).value;
      if sign == '-' then value + n == 0 else value == n
  {
    ValueOfDigits(n);
    DigitPrefixOf(Digits(n), rest);
    SignedText(sign, Digits(n) + rest);
  }

  lemma SignedText(sign: char, digits: string)
    requires sign == '-' || sign == '+'
    ensures var value: int := Value(DigitPrefix(digits));
      ParseInt([sign] + digits) ==
        if DigitPrefix(digits) == "" then None else Some(if sign == '-' then -value else value)
  {
    var text := [sign] + digits;
    assert text[0] == sign && text[1..] == digits && !IsSpace(sign);
    assert TrimStart(text) == text;
    assert sign in "+-";
  }

  lemma NumeralHasNoPoint(n: nat)
    ensures '.' !in Digits(n) && Digits(n) != "" && Digits(n)[0] != 'v'
  {
    ValueOfDigits(n);
  }

  lemma SingleComponent(n: nat)
    ensures Components(Digits(n)) == [Some(n)]
  {
    NumeralHasNoPoint(n);
    SplitWhole(Digits(n));
    ParseWhole(n);
  }

  /** A release version of section 2 of Semantic Versioning 2.0.0. */
  datatype Release = Release(major: nat, minor: nat, patch: nat) {
    function Text(): string {
      Digits(major) + "." + (Digits(minor) + "." + Digits(patch))
    }

    /** Precedence of release versions, section 11.2 of Semantic Versioning 2.0.0. */
    predicate Precedes(other: Release) {
      || major < other.major
      || (major == other.major && minor < other.minor)
      || (major == other.major && minor == other.minor && patch < other.patch)
    }
  }

  lemma SplitRelease(r: Release, rest: string)
    ensures Split(r.Text() + rest) ==
      [Digits(r.major), Digits(r.minor), Digits(r.patch) + Split(rest)[0]] + Split(rest)[1..]
  {
    NumeralHasNoPoint(r.major);
    NumeralHasNoPoint(r.minor);
    NumeralHasNoPoint(r.patch);
    SplitThree(Digits(r.major), Digits(r.minor), Digits(r.patch), rest);
  }

  lemma SplitThree(a: string, b: string, c: string, rest: string)
    requires '.' !in a && '.' !in b && '.' !in c
    ensures Split(a + "." + (b + "." + c) + rest) == [a, b, c + Split(rest)[0]] + Split(rest)[1..]
  {
    Regroup(a, ".", b, c, rest);
    SplitAtPoint(a, b + "." + (c + rest));
    SplitAtPoint(b, c + rest);
    SplitPrefix(c, rest);
    PartsOfThree(a, b, c + Split(rest)[0], Split(rest)[1..]);
  }

  lemma Regroup(a: string, dot: string, b: string, c: string, rest: string)
    ensures a + dot + (b + dot + c) + rest == a + dot + (b + dot + (c + rest))
  {
  }

  lemma PartsOfThree(a: string, b: string, c: string, more: seq<string>)
    ensures [a] + ([b] + ([c] + more)) == [a, b, c] + more
  {
  }

  /** A tag as the texts it follows: with the optional leading letter or without. */
  function Tagged(letter: bool, text: string): string {
    (if letter then "v" else "") + text
  }

  lemma NormalizeTagged(letter: bool, text: string)
    requires text != "" && text[0] != 'v'
    ensures NormalizeVersion(Tagged(letter, text)) == text
  {
  }

  lemma ReleaseComponents(letter: bool, r: Release)
    ensures Components(Tagged(letter, r.Text())) == [Some(r.major), Some(r.minor), Some(r.patch)]
  {
    NumeralHasNoPoint(r.major);
    NormalizeTagged(letter, r.Text());
    SplitRelease(r, "");
    assert r.Text() + "" == r.Text();
    ReadRelease(r, "", []);
  }

  /** The first three components of a release, whatever follows the patch number. */
  lemma ReadRelease(r: Release, rest: string, more: seq<string>)
    requires rest == "" || !IsDigit(rest[0])
    ensures Numbers([Digits(r.major), Digits(r.minor), Digits(r.patch) + rest] + more) ==
      [Some(r.major), Some(r.minor), Some(r.patch)] + Numbers(more)
  {
    ParseWhole(r.major);
    ParseWhole(r.minor);
    ParseNumeral(r.patch, rest);
    NumbersOfThree(Digits(r.major), Digits(r.minor), Digits(r.patch) + rest, more);
  }

  lemma NumbersOfThree(x: string, y: string, z: string, more: seq<string>)
    ensures Numbers([x, y, z] + more) == [ParseInt(x), ParseInt(y), ParseInt(z)] + Numbers(more)
  {
  }

  lemma ParseWhole(n: nat)
    ensures ParseInt(Digits(n)) == Some(n)
  {
    ParseNumeral(n, "");
    assert Digits(n) + "" == Digits(n);
  }

  /** On release versions, with or without the leading letter, the notice follows the precedence of
      Semantic Versioning. */
  lemma AgreesOnReleases(a: Release, b: Release, va: bool, vb: bool)
    ensures Outdated(Tagged(va, a.Text()), Tagged(vb, b.Text())) <==> a.Precedes(b)
  {
    ReleaseComponents(va, a);
    ReleaseComponents(vb, b);
    ThreeComponents(a, b);
  }

  lemma ThreeComponents(a: Release, b: Release)
    ensures Before([Some(a.major), Some(a.minor), Some(a.patch)], [Some(b.major), Some(b.minor), Some(b.patch)])
        <==> a.Precedes(b)
  {
    var ca: seq<Option<int>> := [Some(a.major), Some(a.minor), Some(a.patch)];
    var cb: seq<Option<int>> := [Some(b.major), Some(b.minor), Some(b.patch)];
    assert At(ca, 0) == a.major && At(ca, 1) == a.minor && At(ca, 2) == a.patch;
    assert At(cb, 0) == b.major && At(cb, 1) == b.minor && At(cb, 2) == b.patch;
    if a.Precedes(b) {
      var i := if a.major < b.major then 0 else if a.minor < b.minor then 1 else 2;
      assert DiffersFirstAt(ca, cb, i);
    } else {
      forall i: nat ensures !DiffersFirstAt(ca, cb, i) {
        assert i > 2 ==> At(ca, i) == At(cb, i);
      }
    }
  }

  /** Where the notice departs from section 11.3 of Semantic Versioning 2.0.0, by which a release
      is never older than its own pre-release: it is reported older exactly when the identifiers
      after the tag's first point are numbers and the first of them that is not zero is positive. */
  lemma PreReleaseOutdatedIff(r: Release, tag: string)
    ensures var later := Numbers(Split(tag)[1..]);
      Outdated(r.Text(), r.Text() + "-" + tag) <==> None !in later && Before([], later)
  {
    var later := Numbers(Split(tag)[1..]);
    var text := r.Text() + "-" + tag;
    ReleaseComponents(false, r);
    PreReleaseComponents(r, tag);
    assert Tagged(false, r.Text()) == r.Text();
    var cr: seq<Option<int>> := [Some(r.major), Some(r.minor), Some(r.patch)];
    CommonFront(cr, [], later);
    assert cr + [] == cr;
  }

  /** The other way round: by section 11.3 a pre-release is always older than its release, but it is
      reported so exactly when those identifiers are numbers and the first that is not zero is negative. */
  lemma ReleaseNoticedIff(r: Release, tag: string)
    ensures var later := Numbers(Split(tag)[1..]);
      Outdated(r.Text() + "-" + tag, r.Text()) <==> None !in later && Before(later, [])
  {
    var later := Numbers(Split(tag)[1..]);
    ReleaseComponents(false, r);
    PreReleaseComponents(r, tag);
    assert Tagged(false, r.Text()) == r.Text();
    var cr: seq<Option<int>> := [Some(r.major), Some(r.minor), Some(r.patch)];
    CommonFront(cr, later, []);
    assert cr + [] == cr;
  }

  lemma PreReleaseComponents(r: Release, tag: string)
    ensures Components(r.Text() + "-" + tag) ==
      [Some(r.major), Some(r.minor), Some(r.patch)] + Numbers(Split(tag)[1..])
  {
    var rest := "-" + tag;
    assert r.Text() + "-" + tag == r.Text() + rest;
    NumeralHasNoPoint(r.major);
    NormalizeTagged(false, r.Text() + rest);
    SplitRelease(r, rest);
    SplitPrefix("-", tag);
    ReadRelease(r, "-" + Split(tag)[0], Split(tag)[1..]);
  }

  lemma AfterFront(front: seq<Option<int>>, a: seq<Option<int>>, i: nat)
    ensures At(front + a, i + |front|) == At(a, i)
  {
  }

  /** Equal components in front decide nothing. */
  lemma CommonFront(front: seq<Option<int>>, a: seq<Option<int>>, b: seq<Option<int>>)
    ensures Before(front + a, front + b) <==> Before(a, b)
  {
    forall i: nat ensures At(front + a, i + |front|) == At(a, i) && At(front + b, i + |front|) == At(b, i) {
      AfterFront(front, a, i);
      AfterFront(front, b, i);
    }
    if Before(front + a, front + b) {
      var i: nat :| DiffersFirstAt(front + a, front + b, i);
      assert i >= |front|;
      assert DiffersFirstAt(a, b, i - |front|) by {
        forall j: nat | j < i - |front| ensures At(a, j) == At(b, j) {
          assert At(front + a, j + |front|) == At(front + b, j + |front|);
        }
      }
    }
    if Before(a, b) {
      var i: nat :| DiffersFirstAt(a, b, i);
      assert DiffersFirstAt(front + a, front + b, i + |front|) by {
        forall j: nat | j < i + |front| ensures At(front + a, j) == At(front + b, j) {
          if j >= |front| {
            assert At(a, j - |front|) == At(b, j - |front|);
          }
        }
      }
    }
  }

  /** Any release is reported older than each of its numbered release candidates, and a user of such
      a candidate is not told of the release. */
  lemma CandidateLooksNewer(r: Release, n: nat)
    requires n > 0
    ensures var candidate := r.Text() + "-rc." + Digits(n);
      Outdated(r.Text(), candidate) && !Outdated(candidate, r.Text())
  {
    var tag, candidate := "rc." + Digits(n), r.Text() + "-rc." + Digits(n);
    NumberedTag(n);
    PreReleaseOutdatedIff(r, tag);
    CandidateText(r.Text(), Digits(n));
    NewerIsNotOlder(r.Text(), candidate);
  }

  lemma CandidateText(text: string, digits: string)
    ensures text + "-" + ("rc." + digits) == text + "-rc." + digits
  {
    assert "-" + "rc." == "-rc.";
  }

  lemma NewerIsNotOlder(a: string, b: string)
    ensures Outdated(a, b) ==> !Outdated(b, a)
  {
    OutdatedIsStrict(a, b, a);
  }

  lemma NumberedTag(n: nat)
    requires n > 0
    ensures var later := Numbers(Split("rc." + Digits(n))[1..]); None !in later && Before([], later)
  {
    assert "rc." + Digits(n) == "rc" + "." + Digits(n);
    SplitAtPoint("rc", Digits(n));
    NumeralHasNoPoint(n);
    SplitWhole(Digits(n));
    ParseWhole(n);
    assert Split("rc." + Digits(n))[1..] == [Digits(n)];
    assert DiffersFirstAt([], Numbers([Digits(n)]), 0);
  }
}

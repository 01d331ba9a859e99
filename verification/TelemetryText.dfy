/** Path scrubbing and truncation of telemetry text (src/telemetry-config.ts).

    A home path is a root, `/Users/` or `/home/`, followed by a non-empty component of
    characters that end neither a path segment nor a word. Scrubbing replaces each
    component by `<redacted>`; sanitising scrubs and then keeps the first 200 characters.
 */
module TelemetryText {
  import opened Characters
  import opened Sequences

  const USERS := "/Users/"
  const HOME := "/home/"
  const REDACTED := "<redacted>"
  const MAX_LENGTH := 200

  /** Characters that cannot belong to a path component. */
  predicate IsDelimiter(c: char) {
    c == '/' || IsSpace(c) || c == '"' || c == '\'' || c == '`'
  }

  /** The longest delimiter-free prefix. */
  function Component(s: string): string {
    if s == "" || IsDelimiter(s[0]) then "" else [s[0]] + Component(s[1..])
  }

  predicate StartsPath(root: string, s: string) {
    root <= s && Component(s[|root|..]) != ""
  }

  /** One global regular-expression replacement: leftmost, greedy, non-overlapping. */
  function Scrub(root: string, s: string): string
    decreases |s|
  {
    if s == "" then ""
    else if StartsPath(root, s) then
      var n := |Component(s[|root|..])|;
      ComponentIsPrefix(s[|root|..]);
      root + REDACTED + Scrub(root, s[|root| + n..])
    else [s[0]] + Scrub(root, s[1..])
  }

  function ScrubPaths(s: string): string {
    Scrub(HOME, Scrub(USERS, s))
  }

  function Truncate(s: string, max: nat): string {
    if |s| > max then s[..max] else s
  }

  function Sanitize(s: string): string {
    Truncate(ScrubPaths(s), MAX_LENGTH)
  }

  // ---------- What the text looks like afterwards ----------

  predicate IsRoot(root: string) {
    root == USERS || root == HOME
  }

  predicate OccursAt(root: string, s: string, i: int) {
    0 <= i && i + |root| <= |s| && s[i..i + |root|] == root
  }

  /** Every component that follows `root` in `s` is the marker. */
  ghost predicate Clean(root: string, s: string) {
    forall i :: OccursAt(root, s, i) ==>
      Component(s[i + |root|..]) == "" || Component(s[i + |root|..]) == REDACTED
  }

  /** As `Clean`, except that the last component may be a marker cut short by the end. */
  ghost predicate CleanOrCut(root: string, s: string) {
    forall i :: OccursAt(root, s, i) ==>
      var c := Component(s[i + |root|..]);
      c == "" || c == REDACTED || (c == s[i + |root|..] && c <= REDACTED)
  }

  ghost predicate Sanitized(s: string) {
    |s| <= MAX_LENGTH
    && CleanOrCut(USERS, s) && CleanOrCut(HOME, s)
    && (|s| < MAX_LENGTH ==> Clean(USERS, s) && Clean(HOME, s))
  }

  // ---------- Components ----------

  lemma {:induction false} ComponentIsPrefix(s: string)
    ensures Component(s) <= s
    ensures |Component(s)| < |s| ==> IsDelimiter(s[|Component(s)|])
    ensures forall i :: 0 <= i < |Component(s)| ==> !IsDelimiter(s[i])
  {
    if s != "" && !IsDelimiter(s[0]) {
      ComponentIsPrefix(s[1..]);
    }
  }

  /** A delimiter-free text that a delimiter or the end follows is the component. */
  lemma {:induction false} ComponentOf(c: string, rest: string)
    requires forall i :: 0 <= i < |c| ==> !IsDelimiter(c[i])
    requires rest == "" || IsDelimiter(rest[0])
    ensures Component(c + rest) == c
  {
    if c == "" {
      assert c + rest == rest;
    } else {
      ComponentOf(c[1..], rest);
      assert (c + rest)[1..] == c[1..] + rest;
    }
  }

  lemma RootShape(root: string)
    requires IsRoot(root)
    ensures |root| >= 6 && root[0] == '/' && root[|root| - 1] == '/'
    ensures forall k :: 0 < k < |root| - 1 ==> root[k] != '/' && !IsDelimiter(root[k])
    ensures root[1] != '<'
  {
    if root == USERS {
      assert forall k :: 0 < k < 6 ==> USERS[k] in "Users";
    } else {
      assert forall k :: 0 < k < 5 ==> HOME[k] in "home";
    }
  }

  lemma MarkerShape()
    ensures |REDACTED| == 10 && REDACTED[0] == '<'
    ensures forall k :: 0 <= k < 10 ==> !IsDelimiter(REDACTED[k])
  {
    assert forall k :: 0 <= k < 10 ==> REDACTED[k] in "<redacted>";
    assert forall c :: c in "<redacted>" ==> !IsDelimiter(c);
  }

  /** A component read from a prefix is the component, or the prefix if it was cut. */
  lemma {:induction false} ComponentOfPrefix(s: string, n: nat)
    requires n <= |s|
    ensures Component(s[..n]) == if |Component(s)| <= n then Component(s) else s[..n]
  {
    if n > 0 && !IsDelimiter(s[0]) {
      ComponentOfPrefix(s[1..], n - 1);
      assert s[..n][1..] == s[1..][..n - 1];
    }
  }

  // ---------- Scrubbing one root ----------

  /** How much of `s` one replacement copies before it can differ from `s`. */
  function Untouched(root: string, s: string): nat
  {
    if s == "" then 0
    else if StartsPath(root, s) then |root|
    else 1 + Untouched(root, s[1..])
  }

  /** `s` and `t` share their first `u` characters; unless that is all of both, `root`
      ends there. */
  ghost predicate AgreeUpTo(root: string, s: string, t: string, u: nat) {
    && u <= |s| && u <= |t| && s[..u] == t[..u]
    && (u == |s| ==> t == s)
    && (u < |s| ==> u >= |root| && OccursAt(root, s, u - |root|))
  }

  lemma AgreeCons(root: string, c: char, s: string, t: string, u: nat)
    requires AgreeUpTo(root, s, t, u)
    ensures AgreeUpTo(root, [c] + s, [c] + t, u + 1)
  {
    var s', t' := [c] + s, [c] + t;
    assert s'[..u + 1] == [c] + s[..u];
    assert t'[..u + 1] == [c] + t[..u];
    if u < |s| {
      assert s'[u + 1 - |root|..u + 1] == s[u - |root|..u];
    }
  }

  lemma {:induction false} UntouchedAgrees(root: string, s: string)
    ensures AgreeUpTo(root, s, Scrub(root, s), Untouched(root, s))
    decreases |s|
  {
    if s != "" {
      if StartsPath(root, s) {
        var t := Scrub(root, s);
        ComponentIsPrefix(s[|root|..]);
        assert t[..|root|] == root == s[..|root|] == s[0..|root|];
      } else {
        UntouchedAgrees(root, s[1..]);
        AgreeCons(root, s[0], s[1..], Scrub(root, s[1..]), Untouched(root, s[1..]));
        assert [s[0]] + s[1..] == s;
      }
    }
  }

  lemma CleanSuffix(root: string, s: string, k: nat)
    requires k <= |s|
    ensures Clean(root, s) ==> Clean(root, s[k..])
    ensures CleanOrCut(root, s) ==> CleanOrCut(root, s[k..])
  {
    forall i | OccursAt(root, s[k..], i)
      ensures OccursAt(root, s, i + k) && s[k..][i + |root|..] == s[i + k + |root|..]
    {
      assert s[k..][i..i + |root|] == s[i + k..i + k + |root|];
    }
  }

  /** Prepending one character adds at most the occurrence at the front. */
  lemma CleanCons(root: string, c: char, s: string)
    requires Clean(root, s)
    requires root <= [c] + s ==>
      Component(([c] + s)[|root|..]) == "" || Component(([c] + s)[|root|..]) == REDACTED
    ensures Clean(root, [c] + s)
  {
    var t := [c] + s;
    forall i | OccursAt(root, t, i)
      ensures Component(t[i + |root|..]) == "" || Component(t[i + |root|..]) == REDACTED
    {
      if i > 0 {
        assert s[i - 1..i - 1 + |root|] == t[i..i + |root|];
        assert OccursAt(root, s, i - 1);
        assert t[i + |root|..] == s[i - 1 + |root|..];
      } else {
        assert t[0..|root|] == t[..|root|];
      }
    }
  }

  /** No root occurs at or inside a scrubbed path of either root, other than its own. */
  lemma CleanAfterMarker(root: string, other: string, rest: string)
    requires IsRoot(root) && IsRoot(other)
    requires Clean(other, rest)
    requires rest == "" || IsDelimiter(rest[0])
    ensures Clean(other, root + REDACTED + rest)
  {
    var t := root + REDACTED + rest;
    var m := |root| + 10;
    forall i | OccursAt(other, t, i)
      ensures Component(t[i + |other|..]) == "" || Component(t[i + |other|..]) == REDACTED
    {
      if i >= m {
        DropConcat(root + REDACTED, rest, m);
        OccursInSuffix(other, t, i, m);
      } else {
        RootAtMarker(root, other, rest, i);
        ComponentAtMarker(root, rest);
      }
    }
  }

  /** A root that starts in a scrubbed path is the one it starts with. */
  lemma RootAtMarker(root: string, other: string, rest: string, i: int)
    requires IsRoot(root) && IsRoot(other)
    requires OccursAt(other, root + REDACTED + rest, i) && i < |root| + 10
    ensures i == 0 && other == root
  {
    RootShape(root);
    RootShape(other);
    MarkerShape();
    var t := root + REDACTED + rest;
    OccursAtIndex(other, t, i, 0);
    OccursAtIndex(other, t, i, 1);
    if i == 0 && other != root {
      RootsDiffer(root, other);
    }
  }

  lemma ComponentAtMarker(root: string, rest: string)
    requires rest == "" || IsDelimiter(rest[0])
    ensures Component((root + REDACTED + rest)[|root|..]) == REDACTED
  {
    MarkerShape();
    assert (root + REDACTED + rest)[|root|..] == REDACTED + rest;
    ComponentOf(REDACTED, rest);
  }

  lemma OccursAtIndex(root: string, s: string, i: int, k: nat)
    requires OccursAt(root, s, i) && k < |root|
    ensures s[i + k] == root[k]
  {
    assert s[i..i + |root|][k] == s[i + k];
  }

  lemma OccursInSuffix(root: string, t: string, i: int, m: nat)
    requires OccursAt(root, t, i) && m <= i
    ensures OccursAt(root, t[m..], i - m) && t[i + |root|..] == t[m..][i - m + |root|..]
  {
    assert t[m..][i - m..i - m + |root|] == t[i..i + |root|];
  }

  lemma StartAfterComponent(root: string, s: string)
    requires IsRoot(root)
    ensures Scrub(root, s) == "" <==> s == ""
    ensures s != "" ==> Scrub(root, s)[0] == s[0]
  {
    UntouchedAgrees(root, s);
    RootShape(root);
    var u := Untouched(root, s);
    if s != "" {
      assert s[..u][0] == s[0];
    }
  }

  /** After scrubbing `root`, every component that follows it is the marker. */
  lemma {:induction false} ScrubCleans(root: string, s: string)
    requires IsRoot(root)
    ensures Clean(root, Scrub(root, s))
    decreases |s|
  {
    if s == "" {
    } else if StartsPath(root, s) {
      ComponentIsPrefix(s[|root|..]);
      var rest := s[|root| + |Component(s[|root|..])|..];
      ScrubCleans(root, rest);
      StartAfterComponent(root, rest);
      CleanAfterMarker(root, root, Scrub(root, rest));
    } else {
      ScrubCleans(root, s[1..]);
      var r := Scrub(root, s[1..]);
      if root <= [s[0]] + r {
        SameFront(root, root, s);
      }
      CleanCons(root, s[0], r);
    }
  }

  lemma SliceOfPrefix(s: string, k: nat, e: nat, u: nat)
    requires k <= e <= u <= |s|
    ensures s[..u][k..e] == s[k..e]
  {
  }

  lemma DropConcat(s: string, e: string, b: nat)
    requires b <= |s|
    ensures (s + e)[b..] == s[b..] + e && s[|s|..] + e == e
  {
  }

  lemma UntouchedPassesRoot(root: string, s: string)
    requires s != "" && !StartsPath(root, s)
    ensures Untouched(root, s) < |s| ==> Untouched(root, s) > |root|
  {
    UntouchedAgrees(root, s[1..]);
  }

  lemma RootLengths(root: string, other: string)
    requires IsRoot(root) && IsRoot(other)
    ensures |other| <= |root| + 1
  {
  }

  /** A root at the front of the scrubbed text was at the front before, with the same
      empty component if it had one. */
  lemma SameFront(root: string, other: string, s: string)
    requires IsRoot(root) && IsRoot(other) && s != ""
    requires !StartsPath(root, s)
    requires other <= Scrub(root, s)
    ensures other <= s
    ensures root == other ==> Component(Scrub(root, s)[|root|..]) == ""
  {
    RootLengths(root, other);
    UntouchedAgrees(root, s);
    UntouchedPassesRoot(root, s);
    FrontAgrees(root, other, s, Scrub(root, s), Untouched(root, s));
  }

  lemma FrontAgrees(root: string, other: string, s: string, t: string, u: nat)
    requires AgreeUpTo(root, s, t, u) && !StartsPath(root, s) && other <= t
    requires u < |s| ==> |root| < u && |other| <= u
    ensures other <= s
    ensures root == other ==> Component(t[|root|..]) == ""
  {
    if u < |s| {
      SliceOfPrefix(s, 0, |other|, u);
      SliceOfPrefix(t, 0, |other|, u);
      assert t[|root|] == t[..u][|root|] == s[..u][|root|] == s[|root|];
    }
  }

  /** Scrubbing one root keeps the text clean for the other. */
  lemma {:induction false} ScrubKeepsClean(root: string, other: string, s: string)
    requires IsRoot(root) && IsRoot(other) && root != other
    requires Clean(other, s)
    ensures Clean(other, Scrub(root, s))
    decreases |s|
  {
    if s == "" {
    } else if StartsPath(root, s) {
      ComponentIsPrefix(s[|root|..]);
      var k := |root| + |Component(s[|root|..])|;
      CleanSuffix(other, s, k);
      ScrubKeepsClean(root, other, s[k..]);
      StartAfterComponent(root, s[k..]);
      CleanAfterMarker(root, other, Scrub(root, s[k..]));
    } else {
      CleanSuffix(other, s, 1);
      ScrubKeepsClean(root, other, s[1..]);
      var t := Scrub(root, s);
      if other <= t {
        SameFront(root, other, s);
        assert OccursAt(other, s, 0);
        SameFrontComponent(root, other, s);
      }
      CleanCons(other, s[0], Scrub(root, s[1..]));
    }
  }

  lemma ComponentFromAgreement(s: string, t: string, k: nat, u: nat)
    requires k <= u <= |s| && u <= |t| && s[..u] == t[..u]
    requires k + |Component(s[k..])| < u
    ensures Component(t[k..]) == Component(s[k..])
  {
    var c := Component(s[k..]);
    ComponentIsPrefix(s[k..]);
    var e := k + |c|;
    SliceOfPrefix(s, k, e, u);
    SliceOfPrefix(t, k, e, u);
    assert t[e] == t[..u][e] == s[..u][e] == s[e];
    ComponentOf(c, t[e..]);
    assert t[k..] == c + t[e..];
  }

  lemma RootsDiffer(root: string, other: string)
    requires IsRoot(root) && IsRoot(other) && root != other
    ensures root[1] != other[1] && root[|root| - 2] != other[|other| - 2]
  {
    assert USERS[1] == 'U' && USERS[5] == 's' && HOME[1] == 'h' && HOME[4] == 'e';
  }

  /** A path of one root starts after the front component of the other. */
  lemma PathAfterFrontComponent(root: string, other: string, s: string, m: int)
    requires IsRoot(root) && IsRoot(other) && root != other
    requires Clean(other, s) && other <= s && OccursAt(root, s, m)
    ensures |other| + |Component(s[|other|..])| <= m
  {
    var n := |other|;
    var c := Component(s[n..]);
    assert OccursAt(other, s, 0);
    ComponentIsPrefix(s[n..]);
    RootShape(root);
    RootShape(other);
    RootsDiffer(root, other);
    MarkerShape();
    OccursAtIndex(root, s, m, 0);
    OccursAtIndex(root, s, m, 1);
    assert forall k :: 0 <= k < n ==> s[k] == other[k];
    assert forall k :: n <= k < n + |c| ==> s[k] == c[k - n];
    // A path at the slash that ends `other` would give it a component other than the marker.
    assert s[n - 1] == '/' && (c == "" ==> n == |s| || IsDelimiter(s[n]));
  }

  /** A front component of the other root survives. */
  lemma SameFrontComponent(root: string, other: string, s: string)
    requires IsRoot(root) && IsRoot(other) && root != other
    requires Clean(other, s) && other <= s && other <= Scrub(root, s)
    ensures Component(Scrub(root, s)[|other|..]) == Component(s[|other|..])
  {
    var u := Untouched(root, s);
    UntouchedAgrees(root, s);
    if u < |s| {
      PathAfterFrontComponent(root, other, s, u - |root|);
      assert root != "";
      ComponentBeforePath(root, s, Scrub(root, s), u, |other|);
    }
  }

  lemma ComponentBeforePath(root: string, s: string, t: string, u: nat, k: nat)
    requires AgreeUpTo(root, s, t, u) && u < |s| && root != ""
    requires k <= |s| && k + |Component(s[k..])| <= u - |root|
    ensures k <= |t| && Component(t[k..]) == Component(s[k..])
  {
    ComponentFromAgreement(s, t, k, u);
  }

  /** A text is left alone exactly when it is already clean. */
  lemma {:induction false} FixedIffClean(root: string, s: string)
    requires IsRoot(root)
    ensures Scrub(root, s) == s <==> Clean(root, s)
    decreases |s|
  {
    ScrubCleans(root, s);
    if Clean(root, s) && s != "" {
      if StartsPath(root, s) {
        CleanAtFront(root, s);
        CleanSuffix(root, s, |root| + 10);
        FixedIffClean(root, s[|root| + 10..]);
        ScrubAtMarker(root, s, |root| + 10, "");
      } else {
        CleanSuffix(root, s, 1);
        FixedIffClean(root, s[1..]);
      }
    }
  }

  lemma CleanAtFront(root: string, s: string)
    requires Clean(root, s) && StartsPath(root, s)
    ensures Component(s[|root|..]) == REDACTED && |root| + 10 <= |s|
  {
    assert OccursAt(root, s, 0);
    ComponentIsPrefix(s[|root|..]);
    MarkerShape();
  }

  /** In scrubbed text every component after either root is exactly the marker. */
  lemma ScrubPathsCleans(s: string)
    ensures Clean(USERS, ScrubPaths(s)) && Clean(HOME, ScrubPaths(s))
  {
    ScrubCleans(USERS, s);
    ScrubKeepsClean(HOME, USERS, Scrub(USERS, s));
    ScrubCleans(HOME, Scrub(USERS, s));
  }

  /** The texts the two passes leave alone are the clean ones. */
  lemma ScrubPathsFixedIffClean(s: string)
    ensures ScrubPaths(s) == s <==> Clean(USERS, s) && Clean(HOME, s)
  {
    ScrubPathsCleans(s);
    if Clean(USERS, s) && Clean(HOME, s) {
      FixedIffClean(USERS, s);
      FixedIffClean(HOME, s);
    }
  }

  // ---------- Truncation ----------

  lemma CutOfClean(root: string, s: string, n: nat)
    requires Clean(root, s) && n <= |s|
    ensures CleanOrCut(root, s[..n])
  {
    MarkerShape();
    forall i | OccursAt(root, s[..n], i)
      ensures var c := Component(s[..n][i + |root|..]);
        c == "" || c == REDACTED || (c == s[..n][i + |root|..] && c <= REDACTED)
    {
      assert s[..n][i..i + |root|] == s[i..i + |root|];
      assert OccursAt(root, s, i);
      var x := s[i + |root|..];
      ComponentOfPrefix(x, n - i - |root|);
      ComponentIsPrefix(x);
      assert s[..n][i + |root|..] == x[..n - i - |root|];
    }
  }

  /** `e` completes a marker that the end of `s` cuts short after `root` at `i`. */
  predicate CompletesMarker(root: string, s: string, e: string, i: int) {
    OccursAt(root, s, i) && |s| > i + |root| && s[i + |root|..] + e == REDACTED
  }

  lemma CompletesMarkerShift(root: string, s: string, k: nat, e: string, i: int)
    requires k <= |s|
    ensures CompletesMarker(root, s[k..], e, i) ==> CompletesMarker(root, s, e, i + k)
  {
    if CompletesMarker(root, s[k..], e, i) {
      assert s[k..][i..i + |root|] == s[i + k..i + k + |root|];
      assert s[k..][i + |root|..] == s[i + k + |root|..];
    }
  }

  lemma PathParts(root: string, s: string)
    requires StartsPath(root, s)
    ensures |root| + |Component(s[|root|..])| <= |s|
    ensures s == root + Component(s[|root|..]) + s[|root| + |Component(s[|root|..])|..]
  {
    ComponentIsPrefix(s[|root|..]);
  }

  lemma ScrubAtPath(root: string, s: string, k: nat)
    requires StartsPath(root, s) && k == |root| + |Component(s[|root|..])|
    ensures k <= |s| && Scrub(root, s) == root + REDACTED + Scrub(root, s[k..])
  {
    PathParts(root, s);
    assert s != "";
  }

  lemma ScrubAtMarker(root: string, s: string, k: nat, e: string)
    requires StartsPath(root, s) && Component(s[|root|..]) == REDACTED
    requires k == |root| + 10 <= |s| && Scrub(root, s[k..]) == s[k..] + e
    ensures Scrub(root, s) == s + e
    ensures e == "" ==> Scrub(root, s) == s
  {
    PathParts(root, s);
    ScrubAtPath(root, s, k);
    assert e == "" ==> s + e == s;
    Reassociate(root + REDACTED, s[k..], e);
  }

  lemma ScrubAtCut(root: string, s: string) returns (e: string)
    requires StartsPath(root, s)
    requires Component(s[|root|..]) == s[|root|..] && s[|root|..] <= REDACTED
    ensures Scrub(root, s) == s + e && CompletesMarker(root, s, e, 0)
  {
    PathParts(root, s);
    ScrubAtPath(root, s, |s|);
    var c := s[|root|..];
    e := REDACTED[|c|..];
    assert c + e == REDACTED;
    Reassociate(root, c, e);
    assert Scrub(root, s) == root + REDACTED;
    assert root + c == s;
  }

  lemma ScrubAtCharacter(root: string, s: string, e: string)
    requires s != "" && !StartsPath(root, s) && Scrub(root, s[1..]) == s[1..] + e
    ensures Scrub(root, s) == s + e
  {
    Reassociate([s[0]], s[1..], e);
    assert [s[0]] + s[1..] == s;
  }

  lemma CutAtFront(root: string, s: string)
    requires CleanOrCut(root, s) && StartsPath(root, s)
    ensures var c := Component(s[|root|..]);
      if c == REDACTED then |root| + 10 <= |s| else c == s[|root|..] && c <= REDACTED
  {
    assert OccursAt(root, s, 0);
    MarkerShape();
    ComponentIsPrefix(s[|root|..]);
  }

  /** Scrubbing a truncated text can only complete the marker that was cut. */
  lemma {:induction false} ScrubOfCut(root: string, s: string) returns (e: string, i: int)
    requires CleanOrCut(root, s)
    ensures Scrub(root, s) == s + e
    ensures e == "" || CompletesMarker(root, s, e, i)
    decreases |s|, 1
  {
    if s == "" {
      e, i := "", 0;
    } else if StartsPath(root, s) {
      CutAtFront(root, s);
      if Component(s[|root|..]) == REDACTED {
        e, i := ScrubOfCutAfter(root, s, |root| + 10);
        ScrubAtMarker(root, s, |root| + 10, e);
      } else {
        e := ScrubAtCut(root, s);
        i := 0;
      }
    } else {
      e, i := ScrubOfCutAfter(root, s, 1);
      ScrubAtCharacter(root, s, e);
    }
  }

  lemma CutSuffix(root: string, s: string, k: nat)
    requires CleanOrCut(root, s) && k <= |s|
    ensures CleanOrCut(root, s[k..])
  {
    CleanSuffix(root, s, k);
  }

  lemma {:induction false} ScrubOfCutAfter(root: string, s: string, k: nat) returns (e: string, i: int)
    requires CleanOrCut(root, s) && 0 < k <= |s|
    ensures Scrub(root, s[k..]) == s[k..] + e
    ensures e == "" || CompletesMarker(root, s, e, i)
    decreases |s|, 0
  {
    var tail := s[k..];
    CutSuffix(root, s, k);
    var j;
    e, j := ScrubOfCut(root, tail);
    CompletesMarkerShift(root, s, k, e, j);
    i := j + k;
  }

  /** No occurrence of the other root reaches the marker being completed. */
  lemma OccursBeforeMarker(root: string, other: string, s: string, e: string, j: int, i: int)
    requires IsRoot(root) && IsRoot(other) && root != other
    requires CompletesMarker(root, s, e, j) && OccursAt(other, s + e, i)
    ensures i + |other| < j + |root| && OccursAt(other, s, i)
  {
    RootShape(root);
    RootShape(other);
    RootsDiffer(root, other);
    MarkerShape();
    var t, n, b := s + e, |other|, j + |root|;
    assert forall k :: b <= k < |t| ==> t[k] == REDACTED[k - b] by {
      DropConcat(s, e, b);
      assert forall k :: b <= k < |t| ==> t[k] == t[b..][k - b];
    }
    OccursAtIndex(root, s, j, |root| - 2);
    OccursAtIndex(other, t, i, n - 1);
    OccursAtIndex(other, t, i, n - 2);
    assert t[b - 2] == s[b - 2];
    assert i + n < b;
    assert s[i..i + n] == t[i..i + n];
  }

  lemma CompletionAt(root: string, other: string, s: string, e: string, j: int, i: int)
    requires IsRoot(root) && IsRoot(other) && root != other
    requires CompletesMarker(root, s, e, j) && OccursAt(other, s + e, i)
    ensures OccursAt(other, s, i)
    ensures var n := |other|;
      Component((s + e)[i + n..]) == Component(s[i + n..]) && |Component(s[i + n..])| < |s| - i - n
  {
    OccursBeforeMarker(root, other, s, e, j, i);
    RootShape(root);
    var n, b := |other|, j + |root|;
    OccursAtIndex(root, s, j, |root| - 1);
    SlashBounds(s, i + n, b);
    assert (s + e)[..|s|] == s == s[..|s|];
    ComponentFromAgreement(s, s + e, i + n, |s|);
  }

  /** A component ends before the next slash. */
  lemma SlashBounds(s: string, k: nat, b: nat)
    requires k < b <= |s| && s[b - 1] == '/'
    ensures k + |Component(s[k..])| < b
  {
    ComponentIsPrefix(s[k..]);
    assert s[k..][b - 1 - k] == '/';
  }

  /** Completing the cut marker of one root does not touch the other root. */
  lemma CompletionKeepsCleanOrCut(root: string, other: string, s: string, e: string, j: int)
    requires IsRoot(root) && IsRoot(other) && root != other
    requires CleanOrCut(other, s) && CompletesMarker(root, s, e, j)
    ensures CleanOrCut(other, s + e)
  {
    forall i | OccursAt(other, s + e, i)
      ensures OccursAt(other, s, i) && Component((s + e)[i + |other|..]) == Component(s[i + |other|..])
      ensures |Component(s[i + |other|..])| < |s| - i - |other|
    {
      CompletionAt(root, other, s, e, j, i);
    }
  }

  lemma SanitizeSanitizes(s: string)
    ensures Sanitized(Sanitize(s))
  {
    var t := ScrubPaths(s);
    ScrubPathsCleans(s);
    CutOfClean(USERS, t, |Sanitize(s)|);
    CutOfClean(HOME, t, |Sanitize(s)|);
    assert t[..|t|] == t;
  }

  /** Sanitised text is exactly the text that sanitising leaves alone. */
  lemma SanitizedIffFixed(s: string)
    ensures Sanitized(s) <==> Sanitize(s) == s
  {
    if Sanitize(s) == s {
      SanitizeSanitizes(s);
    }
    if Sanitized(s) {
      var e, i := ScrubOfCut(USERS, s);
      if e != "" {
        CompletionKeepsCleanOrCut(USERS, HOME, s, e, i);
      } else {
        assert s + e == s;
      }
      var e', _ := ScrubOfCut(HOME, s + e);
      ScrubPathsFixedIffClean(s);
      assert (s + e + e')[..|s|] == s;
    }
  }

  /** Sanitising twice is sanitising once, also where the cut falls inside a marker. */
  lemma SanitizeIdempotent(s: string)
    ensures Sanitize(Sanitize(s)) == Sanitize(s)
  {
    SanitizeSanitizes(s);
    SanitizedIffFixed(Sanitize(s));
  }

  function SanitizeTimes(n: nat, s: string): string {
    if n == 0 then s else Sanitize(SanitizeTimes(n - 1, s))
  }

  /** The error path sanitises one message in the span, in the event's extra data and in
      the outgoing event; however often it does, the text is that of the first time. */
  lemma {:induction false} RepeatedSanitizing(n: nat, s: string)
    requires n > 0
    ensures SanitizeTimes(n, s) == Sanitize(s)
  {
    if n > 1 {
      RepeatedSanitizing(n - 1, s);
      SanitizeIdempotent(s);
    }
  }

  // ---------- What scrubbing keeps ----------

  /** A reading of a text as plain characters and paths below one root. */
  datatype Piece = Plain(c: char) | Path(component: string)

  function Raw(root: string, ps: seq<Piece>): string {
    if ps == [] then ""
    else (match ps[0] case Plain(c) => [c] case Path(x) => root + x) + Raw(root, ps[1..])
  }

  function Shown(root: string, ps: seq<Piece>): string {
    if ps == [] then ""
    else (match ps[0] case Plain(c) => [c] case Path(_) => root + REDACTED) + Shown(root, ps[1..])
  }

  /** Each path is as long as it can be and starts as early as it can. */
  ghost predicate Leftmost(root: string, ps: seq<Piece>) {
    ps != [] ==>
      && Leftmost(root, ps[1..])
      && match ps[0]
         case Plain(_) => !StartsPath(root, Raw(root, ps))
         case Path(x) => x != "" && Component(x + Raw(root, ps[1..])) == x
  }

  lemma PrependPath(root: string, x: string, rest: seq<Piece>)
    requires Leftmost(root, rest) && x != "" && Component(x + Raw(root, rest)) == x
    ensures Leftmost(root, [Path(x)] + rest)
    ensures Raw(root, [Path(x)] + rest) == root + x + Raw(root, rest)
  {
    assert ([Path(x)] + rest)[1..] == rest;
  }

  /** Every text has such a reading. */
  lemma {:induction false} ReadPieces(root: string, s: string) returns (ps: seq<Piece>)
    ensures Leftmost(root, ps) && Raw(root, ps) == s
    decreases |s|
  {
    if s == "" {
      ps := [];
    } else if StartsPath(root, s) {
      PathParts(root, s);
      var x := Component(s[|root|..]);
      var tail := s[|root| + |x|..];
      var rest := ReadPieces(root, tail);
      assert s[|root|..] == x + tail;
      PrependPath(root, x, rest);
      ps := [Path(x)] + rest;
    } else {
      var rest := ReadPieces(root, s[1..]);
      ps := [Plain(s[0])] + rest;
      assert ps[1..] == rest;
    }
  }

  /** Scrubbing changes the components of paths and nothing else. */
  lemma {:induction false} ScrubShowsPieces(root: string, ps: seq<Piece>)
    requires Leftmost(root, ps)
    ensures Scrub(root, Raw(root, ps)) == Shown(root, ps)
  {
    if ps != [] {
      ScrubShowsPieces(root, ps[1..]);
      var s, rest := Raw(root, ps), Raw(root, ps[1..]);
      match ps[0] {
        case Plain(c) =>
          assert s[1..] == rest;
        case Path(x) =>
          assert s[|root|..] == x + rest;
          assert s[|root| + |x|..] == rest;
      }
    }
  }

  // ---------- What sanitising returns ----------

  /** A reading of a text as plain characters and paths below either root. A path below `/Users/`
      whose slash ends a path below `/home/` loses both components (`NestedPath`). */
  datatype Part = Other(c: char) | UsersPath(user: string) | HomePath(home: string) | NestedPath(nested: string)

  function RawPart(part: Part): string {
    match part
    case Other(c) => [c]
    case UsersPath(x) => USERS + x
    case HomePath(x) => HOME + x
    case NestedPath(x) => "/home" + USERS + x
  }

  function ShownPart(part: Part): string {
    match part
    case Other(c) => [c]
    case UsersPath(_) => USERS + REDACTED
    case HomePath(_) => HOME + REDACTED
    case NestedPath(_) => HOME + REDACTED + "/" + REDACTED
  }

  function RawParts(parts: seq<Part>): string {
    if parts == [] then "" else RawPart(parts[0]) + RawParts(parts[1..])
  }

  function ShownParts(parts: seq<Part>): string {
    if parts == [] then "" else ShownPart(parts[0]) + ShownParts(parts[1..])
  }

  predicate StartsNested(s: string) {
    "/home" <= s && StartsPath(USERS, s[5..])
  }

  /** `x` is a whole component before `rest`. */
  predicate WholeComponent(x: string, rest: string) {
    x != "" && Component(x + rest) == x
  }

  /** The part is the path that starts at the front of the text, if one does. */
  predicate FrontPart(part: Part, rest: string) {
    var s := RawPart(part) + rest;
    match part
    case Other(_) => !StartsPath(USERS, s) && !StartsPath(HOME, s)
    case UsersPath(x) => WholeComponent(x, rest)
    case HomePath(x) => WholeComponent(x, rest) && !StartsNested(s)
    case NestedPath(x) => WholeComponent(x, rest)
  }

  /** Paths start as early as they can and are as long as they can be. */
  predicate LeftmostParts(parts: seq<Part>) {
    parts != [] ==> FrontPart(parts[0], RawParts(parts[1..])) && LeftmostParts(parts[1..])
  }

  lemma {:induction false} ComponentRest(x: string, rest: string)
    requires WholeComponent(x, rest)
    ensures forall k :: 0 <= k < |x| ==> !IsDelimiter(x[k])
    ensures rest == "" || IsDelimiter(rest[0])
  {
    ComponentIsPrefix(x + rest);
    assert forall k :: 0 <= k < |x| ==> (x + rest)[k] == x[k];
    assert rest != "" ==> (x + rest)[|x|] == rest[0];
  }

  /** Where no path starts, a pass copies. */
  lemma {:induction false} ScrubCopies(root: string, front: string, rest: string)
    requires forall k :: 0 <= k < |front| ==> !StartsPath(root, front[k..] + rest)
    ensures Scrub(root, front + rest) == front + Scrub(root, rest)
  {
    if front == "" {
      assert front + rest == rest;
    } else {
      var s, tail := front + rest, front[1..];
      assert front[0..] + rest == s && s[1..] == tail + rest;
      forall k | 0 <= k < |tail| ensures !StartsPath(root, tail[k..] + rest) {
        assert tail[k..] == front[k + 1..];
      }
      ScrubCopies(root, tail, rest);
      assert [front[0]] + tail == front;
    }
  }

  lemma ScrubPathAt(root: string, x: string, rest: string)
    requires WholeComponent(x, rest)
    ensures Scrub(root, root + x + rest) == root + REDACTED + Scrub(root, rest)
  {
    var s := root + x + rest;
    assert s[|root|..] == x + rest && s[..|root|] == root && s[|root| + |x|..] == rest;
    ScrubAtPath(root, s, |root| + |x|);
  }

  lemma MarkerIsWhole(rest: string)
    requires rest == "" || IsDelimiter(rest[0])
    ensures WholeComponent(REDACTED, rest)
  {
    MarkerShape();
    ComponentOf(REDACTED, rest);
  }

  lemma NoPathWithoutSlash(root: string, s: string)
    requires IsRoot(root) && (s == "" || s[0] != '/')
    ensures !StartsPath(root, s)
  {
    RootShape(root);
  }

  /** A slash starts a path only before the root's name. */
  lemma NoPathAtSlash(root: string, s: string)
    requires IsRoot(root) && (|s| < 2 || s[1] != root[1])
    ensures !StartsPath(root, s)
  {
    RootShape(root);
  }

  /** A path of one root may start inside a path of either root only at the slash that ends the root. */
  lemma ScrubPassesPath(root: string, front: string, x: string, rest: string)
    requires IsRoot(root) && IsRoot(front) && !StartsPath(root, front + x + rest)
    requires forall k :: 0 <= k < |x| ==> !IsDelimiter(x[k])
    requires !StartsPath(root, "/" + x + rest)
    ensures Scrub(root, front + x + rest) == front + x + Scrub(root, rest)
  {
    RootShape(front);
    var whole, n := front + x, |front|;
    forall k | 0 <= k < |whole| ensures !StartsPath(root, whole[k..] + rest) {
      var s := whole[k..] + rest;
      if k == 0 {
        assert s == front + x + rest;
      } else if k == n - 1 {
        assert whole[k..] == "/" + x;
      } else {
        assert s[0] == whole[k] == if k < n then front[k] else x[k - n];
        NoPathWithoutSlash(root, s);
      }
    }
    ScrubCopies(root, whole, rest);
  }

  lemma OtherShown(c: char, rest: string)
    requires !StartsPath(USERS, [c] + rest) && !StartsPath(HOME, [c] + rest)
    ensures ScrubPaths([c] + rest) == [c] + ScrubPaths(rest)
  {
    var s, t := [c] + rest, [c] + Scrub(USERS, rest);
    assert s[1..] == rest && t[1..] == Scrub(USERS, rest) && Scrub(USERS, s) == t;
    if StartsPath(HOME, t) {
      SameFront(USERS, HOME, s);
      assert s == HOME + s[6..];
      HomeBeforeEnd(s[6..]);
      assert t[6..] == Scrub(USERS, s[6..]);
      StartAfterComponent(USERS, s[6..]);
    }
  }

  /** `/home/` without a component is copied. */
  lemma HomeBeforeEnd(rest: string)
    requires Component(rest) == ""
    ensures Scrub(USERS, HOME + rest) == HOME + Scrub(USERS, rest)
  {
    assert "/" + "" + rest == "/" + rest && HOME + "" + rest == HOME + rest && HOME + "" == HOME;
    assert ("/" + rest)[0] == '/' && (rest != "" ==> ("/" + rest)[1] == rest[0]);
    NoPathAtSlash(USERS, "/" + rest);
    assert (HOME + rest)[1] == 'h';
    NoPathAtSlash(USERS, HOME + rest);
    ScrubPassesPath(USERS, HOME, "", rest);
  }

  lemma UsersShown(x: string, rest: string)
    requires WholeComponent(x, rest)
    ensures ScrubPaths(USERS + x + rest) == USERS + REDACTED + ScrubPaths(rest)
  {
    ComponentRest(x, rest);
    ScrubPathAt(USERS, x, rest);
    MarkerShape();
    var after := Scrub(USERS, rest);
    assert (USERS + REDACTED + after)[1] == 'U' && ("/" + REDACTED + after)[1] == '<';
    NoPathAtSlash(HOME, USERS + REDACTED + after);
    NoPathAtSlash(HOME, "/" + REDACTED + after);
    ScrubPassesPath(HOME, USERS, REDACTED, after);
  }

  lemma HomeShown(x: string, rest: string)
    requires WholeComponent(x, rest) && !StartsNested(HOME + x + rest)
    ensures ScrubPaths(HOME + x + rest) == HOME + REDACTED + ScrubPaths(rest)
  {
    ComponentRest(x, rest);
    var s, after := HOME + x + rest, Scrub(USERS, rest);
    assert s[5..] == "/" + x + rest && s[..5] == "/home" && s[1] == 'h';
    NoPathAtSlash(USERS, s);
    ScrubPassesPath(USERS, HOME, x, rest);
    StartAfterComponent(USERS, rest);
    ComponentOf(x, after);
    ScrubPathAt(HOME, x, after);
  }

  lemma NestedShown(x: string, rest: string)
    requires WholeComponent(x, rest)
    ensures ScrubPaths("/home" + USERS + x + rest) == HOME + REDACTED + "/" + REDACTED + ScrubPaths(rest)
  {
    ComponentRest(x, rest);
    var path, after := USERS + x + rest, Scrub(USERS, rest);
    forall k | 0 <= k < 5 ensures !StartsPath(USERS, "/home"[k..] + path) {
      var s := "/home"[k..] + path;
      assert k > 0 ==> s[0] == "/home"[k] && "/home"[k] in "home";
      if k == 0 {
        assert s[1] == 'h';
        NoPathAtSlash(USERS, s);
      } else {
        NoPathWithoutSlash(USERS, s);
      }
    }
    ScrubCopies(USERS, "/home", path);
    assert "/home" + path == "/home" + USERS + x + rest;
    ScrubPathAt(USERS, x, rest);
    NestedHome(after);
  }

  lemma NestedHome(after: string)
    requires after == "" || IsDelimiter(after[0])
    ensures Scrub(HOME, "/home" + (USERS + REDACTED + after)) == HOME + REDACTED + "/" + REDACTED + Scrub(HOME, after)
  {
    var tail := "/" + REDACTED + after;
    RegroupNested(REDACTED, after);
    UsersIsComponent(tail);
    ScrubPathAt(HOME, "Users", tail);
    MarkerIsCopied(after);
    Reassociate(HOME + REDACTED, "/" + REDACTED, Scrub(HOME, after));
    Reassociate(HOME + REDACTED, "/", REDACTED);
  }

  lemma RegroupNested(x: string, after: string)
    ensures "/home" + (USERS + x + after) == HOME + "Users" + ("/" + x + after)
  {
    assert "/home" + USERS == HOME + "Users" + "/";
    Reassociate("/home", USERS + x, after);
    Reassociate("/home", USERS, x);
    Reassociate(HOME + "Users", "/" + x, after);
    Reassociate(HOME + "Users", "/", x);
  }

  lemma UsersIsComponent(tail: string)
    requires tail != "" && tail[0] == '/'
    ensures WholeComponent("Users", tail)
  {
    assert forall k :: 0 <= k < 5 ==> "Users"[k] in "Users";
    ComponentOf("Users", tail);
  }

  lemma MarkerIsCopied(after: string)
    ensures Scrub(HOME, "/" + REDACTED + after) == "/" + REDACTED + Scrub(HOME, after)
  {
    MarkerShape();
    var marker := "/" + REDACTED;
    forall k | 0 <= k < |marker| ensures !StartsPath(HOME, marker[k..] + after) {
      var s := marker[k..] + after;
      assert s[0] == marker[k] && (k > 0 ==> marker[k] == REDACTED[k - 1]);
      if k == 0 {
        assert s[1] == '<';
        NoPathAtSlash(HOME, s);
      } else {
        NoPathWithoutSlash(HOME, s);
      }
    }
    ScrubCopies(HOME, marker, after);
  }

  lemma PartShown(part: Part, rest: string)
    requires FrontPart(part, rest)
    ensures ScrubPaths(RawPart(part) + rest) == ShownPart(part) + ScrubPaths(rest)
  {
    match part
    case Other(c) => OtherShown(c, rest);
    case UsersPath(x) => UsersShown(x, rest);
    case HomePath(x) => HomeShown(x, rest);
    case NestedPath(x) => NestedShown(x, rest);
  }

  /** The two passes are one: they replace the components of the reading's paths and nothing else. */
  lemma {:induction false} PassesShowParts(parts: seq<Part>)
    requires LeftmostParts(parts)
    ensures ScrubPaths(RawParts(parts)) == ShownParts(parts)
  {
    if parts != [] {
      PassesShowParts(parts[1..]);
      PartShown(parts[0], RawParts(parts[1..]));
    }
  }

  lemma PathAtFront(root: string, s: string) returns (x: string, rest: string)
    requires StartsPath(root, s)
    ensures s == root + x + rest && WholeComponent(x, rest)
  {
    PathParts(root, s);
    x, rest := Component(s[|root|..]), s[|root| + |Component(s[|root|..])|..];
    assert x + rest == s[|root|..];
  }

  lemma ReadFront(s: string) returns (part: Part, rest: string)
    requires s != ""
    ensures s == RawPart(part) + rest && FrontPart(part, rest) && |rest| < |s|
  {
    if StartsNested(s) {
      var x;
      x, rest := PathAtFront(USERS, s[5..]);
      part := NestedPath(x);
      assert s == "/home" + (USERS + x + rest);
    } else if StartsPath(USERS, s) {
      var x;
      x, rest := PathAtFront(USERS, s);
      part := UsersPath(x);
    } else if StartsPath(HOME, s) {
      var x;
      x, rest := PathAtFront(HOME, s);
      part := HomePath(x);
    } else {
      part, rest := Other(s[0]), s[1..];
    }
  }

  lemma {:induction false} ReadParts(s: string) returns (parts: seq<Part>)
    ensures RawParts(parts) == s && LeftmostParts(parts)
    decreases |s|
  {
    if s == "" {
      parts := [];
    } else {
      var part, rest := ReadFront(s);
      var more := ReadParts(rest);
      parts := [part] + more;
      assert parts[1..] == more;
    }
  }

  /** What sanitising returns, for every text: the first 200 characters of the text with the
      component of each path replaced by the marker. */
  lemma SanitizeShowsParts(s: string) returns (parts: seq<Part>)
    ensures RawParts(parts) == s && LeftmostParts(parts)
    ensures var shown := ShownParts(parts);
      Sanitize(s) == if |shown| <= 200 then shown else shown[..200]
  {
    parts := ReadParts(s);
    PassesShowParts(parts);
  }

  /** No text has another such reading. */
  lemma {:induction false} ReadingIsUnique(a: seq<Part>, b: seq<Part>)
    requires LeftmostParts(a) && LeftmostParts(b) && RawParts(a) == RawParts(b)
    ensures a == b
  {
    if a != [] && b != [] {
      FrontIsUnique(a[0], RawParts(a[1..]), b[0], RawParts(b[1..]));
      ReadingIsUnique(a[1..], b[1..]);
    } else {
      RawIsEmpty(a);
      RawIsEmpty(b);
    }
  }

  lemma RawIsEmpty(parts: seq<Part>)
    ensures RawParts(parts) == "" <==> parts == []
  {
    assert parts != [] ==> |RawPart(parts[0])| > 0;
  }

  lemma FrontIsUnique(a: Part, s: string, b: Part, t: string)
    requires FrontPart(a, s) && FrontPart(b, t) && RawPart(a) + s == RawPart(b) + t
    ensures a == b && s == t
  {
    FrontStarts(a, s);
    FrontStarts(b, t);
    match a
    case Other(c) => SameOther(c, s, b.c, t);
    case UsersPath(x) => SamePath(USERS, x, s, b.user, t);
    case HomePath(x) => SamePath(HOME, x, s, b.home, t);
    case NestedPath(x) => SamePath("/home" + USERS, x, s, b.nested, t);
  }

  lemma SameOther(c: char, s: string, d: char, t: string)
    requires [c] + s == [d] + t
    ensures c == d && s == t
  {
    assert ([c] + s)[0] == c && ([d] + t)[0] == d && ([c] + s)[1..] == s && ([d] + t)[1..] == t;
  }

  lemma SamePath(root: string, x: string, s: string, y: string, t: string)
    requires WholeComponent(x, s) && WholeComponent(y, t) && root + x + s == root + y + t
    ensures x == y && s == t
  {
    assert (root + x + s)[|root|..] == x + s && (root + y + t)[|root|..] == y + t;
    assert (x + s)[|x|..] == s && (y + t)[|y|..] == t;
  }

  /** Which part stands at the front can be read off the text. */
  lemma FrontStarts(part: Part, rest: string)
    requires FrontPart(part, rest)
    ensures var s := RawPart(part) + rest;
      && (part.NestedPath? <==> StartsNested(s))
      && (part.UsersPath? <==> StartsPath(USERS, s))
      && (part.HomePath? <==> StartsPath(HOME, s) && !StartsNested(s))
  {
    var s := RawPart(part) + rest;
    if StartsNested(s) {
      NestedIsHome(s);
    }
    OneRootStarts(s);
    match part
    case Other(_) =>
    case UsersPath(x) => StartsWithPath(USERS, x, rest);
    case HomePath(x) => StartsWithPath(HOME, x, rest);
    case NestedPath(x) => StartsWithNested(x, rest);
  }

  lemma OneRootStarts(s: string)
    ensures !(StartsPath(USERS, s) && StartsPath(HOME, s))
  {
    assert USERS[1] == 'U' && HOME[1] == 'h';
  }

  lemma StartsWithNested(x: string, rest: string)
    requires WholeComponent(x, rest)
    ensures StartsNested("/home" + USERS + x + rest)
  {
    var s := "/home" + USERS + x + rest;
    assert s[5..] == USERS + x + rest && s[..5] == "/home";
    StartsWithPath(USERS, x, rest);
  }

  lemma StartsWithPath(root: string, x: string, rest: string)
    requires WholeComponent(x, rest) && IsRoot(root)
    ensures StartsPath(root, root + x + rest)
  {
    assert (root + x + rest)[|root|..] == x + rest;
  }

  lemma NestedIsHome(s: string)
    requires StartsNested(s)
    ensures StartsPath(HOME, s)
  {
    var tail := s[5..];
    assert tail[0] == '/' && tail[1] == 'U' && s[5] == '/' && s[6] == 'U';
    assert s[..6] == s[..5] + [s[5]] == HOME;
    assert s[6..][0] == 'U';
  }

  // ---------- Span attributes ----------

  datatype Attribute = Text(text: string) | Number(value: int) | Flag(on: bool) | Absent

  /** Copies the attributes, sanitising the textual ones. */
  method SanitizeAttributes(attributes: map<string, Attribute>) returns (copy: map<string, Attribute>)
    ensures copy.Keys == attributes.Keys
    ensures forall k :: k in attributes && attributes[k].Text? ==>
      copy[k].Text? && copy[k].text == Sanitize(attributes[k].text) && Sanitized(copy[k].text)
    ensures forall k :: k in attributes && !attributes[k].Text? ==> copy[k] == attributes[k]
  {
    copy := attributes;
    var keys := copy.Keys;
    while keys != {}
      invariant keys <= copy.Keys == attributes.Keys
      invariant forall k :: k in keys ==> copy[k] == attributes[k]
      invariant forall k :: k in attributes && k !in keys ==>
        if attributes[k].Text? then copy[k] == Text(Sanitize(attributes[k].text)) else copy[k] == attributes[k]
      decreases keys
    {
      var key :| key in keys;
      if copy[key].Text? {
        copy := copy[key := Text(Sanitize(copy[key].text))];
      }
      keys := keys - {key};
    }
    forall k | k in attributes && attributes[k].Text?
      ensures Sanitized(copy[k].text)
    {
      SanitizeSanitizes(attributes[k].text);
    }
  }
}

/** The public form of structure findings: scrubbed messages in a canonical order. */
module PublicFindings {
  import opened Wrappers
  import opened Sorting

  // ----- Replacing a literal -----

  predicate StartsWith(s: string, target: string) {
    |target| <= |s| && s[..|target|] == target
  }

  /** `target` occurs in `s` at `i`. */
  predicate At(target: string, s: string, i: nat) {
    i + |target| <= |s| && s[i..i + |target|] == target
  }

  ghost predicate Occurs(target: string, s: string) {
    exists i: nat :: At(target, s, i)
  }

  /** Splits at every occurrence of `target`, found from left to right. */
  function Split(s: string, target: string): (parts: seq<string>)
    requires target != ""
    ensures |parts| > 0
    ensures StartsWith(s, parts[0])
    decreases |s|
  {
    if StartsWith(s, target) then [""] + Split(s[|target|..], target)
    else if s == "" then [""]
    else
      var rest := Split(s[1..], target);
      [[s[0]] + rest[0]] + rest[1..]
  }

  function JoinWith(parts: seq<string>, glue: string): string {
    if parts == [] then ""
    else if |parts| == 1 then parts[0]
    else parts[0] + glue + JoinWith(parts[1..], glue)
  }

  function ReplaceLiteral(value: string, target: string, replacement: string): string {
    if target == "" then value else JoinWith(Split(value, target), replacement)
  }

  lemma JoinPrepends(c: char, parts: seq<string>, glue: string)
    requires parts != []
    ensures JoinWith([[c] + parts[0]] + parts[1..], glue) == [c] + JoinWith(parts, glue)
  {
    var longer := [[c] + parts[0]] + parts[1..];
    assert longer[1..] == parts[1..];
    if |parts| > 1 {
      assert [c] + parts[0] + glue + JoinWith(parts[1..], glue) == [c] + (parts[0] + glue + JoinWith(parts[1..], glue));
    }
  }

  lemma JoinStarts(rest: seq<string>, glue: string)
    requires rest != []
    ensures JoinWith([""] + rest, glue) == glue + JoinWith(rest, glue)
  {
    assert ([""] + rest)[1..] == rest;
    assert "" + glue == glue;
  }

  /** Nothing is lost: joining the pieces with the target itself gives the text back. */
  lemma {:induction false} SplitJoins(s: string, target: string)
    requires target != ""
    ensures JoinWith(Split(s, target), target) == s
    decreases |s|
  {
    if StartsWith(s, target) {
      SplitJoins(s[|target|..], target);
      JoinStarts(Split(s[|target|..], target), target);
      assert s == target + s[|target|..];
    } else if s != "" {
      SplitJoins(s[1..], target);
      JoinPrepends(s[0], Split(s[1..], target), target);
      assert s == [s[0]] + s[1..];
    }
  }

  ghost predicate NoneOccurs(target: string, parts: seq<string>) {
    forall i :: 0 <= i < |parts| ==> !Occurs(target, parts[i])
  }

  lemma OccursInLonger(target: string, s: string, head: string, tail: string)
    requires Occurs(target, s)
    ensures Occurs(target, head + s + tail)
  {
    var i: nat :| At(target, s, i);
    var t := head + s + tail;
    assert t[|head| + i..|head| + i + |target|] == s[i..i + |target|];
    assert At(target, t, |head| + i);
  }

  /** No piece holds a text that the whole does not hold. */
  lemma {:induction false} SplitAddsNothing(s: string, target: string, other: string)
    requires target != "" && !Occurs(other, s)
    ensures NoneOccurs(other, Split(s, target))
    decreases |s|
  {
    var parts := Split(s, target);
    if StartsWith(s, target) {
      var rest := s[|target|..];
      assert target + rest + "" == s;
      assert "" + "" + s == s;
      if Occurs(other, rest) { OccursInLonger(other, rest, target, ""); }
      if Occurs(other, "") { OccursInLonger(other, "", "", s); }
      SplitAddsNothing(rest, target, other);
    } else if s != "" {
      var rest := s[1..];
      assert [s[0]] + rest + "" == s;
      if Occurs(other, rest) { OccursInLonger(other, rest, [s[0]], ""); }
      SplitAddsNothing(rest, target, other);
      assert "" + parts[0] + s[|parts[0]|..] == s;
      if Occurs(other, parts[0]) { OccursInLonger(other, parts[0], "", s[|parts[0]|..]); }
    }
  }

  /** No piece holds the text it was split at. */
  lemma {:induction false} SplitRemoves(s: string, target: string)
    requires target != ""
    ensures NoneOccurs(target, Split(s, target))
    decreases |s|
  {
    var parts := Split(s, target);
    if StartsWith(s, target) {
      SplitRemoves(s[|target|..], target);
    } else if s != "" {
      SplitRemoves(s[1..], target);
      var rest := Split(s[1..], target);
      assert !Occurs(target, parts[0]) by {
        forall i: nat
          ensures !At(target, parts[0], i)
        {
          if At(target, parts[0], i) {
            LaterOccurrence(target, s[0], rest[0], s, i);
          }
        }
      }
    }
  }

  /** An occurrence behind the first character is one in the rest. */
  lemma LaterOccurrence(target: string, c: char, rest: string, s: string, i: nat)
    requires At(target, [c] + rest, i) && StartsWith(s, [c] + rest)
    ensures StartsWith(s, target) || Occurs(target, rest)
  {
    var part := [c] + rest;
    if i == 0 {
      assert s[..|target|] == part[..|target|];
    } else {
      assert rest[i - 1..i - 1 + |target|] == part[i..i + |target|];
      assert At(target, rest, i - 1);
    }
  }

  // ----- The inserted text is no hiding place -----

  lemma OccurrenceBrings(target: string, s: string, i: nat, c: char)
    requires At(target, s, i) && c in target
    ensures c in s
  {
    var k :| 0 <= k < |target| && target[k] == c;
    assert s[i..i + |target|][k] == s[i + k];
  }

  const ROOT := "<root>"

  /** `w` can begin where the inserted text begins. */
  predicate Meets(w: string) {
    w <= ROOT || ROOT <= w
  }

  /** The target can be completed across an inserted text: from before it, or from within it. */
  predicate Completable(target: string) {
    || (exists k :: 0 < k < |target| && Meets(target[k..]))
    || (exists d :: 0 <= d < |ROOT| && ROOT[d..] <= target)
  }

  predicate HasSeparator(target: string) {
    '/' in target || '\\' in target
  }

  lemma NotWithinRoot(target: string, i: nat)
    requires HasSeparator(target)
    ensures !At(target, ROOT, i)
  {
    if At(target, ROOT, i) {
      OccurrenceBrings(target, ROOT, i, if '/' in target then '/' else '\\');
    }
  }

  lemma CompletedFromBefore(target: string, p: string, rest: string, i: nat)
    requires At(target, p + ROOT + rest, i) && i < |p| < i + |target|
    ensures Completable(target)
  {
    var k, n, s := |p| - i, |target|, p + ROOT + rest;
    assert target[k..] == s[i..i + n][k..] == s[|p|..i + n];
    assert s[|p|..] == ROOT + rest;
    assert s[|p|..i + n] == (ROOT + rest)[..n - k];
    assert Meets(target[k..]);
  }

  lemma CompletedFromWithin(target: string, p: string, rest: string, i: nat)
    requires HasSeparator(target) && At(target, p + ROOT + rest, i) && |p| <= i < |p| + |ROOT|
    ensures Completable(target)
  {
    var d, n, s := i - |p|, |target|, p + ROOT + rest;
    NotWithinRoot(target, d);
    assert s[|p|..] == ROOT + rest;
    assert target == s[i..i + n] == (ROOT + rest)[d..d + n];
    assert ROOT[d..] <= target;
  }

  lemma OccurrenceIsCompleted(target: string, p: string, rest: string, i: nat)
    requires HasSeparator(target) && At(target, p + ROOT + rest, i)
    ensures Occurs(target, p) || Occurs(target, rest) || Completable(target)
  {
    var s := p + ROOT + rest;
    if i + |target| <= |p| {
      assert p[i..i + |target|] == s[i..i + |target|];
      assert At(target, p, i);
    } else if i < |p| {
      CompletedFromBefore(target, p, rest, i);
    } else if i < |p| + |ROOT| {
      CompletedFromWithin(target, p, rest, i);
    } else {
      var j := i - |p| - |ROOT|;
      assert rest[j..j + |target|] == s[i..i + |target|];
      assert At(target, rest, j);
    }
  }

  /** The inserted text hides only what can be completed across it. */
  lemma NoOccurrenceAcross(target: string, p: string, rest: string)
    requires HasSeparator(target) && !Completable(target) && !Occurs(target, p) && !Occurs(target, rest)
    ensures !Occurs(target, p + ROOT + rest)
  {
    if i: nat :| At(target, p + ROOT + rest, i) {
      OccurrenceIsCompleted(target, p, rest, i);
    }
  }

  lemma {:induction false} JoinHidesNothing(parts: seq<string>, target: string)
    requires HasSeparator(target) && !Completable(target) && parts != [] && NoneOccurs(target, parts)
    ensures !Occurs(target, JoinWith(parts, ROOT))
  {
    if |parts| > 1 {
      JoinHidesNothing(parts[1..], target);
      NoOccurrenceAcross(target, parts[0], JoinWith(parts[1..], ROOT));
    }
  }

  // ----- Messages -----

  function ReplaceChar(s: string, from: char, to: char): (r: string)
    ensures |r| == |s|
    ensures forall i :: 0 <= i < |s| ==> r[i] == if s[i] == from then to else s[i]
  {
    seq(|s|, i requires 0 <= i < |s| => if s[i] == from then to else s[i])
  }

  /** The root as resolved and with either kind of slash, each spelling once. */
  function Candidates(root: string): seq<string> {
    var slashes, backslashes := ReplaceChar(root, '\\', '/'), ReplaceChar(root, '/', '\\');
    [root]
    + (if slashes == root then [] else [slashes])
    + (if backslashes == root || backslashes == slashes then [] else [backslashes])
  }

  /** The message after the first `k` candidates have been replaced. */
  function Scrubbed(message: string, candidates: seq<string>, k: nat): string
    requires k <= |candidates|
  {
    if k == 0 then message else ReplaceLiteral(Scrubbed(message, candidates, k - 1), candidates[k - 1], ROOT)
  }

  function PublicMessage(message: string, root: string): string {
    Scrubbed(message, Candidates(root), |Candidates(root)|)
  }

  method ComputePublicMessage(value: Option<string>, root: string) returns (message: string)
    ensures message == PublicMessage(if value.Some? then value.value else "", root)
  {
    message := if value.Some? then value.value else "";
    ghost var given := message;
    var candidates := Candidates(root);
    var k := 0;
    while k < |candidates|
      invariant 0 <= k <= |candidates|
      invariant message == Scrubbed(given, candidates, k)
    {
      message := ReplaceLiteral(message, candidates[k], ROOT);
      k := k + 1;
    }
  }

  lemma ReplaceRemoves(s: string, target: string)
    requires HasSeparator(target) && !Completable(target)
    ensures !Occurs(target, ReplaceLiteral(s, target, ROOT))
  {
    SplitRemoves(s, target);
    JoinHidesNothing(Split(s, target), target);
  }

  lemma ReplaceKeepsAway(s: string, target: string, other: string)
    requires target != "" && HasSeparator(other) && !Completable(other) && !Occurs(other, s)
    ensures !Occurs(other, ReplaceLiteral(s, target, ROOT))
  {
    SplitAddsNothing(s, target, other);
    JoinHidesNothing(Split(s, target), other);
  }

  lemma {:induction false} ScrubbedIsClean(message: string, candidates: seq<string>, k: nat)
    requires k <= |candidates|
    requires forall i :: 0 <= i < |candidates| ==> HasSeparator(candidates[i]) && !Completable(candidates[i])
    ensures forall i :: 0 <= i < k ==> !Occurs(candidates[i], Scrubbed(message, candidates, k))
  {
    if k > 0 {
      ScrubbedIsClean(message, candidates, k - 1);
      var s := Scrubbed(message, candidates, k - 1);
      ReplaceRemoves(s, candidates[k - 1]);
      forall i | 0 <= i < k - 1
        ensures !Occurs(candidates[i], Scrubbed(message, candidates, k))
      {
        ReplaceKeepsAway(s, candidates[k - 1], candidates[i]);
      }
    }
  }

  // ----- Roots that can be completed -----

  predicate Separator(c: char) {
    c == '/' || c == '\\'
  }

  /** Two spellings of one path: they differ at most in the kind of separator. */
  predicate SamePath(a: string, b: string) {
    |a| == |b| && forall i :: 0 <= i < |a| ==> a[i] == b[i] || (Separator(a[i]) && Separator(b[i]))
  }

  lemma SameMeets(a: string, b: string, k: nat)
    requires SamePath(a, b) && k < |a| && Meets(a[k..])
    ensures Meets(b[k..])
  {
    var n := if |a| - k <= |ROOT| then |a| - k else |ROOT|;
    assert forall i :: 0 <= i < n ==> a[k..][i] == ROOT[i] && !Separator(ROOT[i]);
    assert forall i :: 0 <= i < n ==> b[k..][i] == b[k + i] == a[k + i] == ROOT[i];
    if |a| - k <= |ROOT| {
      assert b[k..] == ROOT[..n];
    } else {
      assert b[k..][..n] == ROOT;
    }
  }

  lemma SameWithin(a: string, b: string, d: nat)
    requires SamePath(a, b) && d < |ROOT| && ROOT[d..] <= a
    ensures ROOT[d..] <= b
  {
    var n := |ROOT| - d;
    forall i | 0 <= i < n
      ensures b[i] == ROOT[d + i]
    {
      assert a[..n][i] == ROOT[d..][i] == ROOT[d + i];
    }
    assert b[..n] == ROOT[d..];
  }

  lemma SameCompletable(a: string, b: string)
    requires SamePath(a, b) && Completable(a)
    ensures Completable(b)
  {
    if k :| 0 < k < |a| && Meets(a[k..]) {
      SameMeets(a, b, k);
    } else {
      var d :| 0 <= d < |ROOT| && ROOT[d..] <= a;
      SameWithin(a, b, d);
    }
  }

  lemma CandidatesAreSpellings(root: string, i: nat)
    requires HasSeparator(root) && i < |Candidates(root)|
    ensures SamePath(Candidates(root)[i], root) && HasSeparator(Candidates(root)[i])
  {
    var at :| 0 <= at < |root| && Separator(root[at]);
    assert Separator(Candidates(root)[i][at]);
    assert Candidates(root)[i][at] in Candidates(root)[i];
  }

  /** `message` holds a spelling of the root. */
  ghost predicate Mentions(message: string, root: string) {
    || Occurs(root, message)
    || Occurs(ReplaceChar(root, '\\', '/'), message)
    || Occurs(ReplaceChar(root, '/', '\\'), message)
  }

  /** Whether some spelling of the root is left in the public form of the message. */
  ghost predicate Keeps(message: string, root: string) {
    Mentions(PublicMessage(message, root), root)
  }

  /** No spelling survives, in any message, of a root that cannot be completed across `<root>`. */
  lemma NoSpellingSurvives(message: string, root: string)
    requires HasSeparator(root) && !Completable(root)
    ensures !Keeps(message, root)
  {
    var candidates := Candidates(root);
    forall i | 0 <= i < |candidates|
      ensures HasSeparator(candidates[i]) && !Completable(candidates[i])
    {
      CandidatesAreSpellings(root, i);
      if Completable(candidates[i]) {
        SameCompletable(candidates[i], root);
      }
    }
    ScrubbedIsClean(message, candidates, |candidates|);
    assert candidates[0] == root;
    assert ReplaceChar(root, '\\', '/') in candidates && ReplaceChar(root, '/', '\\') in candidates;
  }

  /** A root without angle brackets cannot be completed. */
  lemma BracketsComplete(root: string)
    requires '<' !in root && '>' !in root
    ensures !Completable(root)
  {
    forall k | 0 < k < |root|
      ensures !Meets(root[k..])
    {
      assert root[k] in root && root[k..][0] == root[k];
    }
    forall d | 0 <= d < |ROOT|
      ensures !(ROOT[d..] <= root)
    {
      assert ROOT[d..][|ROOT| - d - 1] == '>';
    }
  }

  /** A text that does not hold the target stays as it is. */
  lemma {:induction false} NothingToReplace(s: string, target: string)
    requires target != "" && !Occurs(target, s)
    ensures Split(s, target) == [s]
    decreases |s|
  {
    assert !StartsWith(s, target) by {
      assert !At(target, s, 0);
    }
    if s != "" {
      var rest := s[1..];
      assert [s[0]] + rest + "" == s;
      if Occurs(target, rest) { OccursInLonger(target, rest, [s[0]], ""); }
      NothingToReplace(rest, target);
      assert [s[0]] + rest == s;
      assert Split(s, target) == [[s[0]] + rest] + [rest][1..];
    }
  }

  lemma OneFurther(target: string, s: string, j: nat)
    requires s != ""
    ensures At(target, s[1..], j) ==> At(target, s, j + 1)
  {
    if At(target, s[1..], j) {
      assert s[j + 1..j + 1 + |target|] == s[1..][j..j + |target|];
    }
  }

  /** The first occurrence is cut out, and the rest is split alone. */
  lemma {:induction false} SplitsFirst(a: string, target: string, rest: string)
    requires target != ""
    requires forall j: nat :: j < |a| ==> !At(target, a + target + rest, j)
    ensures Split(a + target + rest, target) == [a] + Split(rest, target)
  {
    var s := a + target + rest;
    if a == "" {
      assert s == target + rest && s[|target|..] == rest;
    } else {
      var shorter := a[1..] + target + rest;
      assert s[1..] == shorter;
      forall j: nat | j < |a[1..]|
        ensures !At(target, shorter, j)
      {
        OneFurther(target, s, j);
      }
      SplitsFirst(a[1..], target, rest);
      assert !StartsWith(s, target) by {
        assert !At(target, s, 0);
      }
      assert [s[0]] + a[1..] == a && ([a[1..]] + Split(rest, target))[1..] == Split(rest, target);
    }
  }

  /** Replacing goes from left to right: each occurrence is replaced whole, and everything else stays. */
  lemma ReplacesLeftToRight(a: string, target: string, rest: string, replacement: string)
    requires target != ""
    requires forall j: nat :: j < |a| ==> !At(target, a + target + rest, j)
    ensures ReplaceLiteral(a + target + rest, target, replacement) == a + replacement + ReplaceLiteral(rest, target, replacement)
    ensures !Occurs(target, rest) ==> ReplaceLiteral(rest, target, replacement) == rest
  {
    SplitsFirst(a, target, rest);
    assert ([a] + Split(rest, target))[1..] == Split(rest, target);
    if !Occurs(target, rest) {
      NothingToReplace(rest, target);
    }
  }

  lemma ShorterHoldsNothing(target: string, s: string)
    requires |s| < |target|
    ensures !Occurs(target, s)
  {
  }

  lemma ReplacesOnce(a: string, target: string, b: string)
    requires |b| < |target| && forall j: nat :: j < |a| ==> !At(target, a + target + b, j)
    ensures ReplaceLiteral(a + target + b, target, ROOT) == a + ROOT + b
  {
    ShorterHoldsNothing(target, b);
    ReplacesLeftToRight(a, target, b, ROOT);
  }

  /** The other spellings leave the text alone. */
  lemma {:induction false} OthersChangeNothing(message: string, text: string, root: string, k: nat)
    requires HasSeparator(root) && 1 <= k <= |Candidates(root)|
    requires ReplaceLiteral(message, root, ROOT) == text
    requires forall other, i: nat :: SamePath(other, root) && other != root ==> !At(other, text, i)
    ensures Scrubbed(message, Candidates(root), k) == text
  {
    if k == 1 {
      assert Scrubbed(message, Candidates(root), 0) == message;
    } else {
      OthersChangeNothing(message, text, root, k - 1);
      var other := Candidates(root)[k - 1];
      CandidatesAreSpellings(root, k - 1);
      assert other != root;
      NothingToReplace(text, other);
    }
  }

  /** The message that completes the root from before the inserted text. */
  function Before(root: string, k: nat): string
    requires k < |root|
  {
    root[..k] + root + if |root| - k > |ROOT| then root[k + |ROOT|..] else ""
  }

  function AfterBefore(root: string, k: nat): string
    requires k < |root|
  {
    root[..k] + ROOT + if |root| - k > |ROOT| then root[k + |ROOT|..] else ""
  }

  lemma AtTells(target: string, s: string, i: nat, k: nat)
    ensures At(target, s, i) && k < |target| ==> s[i + k] == target[k]
  {
    if At(target, s, i) && k < |target| {
      assert s[i..i + |target|][k] == s[i + k];
    }
  }

  lemma MeetsStarts(w: string)
    requires w != "" && Meets(w)
    ensures w[0] == '<'
  {
  }

  lemma BeforeReplaces(root: string, k: nat)
    requires 0 < k < |root| && Meets(root[k..]) && root[0] != '<'
    ensures ReplaceLiteral(Before(root, k), root, ROOT) == AfterBefore(root, k)
  {
    MeetsStarts(root[k..]);
    assert root[k] == '<';
    var b := if |root| - k > |ROOT| then root[k + |ROOT|..] else "";
    var s := root[..k] + root + b;
    forall j: nat | j < |root[..k]|
      ensures !At(root, s, j)
    {
      AtTells(root, s, j, 0);
      AtTells(root, s, j, k);
      assert s[j] == root[j] && s[j + k] == root[j];
    }
    ReplacesOnce(root[..k], root, b);
  }

  lemma BeforeHoldsRoot(root: string, k: nat)
    requires 0 < k < |root| && Meets(root[k..])
    ensures At(root, AfterBefore(root, k), 0)
  {
    var n := |root|;
    assert root == root[..k] + root[k..];
    if n - k > |ROOT| {
      assert root[k..] == ROOT + root[k + |ROOT|..];
      assert AfterBefore(root, k) == root;
    } else {
      assert root[k..] == ROOT[..n - k];
      assert AfterBefore(root, k)[..n] == root;
    }
  }

  lemma BeforeHidesOthers(root: string, k: nat, other: string, i: nat)
    requires 0 < k < |root| && Meets(root[k..]) && SamePath(other, root) && other != root
    ensures !At(other, AfterBefore(root, k), i)
  {
    var t := AfterBefore(root, k);
    BeforeHoldsRoot(root, k);
    MeetsStarts(root[k..]);
    AtTells(other, t, i, k);
    assert root[k] == '<' == other[k];
    assert 0 < i < |ROOT| ==> t[k + i] == ROOT[i];
  }

  function Within(root: string, d: nat): string
    requires d < |ROOT| && ROOT[d..] <= root
  {
    root + root[|ROOT| - d..]
  }

  function AfterWithin(root: string, d: nat): string
    requires d < |ROOT| && ROOT[d..] <= root
  {
    ROOT + root[|ROOT| - d..]
  }

  lemma WithinReplaces(root: string, d: nat)
    requires d < |ROOT| && ROOT[d..] <= root
    ensures ReplaceLiteral(Within(root, d), root, ROOT) == AfterWithin(root, d)
  {
    var b := root[|ROOT| - d..];
    ReplacesOnce("", root, b);
    assert "" + root + b == Within(root, d) && "" + ROOT + b == ROOT + b;
  }

  lemma WithinHoldsRoot(root: string, d: nat)
    requires d < |ROOT| && ROOT[d..] <= root
    ensures At(root, AfterWithin(root, d), d)
  {
    var b := root[|ROOT| - d..];
    assert root == ROOT[d..] + b;
    assert AfterWithin(root, d)[d..] == ROOT[d..] + b;
    assert AfterWithin(root, d)[d..d + |root|] == root;
  }

  lemma WithinStarts(root: string, d: nat, m: nat)
    requires d + m < |ROOT| && ROOT[d..] <= root
    ensures root[m] == ROOT[d + m]
  {
    assert ROOT[d..][m] == ROOT[d + m];
  }

  lemma WithinHidesOthers(root: string, d: nat, other: string, i: nat)
    requires d < |ROOT| && ROOT[d..] <= root && SamePath(other, root) && other != root
    ensures !At(other, AfterWithin(root, d), i)
  {
    var t := AfterWithin(root, d);
    WithinHoldsRoot(root, d);
    AtTells(other, t, i, 0);
    AtTells(other, t, i, 1);
    WithinStarts(root, d, 0);
    if d + 1 < |ROOT| {
      WithinStarts(root, d, 1);
    }
    assert forall j :: 0 <= j < |ROOT| ==> t[j] == ROOT[j];
  }

  lemma BeforeSurvives(root: string, k: nat)
    requires HasSeparator(root) && root[0] != '<' && 0 < k < |root| && Meets(root[k..])
    ensures Occurs(root, PublicMessage(Before(root, k), root))
  {
    BeforeReplaces(root, k);
    BeforeHoldsRoot(root, k);
    forall other, i: nat | SamePath(other, root) && other != root
      ensures !At(other, AfterBefore(root, k), i)
    {
      BeforeHidesOthers(root, k, other, i);
    }
    OthersChangeNothing(Before(root, k), AfterBefore(root, k), root, |Candidates(root)|);
  }

  lemma WithinSurvives(root: string, d: nat)
    requires HasSeparator(root) && d < |ROOT| && ROOT[d..] <= root
    ensures Occurs(root, PublicMessage(Within(root, d), root))
  {
    WithinReplaces(root, d);
    WithinHoldsRoot(root, d);
    forall other, i: nat | SamePath(other, root) && other != root
      ensures !At(other, AfterWithin(root, d), i)
    {
      WithinHidesOthers(root, d, other, i);
    }
    OthersChangeNothing(Within(root, d), AfterWithin(root, d), root, |Candidates(root)|);
  }

  lemma CompletableSurvives(root: string) returns (message: string)
    requires HasSeparator(root) && root[0] != '<' && Completable(root)
    ensures Occurs(root, PublicMessage(message, root))
  {
    if k :| 0 < k < |root| && Meets(root[k..]) {
      message := Before(root, k);
      BeforeSurvives(root, k);
    } else {
      var d :| 0 <= d < |ROOT| && ROOT[d..] <= root;
      message := Within(root, d);
      WithinSurvives(root, d);
    }
  }

  /**
   For every root that a path resolution can return, which holds a separator and does not begin with `<`:
   some message keeps a spelling of it if and only if the root can be completed across an inserted `<root>`.
   */
  lemma SpellingSurvivesIffCompletable(root: string)
    requires HasSeparator(root) && root[0] != '<'
    ensures (exists message :: Keeps(message, root)) <==> Completable(root)
  {
    if Completable(root) {
      var message := CompletableSurvives(root);
      assert Keeps(message, root);
    } else {
      forall message | true
        ensures !Keeps(message, root)
      {
        NoSpellingSurvives(message, root);
      }
    }
  }

  /** The root `/<root>` is left in the message `//<root>`. */
  lemma AngleBracketsCanSurvive()
    ensures Occurs("/<root>", PublicMessage("//<root>", "/<root>"))
  {
    assert "/<root>"[1..] == ROOT;
    BeforeSurvives("/<root>", 1);
    assert Before("/<root>", 1) == "//<root>";
  }

  /** `/<root>` is such a root, `/a<b` is not. */
  lemma BracketsAlone()
    ensures Completable("/<root>") && !Completable("/a<b")
  {
    assert "/<root>"[1..] == ROOT;
    assert Meets("/<root>"[1..]);
    var safe := "/a<b";
    forall k | 0 < k < |safe|
      ensures !Meets(safe[k..])
    {
      assert safe[k..][0] == safe[k];
      if k == 2 {
        assert safe[k..][1] == 'b';
      }
    }
    forall d | 0 <= d < |ROOT|
      ensures !(ROOT[d..] <= safe)
    {
      assert ROOT[d..][0] == ROOT[d];
    }
  }

  // ----- Findings -----

  datatype Finding = Finding(
    code: Option<string>,
    file: Option<string>,
    message: Option<string>,
    cycle: Option<seq<string>>,
    functionKey: Option<string>)

  datatype Public = Public(
    code: string,
    file: Option<string>,
    message: string,
    cycle: Option<seq<string>>,
    functionKey: Option<string>)

  /** Path functions for one resolved root, and the two orders of the host language. */
  datatype Host = Host(
    root: string,
    isAbsolute: string -> bool,
    relative: string -> string,
    json: seq<string> -> string,
    codeUnits: (string, string) -> bool,
    locale: (string, string) -> int)

  function PortableIdentifier(value: string, h: Host): string {
    if !h.isAbsolute(value) then ReplaceChar(value, '\\', '/')
    else
      var relative := h.relative(value);
      if relative != "" && !StartsWith(relative, "..") && !h.isAbsolute(relative) then
        ReplaceChar(relative, '\\', '/')
      else "<absolute-path>"
  }

  function Or(value: Option<string>, otherwise: string): string {
    if value.Some? then value.value else otherwise
  }

  function Portable(h: Host): string -> string {
    file => PortableIdentifier(file, h)
  }

  function PublicCycle(cycle: seq<string>, h: Host): seq<string> {
    Sort(Map(Portable(h), cycle), h.codeUnits)
  }

  function PublicFinding(entry: Finding, h: Host): Public {
    Public(
      Or(entry.code, "unknown"),
      if entry.file.Some? then Some(PortableIdentifier(entry.file.value, h)) else None,
      PublicMessage(Or(entry.message, ""), h.root),
      if entry.cycle.Some? then Some(PublicCycle(entry.cycle.value, h)) else None,
      entry.functionKey)
  }

  lemma {:induction false} UnmentionedStays(message: string, root: string, k: nat)
    requires HasSeparator(root) && !Mentions(message, root) && k <= |Candidates(root)|
    ensures Scrubbed(message, Candidates(root), k) == message
  {
    if k > 0 {
      UnmentionedStays(message, root, k - 1);
      CandidatesAreSpellings(root, k - 1);
      NothingToReplace(message, Candidates(root)[k - 1]);
    }
  }

  /**
   How a file is shown: with forward slashes; an absolute path by its way from the root, if that leads to a
   file below the root, and never itself.
   */
  predicate Shown(public: string, file: string, h: Host) {
    var way := h.relative(file);
    && '\\' !in public
    && public ==
      if !h.isAbsolute(file) then ReplaceChar(file, '\\', '/')
      else if way == "" || h.isAbsolute(way) || ".." <= way then "<absolute-path>"
      else ReplaceChar(way, '\\', '/')
  }

  lemma IdentifierIsShown(file: string, h: Host)
    ensures Shown(PortableIdentifier(file, h), file, h)
  {
    assert '\\' !in "<absolute-path>";
  }

  /**
   What a public finding shows of a finding: its code, its function key, its files as portable paths, and its
   message without any spelling of the root.  A message that mentions no root is shown as it is.
   */
  lemma PublicFindingShows(entry: Finding, h: Host)
    requires HasSeparator(h.root) && !Completable(h.root)
    ensures var p := PublicFinding(entry, h);
      && (entry.code.Some? ==> p.code == entry.code.value) && (entry.code.None? ==> p.code == "unknown")
      && p.functionKey == entry.functionKey
      && !Mentions(p.message, h.root)
      && (entry.message.Some? && !Mentions(entry.message.value, h.root) ==> p.message == entry.message.value)
      && (entry.message.None? ==> p.message == "")
      && p.file.Some? == entry.file.Some? && (p.file.Some? ==> Shown(p.file.value, entry.file.value, h))
      && p.cycle.Some? == entry.cycle.Some? && (p.cycle.Some? ==> |p.cycle.value| == |entry.cycle.value|)
      && (p.cycle.Some? ==> forall f :: f in p.cycle.value ==> exists g :: g in entry.cycle.value && Shown(f, g, h))
  {
    var p, message := PublicFinding(entry, h), Or(entry.message, "");
    NoSpellingSurvives(message, h.root);
    if !Mentions(message, h.root) {
      UnmentionedStays(message, h.root, |Candidates(h.root)|);
    }
    if entry.file.Some? {
      IdentifierIsShown(entry.file.value, h);
    }
    if entry.cycle.Some? {
      CycleIsShown(entry.cycle.value, h);
    }
  }

  lemma CycleIsShown(cycle: seq<string>, h: Host)
    ensures |PublicCycle(cycle, h)| == |cycle|
    ensures forall f :: f in PublicCycle(cycle, h) ==> exists g :: g in cycle && Shown(f, g, h)
  {
    var files := Map(Portable(h), cycle);
    SortPermutes(files, h.codeUnits);
    SameMultisetSameElements(PublicCycle(cycle, h), files);
    forall f | f in PublicCycle(cycle, h)
      ensures exists g :: g in cycle && Shown(f, g, h)
    {
      var i :| 0 <= i < |files| && files[i] == f;
      IdentifierIsShown(cycle[i], h);
    }
  }

  /** The five texts the comparator looks at, in this order. */
  function Key(p: Public, h: Host, i: nat): string
    requires i < 5
  {
    match i
    case 0 => p.code
    case 1 => Or(p.file, "null")
    case 2 => p.message
    case 3 => Or(p.functionKey, "")
    case 4 => h.json(if p.cycle.Some? then p.cycle.value else [])
  }

  /** The first comparison that is not zero, from key `i` on. */
  function CompareFrom(left: Public, right: Public, h: Host, i: nat): int
    requires i <= 5
    decreases 5 - i
  {
    if i == 5 then 0
    else
      var c := h.locale(Key(left, h, i), Key(right, h, i));
      if c != 0 then c else CompareFrom(left, right, h, i + 1)
  }

  predicate NotAfter(left: Public, right: Public, h: Host) {
    CompareFrom(left, right, h, 0) <= 0
  }

  function Projection(h: Host): Finding -> Public {
    entry => PublicFinding(entry, h)
  }

  function Comparator(h: Host): (Public, Public) -> bool {
    (left, right) => NotAfter(left, right, h)
  }

  function SortedFindings(entries: seq<Finding>, h: Host): seq<Public> {
    Sort(Map(Projection(h), entries), Comparator(h))
  }

  /** What the language promises of a string comparison. */
  ghost predicate Consistent(locale: (string, string) -> int) {
    && (forall a, b :: locale(a, b) <= 0 <==> locale(b, a) >= 0)
    && (forall a, b, c :: locale(a, b) <= 0 && locale(b, c) <= 0 ==> locale(a, c) <= 0)
  }

  /** The public list holds each public finding as often as it came, in the order of the comparator. */
  lemma PublicListIsSorted(entries: seq<Finding>, h: Host)
    requires Consistent(h.locale)
    ensures multiset(SortedFindings(entries, h)) == multiset(seq(|entries|, i requires 0 <= i < |entries| => PublicFinding(entries[i], h)))
    ensures forall i, j :: 0 <= i < j < |entries| ==>
      |SortedFindings(entries, h)| == |entries| && NotAfter(SortedFindings(entries, h)[i], SortedFindings(entries, h)[j], h)
  {
    var projected := Map(Projection(h), entries);
    assert projected == seq(|entries|, i requires 0 <= i < |entries| => PublicFinding(entries[i], h));
    ComparatorIsPreorder(h);
    SortPermutes(projected, Comparator(h));
    SameMultisetSameElements(SortedFindings(entries, h), projected);
    SortSorts(projected, Comparator(h));
  }

  /** Code, file, message, function key, cycle: the first of them that differs decides. */
  lemma ComparatorIsLexicographic(x: Public, y: Public, h: Host)
    ensures NotAfter(x, y, h) <==>
      var code := h.locale(x.code, y.code);
      var file := h.locale(Or(x.file, "null"), Or(y.file, "null"));
      var message := h.locale(x.message, y.message);
      var key := h.locale(Or(x.functionKey, ""), Or(y.functionKey, ""));
      var cycle := h.locale(h.json(if x.cycle.Some? then x.cycle.value else []), h.json(if y.cycle.Some? then y.cycle.value else []));
      code < 0 || (code == 0 && (file < 0 || (file == 0 && (message < 0 || (message == 0 && (key < 0 || (key == 0 && cycle <= 0)))))))
  {
    assert CompareFrom(x, y, h, 4) == h.locale(Key(x, h, 4), Key(y, h, 4)) by {
      assert CompareFrom(x, y, h, 5) == 0;
    }
    assert NotAfter(x, y, h) == (CompareFrom(x, y, h, 0) <= 0);
  }

  lemma {:induction false} CompareIsAntisymmetric(x: Public, y: Public, h: Host, i: nat)
    requires Consistent(h.locale) && i <= 5
    ensures CompareFrom(x, y, h, i) <= 0 <==> CompareFrom(y, x, h, i) >= 0
    ensures CompareFrom(x, y, h, i) >= 0 <==> CompareFrom(y, x, h, i) <= 0
    decreases 5 - i
  {
    if i < 5 {
      assert h.locale(Key(x, h, i), Key(y, h, i)) <= 0 <==> h.locale(Key(y, h, i), Key(x, h, i)) >= 0;
      assert h.locale(Key(y, h, i), Key(x, h, i)) <= 0 <==> h.locale(Key(x, h, i), Key(y, h, i)) >= 0;
      CompareIsAntisymmetric(x, y, h, i + 1);
    }
  }

  lemma LocaleChains(locale: (string, string) -> int, a: string, b: string, c: string)
    requires Consistent(locale) && locale(a, b) <= 0 && locale(b, c) <= 0
    ensures locale(a, c) <= 0
    ensures locale(a, c) == 0 ==> locale(a, b) == 0 && locale(b, c) == 0
  {
    if locale(a, c) == 0 {
      assert locale(c, a) <= 0;
      assert locale(c, b) <= 0 && locale(b, a) <= 0;
    }
  }

  lemma {:induction false} CompareIsTransitive(x: Public, y: Public, z: Public, h: Host, i: nat)
    requires Consistent(h.locale) && i <= 5
    requires CompareFrom(x, y, h, i) <= 0 && CompareFrom(y, z, h, i) <= 0
    ensures CompareFrom(x, z, h, i) <= 0
    decreases 5 - i
  {
    if i < 5 {
      LocaleChains(h.locale, Key(x, h, i), Key(y, h, i), Key(z, h, i));
      if h.locale(Key(x, h, i), Key(z, h, i)) == 0 {
        CompareIsTransitive(x, y, z, h, i + 1);
      }
    }
  }

  /** The five-key comparator orders the public findings, up to ties. */
  lemma ComparatorIsPreorder(h: Host)
    requires Consistent(h.locale)
    ensures TotalPreorder(Comparator(h))
  {
    var leq := Comparator(h);
    forall x, y
      ensures leq(x, y) || leq(y, x)
    {
      CompareIsAntisymmetric(x, y, h, 0);
    }
    forall x, y, z | leq(x, y) && leq(y, z)
      ensures leq(x, z)
    {
      CompareIsTransitive(x, y, z, h, 0);
    }
  }

  /** Two public findings tie exactly when all five texts compare equal. */
  lemma {:induction false} TieMeansEqualKeys(x: Public, y: Public, h: Host, i: nat)
    requires Consistent(h.locale) && i <= 5
    ensures CompareFrom(x, y, h, i) == 0 <==> forall k :: i <= k < 5 ==> h.locale(Key(x, h, k), Key(y, h, k)) == 0
    decreases 5 - i
  {
    if i < 5 {
      TieMeansEqualKeys(x, y, h, i + 1);
    }
  }

  /** Two projections that differ although every text compares equal. */
  ghost predicate Collide(x: Public, y: Public, h: Host) {
    x != y && forall k :: 0 <= k < 5 ==> h.locale(Key(x, h, k), Key(y, h, k)) == 0
  }

  lemma CollideIffTie(x: Public, y: Public, h: Host)
    requires Consistent(h.locale)
    ensures Tie(x, y, Comparator(h)) && x != y <==> Collide(x, y, h)
  {
    CompareIsAntisymmetric(x, y, h, 0);
    TieMeansEqualKeys(x, y, h, 0);
  }

  /**
   Reordering the findings never changes the public list, if and only if no two different projections
   compare equal in all five texts.
   */
  lemma FindingsAreCanonicalIffNoCollision(entries: seq<Finding>, h: Host)
    requires Consistent(h.locale)
    ensures (forall other: seq<Finding> :: multiset(other) == multiset(entries) ==>
               SortedFindings(other, h) == SortedFindings(entries, h))
      <==> (forall i, j :: 0 <= i < |entries| && 0 <= j < |entries| ==>
              !Collide(PublicFinding(entries[i], h), PublicFinding(entries[j], h), h))
  {
    var projected := Map(Projection(h), entries);
    ComparatorIsPreorder(h);
    ProjectedCanonicalIffNoTies(Projection(h), entries, Comparator(h));
    forall i, j | 0 <= i < |entries| && 0 <= j < |entries|
      ensures Tie(projected[i], projected[j], Comparator(h)) && projected[i] != projected[j] <==>
        Collide(PublicFinding(entries[i], h), PublicFinding(entries[j], h), h)
    {
      CollideIffTie(projected[i], projected[j], h);
    }
    CanonicalMeansBlind(entries, h);
  }

  lemma CanonicalMeansBlind(entries: seq<Finding>, h: Host)
    ensures Canonical(Projection(h), entries, Comparator(h)) <==>
      forall other: seq<Finding> :: multiset(other) == multiset(entries) ==>
        SortedFindings(other, h) == SortedFindings(entries, h)
  {
    var f, leq := Projection(h), Comparator(h);
    if Canonical(f, entries, leq) {
      forall other: seq<Finding> | multiset(other) == multiset(entries)
        ensures SortedFindings(other, h) == SortedFindings(entries, h)
      {
        assert Sort(Map(f, other), leq) == Sort(Map(f, entries), leq);
      }
    } else {
      var other: seq<Finding> :| multiset(other) == multiset(entries)
        && Sort(Map(f, other), leq) != Sort(Map(f, entries), leq);
      assert SortedFindings(other, h) != SortedFindings(entries, h);
    }
  }

  /** The files of a cycle may come in any order. */
  lemma CyclesAreCanonical(cycle: seq<string>, other: seq<string>, h: Host)
    requires TotalOrder(h.codeUnits) && multiset(other) == multiset(cycle)
    ensures PublicCycle(other, h) == PublicCycle(cycle, h)
  {
    MapPermutes(Portable(h), other, cycle);
    SortedEqualIffSameMultiset(Map(Portable(h), other), Map(Portable(h), cycle), h.codeUnits);
  }

  /** An absent function key and an empty one differ but collide, so such findings are not canonical. */
  lemma AbsentAndEmptyKeyCollide(p: Public, h: Host)
    requires Consistent(h.locale) && p.functionKey.None?
    ensures Collide(p, p.(functionKey := Some("")), h)
  {
    var q := p.(functionKey := Some(""));
    forall k | 0 <= k < 5
      ensures h.locale(Key(p, h, k), Key(q, h, k)) == 0
    {
      assert Key(p, h, k) == Key(q, h, k);
    }
  }
}

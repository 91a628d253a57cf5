/** The worktree inventory: its parser, and the check that one exact registration was added. */
module Inventory {
  import opened Sorting

  const NEWLINE := '\n'

  // ----- Parsing -----

  function SplitLines(s: string): (parts: seq<string>)
    ensures |parts| > 0
  {
    if s == "" then [""]
    else
      var rest := SplitLines(s[1..]);
      if s[0] == NEWLINE then [""] + rest else [[s[0]] + rest[0]] + rest[1..]
  }

  function SkipNewlines(s: string): (rest: string)
    ensures |rest| <= |s|
    ensures rest != "" ==> rest[0] != NEWLINE
  {
    if s != "" && s[0] == NEWLINE then SkipNewlines(s[1..]) else s
  }

  /** Splits at every run of two or more newlines. */
  function SplitBlank(s: string): (parts: seq<string>)
    ensures |parts| > 0
    decreases |s|
  {
    if |s| < 2 then [s]
    else if s[0] == NEWLINE && s[1] == NEWLINE then [""] + SplitBlank(SkipNewlines(s[2..]))
    else
      var rest := SplitBlank(s[1..]);
      [[s[0]] + rest[0]] + rest[1..]
  }

  function NonEmpty(parts: seq<string>): (kept: seq<string>)
    ensures forall part :: part in kept ==> part != ""
  {
    if parts == [] then [] else (if parts[0] == "" then [] else [parts[0]]) + NonEmpty(parts[1..])
  }

  function FieldsOf(piece: string): seq<string> {
    NonEmpty(SplitLines(piece))
  }

  function EachFields(pieces: seq<string>): seq<seq<string>> {
    if pieces == [] then [] else [FieldsOf(pieces[0])] + EachFields(pieces[1..])
  }

  function Records(inventory: string): seq<seq<string>> {
    EachFields(NonEmpty(SplitBlank(inventory)))
  }

  // ----- Printing -----

  predicate Field(s: string) {
    s != "" && NEWLINE !in s
  }

  predicate Fields(fields: seq<string>) {
    forall i :: 0 <= i < |fields| ==> Field(fields[i])
  }

  function Join(fields: seq<string>): string {
    if fields == [] then ""
    else if |fields| == 1 then fields[0]
    else fields[0] + [NEWLINE] + Join(fields[1..])
  }

  function Newlines(n: nat): string {
    if n == 0 then "" else [NEWLINE] + Newlines(n - 1)
  }

  /** The records with a run of `gaps[i]` newlines after record `i`. */
  function Print(records: seq<seq<string>>, gaps: seq<nat>): string
    requires |gaps| == |records|
  {
    if records == [] then "" else Join(records[0]) + Newlines(gaps[0]) + Print(records[1..], gaps[1..])
  }

  // ----- The parser undoes the printer -----

  lemma {:induction false} LineGoesOn(line: string, rest: string)
    requires NEWLINE !in line
    ensures SplitLines(line + rest) == [line + SplitLines(rest)[0]] + SplitLines(rest)[1..]
  {
    if line == "" {
      assert line + rest == rest;
      assert line + SplitLines(rest)[0] == SplitLines(rest)[0];
      assert SplitLines(rest) == [SplitLines(rest)[0]] + SplitLines(rest)[1..];
    } else {
      assert (line + rest)[1..] == line[1..] + rest;
      LineGoesOn(line[1..], rest);
      assert line + SplitLines(rest)[0] == [line[0]] + (line[1..] + SplitLines(rest)[0]);
    }
  }

  /** Also with one newline after the last field. */
  lemma {:induction false} FieldsOfJoin(fields: seq<string>, end: string)
    requires Fields(fields) && (end == "" || end == [NEWLINE])
    ensures FieldsOf(Join(fields) + end) == fields
  {
    assert SplitLines("") == [""];
    assert [NEWLINE][1..] == "";
    assert NonEmpty(SplitLines(end)[1..]) == [] && SplitLines(end)[0] == "";
    if fields == [] {
      assert Join(fields) + end == end;
    } else if |fields| == 1 {
      LineGoesOn(fields[0], end);
      assert fields[0] + SplitLines(end)[0] == fields[0];
    } else {
      var rest := [NEWLINE] + (Join(fields[1..]) + end);
      assert Join(fields) + end == fields[0] + rest;
      assert rest[1..] == Join(fields[1..]) + end;
      LineGoesOn(fields[0], rest);
      FieldsOfJoin(fields[1..], end);
      var parts := SplitLines(Join(fields) + end);
      assert parts[0] == fields[0] && parts[1..] == SplitLines(rest[1..]);
    }
  }

  /** No two newlines meet, and none stands at either end. */
  predicate Solid(s: string) {
    && s != "" && s[0] != NEWLINE && s[|s| - 1] != NEWLINE
    && forall i :: 0 <= i < |s| - 1 ==> s[i] != NEWLINE || s[i + 1] != NEWLINE
  }

  lemma {:induction false} JoinIsSolid(fields: seq<string>)
    requires Fields(fields) && fields != []
    ensures Solid(Join(fields))
  {
    assert forall i :: 0 <= i < |fields[0]| ==> fields[0][i] in fields[0];
    if |fields| > 1 {
      JoinIsSolid(fields[1..]);
      var s, head := Join(fields), fields[0] + [NEWLINE];
      assert s == head + Join(fields[1..]);
      assert forall i :: 0 <= i < |fields[0]| ==> s[i] == fields[0][i];
      assert forall i :: |head| <= i < |s| ==> s[i] == Join(fields[1..])[i - |head|];
    }
  }

  lemma {:induction false} PieceGoesOn(piece: string, rest: string)
    requires piece != "" ==> piece[|piece| - 1] != NEWLINE
    requires forall i :: 0 <= i < |piece| - 1 ==> piece[i] != NEWLINE || piece[i + 1] != NEWLINE
    ensures SplitBlank(piece + rest) == [piece + SplitBlank(rest)[0]] + SplitBlank(rest)[1..]
  {
    var s := piece + rest;
    if piece == "" {
      assert s == rest;
      assert piece + SplitBlank(rest)[0] == SplitBlank(rest)[0];
      assert SplitBlank(rest) == [SplitBlank(rest)[0]] + SplitBlank(rest)[1..];
    } else if |s| == 1 {
      assert s == piece && rest == "";
    } else {
      assert s[1..] == piece[1..] + rest;
      assert |piece| > 1 ==> s[1] == piece[1];
      PieceGoesOn(piece[1..], rest);
      assert piece + SplitBlank(rest)[0] == [piece[0]] + (piece[1..] + SplitBlank(rest)[0]);
    }
  }

  lemma {:induction false} SkipsAllNewlines(n: nat, rest: string)
    requires rest != "" ==> rest[0] != NEWLINE
    ensures SkipNewlines(Newlines(n) + rest) == rest
  {
    if n == 0 {
      assert Newlines(n) + rest == rest;
    } else {
      assert (Newlines(n) + rest)[1..] == Newlines(n - 1) + rest;
      SkipsAllNewlines(n - 1, rest);
    }
  }

  lemma RunSplits(rest: string)
    ensures SplitBlank([NEWLINE, NEWLINE] + rest) == [""] + SplitBlank(SkipNewlines(rest))
  {
    assert ([NEWLINE, NEWLINE] + rest)[2..] == rest;
  }

  /** A run of at least two newlines begins with two of them. */
  lemma TwoNewlines(n: nat, rest: string)
    requires n >= 2
    ensures Newlines(n) + rest == [NEWLINE, NEWLINE] + (Newlines(n - 2) + rest)
  {
    assert Newlines(n) == [NEWLINE] + Newlines(n - 1);
    assert Newlines(n - 1) == [NEWLINE] + Newlines(n - 2);
  }

  lemma GapSplits(n: nat, rest: string)
    requires n >= 2 && (rest != "" ==> rest[0] != NEWLINE)
    ensures SplitBlank(Newlines(n) + rest) == [""] + SplitBlank(rest)
  {
    TwoNewlines(n, rest);
    SkipsAllNewlines(n - 2, rest);
    RunSplits(Newlines(n - 2) + rest);
  }

  predicate Printable(records: seq<seq<string>>) {
    forall i :: 0 <= i < |records| ==> records[i] != [] && Fields(records[i])
  }

  lemma PrintStartsSolid(records: seq<seq<string>>, gaps: seq<nat>)
    requires |gaps| == |records| > 0 && Printable(records)
    ensures Print(records, gaps) != "" && Print(records, gaps)[0] != NEWLINE
  {
    JoinIsSolid(records[0]);
  }

  lemma TrailingPieces(gap: nat)
    ensures SplitBlank(Newlines(gap)) == if gap == 0 then [""] else if gap == 1 then [[NEWLINE]] else ["", ""]
  {
    assert Newlines(gap) + "" == Newlines(gap);
    if gap >= 2 {
      GapSplits(gap, "");
    } else {
      assert Newlines(1) == [NEWLINE] + Newlines(0) == [NEWLINE];
    }
  }

  lemma LastPiece(piece: string, gap: nat)
    requires Solid(piece)
    ensures NonEmpty(SplitBlank(piece + Newlines(gap))) == [if gap == 1 then piece + [NEWLINE] else piece]
  {
    PieceGoesOn(piece, Newlines(gap));
    TrailingPieces(gap);
    assert piece + "" == piece;
    assert NonEmpty([""]) == NonEmpty([""][1..]);
  }

  /** The last record, with any number of newlines after it. */
  lemma LastRecordParses(fields: seq<string>, gap: nat)
    requires Fields(fields) && fields != []
    ensures Records(Join(fields) + Newlines(gap)) == [fields]
  {
    var piece := Join(fields);
    JoinIsSolid(fields);
    LastPiece(piece, gap);
    FieldsOfJoin(fields, "");
    FieldsOfJoin(fields, [NEWLINE]);
    assert piece + "" == piece;
    assert EachFields([piece][1..]) == [] && EachFields([piece + [NEWLINE]][1..]) == [];
  }

  /**
   Printing any records with single newlines between fields and any blank-line run between records,
   then parsing, gives the same records.
   */
  lemma {:induction false} ParserUndoesPrinter(records: seq<seq<string>>, gaps: seq<nat>)
    requires Printable(records) && |gaps| == |records|
    requires forall i :: 0 <= i < |gaps| - 1 ==> gaps[i] >= 2
    ensures Records(Print(records, gaps)) == records
  {
    if records == [] {
    } else if |records| == 1 {
      LastRecordParses(records[0], gaps[0]);
      assert Print(records[1..], gaps[1..]) == "";
      assert Print(records, gaps) == Join(records[0]) + Newlines(gaps[0]);
    } else {
      var piece, rest := Join(records[0]), Print(records[1..], gaps[1..]);
      assert Print(records, gaps) == piece + (Newlines(gaps[0]) + rest);
      JoinIsSolid(records[0]);
      PrintStartsSolid(records[1..], gaps[1..]);
      GapSplits(gaps[0], rest);
      PieceGoesOn(piece, Newlines(gaps[0]) + rest);
      assert piece + "" == piece;
      assert SplitBlank(Print(records, gaps)) == [piece] + SplitBlank(rest);
      FieldsOfJoin(records[0], "");
      ParserUndoesPrinter(records[1..], gaps[1..]);
    }
  }

  // ----- The check -----

  predicate Registers(fields: seq<string>, executionRoot: string) {
    ("worktree " + executionRoot) in fields
  }

  function ExactTarget(executionRoot: string, baseCommit: string): (target: set<string>)
    ensures |target| == 3
  {
    var root, head := "worktree " + executionRoot, "HEAD " + baseCommit;
    assert root[0] == 'w' && head[0] == 'H';
    {root, head, "detached"}
  }

  /** The positions of the records that register the root. */
  function TargetsFrom(records: seq<seq<string>>, executionRoot: string, i: nat): (at: seq<nat>)
    requires i <= |records|
    ensures forall k :: k in at <==> i <= k < |records| && Registers(records[k], executionRoot)
    ensures forall j :: 0 <= j < |at| ==> i <= at[j] < |records|
    ensures Rising(at)
    decreases |records| - i
  {
    if i == |records| then []
    else (if Registers(records[i], executionRoot) then [i] else []) + TargetsFrom(records, executionRoot, i + 1)
  }

  predicate Rising(at: seq<nat>) {
    forall i, j :: 0 <= i < j < |at| ==> at[i] < at[j]
  }

  function Normalized(records: seq<seq<string>>): seq<string> {
    if records == [] then [] else [Join(records[0])] + Normalized(records[1..])
  }

  /** Whether the check passes; `order` is the order in which JavaScript sorts strings. */
  predicate Accepts(before: seq<seq<string>>, after: seq<seq<string>>, executionRoot: string, baseCommit: string,
                    order: (string, string) -> bool) {
    var target := TargetsFrom(after, executionRoot, 0);
    var exactTarget := ExactTarget(executionRoot, baseCommit);
    && (forall i :: 0 <= i < |before| ==> !Registers(before[i], executionRoot))
    && |target| == 1
    && |after[target[0]]| == |exactTarget|
    && (forall field :: field in after[target[0]] ==> field in exactTarget)
    && Sort(Normalized(Remove(after, target[0])), order) == Sort(Normalized(before), order)
  }

  // ----- Joining is injective on parsed records -----

  lemma JoinIsInjective(a: seq<string>, b: seq<string>)
    requires Fields(a) && Fields(b) && Join(a) == Join(b)
    ensures a == b
  {
    FieldsOfJoin(a, "");
    FieldsOfJoin(b, "");
    assert Join(a) + "" == Join(a);
  }

  predicate Parsed(records: seq<seq<string>>) {
    forall i :: 0 <= i < |records| ==> Fields(records[i])
  }

  lemma {:induction false} LinesHaveNoNewline(s: string)
    ensures forall part :: part in SplitLines(s) ==> NEWLINE !in part
  {
    if s != "" {
      LinesHaveNoNewline(s[1..]);
      var rest := SplitLines(s[1..]);
      assert rest[0] in rest;
      forall part | part in SplitLines(s)
        ensures NEWLINE !in part
      {
        assert part == "" || part == [s[0]] + rest[0] || part in rest;
      }
    }
  }

  lemma {:induction false} NonEmptyKeeps(parts: seq<string>)
    ensures forall part :: part in NonEmpty(parts) ==> part in parts
  {
    if parts != [] {
      NonEmptyKeeps(parts[1..]);
    }
  }

  lemma {:induction false} EachFieldsParsed(pieces: seq<string>)
    ensures Parsed(EachFields(pieces))
  {
    if pieces != [] {
      EachFieldsParsed(pieces[1..]);
      LinesHaveNoNewline(pieces[0]);
      NonEmptyKeeps(SplitLines(pieces[0]));
      var fields := FieldsOf(pieces[0]);
      assert forall i :: 0 <= i < |fields| ==> fields[i] in fields;
      assert Fields(fields);
    }
  }

  lemma RecordsAreParsed(inventory: string)
    ensures Parsed(Records(inventory))
  {
    EachFieldsParsed(NonEmpty(SplitBlank(inventory)));
  }

  lemma {:induction false} NormalizedCounts(records: seq<seq<string>>, r: seq<string>)
    requires Parsed(records) && Fields(r)
    ensures |Normalized(records)| == |records|
    ensures multiset(Normalized(records))[Join(r)] == multiset(records)[r]
  {
    if records != [] {
      NormalizedCounts(records[1..], r);
      JoinTells(records[0], r);
      CountOfCons(records[0], records[1..], r);
      CountOfCons(Join(records[0]), Normalized(records[1..]), Join(r));
      assert records == [records[0]] + records[1..];
    }
  }

  lemma JoinTells(a: seq<string>, b: seq<string>)
    requires Fields(a) && Fields(b)
    ensures Join(a) == Join(b) <==> a == b
  {
    if Join(a) == Join(b) {
      JoinIsInjective(a, b);
    }
  }

  lemma CountOfCons<T>(x: T, rest: seq<T>, y: T)
    ensures multiset([x] + rest)[y] == multiset(rest)[y] + if x == y then 1 else 0
  {
  }

  lemma {:induction false} NormalizedComeFromRecords(records: seq<seq<string>>, text: string)
    requires text in Normalized(records)
    ensures exists i :: 0 <= i < |records| && Join(records[i]) == text
  {
    if Join(records[0]) != text {
      NormalizedComeFromRecords(records[1..], text);
      var i :| 0 <= i < |records[1..]| && Join(records[1..][i]) == text;
      assert records[i + 1] == records[1..][i];
    }
  }

  lemma NormalizedTellsRecords(a: seq<seq<string>>, b: seq<seq<string>>)
    requires Parsed(a) && Parsed(b)
    ensures multiset(Normalized(a)) == multiset(Normalized(b)) <==> multiset(a) == multiset(b)
  {
    if multiset(Normalized(a)) == multiset(Normalized(b)) {
      forall r: seq<string>
        ensures multiset(a)[r] == multiset(b)[r]
      {
        if Fields(r) {
          NormalizedCounts(a, r);
          NormalizedCounts(b, r);
        } else {
          assert r !in a && r !in b;
          assert r !in multiset(a) && r !in multiset(b);
        }
      }
    }
    if multiset(a) == multiset(b) {
      forall text: string
        ensures multiset(Normalized(a))[text] == multiset(Normalized(b))[text]
      {
        NormalizedAgree(a, b, text);
      }
    }
  }

  lemma NormalizedAgree(a: seq<seq<string>>, b: seq<seq<string>>, text: string)
    requires Parsed(a) && Parsed(b) && multiset(a) == multiset(b)
    ensures multiset(Normalized(a))[text] == multiset(Normalized(b))[text]
  {
    if text in Normalized(a) {
      NormalizedComeFromRecords(a, text);
      var i :| 0 <= i < |a| && Join(a[i]) == text;
      NormalizedCounts(a, a[i]);
      NormalizedCounts(b, a[i]);
    } else if text in Normalized(b) {
      NormalizedComeFromRecords(b, text);
      var i :| 0 <= i < |b| && Join(b[i]) == text;
      NormalizedCounts(a, b[i]);
      NormalizedCounts(b, b[i]);
    } else {
      assert text !in multiset(Normalized(a)) && text !in multiset(Normalized(b));
    }
  }

  // ----- What the check accepts -----

  lemma RemovedAndKept(records: seq<seq<string>>, i: nat)
    requires i < |records|
    ensures multiset(records) == multiset(Remove(records, i)) + multiset{records[i]}
  {
    assert records == records[..i] + [records[i]] + records[i + 1..];
  }

  /** A new record of three fields, each one of the expected lines, that registers the root. */
  predicate Addition(fields: seq<string>, executionRoot: string, baseCommit: string) {
    && |fields| == 3 && ("worktree " + executionRoot) in fields
    && forall field :: field in fields ==>
         field == "worktree " + executionRoot || field == "HEAD " + baseCommit || field == "detached"
  }

  predicate Free(records: seq<seq<string>>, executionRoot: string) {
    forall i :: 0 <= i < |records| ==> ("worktree " + executionRoot) !in records[i]
  }

  /** If the new records are the old ones and one that registers the root, that one is the only target. */
  lemma AdditionIsOnlyTarget(before: seq<seq<string>>, after: seq<seq<string>>, fields: seq<string>, root: string)
    requires Free(before, root) && Registers(fields, root)
    requires multiset(after) == multiset(before) + multiset{fields}
    ensures |TargetsFrom(after, root, 0)| == 1 && after[TargetsFrom(after, root, 0)[0]] == fields
  {
    var target := TargetsFrom(after, root, 0);
    assert fields in multiset(after);
    var i :| 0 <= i < |after| && after[i] == fields;
    assert i in target;
    forall k | k in target
      ensures k == i
    {
      if k != i {
        OtherRecordsAreOld(before, after, fields, i, k);
      }
    }
    assert forall j :: 0 <= j < |target| ==> target[j] in target;
    if |target| > 1 {
      RisingDiffers(target);
    }
  }

  lemma RisingDiffers(at: seq<nat>)
    requires Rising(at) && |at| > 1
    ensures at[0] != at[1]
  {
  }

  lemma OtherRecordsAreOld(before: seq<seq<string>>, after: seq<seq<string>>, fields: seq<string>, i: nat, k: nat)
    requires multiset(after) == multiset(before) + multiset{fields}
    requires i < |after| && after[i] == fields && k < |after| && k != i
    ensures after[k] in before
  {
    RemovedAndKept(after, i);
    assert multiset(Remove(after, i)) == multiset(after) - multiset{fields} == multiset(before);
    assert after[k] == Remove(after, i)[if k < i then k else k - 1];
    assert after[k] in multiset(Remove(after, i));
  }

  /**
   The check accepts exactly when the root was not registered before and the records after, as a
   multiset, are the records before plus one record of three expected fields that registers it.
   */
  lemma AcceptsExactlyOneAddition(before: string, after: string, root: string, base: string,
                                  order: (string, string) -> bool)
    requires TotalOrder(order)
    ensures Accepts(Records(before), Records(after), root, base, order) <==>
      && Free(Records(before), root)
      && exists fields :: Addition(fields, root, base)
           && multiset(Records(after)) == multiset(Records(before)) + multiset{fields}
  {
    RecordsAreParsed(before);
    RecordsAreParsed(after);
    ParsedAccepts(Records(before), Records(after), root, base, order);
  }

  lemma ParsedAccepts(before: seq<seq<string>>, after: seq<seq<string>>, root: string, base: string,
                      order: (string, string) -> bool)
    requires TotalOrder(order) && Parsed(before) && Parsed(after)
    ensures Accepts(before, after, root, base, order) <==>
      && Free(before, root)
      && exists fields :: Addition(fields, root, base) && multiset(after) == multiset(before) + multiset{fields}
  {
    if Accepts(before, after, root, base, order) {
      AcceptedIsAddition(before, after, root, base, order);
    }
    if Free(before, root) {
      if fields :| Addition(fields, root, base) && multiset(after) == multiset(before) + multiset{fields} {
        AdditionIsAccepted(before, after, fields, root, base, order);
      }
    }
  }

  lemma AcceptedIsAddition(before: seq<seq<string>>, after: seq<seq<string>>, root: string, base: string,
                           order: (string, string) -> bool)
    requires TotalOrder(order) && Parsed(before) && Parsed(after) && Accepts(before, after, root, base, order)
    ensures Free(before, root)
    ensures var fields := after[TargetsFrom(after, root, 0)[0]];
      Addition(fields, root, base) && multiset(after) == multiset(before) + multiset{fields}
  {
    var i := TargetsFrom(after, root, 0)[0];
    RemainderIsOld(before, after, i, order);
    assert i in TargetsFrom(after, root, 0);
  }

  lemma AdditionIsAccepted(before: seq<seq<string>>, after: seq<seq<string>>, fields: seq<string>,
                           root: string, base: string, order: (string, string) -> bool)
    requires TotalOrder(order) && Parsed(before) && Parsed(after) && Free(before, root)
    requires Addition(fields, root, base) && multiset(after) == multiset(before) + multiset{fields}
    ensures Accepts(before, after, root, base, order)
  {
    AdditionIsOnlyTarget(before, after, fields, root);
    RemainderIsOld(before, after, TargetsFrom(after, root, 0)[0], order);
  }

  lemma RemainderIsOld(before: seq<seq<string>>, after: seq<seq<string>>, i: nat, order: (string, string) -> bool)
    requires TotalOrder(order) && Parsed(before) && Parsed(after) && i < |after|
    ensures Sort(Normalized(Remove(after, i)), order) == Sort(Normalized(before), order) <==>
      multiset(after) == multiset(before) + multiset{after[i]}
  {
    var rest := Remove(after, i);
    SortedEqualIffSameMultiset(Normalized(rest), Normalized(before), order);
    NormalizedTellsRecords(rest, before);
    RemovedAndKept(after, i);
    SameWithOneMore(multiset(rest), multiset(before), after[i]);
  }

  lemma SameWithOneMore<T>(a: multiset<T>, b: multiset<T>, x: T)
    ensures a + multiset{x} == b + multiset{x} <==> a == b
  {
    assert a + multiset{x} - multiset{x} == a && b + multiset{x} - multiset{x} == b;
  }

  lemma ThreeOfThree<T>(a: T, b: T, c: T, w: T, h: T, d: T)
    requires w != h && w != d && h != d
    requires (a == w || a == h || a == d) && (b == w || b == h || b == d) && (c == w || c == h || c == d)
    ensures a != b && a != c && b != c <==> multiset{a, b, c} == multiset{w, h, d}
  {
    if multiset{a, b, c} == multiset{w, h, d} {
      assert multiset{w, h, d}[a] == 1 && multiset{w, h, d}[b] == 1;
    }
  }

  /** With no field repeated, and only then, the new record is the root, the base commit and `detached`. */
  lemma DistinctAdditionIsExact(fields: seq<string>, root: string, base: string)
    requires Addition(fields, root, base)
    ensures fields[0] != fields[1] && fields[0] != fields[2] && fields[1] != fields[2] <==>
      multiset(fields) == multiset{"worktree " + root, "HEAD " + base, "detached"}
  {
    var w, h, d := "worktree " + root, "HEAD " + base, "detached";
    assert w[0] == 'w' && h[0] == 'H' && d[0] == 'd';
    assert fields == [fields[0], fields[1], fields[2]];
    assert fields[0] in fields && fields[1] in fields && fields[2] in fields;
    ThreeOfThree(fields[0], fields[1], fields[2], w, h, d);
  }

  /** The check itself does not ask for that: three times the root line is accepted. */
  lemma RepeatedRootIsAccepted(root: string, base: string, order: (string, string) -> bool)
    requires TotalOrder(order) && NEWLINE !in root
    ensures Accepts([], [["worktree " + root, "worktree " + root, "worktree " + root]], root, base, order)
  {
    var line := "worktree " + root;
    var after := [[line, line, line]];
    assert multiset(after) == multiset([]) + multiset{[line, line, line]};
    assert Addition([line, line, line], root, base);
    assert Parsed(after);
    ParsedAccepts([], after, root, base, order);
  }
}

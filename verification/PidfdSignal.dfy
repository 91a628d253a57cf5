/**
 The helper that signals exactly one process: it opens a pidfd, compares the identity it then reads
 from /proc, and sends through the descriptor, while the kernel may end, reap and reuse the PID in
 between.
 */
module PidfdSignal {
  import opened Wrappers
  import opened Decimals

  // ----- Text -----

  /** The white space of Python's `str.strip` and `str.split`. */
  predicate Space(c: char) {
    var n := c as int;
    || 9 <= n <= 13 || 0x1c <= n <= 0x20 || n == 0x85 || n == 0xa0 || n == 0x1680
    || 0x2000 <= n <= 0x200a || n == 0x2028 || n == 0x2029 || n == 0x202f || n == 0x205f || n == 0x3000
  }

  /** Tab to carriage return, the separators of ASCII, next line, and the spaces and separators of the Unicode standard. */
  const BLANKS: set<char> := {
    '\U{0009}', '\U{000A}', '\U{000B}', '\U{000C}', '\U{000D}', '\U{001C}', '\U{001D}', '\U{001E}', '\U{001F}',
    '\U{0020}', '\U{0085}', '\U{00A0}', '\U{1680}', '\U{2000}', '\U{2001}', '\U{2002}', '\U{2003}', '\U{2004}',
    '\U{2005}', '\U{2006}', '\U{2007}', '\U{2008}', '\U{2009}', '\U{200A}', '\U{2028}', '\U{2029}', '\U{202F}',
    '\U{205F}', '\U{3000}'}

  lemma SpaceIsBlank(c: char)
    ensures Space(c) <==> c in BLANKS
  {
  }

  function RFind(s: string, c: char): (at: int)
    ensures -1 <= at < |s|
    ensures at >= 0 ==> s[at] == c
    ensures forall i :: at < i < |s| ==> s[i] != c
  {
    if s == "" then -1 else if s[|s| - 1] == c then |s| - 1 else RFind(s[..|s| - 1], c)
  }

  function StripStart(s: string): string {
    if s != "" && Space(s[0]) then StripStart(s[1..]) else s
  }

  function StripEnd(s: string): string {
    if s != "" && Space(s[|s| - 1]) then StripEnd(s[..|s| - 1]) else s
  }

  function Strip(s: string): string {
    StripEnd(StripStart(s))
  }

  /** The end of the word that goes on at `i`. */
  function WordEnd(s: string, i: nat): (end: nat)
    requires i <= |s|
    ensures i <= end <= |s|
    ensures forall k :: i <= k < end ==> !Space(s[k])
    ensures end < |s| ==> Space(s[end])
    decreases |s| - i
  {
    if i < |s| && !Space(s[i]) then WordEnd(s, i + 1) else i
  }

  lemma WordEndIs(s: string, end: nat)
    requires end <= |s| && (forall k :: 0 <= k < end ==> !Space(s[k]))
    requires end < |s| ==> Space(s[end])
    ensures WordEnd(s, 0) == end
  {
  }

  function Words(s: string): seq<string> {
    if s == "" then []
    else if Space(s[0]) then Words(s[1..])
    else
      assert WordEnd(s, 0) > 0;
      [s[..WordEnd(s, 0)]] + Words(s[WordEnd(s, 0)..])
  }

  lemma {:induction false} StripStartKeepsWords(s: string)
    ensures Words(StripStart(s)) == Words(s)
  {
    if s != "" && Space(s[0]) {
      StripStartKeepsWords(s[1..]);
    }
  }

  lemma {:induction false} TrailingSpaceIsNoWord(s: string, c: char)
    requires Space(c)
    ensures Words(s + [c]) == Words(s)
    decreases |s|
  {
    var t := s + [c];
    if s == "" {
      assert t[1..] == "";
    } else if Space(s[0]) {
      assert t[1..] == s[1..] + [c];
      TrailingSpaceIsNoWord(s[1..], c);
    } else {
      var end := WordEnd(s, 0);
      WordEndIs(t, end);
      assert t[..end] == s[..end] && t[end..] == s[end..] + [c];
      TrailingSpaceIsNoWord(s[end..], c);
    }
  }

  lemma {:induction false} StripEndKeepsWords(s: string)
    ensures Words(StripEnd(s)) == Words(s)
  {
    if s != "" && Space(s[|s| - 1]) {
      assert s == s[..|s| - 1] + [s[|s| - 1]];
      TrailingSpaceIsNoWord(s[..|s| - 1], s[|s| - 1]);
      StripEndKeepsWords(s[..|s| - 1]);
    }
  }

  /** A field of the stat line after the command name. */
  predicate Field(s: string) {
    s != "" && forall i :: 0 <= i < |s| ==> !Space(s[i]) && s[i] != ')'
  }

  predicate Fields(fields: seq<string>) {
    forall i :: 0 <= i < |fields| ==> Field(fields[i])
  }

  function Spaced(fields: seq<string>): (s: string)
    ensures s != "" && Space(s[0])
  {
    if fields == [] then "\n" else " " + fields[0] + Spaced(fields[1..])
  }

  /** A word between blanks is the first word. */
  lemma WordThenRest(word: string, rest: string)
    requires word != "" && (forall i :: 0 <= i < |word| ==> !Space(word[i])) && rest != "" && Space(rest[0])
    ensures Words(" " + word + rest) == [word] + Words(rest)
  {
    var t := word + rest;
    assert (" " + word + rest)[1..] == t;
    WordEndIs(t, |word|);
    assert t[..|word|] == word && t[|word|..] == rest;
  }

  lemma {:induction false} WordsOfSpaced(fields: seq<string>)
    requires Fields(fields)
    ensures Words(Spaced(fields)) == fields
    ensures ')' !in Spaced(fields)
    decreases |fields|
  {
    if fields == [] {
      assert Words("\n"[1..]) == [];
    } else {
      WordsOfSpaced(fields[1..]);
      assert Field(fields[0]);
      WordThenRest(fields[0], Spaced(fields[1..]));
      assert fields == [fields[0]] + fields[1..];
    }
  }

  // ----- The identity -----

  function Identity(pid: nat, start: nat): string {
    Decimal(pid) + ":" + Decimal(start)
  }

  /** An identity names one PID and one start time. */
  lemma IdentityIsInjective(pid: nat, start: nat, pid': nat, start': nat)
    requires Identity(pid, start) == Identity(pid', start')
    ensures pid == pid' && start == start'
  {
    var s, a, b := Identity(pid, start), |Decimal(pid)|, |Decimal(pid')|;
    assert s[a] == ':' && s[b] == ':';
    assert forall k :: 0 <= k < a ==> s[k] == Decimal(pid)[k] != ':';
    assert forall k :: 0 <= k < b ==> s[k] == Decimal(pid')[k] != ':';
    assert s[..a] == Decimal(pid) && s[..b] == Decimal(pid');
    assert s[a + 1..] == Decimal(start) && s[b + 1..] == Decimal(start');
    DecimalIsInjective(pid, pid');
    DecimalIsInjective(start, start');
  }

  predicate Dead(state: string) {
    state == "Z" || state == "X" || state == "x"
  }

  function ProcessIdentity(pid: nat, stat: string): Option<string> {
    var commandEnd := RFind(stat, ')');
    if commandEnd < 0 then None
    else
      var fields := Words(Strip(stat[commandEnd + 1..]));
      if |fields| <= 19 || Dead(fields[0]) || !Digits(fields[19]) then None
      else Some(Decimal(pid) + ":" + fields[19])
  }

  /** On any text: only the words after its last closing bracket count, and a text without one has no identity. */
  lemma ReadsAfterLastBracket(pid: nat, head: string, tail: string)
    requires ')' !in tail
    ensures ProcessIdentity(pid, tail) == None
    ensures var words := Words(tail);
      ProcessIdentity(pid, head + ")" + tail) ==
        if |words| >= 20 && words[0] !in {"Z", "X", "x"} && Digits(words[19])
        then Some(Decimal(pid) + ":" + words[19]) else None
  {
    LastBracket(head, tail);
    StripStartKeepsWords(tail);
    StripEndKeepsWords(StripStart(tail));
  }

  lemma LastBracket(head: string, tail: string)
    requires ')' !in tail
    ensures RFind(tail, ')') == -1
    ensures RFind(head + ")" + tail, ')') == |head| && (head + ")" + tail)[|head| + 1..] == tail
  {
    var s := head + (")" + tail);
    assert s == head + ")" + tail && s[|head| + 1..] == tail;
    forall k | |head| < k < |s|
      ensures s[k] != ')'
    {
      assert s[k] == (")" + tail)[k - |head|] == tail[k - |head| - 1];
    }
    RFindIs(s, ')', |head|);
  }

  lemma RFindIs(s: string, c: char, at: nat)
    requires at < |s| && s[at] == c && forall k :: at < k < |s| ==> s[k] != c
    ensures RFind(s, c) == at
  {
  }

  /** The stat line as the kernel prints it: the command name may be any text. */
  function StatLine(pid: nat, name: string, fields: seq<string>): string {
    Decimal(pid) + " (" + name + ")" + Spaced(fields)
  }

  /**
   Whatever the command name holds, also `)`, blanks and newlines, the parser finds the true state and
   start time of the line.
   */
  lemma ParserSurvivesAnyName(pid: nat, asked: nat, name: string, fields: seq<string>)
    requires |fields| >= 20 && Fields(fields)
    ensures ProcessIdentity(asked, StatLine(pid, name, fields)) ==
      if fields[0] in {"Z", "X", "x"} || !Digits(fields[19]) then None else Some(Decimal(asked) + ":" + fields[19])
  {
    WordsOfSpaced(fields);
    ReadsAfterLastBracket(asked, Decimal(pid) + " (" + name, Spaced(fields));
  }

  // ----- The kernel -----

  /**
   One process instance.  `name` is None when it is not valid UTF-8; `state`, `middle` and `rest` are
   the stat fields besides the start time.  A zombie keeps its PID until it is reaped.
   */
  datatype Process = Process(
    pid: nat,
    start: nat,
    name: Option<string>,
    state: string,
    middle: seq<string>,
    rest: seq<string>,
    zombie: bool,
    reaped: bool)

  /** `slots` holds the instance that owns each PID; `received` the signals this helper delivered. */
  datatype Kernel = Kernel(slots: map<nat, nat>, processes: seq<Process>, received: seq<(nat, int)>)

  datatype Action =
    | Fork(p: Process)
    | Change(i: nat, name: Option<string>, state: string, middle: seq<string>, rest: seq<string>)
    | Exit(i: nat)
    | Reap(i: nat)

  predicate Decent(p: Process) {
    Field(p.state) && !Dead(p.state) && |p.middle| == 18 && Fields(p.middle) && Fields(p.rest)
  }

  /** What anybody else may do to the process table at any moment; an impossible action does nothing. */
  function Act(k: Kernel, a: Action): Kernel {
    match a
    case Fork(p) =>
      if p.pid !in k.slots && Decent(p) && !p.zombie && !p.reaped then
        k.(slots := k.slots[p.pid := |k.processes|], processes := k.processes + [p])
      else k
    case Change(i, name, state, middle, rest) =>
      if i < |k.processes| then
        var p := k.processes[i].(name := name, state := state, middle := middle, rest := rest);
        if Decent(p) then k.(processes := k.processes[i := p]) else k
      else k
    case Exit(i) =>
      if i < |k.processes| then k.(processes := k.processes[i := k.processes[i].(zombie := true)]) else k
    case Reap(i) =>
      if i < |k.processes| && k.processes[i].zombie && !k.processes[i].reaped then
        k.(slots := k.slots - {k.processes[i].pid}, processes := k.processes[i := k.processes[i].(reaped := true)])
      else k
  }

  function Acts(k: Kernel, actions: seq<Action>): Kernel
    decreases |actions|
  {
    if actions == [] then k else Acts(Act(k, actions[0]), actions[1..])
  }

  /** Exactly the instances not yet reaped own their PIDs. */
  ghost predicate Wf(k: Kernel) {
    && (forall i :: 0 <= i < |k.processes| ==> Decent(k.processes[i]))
    && (forall i :: 0 <= i < |k.processes| && !k.processes[i].reaped ==>
          k.processes[i].pid in k.slots && k.slots[k.processes[i].pid] == i)
    && (forall pid :: pid in k.slots ==>
          k.slots[pid] < |k.processes| && k.processes[k.slots[pid]].pid == pid && !k.processes[k.slots[pid]].reaped)
  }

  datatype Stat = NoFile | Undecodable | Line(text: string)

  /** The fields after the command name, as printed. */
  function FieldsOf(p: Process): seq<string> {
    [if p.zombie then "Z" else p.state] + p.middle + [Decimal(p.start)] + p.rest
  }

  function ReadStat(k: Kernel, pid: nat): Stat {
    if pid in k.slots && k.slots[pid] < |k.processes| then
      var p := k.processes[k.slots[pid]];
      if p.name.None? then Undecodable else Line(StatLine(p.pid, p.name.value, FieldsOf(p)))
    else NoFile
  }

  // ----- The helper -----

  /** An attribute of the `signal` module: missing, a number, or something that is no signal. */
  datatype Attribute = Missing | Number(n: int) | NoSignal

  /** `Raised`: the interpreter ends with an uncaught exception. */
  datatype Result = Exited(code: int) | Raised

  /** What happens before each kernel call, and whether the call fails for a reason of its own. */
  datatype Surroundings = Surroundings(
    opening: seq<Action>, reading: seq<Action>, sending: seq<Action>, openFails: bool, sendFails: bool)

  /** The text before the first colon, if there is one. */
  function BeforeColon(s: string): Option<string> {
    if s == "" then None
    else if s[0] == ':' then Some("")
    else
      var rest := BeforeColon(s[1..]);
      if rest.Some? then Some([s[0]] + rest.value) else None
  }

  function Target(args: seq<string>, parse: string -> Option<int>): Option<nat> {
    if |args| != 2 || BeforeColon(args[0]).None? then None
    else
      var pid := parse(BeforeColon(args[0]).value);
      if pid.Some? && pid.value > 1 then Some(pid.value) else None
  }

  const MAX_PID: nat := 0x7fff_ffff

  function SendTo(k: Kernel, i: nat, attribute: Attribute, fails: bool): (Result, Kernel)
    requires i < |k.processes|
  {
    if attribute.NoSignal? then (Raised, k)
    else if fails || attribute.Missing? then (Exited(4), k)
    else if k.processes[i].reaped then (Exited(3), k)
    else (Exited(0), k.(received := k.received + [(i, attribute.n)]))
  }

  /** From the open descriptor on: `i` is the instance it pins. */
  function Compared(k: Kernel, pid: nat, i: nat, expected: string, attribute: Attribute, around: Surroundings):
    (Result, Kernel)
  {
    var k2 := Acts(k, around.reading);
    match ReadStat(k2, pid)
    case Undecodable => (Raised, k2)
    case NoFile => (Exited(3), k2)
    case Line(text) =>
      if ProcessIdentity(pid, text) != Some(expected) then (Exited(3), k2)
      else
        var k3 := Acts(k2, around.sending);
        if i < |k3.processes| then SendTo(k3, i, attribute, around.sendFails) else (Exited(3), k3)
  }

  /** One call of the helper; `parse` is Python's `int`, `attributes` its lookup in the signal module. */
  function Ran(args: seq<string>, parse: string -> Option<int>, attributes: string -> Attribute,
               around: Surroundings, k: Kernel): (Result, Kernel)
  {
    var target := Target(args, parse);
    if target.None? || attributes(args[1]).Missing? then (Exited(4), k)
    else if target.value > MAX_PID then (Raised, k)
    else
      var k1 := Acts(k, around.opening);
      if around.openFails then (Exited(4), k1)
      else if target.value !in k1.slots then (Exited(3), k1)
      else Compared(k1, target.value, k1.slots[target.value], args[0], attributes(args[1]), around)
  }

  // ----- What others can and cannot do meanwhile -----

  /** An instance keeps its PID and start time, and never comes back from the dead. */
  ghost predicate SameInstances(k: Kernel, k': Kernel) {
    && |k.processes| <= |k'.processes| && k'.received == k.received
    && forall i :: 0 <= i < |k.processes| ==>
      && k'.processes[i].pid == k.processes[i].pid && k'.processes[i].start == k.processes[i].start
      && (k.processes[i].zombie ==> k'.processes[i].zombie) && (k.processes[i].reaped ==> k'.processes[i].reaped)
  }

  /** An instance that keeps its PID, its start time and its place in the table may change freely. */
  lemma UpdateKeepsWf(k: Kernel, i: nat, p: Process)
    requires Wf(k) && i < |k.processes| && Decent(p)
    requires p.pid == k.processes[i].pid && p.reaped == k.processes[i].reaped
    ensures Wf(k.(processes := k.processes[i := p]))
  {
  }

  lemma ForkKeepsWf(k: Kernel, p: Process)
    requires Wf(k)
    ensures Wf(Act(k, Fork(p)))
  {
  }

  lemma ReapKeepsWf(k: Kernel, i: nat)
    requires Wf(k)
    ensures Wf(Act(k, Reap(i)))
  {
  }

  lemma ActKeepsWf(k: Kernel, a: Action)
    requires Wf(k)
    ensures Wf(Act(k, a))
  {
    match a
    case Fork(p) => ForkKeepsWf(k, p);
    case Reap(i) => ReapKeepsWf(k, i);
    case Exit(i) =>
      if i < |k.processes| {
        UpdateKeepsWf(k, i, k.processes[i].(zombie := true));
      }
    case Change(i, name, state, middle, rest) =>
      if i < |k.processes| {
        var p := k.processes[i].(name := name, state := state, middle := middle, rest := rest);
        if Decent(p) {
          UpdateKeepsWf(k, i, p);
        }
      }
  }

  lemma ActKeepsInstances(k: Kernel, a: Action)
    ensures SameInstances(k, Act(k, a))
  {
  }

  lemma {:induction false} ActsKeepInstances(k: Kernel, actions: seq<Action>)
    requires Wf(k)
    ensures Wf(Acts(k, actions)) && SameInstances(k, Acts(k, actions))
    decreases |actions|
  {
    if actions != [] {
      ActKeepsWf(k, actions[0]);
      ActKeepsInstances(k, actions[0]);
      ActsKeepInstances(Act(k, actions[0]), actions[1..]);
    }
  }

  /** The parser reads the identity of exactly the running processes whose name decodes. */
  lemma StatTellsIdentity(k: Kernel, pid: nat)
    requires Wf(k) && ReadStat(k, pid).Line?
    ensures pid in k.slots && var p := k.processes[k.slots[pid]];
      ProcessIdentity(pid, ReadStat(k, pid).text) == if p.zombie then None else Some(Identity(pid, p.start))
  {
    var p := k.processes[k.slots[pid]];
    var fields := FieldsOf(p);
    assert Field("Z");
    assert Field(Decimal(p.start));
    assert fields[19] == Decimal(p.start);
    ParserSurvivesAnyName(pid, pid, p.name.value, fields);
  }

  /**
   Everything that must hold for the helper to report success: the instance that owned the PID when
   the descriptor was opened has the expected identity, was running and readable when /proc was read,
   and was not reaped before the signal was sent.
   */
  predicate Reaches(args: seq<string>, parse: string -> Option<int>, attributes: string -> Attribute,
                    around: Surroundings, k: Kernel) {
    var target := Target(args, parse);
    && target.Some? && target.value <= MAX_PID && attributes(args[1]).Number?
    && !around.openFails && !around.sendFails
    && var k1 := Acts(k, around.opening);
    var k2 := Acts(k1, around.reading);
    var k3 := Acts(k2, around.sending);
    && target.value in k1.slots
    && var i := k1.slots[target.value];
    && i < |k2.processes| && k2.processes[i].name.Some? && !k2.processes[i].zombie
    && Identity(k2.processes[i].pid, k2.processes[i].start) == args[0]
    && i < |k3.processes| && !k3.processes[i].reaped
  }

  /** Had the PID been handed on before the comparison, the opened instance would be reaped by now. */
  lemma ComparedIsPinned(k: Kernel, pid: nat, expected: string, attribute: Attribute, around: Surroundings)
    requires Wf(k) && pid in k.slots
    ensures var i := k.slots[pid];
      var k2 := Acts(k, around.reading);
      var k3 := Acts(k2, around.sending);
      var (result, k') := Compared(k, pid, i, expected, attribute, around);
      var sent := attribute.Number? && !around.sendFails
        && i < |k2.processes| && k2.processes[i].name.Some? && !k2.processes[i].zombie
        && Identity(k2.processes[i].pid, k2.processes[i].start) == expected
        && i < |k3.processes| && !k3.processes[i].reaped;
      && (result == Exited(0) <==> sent)
      && (sent ==> k' == k3.(received := k.received + [(i, attribute.n)]))
      && (!sent ==> k'.received == k.received)
  {
    var i := k.slots[pid];
    var k2 := Acts(k, around.reading);
    var k3 := Acts(k2, around.sending);
    ActsKeepInstances(k, around.reading);
    ActsKeepInstances(k2, around.sending);
    if ReadStat(k2, pid).Line? {
      StatTellsIdentity(k2, pid);
    }
  }

  /** Success is reported exactly when the pinned instance is the expected one and gets the signal. */
  lemma SucceedsExactlyWhenReached(args: seq<string>, parse: string -> Option<int>,
                                   attributes: string -> Attribute, around: Surroundings, k: Kernel)
    requires Wf(k)
    ensures Ran(args, parse, attributes, around, k).0 == Exited(0) <==> Reaches(args, parse, attributes, around, k)
  {
    ActsKeepInstances(k, around.opening);
    var target := Target(args, parse);
    if target.Some? && target.value in Acts(k, around.opening).slots {
      ComparedIsPinned(Acts(k, around.opening), target.value, args[0], attributes(args[1]), around);
    }
  }

  /**
   Under every interleaving of forks, exits, reaps and PID reuse: if the helper reports success it
   sent one signal, to an instance whose own PID and start time are the expected identity and which
   still owns that PID; otherwise it signalled nobody.
   */
  lemma SignalReachesOnlyTheExpected(args: seq<string>, parse: string -> Option<int>,
                                     attributes: string -> Attribute, around: Surroundings, k: Kernel)
    requires Wf(k)
    ensures var (result, k') := Ran(args, parse, attributes, around, k);
      if result == Exited(0) then
        && |args| == 2 && attributes(args[1]).Number?
        && |k'.received| == |k.received| + 1
        && var (i, n) := k'.received[|k.received|];
        && k'.received == k.received + [(i, n)] && n == attributes(args[1]).n
        && i < |k'.processes| && !k'.processes[i].reaped
        && k'.processes[i].pid in k'.slots && k'.slots[k'.processes[i].pid] == i
        && Identity(k'.processes[i].pid, k'.processes[i].start) == args[0]
      else k'.received == k.received
  {
    var k1 := Acts(k, around.opening);
    ActsKeepInstances(k, around.opening);
    var target := Target(args, parse);
    if target.Some? && target.value in k1.slots {
      var k2 := Acts(k1, around.reading);
      ComparedIsPinned(k1, target.value, args[0], attributes(args[1]), around);
      ActsKeepInstances(k1, around.reading);
      ActsKeepInstances(k2, around.sending);
    }
  }

  // ----- The race is there -----

  /** A PID can be handed on: its owner exits, is reaped, and another process gets it. */
  lemma PidIsReused(k: Kernel, pid: nat, p: Process)
    requires Wf(k) && pid in k.slots && p.pid == pid && Decent(p) && !p.zombie && !p.reaped
    ensures var i := k.slots[pid];
      var k' := Acts(k, [Exit(i), Reap(i), Fork(p)]);
      && k'.slots == k.slots[pid := |k.processes|]
      && k'.processes == k.processes[i := k.processes[i].(zombie := true, reaped := true)] + [p]
      && k'.received == k.received
  {
    var i := k.slots[pid];
    var k1 := Act(k, Exit(i));
    var k2 := Act(k1, Reap(i));
    var k3 := Act(k2, Fork(p));
    assert Acts(k3, []) == k3;
    assert [Reap(i), Fork(p)][1..] == [Fork(p)] && [Exit(i), Reap(i), Fork(p)][1..] == [Reap(i), Fork(p)];
    assert Acts(k2, [Fork(p)]) == k3 && Acts(k1, [Reap(i), Fork(p)]) == k3;
    assert k3.slots == k.slots[pid := |k.processes|];
  }

  /** A process may rename itself and change its fields; the next reader of its file sees it. */
  lemma ChangeIsSeen(k: Kernel, pid: nat, name: string, state: string, middle: seq<string>, rest: seq<string>)
    requires Wf(k) && pid in k.slots
    requires Field(state) && !Dead(state) && |middle| == 18 && Fields(middle) && Fields(rest)
    ensures var i := k.slots[pid];
      var p := k.processes[i];
      ReadStat(Act(k, Change(i, Some(name), state, middle, rest)), pid) ==
        Line(Decimal(pid) + " (" + name + ")" + Spaced([if p.zombie then "Z" else state] + middle + [Decimal(p.start)] + rest))
  {
  }

  lemma ProcessesExist(pid: nat, start: nat)
    ensures Wf(Kernel(map[], [], []))
    ensures Decent(Process(pid, start, Some("a) b"), "S", seq(18, _ => "0"), [], false, false))
  {
  }

  /**
   The PID is handed on after the descriptor was opened: the helper signals nobody, even if the new owner
   has the very same PID and start time.
   */
  lemma ReuseIsNoticed(args: seq<string>, parse: string -> Option<int>, attributes: string -> Attribute,
                       k: Kernel, pid: nat, p: Process)
    requires Wf(k) && Named(args, parse, attributes, pid) && pid <= MAX_PID && pid in k.slots
    requires p.pid == pid && Decent(p) && !p.zombie && !p.reaped && p.name.Some? && attributes(args[1]).Number?
    ensures var i := k.slots[pid];
      var (result, k') := Ran(args, parse, attributes, Surroundings([], [Exit(i), Reap(i), Fork(p)], [], false, false), k);
      result == Exited(3) && k'.received == k.received
  {
    var i := k.slots[pid];
    var around := Surroundings([], [Exit(i), Reap(i), Fork(p)], [], false, false);
    NamedIsTarget(args, parse, attributes, pid);
    PidIsReused(k, pid, p);
    ActsKeepInstances(k, around.reading);
    var k2 := Acts(k, around.reading);
    assert Acts(k, []) == k && Acts(k2, []) == k2;
    SignalReachesOnlyTheExpected(args, parse, attributes, around, k);
    NamedExits(args, parse, attributes, around, k, Owner(pid, p.start, false), pid);
  }

  // ----- Every exit -----

  /** The text before the first colon is what stands before it. */
  lemma {:induction false} BeforeColonIs(s: string, head: string)
    ensures BeforeColon(s) == Some(head) <==>
      ':' !in head && |head| < |s| && s[..|head|] == head && s[|head|] == ':'
    ensures BeforeColon(s).None? <==> ':' !in s
  {
    if s != "" && s[0] != ':' {
      assert ':' in s <==> ':' in s[1..];
      if head == "" {
        BeforeColonIs(s[1..], head);
      } else {
        BeforeColonIs(s[1..], head[1..]);
        assert head == [head[0]] + head[1..];
        assert |head| <= |s| ==> s[..|head|] == [s[0]] + s[1..][..|head| - 1];
      }
    }
  }

  /** The arguments name a PID above 1 before their first colon, and something that `signal` has. */
  predicate Named(args: seq<string>, parse: string -> Option<int>, attributes: string -> Attribute, pid: nat) {
    && |args| == 2 && pid > 1 && !attributes(args[1]).Missing?
    && exists n :: 0 <= n < |args[0]| && args[0][n] == ':' && ':' !in args[0][..n] && parse(args[0][..n]) == Some(pid)
  }

  lemma NamedIsTarget(args: seq<string>, parse: string -> Option<int>, attributes: string -> Attribute, pid: nat)
    ensures Named(args, parse, attributes, pid) <==>
      Target(args, parse) == Some(pid) && !attributes(args[1]).Missing?
  {
    if Named(args, parse, attributes, pid) {
      var n :| 0 <= n < |args[0]| && args[0][n] == ':' && ':' !in args[0][..n] && parse(args[0][..n]) == Some(pid);
      BeforeColonIs(args[0], args[0][..n]);
    }
    if Target(args, parse) == Some(pid) {
      BeforeColonIs(args[0], BeforeColon(args[0]).value);
    }
  }

  /** What the PID shows when its stat file is read: nothing, a name that does not decode, or its owner. */
  datatype Shown = Nothing | Unreadable | Owner(pid: nat, start: nat, zombie: bool)

  ghost predicate Shows(k: Kernel, pid: nat, shown: Shown) {
    match shown
    case Nothing => pid !in k.slots
    case Unreadable => pid in k.slots && k.slots[pid] < |k.processes| && k.processes[k.slots[pid]].name.None?
    case Owner(p, start, zombie) =>
      && pid in k.slots && k.slots[pid] < |k.processes|
      && k.processes[k.slots[pid]].name.Some? && p == k.processes[k.slots[pid]].pid
      && start == k.processes[k.slots[pid]].start && zombie == k.processes[k.slots[pid]].zombie
  }

  /** Every exit once the descriptor is open, from what the file shows and whether the instance is reaped. */
  ghost predicate ExitsFor(result: Result, shown: Shown, expected: string, attribute: Attribute, fails: bool, reaped: bool) {
    var same := shown.Owner? && !shown.zombie && Decimal(shown.pid) + ":" + Decimal(shown.start) == expected;
    && (result == Raised <==> shown.Unreadable? || (same && attribute.NoSignal?))
    && (result == Exited(4) <==> same && attribute.Number? && fails)
    && (result == Exited(3) <==>
          shown.Nothing? || (shown.Owner? && !same) || (same && attribute.Number? && !fails && reaped))
    && (result == Exited(0) <==> same && attribute.Number? && !fails && !reaped)
  }

  lemma ComparedExits(k: Kernel, pid: nat, expected: string, attribute: Attribute, around: Surroundings, shown: Shown)
    requires Wf(k) && pid in k.slots && !attribute.Missing? && Shows(Acts(k, around.reading), pid, shown)
    ensures var i := k.slots[pid];
      var k3 := Acts(Acts(k, around.reading), around.sending);
      i < |k3.processes|
      && ExitsFor(Compared(k, pid, i, expected, attribute, around).0, shown, expected, attribute, around.sendFails,
                  k3.processes[i].reaped)
  {
    var k2 := Acts(k, around.reading);
    ActsKeepInstances(k, around.reading);
    ActsKeepInstances(k2, around.sending);
    ReadingShows(k2, pid, shown, expected);
  }

  /** What reading and comparing the stat file comes to. */
  lemma ReadingShows(k: Kernel, pid: nat, shown: Shown, expected: string)
    requires Wf(k) && Shows(k, pid, shown)
    ensures ReadStat(k, pid).NoFile? <==> shown.Nothing?
    ensures ReadStat(k, pid).Undecodable? <==> shown.Unreadable?
    ensures ReadStat(k, pid).Line? ==>
      (ProcessIdentity(pid, ReadStat(k, pid).text) == Some(expected) <==>
         !shown.zombie && Decimal(shown.pid) + ":" + Decimal(shown.start) == expected)
  {
    if ReadStat(k, pid).Line? {
      StatTellsIdentity(k, pid);
    }
  }

  /** The exit for a named PID, by the state of the open, the read and the send; the pinned instance exists throughout. */
  ghost predicate RightExit(result: Result, pid: nat, expected: string, attribute: Attribute, around: Surroundings,
                            k: Kernel, shown: Shown)
  {
    var k1 := Acts(k, around.opening);
    if pid >= 0x8000_0000 then result == Raised
    else if around.openFails then result == Exited(4)
    else if pid !in k1.slots then result == Exited(3)
    else
      var i := k1.slots[pid];
      var k2 := Acts(k1, around.reading);
      var k3 := Acts(k2, around.sending);
      i < |k3.processes|
      && (Shows(k2, pid, shown) ==> ExitsFor(result, shown, expected, attribute, around.sendFails, k3.processes[i].reaped))
  }

  lemma NamedExits(args: seq<string>, parse: string -> Option<int>, attributes: string -> Attribute,
                   around: Surroundings, k: Kernel, shown: Shown, pid: nat)
    requires Wf(k) && Named(args, parse, attributes, pid)
    ensures RightExit(Ran(args, parse, attributes, around, k).0, pid, args[0], attributes(args[1]), around, k, shown)
  {
    NamedIsTarget(args, parse, attributes, pid);
    var k1 := Acts(k, around.opening);
    ActsKeepInstances(k, around.opening);
    if pid in k1.slots {
      ActsKeepInstances(k1, around.reading);
      ActsKeepInstances(Acts(k1, around.reading), around.sending);
      if Shows(Acts(k1, around.reading), pid, shown) {
        ComparedExits(k1, pid, args[0], attributes(args[1]), around, shown);
      }
    }
  }

  lemma UnnamedExits(args: seq<string>, parse: string -> Option<int>, attributes: string -> Attribute,
                     around: Surroundings, k: Kernel)
    requires forall pid :: !Named(args, parse, attributes, pid)
    ensures Ran(args, parse, attributes, around, k).0 == Exited(4)
  {
    var target := Target(args, parse);
    if target.Some? {
      NamedIsTarget(args, parse, attributes, target.value);
    }
  }

  /**
   When the helper ends with which exit.  4: the arguments name no PID above 1 or nothing in `signal`, or
   the open fails for a reason of its own.  3: the PID has no owner at the open.  An exception: the PID is too
   large.  Otherwise a descriptor pins an instance, and the exit depends on what the stat file then shows and
   on whether that instance is reaped when the signal is sent.
   */
  lemma ExitsAreExact(args: seq<string>, parse: string -> Option<int>, attributes: string -> Attribute,
                      around: Surroundings, k: Kernel, shown: Shown)
    requires Wf(k)
    ensures var result := Ran(args, parse, attributes, around, k).0;
      && ((forall pid :: !Named(args, parse, attributes, pid)) ==> result == Exited(4))
      && (forall pid :: Named(args, parse, attributes, pid) ==>
            RightExit(result, pid, args[0], attributes(args[1]), around, k, shown))
  {
    if forall pid :: !Named(args, parse, attributes, pid) {
      UnnamedExits(args, parse, attributes, around, k);
    }
    forall pid: nat | Named(args, parse, attributes, pid)
      ensures RightExit(Ran(args, parse, attributes, around, k).0, pid, args[0], attributes(args[1]), around, k, shown)
    {
      NamedExits(args, parse, attributes, around, k, shown, pid);
    }
  }

  /** The stat file always shows exactly one of these. */
  lemma SomethingIsShown(k: Kernel, pid: nat) returns (shown: Shown)
    requires Wf(k)
    ensures Shows(k, pid, shown) && forall other :: Shows(k, pid, other) ==> other == shown
  {
    if pid !in k.slots {
      shown := Nothing;
    } else {
      var p := k.processes[k.slots[pid]];
      shown := if p.name.None? then Unreadable else Owner(p.pid, p.start, p.zombie);
    }
  }

  // ----- The kernel as the helper meets it -----

  class Machine {
    var kernel: Kernel

    constructor (k: Kernel)
      ensures kernel == k
    {
      kernel := k;
    }

    /** Time passes: others act. */
    method Elapse(actions: seq<Action>)
      modifies this
      ensures kernel == Acts(old(kernel), actions)
    {
      var i := 0;
      while i < |actions|
        invariant 0 <= i <= |actions|
        invariant Acts(kernel, actions[i..]) == Acts(old(kernel), actions)
      {
        assert actions[i..][1..] == actions[i + 1..];
        kernel := Act(kernel, actions[i]);
        i := i + 1;
      }
    }

    method Send(descriptor: nat, attribute: Attribute, fails: bool) returns (result: Result)
      requires descriptor < |kernel.processes|
      modifies this
      ensures (result, kernel) == SendTo(old(kernel), descriptor, attribute, fails)
    {
      if attribute.NoSignal? {
        result := Raised;
      } else if fails || attribute.Missing? {
        result := Exited(4);
      } else if kernel.processes[descriptor].reaped {
        result := Exited(3);
      } else {
        kernel := kernel.(received := kernel.received + [(descriptor, attribute.n)]);
        result := Exited(0);
      }
    }

    /** The program itself, from its arguments to its exit code. */
    method Signal(args: seq<string>, parse: string -> Option<int>, attributes: string -> Attribute,
                  around: Surroundings) returns (result: Result)
      requires Wf(kernel)
      modifies this
      ensures (result, kernel) == Ran(args, parse, attributes, around, old(kernel))
    {
      var target := Target(args, parse);
      if target.None? || attributes(args[1]).Missing? {
        return Exited(4);
      }
      var pid := target.value;
      if pid > MAX_PID {
        return Raised;
      }
      ActsKeepInstances(kernel, around.opening);
      Elapse(around.opening);
      if around.openFails {
        return Exited(4);
      }
      if pid !in kernel.slots {
        return Exited(3);
      }
      var descriptor := kernel.slots[pid];
      ActsKeepInstances(kernel, around.reading);
      Elapse(around.reading);
      var stat := ReadStat(kernel, pid);
      if stat.Undecodable? {
        return Raised;
      }
      if stat.NoFile? || ProcessIdentity(pid, stat.text) != Some(args[0]) {
        return Exited(3);
      }
      ActsKeepInstances(kernel, around.sending);
      Elapse(around.sending);
      result := Send(descriptor, attributes(args[1]), around.sendFails);
    }
  }
}

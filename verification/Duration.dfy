/** Durations and the argument list of the test-temp cleanup. */
module Duration {
  import opened Wrappers
  import opened Decimals

  // ----- Numbers -----

  const SAFE: nat := 9007199254740991

  /**
   A double-precision rounding of the natural numbers: monotone and exact up to 2^53 (section 4.3 of
   IEEE 754-2019); None stands for infinity.
   */
  ghost predicate Rounding(round: nat -> Option<nat>) {
    && (forall n: nat :: n <= SAFE + 1 ==> round(n) == Some(n))
    && (forall m, n :: m <= n && round(m).None? ==> round(n).None?)
    && (forall m, n :: m <= n && round(m).Some? && round(n).Some? ==> round(m).value <= round(n).value)
  }

  /** Exact arithmetic is such a rounding. */
  lemma ExactRounds()
    ensures Rounding(n => Some(n))
  {
  }

  datatype Unit = Ms | S | M | H | D

  function Factor(u: Unit): (f: nat)
    ensures 1 <= f <= 86400000
  {
    match u
    case Ms => 1
    case S => 1000
    case M => 60000
    case H => 3600000
    case D => 86400000
  }

  /** The digits before the unit, and the unit; `ms` is tried before `m` and `s` as the text ends. */
  function Parse(raw: string): (parsed: Option<(string, Unit)>)
    ensures parsed.Some? ==> Digits(parsed.value.0)
  {
    var n := |raw|;
    if n >= 3 && raw[n - 2..] == "ms" && Digits(raw[..n - 2]) then Some((raw[..n - 2], Ms))
    else if n >= 2 && Digits(raw[..n - 1]) then
      match raw[n - 1]
      case 's' => Some((raw[..n - 1], S))
      case 'm' => Some((raw[..n - 1], M))
      case 'h' => Some((raw[..n - 1], H))
      case 'd' => Some((raw[..n - 1], D))
      case _ => None
    else None
  }

  function Spelled(u: Unit): string {
    match u
    case Ms => "ms"
    case S => "s"
    case M => "m"
    case H => "h"
    case D => "d"
  }

  lemma PrintedParses(digits: string, u: Unit)
    requires Digits(digits)
    ensures Parse(digits + Spelled(u)) == Some((digits, u))
  {
    var raw, n := digits + Spelled(u), |digits + Spelled(u)|;
    assert raw[..|digits|] == digits && raw[|digits|..] == Spelled(u);
    if u.Ms? {
      assert raw[n - 2..] == "ms";
    } else {
      assert n >= 2 && '0' <= raw[n - 2] <= '9' by {
        assert raw[n - 2] == digits[n - 2];
      }
      if n >= 3 {
        assert raw[n - 2..][0] == raw[n - 2];
      }
      assert raw[n - 1] == Spelled(u)[0];
    }
  }

  lemma ParsedIsPrinted(raw: string)
    requires Parse(raw).Some?
    ensures raw == Parse(raw).value.0 + Spelled(Parse(raw).value.1)
  {
    var n := |raw|;
    if n >= 3 && raw[n - 2..] == "ms" && Digits(raw[..n - 2]) {
      assert raw == raw[..n - 2] + raw[n - 2..];
    } else {
      assert raw == raw[..n - 1] + [raw[n - 1]];
    }
  }

  /** The parser finds the one way to read a text as digits and a unit. */
  lemma ParseIsExact(raw: string, digits: string, u: Unit)
    ensures Parse(raw) == Some((digits, u)) <==> Digits(digits) && raw == digits + Spelled(u)
  {
    if Digits(digits) && raw == digits + Spelled(u) {
      PrintedParses(digits, u);
    }
    if Parse(raw).Some? {
      ParsedIsPrinted(raw);
    }
  }

  /** A second is 1000 milliseconds, a minute 60 seconds, an hour 60 minutes, a day 24 hours. */
  lemma UnitsAreMultiples()
    ensures Factor(Ms) == 1 && Factor(S) == 1000 * Factor(Ms) && Factor(M) == 60 * Factor(S)
    ensures Factor(H) == 60 * Factor(M) && Factor(D) == 24 * Factor(H)
  {
  }

  /** Both the reading of the digits and the product are rounded. */
  function DurationMs(raw: string, round: nat -> Option<nat>): Option<nat> {
    match Parse(raw)
    case None => None
    case Some((digits, u)) =>
      var number := round(ValueOf(digits));
      if number.None? then None
      else
        var product := round(number.value * Factor(u));
        if product.Some? && product.value <= SAFE then product else None
  }

  /**
   Despite both roundings a duration is accepted exactly when the true product is a safe integer, and
   then the result is that product.
   */
  lemma DurationIsExact(raw: string, round: nat -> Option<nat>)
    requires Rounding(round)
    ensures var parsed := Parse(raw);
      DurationMs(raw, round) ==
        if parsed.Some? && ValueOf(parsed.value.0) * Factor(parsed.value.1) <= SAFE
        then Some(ValueOf(parsed.value.0) * Factor(parsed.value.1))
        else None
  {
    var parsed := Parse(raw);
    if parsed.Some? {
      RoundedTwice(ValueOf(parsed.value.0), Factor(parsed.value.1), round);
    }
  }

  lemma RoundedTwice(value: nat, factor: nat, round: nat -> Option<nat>)
    requires Rounding(round) && factor >= 1
    ensures value * factor <= SAFE ==> round(value) == Some(value) && round(value * factor) == Some(value * factor)
    ensures value * factor > SAFE && round(value).Some? && round(round(value).value * factor).Some? ==>
      round(round(value).value * factor).value > SAFE
  {
    Grows(value, factor);
    if value * factor > SAFE && round(value).Some? {
      var number := round(value).value;
      Grows(number, factor);
      if value > SAFE {
        assert round(SAFE + 1) == Some(SAFE + 1);
        assert number >= SAFE + 1;
      } else {
        assert number == value;
      }
      assert round(SAFE + 1) == Some(SAFE + 1);
      assert number * factor >= SAFE + 1;
    }
  }

  lemma Grows(value: nat, factor: nat)
    requires factor >= 1
    ensures value * factor >= value
  {
  }

  // ----- Arguments -----

  datatype Options = Options(help: bool, apply: bool, legacy: bool, olderThanMs: nat)

  const OLDER_THAN := "--older-than"

  predicate Inline(arg: string) {
    |arg| > 12 && arg[..13] == OLDER_THAN + "="
  }

  /** What the options are from argument `i` on; None stands for a thrown error. */
  function ParseFrom(argv: seq<string>, i: nat, o: Options, duration: string -> Option<nat>): Option<Options>
    requires i <= |argv|
    decreases |argv| - i
  {
    if i == |argv| then Some(o)
    else if argv[i] == "--apply" then ParseFrom(argv, i + 1, o.(apply := true), duration)
    else if argv[i] == "--legacy" then ParseFrom(argv, i + 1, o.(legacy := true), duration)
    else if argv[i] == OLDER_THAN then
      if i + 1 < |argv| && duration(argv[i + 1]).Some? then
        ParseFrom(argv, i + 2, o.(olderThanMs := duration(argv[i + 1]).value), duration)
      else None
    else if Inline(argv[i]) then
      if duration(argv[i][13..]).Some? then
        ParseFrom(argv, i + 1, o.(olderThanMs := duration(argv[i][13..]).value), duration)
      else None
    else if argv[i] == "--help" || argv[i] == "-h" then Some(o.(help := true))
    else None
  }

  method ParseCleanupArgs(argv: seq<string>, maxAge: nat, duration: string -> Option<nat>)
    returns (parsed: Option<Options>)
    ensures parsed == ParseFrom(argv, 0, Options(false, false, false, maxAge), duration)
  {
    var apply, legacy, olderThanMs := false, false, maxAge;
    var index := 0;
    while index < |argv|
      invariant 0 <= index <= |argv|
      invariant ParseFrom(argv, 0, Options(false, false, false, maxAge), duration)
        == ParseFrom(argv, index, Options(false, apply, legacy, olderThanMs), duration)
    {
      var arg := argv[index];
      if arg == "--apply" {
        apply := true;
      } else if arg == "--legacy" {
        legacy := true;
      } else if arg == OLDER_THAN {
        if index + 1 >= |argv| {
          return None;
        }
        index := index + 1;
        var value := duration(argv[index]);
        if value.None? {
          return None;
        }
        olderThanMs := value.value;
      } else if Inline(arg) {
        var value := duration(arg[13..]);
        if value.None? {
          return None;
        }
        olderThanMs := value.value;
      } else if arg == "--help" || arg == "-h" {
        return Some(Options(true, apply, legacy, olderThanMs));
      } else {
        return None;
      }
      index := index + 1;
    }
    parsed := Some(Options(false, apply, legacy, olderThanMs));
  }

  /** What one argument does alone. */
  lemma OneArgument(arg: string, o: Options, duration: string -> Option<nat>)
    ensures ParseFrom([arg], 0, o, duration) ==
      if arg == "--apply" then Some(Options(o.help, true, o.legacy, o.olderThanMs))
      else if arg == "--legacy" then Some(Options(o.help, o.apply, true, o.olderThanMs))
      else if arg == "--help" || arg == "-h" then Some(Options(true, o.apply, o.legacy, o.olderThanMs))
      else if "--older-than=" <= arg && duration(arg[13..]).Some? then
        Some(Options(o.help, o.apply, o.legacy, duration(arg[13..]).value))
      else None
  {
    assert OLDER_THAN + "=" == "--older-than=";
    assert forall q: Options :: ParseFrom([arg], 1, q, duration) == Some(q);
  }

  /** A duration may be the next argument or be spelled in the same one. */
  lemma InlineIsSpelledOut(value: string, o: Options, duration: string -> Option<nat>)
    ensures ParseFrom(["--older-than", value], 0, o, duration) == ParseFrom(["--older-than=" + value], 0, o, duration)
  {
    OneArgument("--older-than=" + value, o, duration);
    assert ("--older-than=" + value)[13..] == value && ("--older-than=" + value)[2] == 'o';
    assert forall q: Options :: ParseFrom(["--older-than", value], 2, q, duration) == Some(q);
  }

  lemma {:induction false} SuffixParsesAlike(a: seq<string>, b: seq<string>, k: nat, o: Options,
                                             duration: string -> Option<nat>)
    requires k <= |b|
    ensures ParseFrom(a + b, |a| + k, o, duration) == ParseFrom(b, k, o, duration)
    decreases |b| - k
  {
    if k < |b| {
      assert (a + b)[|a| + k] == b[k];
      if b[k] == OLDER_THAN {
        if k + 1 < |b| && duration(b[k + 1]).Some? {
          assert (a + b)[|a| + k + 1] == b[k + 1];
          SuffixParsesAlike(a, b, k + 2, o.(olderThanMs := duration(b[k + 1]).value), duration);
        }
      } else if Inline(b[k]) {
        if duration(b[k][13..]).Some? {
          SuffixParsesAlike(a, b, k + 1, o.(olderThanMs := duration(b[k][13..]).value), duration);
        }
      } else {
        SuffixParsesAlike(a, b, k + 1, o.(apply := true), duration);
        SuffixParsesAlike(a, b, k + 1, o.(legacy := true), duration);
      }
    }
  }

  /**
   Arguments accumulate: after an accepted prefix the rest is read as if it came alone, with the
   options found so far as its defaults; after a help flag the rest does not matter, valid or not.
   */
  lemma {:induction false} ArgumentsAccumulate(a: seq<string>, b: seq<string>, i: nat, o: Options,
                                               duration: string -> Option<nat>)
    requires i <= |a| && !o.help && ParseFrom(a, i, o, duration).Some?
    ensures var p := ParseFrom(a, i, o, duration).value;
      ParseFrom(a + b, i, o, duration) == if p.help then Some(p) else ParseFrom(b, 0, p, duration)
    decreases |a| - i
  {
    if i == |a| {
      SuffixParsesAlike(a, b, 0, o, duration);
    } else {
      assert (a + b)[i] == a[i];
      if a[i] == "--apply" {
        ArgumentsAccumulate(a, b, i + 1, o.(apply := true), duration);
      } else if a[i] == "--legacy" {
        ArgumentsAccumulate(a, b, i + 1, o.(legacy := true), duration);
      } else if a[i] == OLDER_THAN {
        assert (a + b)[i + 1] == a[i + 1];
        ArgumentsAccumulate(a, b, i + 2, o.(olderThanMs := duration(a[i + 1]).value), duration);
      } else if Inline(a[i]) {
        ArgumentsAccumulate(a, b, i + 1, o.(olderThanMs := duration(a[i][13..]).value), duration);
      }
    }
  }
}

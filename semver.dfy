// The semantic-version pattern of `SemanticVersionedModel`: a major number,
// optional `.minor` and `.patch`, an optional `-`, then a free label, all
// matched from the start of the version text only.
module SemVer {
  import opened Common
  import Proc

  predicate Digit(c: char)
  {
    '0' <= c <= '9'
  }

  /** `0|[1-9][0-9]*` spelled out: a digit run without a leading zero. */
  predicate Canonical(t: string)
  {
    t != [] && (forall i :: 0 <= i < |t| ==> Digit(t[i])) && (t[0] == '0' ==> |t| == 1)
  }

  /** The length of the run of digits `s` starts with. */
  function DigitRun(s: string): (n: nat)
    ensures n <= |s| && forall i :: 0 <= i < n ==> Digit(s[i])
    ensures n < |s| ==> !Digit(s[n])
  {
    if s == [] || !Digit(s[0]) then 0 else 1 + DigitRun(s[1..])
  }

  /**
   * How much of `s` the number pattern matches at its start, 0 for no
   * match: a leading `0` is a whole number by itself, any other digit
   * takes the whole digit run.
   */
  function NumberAt(s: string): (n: nat)
    ensures n <= |s|
    ensures n == 0 <==> s == [] || !Digit(s[0])
    ensures n > 0 ==> Canonical(s[..n])
    ensures n > 0 && s[0] != '0' ==> n == |s| || !Digit(s[n])
  {
    if s == [] || !Digit(s[0]) then 0
    else if s[0] == '0' then 1
    else 1 + DigitRun(s[1..])
  }

  /** `\.(0|[1-9][0-9]*)` at the start of `s`: the number's digits, if it matches. */
  function DottedAt(s: string): (r: Option<string>)
    ensures r.Some? <==> |s| >= 2 && s[0] == '.' && Digit(s[1])
    ensures r.Some? ==> Canonical(r.value) && ['.'] + r.value <= s
  {
    if |s| >= 2 && s[0] == '.' && NumberAt(s[1..]) > 0 then Some(s[1..1 + NumberAt(s[1..])]) else None
  }

  /** What the pattern captures: the numbers' digits, whether a `-` was taken, and the label. */
  datatype Match = Match(major: string, minor: Option<string>, patch: Option<string>, dash: bool, vLabel: string)

  /** The text of an optional `.<number>` part. */
  function Piece(part: Option<string>): string
  {
    if part.Some? then ['.'] + part.value else []
  }

  /** The text a match covers, put back together. */
  function Text(m: Match): string
  {
    m.major + Piece(m.minor) + Piece(m.patch) + (if m.dash then "-" else []) + m.vLabel
  }

  /** `(\.(0|[1-9][0-9]*))?` at the start of `s`: the part taken, and what follows it. */
  function OptionalPart(s: string): (r: (Option<string>, string))
    ensures r.0 == DottedAt(s)
    ensures Piece(r.0) + r.1 == s
  {
    var d := DottedAt(s);
    if d.Some? then
      assert s == ['.'] + d.value + s[1 + |d.value|..];
      (d, s[1 + |d.value|..])
    else (d, s)
  }

  /**
   * `regex.match(s)`. Every part after the major number is optional and
   * `.*` matches whatever follows, so the first greedy choice at each step
   * is the match.
   */
  function Matched(s: string): (r: Option<Match>)
    ensures r.Some? <==> s != [] && Digit(s[0])
    ensures r.Some? ==> Canonical(r.value.major) && (r.value.minor.Some? ==> Canonical(r.value.minor.value)) &&
                        (r.value.patch.Some? ==> Canonical(r.value.patch.value))
    ensures r.Some? ==> r.value.major == s[..NumberAt(s)] && r.value.minor == DottedAt(s[NumberAt(s)..])
  {
    var a := NumberAt(s);
    if a == 0 then None
    else
      var (minor, rest2) := OptionalPart(s[a..]);
      var (patch, rest3) := OptionalPart(rest2);
      var dash := rest3 != [] && rest3[0] == '-';
      var rest4 := if dash then rest3[1..] else rest3;
      Some(Match(s[..a], minor, patch, dash, Proc.BeforeFirst(rest4, '\n')))
  }

  /**
   * A match covers a prefix of the text: the pieces put back together are
   * the text up to the end of its first line, the label being the whole
   * rest of that line.
   */
  lemma MatchCoversTheFirstLine(s: string)
    requires Matched(s).Some?
    ensures Text(Matched(s).value) <= s
    ensures '\n' !in Matched(s).value.vLabel
    ensures |Text(Matched(s).value)| < |s| ==> s[|Text(Matched(s).value)|] == '\n'
  {
    var a := NumberAt(s);
    var (minor, rest2) := OptionalPart(s[a..]);
    var (patch, rest3) := OptionalPart(rest2);
    var dash := rest3 != [] && rest3[0] == '-';
    var rest4 := if dash then rest3[1..] else rest3;
    var l := Proc.BeforeFirst(rest4, '\n');
    var m := Match(s[..a], minor, patch, dash, l);
    assert Matched(s) == Some(m) by {
      MatchedInParts(s, a, minor, rest2, patch, rest3, dash, l);
    }
    Layout(s, a, minor, rest2, patch, rest3, dash, rest4);
    TextCovers(m, s, rest4);
  }

  /** The pieces the pattern takes, one after another, make up the text. */
  lemma Layout(s: string, a: nat, minor: Option<string>, rest2: string, patch: Option<string>, rest3: string,
               dash: bool, rest4: string)
    requires a <= |s| && Piece(minor) + rest2 == s[a..] && Piece(patch) + rest3 == rest2
    requires dash ==> rest3 != [] && rest3[0] == '-'
    requires rest4 == if dash then rest3[1..] else rest3
    ensures s == s[..a] + Piece(minor) + Piece(patch) + (if dash then "-" else []) + rest4
  {
    var d := if dash then "-" else [];
    assert rest3 == d + rest4;
    Split(s, a);
    Regroup(s[..a], Piece(minor), Piece(patch), d, rest4);
  }

  /** A match whose label is the first line of what follows its other pieces covers that first line. */
  lemma TextCovers(m: Match, s: string, rest: string)
    requires s == m.major + Piece(m.minor) + Piece(m.patch) + (if m.dash then "-" else []) + rest
    requires m.vLabel == Proc.BeforeFirst(rest, '\n')
    ensures Text(m) <= s
    ensures '\n' !in m.vLabel
    ensures |Text(m)| < |s| ==> s[|Text(m)|] == '\n'
  {
    var head := m.major + Piece(m.minor) + Piece(m.patch) + (if m.dash then "-" else []);
    CoveredPrefix(head, rest, m.vLabel);
  }

  /** The text before the first line break of `rest`, after a common head. */
  lemma CoveredPrefix(head: string, rest: string, l: string)
    requires l == Proc.BeforeFirst(rest, '\n')
    ensures head + l <= head + rest
    ensures |head + l| < |head + rest| ==> (head + rest)[|head + l|] == '\n'
  {
    PrefixUnderAPrefix(head, l, rest);
    if |l| < |rest| {
      assert (head + rest)[|head| + |l|] == rest[|l|];
    }
  }

  lemma Split(s: string, a: nat)
    requires a <= |s|
    ensures s == s[..a] + s[a..]
  {
  }

  lemma Regroup(a: string, b: string, c: string, d: string, e: string)
    ensures a + (b + (c + (d + e))) == a + b + c + d + e
  {
  }

  lemma PrefixUnderAPrefix(head: string, l: string, rest: string)
    requires l <= rest
    ensures head + l <= head + rest
  {
    assert (head + rest)[..|head| + |l|] == head + l;
  }

  /** The decimal value of a digit string. */
  function Value(t: string): nat
  {
    if t == [] then 0
    else Value(t[..|t| - 1]) * 10 + (if Digit(t[|t| - 1]) then (t[|t| - 1] as int - '0' as int) else 0)
  }

  datatype Version = Version(major: nat, minor: nat, patch: nat, vLabel: string)

  /** `match.group(...) or 0` and `or ''`: a part that did not take part becomes 0 or the empty label. */
  function Parse(s: string): (r: Option<Version>)
    ensures r.Some? <==> Matched(s).Some?
    ensures r.Some? ==> var m := Matched(s).value;
      r.value.major == Value(m.major) && r.value.minor == (if m.minor.Some? then Value(m.minor.value) else 0) &&
      r.value.patch == (if m.patch.Some? then Value(m.patch.value) else 0) && r.value.vLabel == m.vLabel
  {
    var m := Matched(s);
    if m.None? then None
    else Some(Version(Value(m.value.major), if m.value.minor.Some? then Value(m.value.minor.value) else 0,
                      if m.value.patch.Some? then Value(m.value.patch.value) else 0, m.value.vLabel))
  }

  /** A row of a semantic-versioned model: its version text and the parsed columns. */
  datatype Versioned = Versioned(version: string, parsed: Version)

  /** `SemanticVersionedModel.save`: the columns follow the text when it matches and are left as they were when not. */
  function Saved(row: Versioned): (r: Versioned)
    ensures r.version == row.version
    ensures Parse(row.version).Some? ==> r.parsed == Parse(row.version).value
    ensures Parse(row.version).None? ==> r == row
  {
    var p := Parse(row.version);
    if p.Some? then row.(parsed := p.value) else row
  }

  /** Saving twice parses nothing new. */
  lemma SavingIsIdempotent(row: Versioned)
    ensures Saved(Saved(row)) == Saved(row)
  {
  }

  /** The largest number PostgreSQL's `integer`, the column type of `PositiveIntegerField`, holds. */
  const MAX_INTEGER: nat := 2147483647
  /** The `max_length` of `v_label`, and of the `version` text itself. */
  const LABEL_MAX_LENGTH: nat := 32
  const VERSION_MAX_LENGTH: nat := 64
  const INTEGER_OUT_OF_RANGE: string := "integer out of range"
  const LABEL_TOO_LONG: string := "value too long for type character varying(32)"
  const VERSION_TOO_LONG: string := "value too long for type character varying(64)"

  /** Whether the database takes the parsed columns: each number fits an `integer`, the label its `varchar(32)`. */
  predicate Fits(v: Version)
  {
    v.major <= MAX_INTEGER && v.minor <= MAX_INTEGER && v.patch <= MAX_INTEGER && |v.vLabel| <= LABEL_MAX_LENGTH
  }

  /**
   * The whole `save()`: the parse runs inside the `try`, but `super().save()`
   * sits outside it, so columns the database cannot hold make the save raise.
   */
  function Stored(row: Versioned): (r: Result<Versioned, Failure>)
    ensures r.Ok? <==> |row.version| <= VERSION_MAX_LENGTH && Fits(Saved(row).parsed)
    ensures r.Ok? ==> r.value == Saved(row)
    ensures r.Err? ==> r.error.DataError?
  {
    var saved := Saved(row);
    if saved.parsed.major > MAX_INTEGER || saved.parsed.minor > MAX_INTEGER || saved.parsed.patch > MAX_INTEGER then
      Err(DataError(INTEGER_OUT_OF_RANGE))
    else if |saved.version| > VERSION_MAX_LENGTH then Err(DataError(VERSION_TOO_LONG))
    else if |saved.parsed.vLabel| > LABEL_MAX_LENGTH then Err(DataError(LABEL_TOO_LONG))
    else Ok(saved)
  }

  // ----- printing a version and reading it back -----

  lemma {:induction false} DecimalTextHasNoLeadingZero(n: nat)
    ensures DecimalText(n)[0] == '0' ==> n == 0
    decreases n
  {
    if n >= 10 {
      DecimalTextHasNoLeadingZero(n / 10);
      assert DecimalText(n)[0] == DecimalText(n / 10)[0];
    }
  }

  lemma {:induction false} ValueOfDecimalText(n: nat)
    ensures Value(DecimalText(n)) == n
    decreases n
  {
    var t := DecimalText(n);
    if n >= 10 {
      ValueOfDecimalText(n / 10);
      assert t[..|t| - 1] == DecimalText(n / 10);
    }
  }

  /** The number pattern takes exactly a printed number when no digit follows it. */
  lemma NumberTakesAPrintedNumber(n: nat, rest: string)
    requires rest == [] || !Digit(rest[0])
    ensures NumberAt(DecimalText(n) + rest) == |DecimalText(n)|
    ensures (DecimalText(n) + rest)[..|DecimalText(n)|] == DecimalText(n)
    ensures (DecimalText(n) + rest)[|DecimalText(n)|..] == rest
  {
    var s := DecimalText(n) + rest;
    DecimalTextHasNoLeadingZero(n);
    if s[0] != '0' {
      assert DigitRun(s[1..]) == |DecimalText(n)| - 1 by {
        DigitRunOfDigits(DecimalText(n)[1..], rest);
        assert s[1..] == DecimalText(n)[1..] + rest;
      }
    }
  }

  lemma {:induction false} DigitRunOfDigits(t: string, rest: string)
    requires forall i :: 0 <= i < |t| ==> Digit(t[i])
    requires rest == [] || !Digit(rest[0])
    ensures DigitRun(t + rest) == |t|
    decreases |t|
  {
    if t != [] {
      assert (t + rest)[1..] == t[1..] + rest;
      DigitRunOfDigits(t[1..], rest);
    }
  }

  lemma BeforeFirstOfAFreeText(s: string, c: char)
    requires c !in s
    ensures Proc.BeforeFirst(s, c) == s
  {
    assert forall i :: 0 <= i < |s| ==> s[i] != c;
  }

  /** A version written out in full as `<major>.<minor>.<patch>`, then `-` when asked for, then the label. */
  function Printed(v: Version, dash: bool): string
  {
    DecimalText(v.major) + "." + DecimalText(v.minor) + "." + DecimalText(v.patch) + (if dash then "-" else "") + v.vLabel
  }

  /**
   * A version written out in full reads back as the same numbers and
   * label, for a label of one line that, with no `-` before it, does not
   * start with a digit or a `-` of its own.
   */
  lemma PrintedVersionsReadBack(v: Version, dash: bool)
    requires '\n' !in v.vLabel
    requires !dash ==> v.vLabel == [] || (!Digit(v.vLabel[0]) && v.vLabel[0] != '-')
    ensures Parse(Printed(v, dash)) == Some(v)
  {
    var m := Match(DecimalText(v.major), Some(DecimalText(v.minor)), Some(DecimalText(v.patch)), dash, v.vLabel);
    PrintedIsMatched(v, dash);
    ReadBackValues(v, m);
  }

  /** The pattern takes a printed version apart into its printed numbers, the `-` and the label. */
  lemma PrintedIsMatched(v: Version, dash: bool)
    requires '\n' !in v.vLabel
    requires !dash ==> v.vLabel == [] || (!Digit(v.vLabel[0]) && v.vLabel[0] != '-')
    ensures Matched(Printed(v, dash)) ==
            Some(Match(DecimalText(v.major), Some(DecimalText(v.minor)), Some(DecimalText(v.patch)), dash, v.vLabel))
  {
    var a, b, c := DecimalText(v.major), DecimalText(v.minor), DecimalText(v.patch);
    var tail3 := (if dash then "-" else "") + v.vLabel;
    var tail2 := "." + c + tail3;
    var tail1 := "." + b + tail2;
    var s := a + tail1;
    PrintedPieces(v, dash);
    assert 0 < |a| == NumberAt(s) && s[|a|..] == tail1 && s[..|a|] == a by {
      NumberTakesAPrintedNumber(v.major, tail1);
    }
    assert OptionalPart(tail1) == (Some(b), tail2) by {
      DottedTakesAPrintedNumber(v.minor, tail2);
    }
    assert OptionalPart(tail2) == (Some(c), tail3) by {
      DottedTakesAPrintedNumber(v.patch, tail3);
    }
    assert v.vLabel == Proc.BeforeFirst(if dash then tail3[1..] else tail3, '\n') by {
      assert (if dash then tail3[1..] else tail3) == v.vLabel;
      BeforeFirstOfAFreeText(v.vLabel, '\n');
    }
    MatchedInParts(s, |a|, Some(b), tail2, Some(c), tail3, dash, v.vLabel);
  }

  /** A printed version, grouped the way the pattern reads it: the major number, then each rest in turn. */
  lemma PrintedPieces(v: Version, dash: bool)
    ensures Printed(v, dash) == DecimalText(v.major) + ("." + DecimalText(v.minor) + ("." + DecimalText(v.patch) +
                                ((if dash then "-" else "") + v.vLabel)))
  {
  }

  /** A printed version whose numbers and label fit their columns is saved as exactly them, whatever the row held. */
  lemma PrintedVersionsAreStored(v: Version, dash: bool, before: Version)
    requires '\n' !in v.vLabel
    requires !dash ==> v.vLabel == [] || (!Digit(v.vLabel[0]) && v.vLabel[0] != '-')
    requires Fits(v) && |Printed(v, dash)| <= VERSION_MAX_LENGTH
    ensures Stored(Versioned(Printed(v, dash), before)) == Ok(Versioned(Printed(v, dash), v))
  {
    PrintedVersionsReadBack(v, dash);
  }

  /** A printed version whose columns fit but whose text is over 64 characters matches, yet its save raises. */
  lemma LongVersionTextsAreRefused(v: Version, dash: bool, before: Version)
    requires '\n' !in v.vLabel
    requires !dash ==> v.vLabel == [] || (!Digit(v.vLabel[0]) && v.vLabel[0] != '-')
    requires Fits(v) && |Printed(v, dash)| > VERSION_MAX_LENGTH
    ensures Stored(Versioned(Printed(v, dash), before)) == Err(DataError(VERSION_TOO_LONG))
  {
    PrintedVersionsReadBack(v, dash);
  }

  /** A printed version with a number past the `integer` column matches, yet its save raises. */
  lemma WideNumbersAreRefused(v: Version, dash: bool, before: Version)
    requires '\n' !in v.vLabel
    requires !dash ==> v.vLabel == [] || (!Digit(v.vLabel[0]) && v.vLabel[0] != '-')
    requires v.major > MAX_INTEGER || v.minor > MAX_INTEGER || v.patch > MAX_INTEGER
    ensures Parse(Printed(v, dash)) == Some(v)
    ensures Stored(Versioned(Printed(v, dash), before)) == Err(DataError(INTEGER_OUT_OF_RANGE))
  {
    PrintedVersionsReadBack(v, dash);
  }

  /** `Matched`, one step of the pattern at a time. */
  lemma MatchedInParts(s: string, a: nat, minor: Option<string>, rest2: string, patch: Option<string>, rest3: string,
                       dash: bool, vLabel: string)
    requires 0 < a == NumberAt(s)
    requires OptionalPart(s[a..]) == (minor, rest2) && OptionalPart(rest2) == (patch, rest3)
    requires dash == (rest3 != [] && rest3[0] == '-')
    requires vLabel == Proc.BeforeFirst(if dash then rest3[1..] else rest3, '\n')
    ensures Matched(s) == Some(Match(s[..a], minor, patch, dash, vLabel))
  {
  }

  lemma ReadBackValues(v: Version, m: Match)
    requires m.major == DecimalText(v.major) && m.minor == Some(DecimalText(v.minor))
    requires m.patch == Some(DecimalText(v.patch))
    ensures Value(m.major) == v.major && Value(m.minor.value) == v.minor && Value(m.patch.value) == v.patch
  {
    ValueOfDecimalText(v.major);
    ValueOfDecimalText(v.minor);
    ValueOfDecimalText(v.patch);
  }

  /** The optional `.<number>` part takes exactly a printed number when no digit follows it. */
  lemma DottedTakesAPrintedNumber(n: nat, rest: string)
    requires rest == [] || !Digit(rest[0])
    ensures OptionalPart("." + DecimalText(n) + rest) == (Some(DecimalText(n)), rest)
  {
    var t := DecimalText(n);
    var s := "." + t + rest;
    assert s[1..] == t + rest;
    NumberTakesAPrintedNumber(n, rest);
    assert s[1..1 + |t|] == t;
    assert s[1 + |t|..] == rest;
  }

  // ----- worked examples -----

  lemma FullVersionExample()
    ensures Parse("1.2.3-beta") == Some(Version(1, 2, 3, "beta"))
  {
    assert Printed(Version(1, 2, 3, "beta"), true) == "1.2.3-beta";
    PrintedVersionsReadBack(Version(1, 2, 3, "beta"), true);
  }

  lemma LabelWithoutDashExample()
    ensures Parse("1.2.3beta") == Some(Version(1, 2, 3, "beta"))
  {
    assert Printed(Version(1, 2, 3, "beta"), false) == "1.2.3beta";
    PrintedVersionsReadBack(Version(1, 2, 3, "beta"), false);
  }

  /** Text after the major number that is neither a `.<number>` part nor a `-` is all label. */
  lemma MajorOnly(s: string)
    requires NumberAt(s) > 0
    requires DottedAt(s[NumberAt(s)..]).None?
    requires s[NumberAt(s)..] == [] || s[NumberAt(s)..][0] != '-'
    requires '\n' !in s[NumberAt(s)..]
    ensures Matched(s) == Some(Match(s[..NumberAt(s)], None, None, false, s[NumberAt(s)..]))
  {
    BeforeFirstOfAFreeText(s[NumberAt(s)..], '\n');
  }

  /** A leading zero is a whole major number: a digit right after it starts the label. */
  lemma LeadingZeroIsAWholeNumber(rest: string)
    requires rest != [] && Digit(rest[0])
    ensures Parse("0" + rest) == Some(Version(0, 0, 0, Proc.BeforeFirst(rest, '\n')))
  {
    var s := "0" + rest;
    assert NumberAt(s) == 1;
    assert s[..1] == "0" && s[1..] == rest;
    MatchedInParts(s, 1, None, rest, None, rest, false, Proc.BeforeFirst(rest, '\n'));
    assert Value("0") == Value("") * 10 + 0;
  }

  /** A dot with no digit after it is not a minor part: it starts the label. */
  lemma BareDotStartsTheLabel(n: nat, rest: string)
    requires rest == [] || !Digit(rest[0])
    ensures Parse(DecimalText(n) + "." + rest) == Some(Version(n, 0, 0, Proc.BeforeFirst("." + rest, '\n')))
  {
    var a, tail := DecimalText(n), "." + rest;
    var m := Match(a, None, None, false, Proc.BeforeFirst(tail, '\n'));
    assert a + "." + rest == a + tail;
    assert Matched(a + tail) == Some(m) by {
      BareDotMatch(n, tail);
    }
    assert Value(a) == n by {
      ValueOfDecimalText(n);
    }
  }

  lemma BareDotMatch(n: nat, tail: string)
    requires tail != [] && tail[0] == '.' && (|tail| >= 2 ==> !Digit(tail[1]))
    ensures Matched(DecimalText(n) + tail) == Some(Match(DecimalText(n), None, None, false, Proc.BeforeFirst(tail, '\n')))
  {
    var a := DecimalText(n);
    var s := a + tail;
    NumberTakesAPrintedNumber(n, tail);
    assert OptionalPart(tail) == (None, tail);
    MatchedInParts(s, |a|, None, tail, None, tail, false, Proc.BeforeFirst(tail, '\n'));
  }

  /** `01.2` reads as version 0.0.0 with the label `1.2`. */
  lemma LeadingZeroExample()
    ensures Parse("01.2") == Some(Version(0, 0, 0, "1.2"))
  {
    LeadingZeroIsAWholeNumber("1.2");
    assert "0" + "1.2" == "01.2";
    BeforeFirstOfAFreeText("1.2", '\n');
  }

  /** `1.` reads as version 1.0.0 with the label `.`. */
  lemma TrailingDotExample()
    ensures Parse("1.") == Some(Version(1, 0, 0, "."))
  {
    assert DecimalText(1) == "1";
    assert DecimalText(1) + "." + "" == "1.";
    assert Proc.BeforeFirst("." + "", '\n') == "." by {
      BeforeFirstOfAFreeText(".", '\n');
    }
    BareDotStartsTheLabel(1, "");
  }

  lemma PrefixedVersionExample()
    ensures Parse("v1.2").None?
  {
  }
}

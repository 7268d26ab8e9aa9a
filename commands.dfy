/**
 * The command layer's logic (yt_dlp_bot/cogs/ytdl.py): the duration and Discord
 * timestamp parsers, the free-space unit, the text of the listing replies, and the
 * handlers that turn a verdict or a poll tick into calls on the downloader.
 * Discord itself (contexts, replies, `format_dt`) is outside the model; a reply is
 * returned as a value.
 */
module Commands {
  import opened Prelude
  import opened Text
  import opened Store
  import opened Downloading

  // ---------------------------------------------------------------------------
  // Durations: `((?P<days>\d+?)d)?((?P<hours>\d+?)h)?((?P<minutes>\d+?)m)?((?P<seconds>\d+?)s)?`
  // ---------------------------------------------------------------------------

  /** The named groups of the duration pattern, which are also the keyword arguments of `timedelta`. */
  datatype TimeUnit = Days | Hours | Minutes | Seconds

  /** The name of the `i`-th group of the pattern. */
  function UnitAt(i: nat): TimeUnit
    requires i < 4
  {
    if i == 0 then Days else if i == 1 then Hours else if i == 2 then Minutes else Seconds
  }

  /**
   * One optional group `(\d+?X)?` tried at the start of `s`: it matches when `s`
   * starts with a run of digits followed by the letter, and captures the whole run
   * (a shorter run would be followed by a digit, not by the letter).
   */
  function MatchUnit(s: string, letter: char): (g: Option<string>)
    ensures g.Some? ==> g.value != [] && AllDigits(g.value) && |g.value| < |s| && s[|g.value|] == letter
    ensures g.Some? ==> g.value == s[..DigitRun(s)]
    ensures g.Some? <==> 0 < DigitRun(s) < |s| && s[DigitRun(s)] == letter
  {
    var n := DigitRun(s);
    if 0 < n < |s| && s[n] == letter then Some(s[..n]) else None
  }

  /** What is left of `s` after the group `g` matched at its start (with its letter). */
  function After(s: string, g: Option<string>): string
    requires g.Some? ==> |g.value| < |s|
  {
    if g.Some? then s[|g.value| + 1..] else s
  }

  /** The unit letters of the duration pattern's groups, in the order they are tried. */
  const UnitLetters: string := "dhms"

  /**
   * The groups `(\d+?X)?` for the letters `letters`, tried one after the other from
   * the start of `s`, each where the previous one stopped; the pattern can match the
   * empty prefix, so there is always a match.
   */
  function MatchGroups(s: string, letters: string): (gs: seq<Option<string>>)
    ensures |gs| == |letters|
    ensures forall i | 0 <= i < |gs| :: gs[i].Some? ==> gs[i].value != [] && AllDigits(gs[i].value)
    decreases |letters|
  {
    if letters == [] then []
    else
      var g := MatchUnit(s, letters[0]);
      [g] + MatchGroups(After(s, g), letters[1..])
  }

  /** The groupdict of the duration pattern matched at the start of `s`: days, hours, minutes, seconds. */
  function DurationGroups(s: string): (gs: seq<Option<string>>)
    ensures |gs| == 4
    ensures forall i | 0 <= i < 4 :: gs[i].Some? ==> gs[i].value != [] && AllDigits(gs[i].value)
  {
    MatchGroups(s, UnitLetters)
  }

  function GroupValue(g: Option<string>): nat
    requires g.Some? ==> AllDigits(g.value)
  {
    if g.Some? then DigitsValue(g.value) else 0
  }

  /** The length of a duration in seconds, given its four fields. */
  function TotalSeconds(days: nat, hours: nat, minutes: nat, seconds: nat): nat {
    86400 * days + 3600 * hours + 60 * minutes + seconds
  }

  /** The seconds of the `timedelta` built from the groups the pattern matched at the start of `s`. */
  function DurationSeconds(s: string): nat {
    var gs := DurationGroups(s);
    TotalSeconds(GroupValue(gs[0]), GroupValue(gs[1]), GroupValue(gs[2]), GroupValue(gs[3]))
  }

  function Param(params: map<TimeUnit, nat>, name: TimeUnit): nat {
    if name in params then params[name] else 0
  }

  /** `timedelta(**params)` in seconds; a keyword left out counts as zero. */
  function TimedeltaSeconds(params: map<TimeUnit, nat>): nat {
    TotalSeconds(Param(params, Days), Param(params, Hours), Param(params, Minutes), Param(params, Seconds))
  }

  /** The keyword arguments the loop has collected from the first `i` groups. */
  function CollectedParams(parts: seq<Option<string>>, i: nat): map<TimeUnit, nat>
    requires |parts| == 4 && i <= 4
    requires forall j | 0 <= j < 4 :: parts[j].Some? ==> AllDigits(parts[j].value)
  {
    if i == 0 then map[]
    else
      var params := CollectedParams(parts, i - 1);
      if parts[i - 1].Some? && parts[i - 1].value != [] then params[UnitAt(i - 1) := DigitsValue(parts[i - 1].value)]
      else params
  }

  /** Every group that matched becomes the keyword argument of its name; the others are left out. */
  lemma {:induction false} CollectedParamsAreGroups(parts: seq<Option<string>>)
    requires |parts| == 4
    requires forall j | 0 <= j < 4 :: parts[j].Some? ==> parts[j].value != [] && AllDigits(parts[j].value)
    ensures TimedeltaSeconds(CollectedParams(parts, 4)) ==
      TotalSeconds(GroupValue(parts[0]), GroupValue(parts[1]), GroupValue(parts[2]), GroupValue(parts[3]))
  {
    var p0 := CollectedParams(parts, 0);
    var p1 := CollectedParams(parts, 1);
    var p2 := CollectedParams(parts, 2);
    var p3 := CollectedParams(parts, 3);
    var p4 := CollectedParams(parts, 4);
    assert p0 == map[];
    assert p1 == if parts[0].Some? then p0[Days := DigitsValue(parts[0].value)] else p0;
    assert p2 == if parts[1].Some? then p1[Hours := DigitsValue(parts[1].value)] else p1;
    assert p3 == if parts[2].Some? then p2[Minutes := DigitsValue(parts[2].value)] else p2;
    assert p4 == if parts[3].Some? then p3[Seconds := DigitsValue(parts[3].value)] else p3;
    assert Param(p4, Days) == GroupValue(parts[0]);
    assert Param(p4, Hours) == GroupValue(parts[1]);
    assert Param(p4, Minutes) == GroupValue(parts[2]);
    assert Param(p4, Seconds) == GroupValue(parts[3]);
  }

  /** The most days a `timedelta` holds; a longer one raises `OverflowError`. */
  const MaxTimedeltaDays: nat := 999999999

  const TimedeltaOutOfRange: string := "days must have magnitude <= 999999999"

  /** `timedelta` built from a non-negative number of seconds. */
  function Timedelta(seconds: nat): (r: Result<nat>)
    ensures r.Ok? <==> seconds / 86400 <= MaxTimedeltaDays
    ensures r.Ok? ==> r.value == seconds
  {
    if seconds < 86400 * (MaxTimedeltaDays + 1) then Ok(seconds) else Err(TimedeltaOutOfRange)
  }

  /**
   * `parse_text_duration_timedelta`: the match always succeeds, so the result is
   * never `None`; the loop collects the groups that matched into keyword arguments,
   * and `timedelta` raises when they add up to more days than it holds.
   */
  method ParseTextDurationTimedelta(timeStr: string) returns (r: Result<nat>)
    ensures r.Ok? <==> DurationSeconds(timeStr) / 86400 <= MaxTimedeltaDays
    ensures r.Ok? ==> r.value == DurationSeconds(timeStr)
    ensures r == Timedelta(DurationSeconds(timeStr))
  {
    var parts := DurationGroups(timeStr);
    var timeParams: map<TimeUnit, nat> := map[];
    for i := 0 to 4
      invariant timeParams == CollectedParams(parts, i)
    {
      if parts[i].Some? && parts[i].value != [] {
        timeParams := timeParams[UnitAt(i) := DigitsValue(parts[i].value)];
      }
    }
    CollectedParamsAreGroups(parts);
    r := Timedelta(TimedeltaSeconds(timeParams));
  }

  /** The text `<n>X` of one field, or nothing when the field is left out. */
  function UnitText(v: Option<nat>, letter: char): string {
    if v.Some? then NatToDigits(v.value) + [letter] else []
  }

  /** Fields written one after the other, each with its letter, followed by `rest`. */
  function WrittenFields(values: seq<Option<nat>>, letters: string, rest: string): string
    requires |values| == |letters|
    decreases |letters|
  {
    if letters == [] then rest else UnitText(values[0], letters[0]) + WrittenFields(values[1..], letters[1..], rest)
  }

  /** A duration written as the command expects it, e.g. `2d1h5m0s`, with any field left out, followed by `rest`. */
  function DurationText(days: Option<nat>, hours: Option<nat>, minutes: Option<nat>, seconds: Option<nat>, rest: string): string {
    WrittenFields([days, hours, minutes, seconds], UnitLetters, rest)
  }

  function OptValue(v: Option<nat>): nat {
    if v.Some? then v.value else 0
  }

  predicate NoDigitStart(s: string) {
    s == [] || !IsDigit(s[0])
  }

  /** The last field is written, or what follows the fields cannot extend a digit run. */
  predicate EndsCleanly(values: seq<Option<nat>>, rest: string) {
    (values != [] && values[|values| - 1].Some?) || NoDigitStart(rest)
  }

  /** Letters the groups can be told apart by: no digits, no repeats. */
  predicate DistinctUnitLetters(letters: string) {
    && (forall i | 0 <= i < |letters| :: !IsDigit(letters[i]))
    && (forall i, j | 0 <= i < j < |letters| :: letters[i] != letters[j])
  }

  /** The group a field written with its letter is matched as. */
  function FieldGroup(v: Option<nat>): (g: Option<string>)
    ensures g.Some? ==> AllDigits(g.value)
    ensures GroupValue(g) == OptValue(v)
  {
    if v.Some? then Some(NatToDigits(v.value)) else None
  }

  function FieldGroups(values: seq<Option<nat>>): (gs: seq<Option<string>>)
    ensures |gs| == |values|
    ensures forall i | 0 <= i < |values| :: gs[i] == FieldGroup(values[i])
  {
    seq(|values|, i requires 0 <= i < |values| => FieldGroup(values[i]))
  }

  /** The group for `letter` takes a field written with that letter, and leaves what follows it. */
  lemma {:induction false} MatchField(v: Option<nat>, letter: char, tail: string)
    requires !IsDigit(letter)
    requires v.None? ==> MatchUnit(tail, letter) == None
    ensures var text := UnitText(v, letter) + tail;
      && MatchUnit(text, letter) == FieldGroup(v)
      && After(text, MatchUnit(text, letter)) == tail
  {
    if v.Some? {
      var d := NatToDigits(v.value);
      var text := UnitText(v, letter) + tail;
      assert text == d + ([letter] + tail);
      DigitRunOfDigitsThen(d, [letter] + tail);
      assert DigitRun(text) == |d| && text[|d|] == letter;
      assert text[..|d|] == d;
      assert MatchUnit(text, letter) == Some(d);
      assert text[|d| + 1..] == tail;
    } else {
      assert UnitText(v, letter) + tail == tail;
    }
  }

  /** The group for a letter the fields are not written with matches none of them. */
  lemma {:induction false} OtherLetterUnmatched(values: seq<Option<nat>>, letters: string, rest: string, letter: char)
    requires |values| == |letters| && DistinctUnitLetters(letters)
    requires forall i | 0 <= i < |letters| :: letters[i] != letter
    requires EndsCleanly(values, rest)
    ensures MatchUnit(WrittenFields(values, letters, rest), letter) == None
    decreases |letters|
  {
    if letters != [] {
      var tail := WrittenFields(values[1..], letters[1..], rest);
      var text := WrittenFields(values, letters, rest);
      if values[0].Some? {
        var d := NatToDigits(values[0].value);
        assert text == d + ([letters[0]] + tail);
        DigitRunOfDigitsThen(d, [letters[0]] + tail);
        assert DigitRun(text) == |d| && text[|d|] == letters[0];
      } else {
        assert text == tail;
        assert EndsCleanly(values[1..], rest);
        OtherLetterUnmatched(values[1..], letters[1..], rest, letter);
      }
    }
  }

  /**
   * The groups for `letters`, tried on fields written with those letters, take
   * exactly the fields' digits: a group whose field is left out matches nothing,
   * because the next written field carries another letter.
   */
  lemma {:induction false} GroupsOfWrittenFields(values: seq<Option<nat>>, letters: string, rest: string)
    requires |values| == |letters| && DistinctUnitLetters(letters)
    requires EndsCleanly(values, rest)
    ensures MatchGroups(WrittenFields(values, letters, rest), letters) == FieldGroups(values)
    decreases |letters|
  {
    if letters != [] {
      FirstGroupOfWrittenFields(values, letters, rest);
      if |letters| > 1 {
        WrittenFieldsTail(values, letters, rest);
        GroupsOfWrittenFields(values[1..], letters[1..], rest);
      }
      FieldGroupsCons(values);
    }
  }

  /** What follows the first written field is written fields again, ending the same way. */
  lemma WrittenFieldsTail(values: seq<Option<nat>>, letters: string, rest: string)
    requires |values| == |letters| > 1 && DistinctUnitLetters(letters)
    requires EndsCleanly(values, rest)
    ensures DistinctUnitLetters(letters[1..]) && EndsCleanly(values[1..], rest)
  {
    assert values[1..][|values| - 2] == values[|values| - 1];
  }

  lemma FieldGroupsCons(values: seq<Option<nat>>)
    requires values != []
    ensures FieldGroups(values) == [FieldGroup(values[0])] + FieldGroups(values[1..])
  {
  }

  /** The first group takes the first field (if it is written), and the rest are tried after it. */
  lemma {:induction false} FirstGroupOfWrittenFields(values: seq<Option<nat>>, letters: string, rest: string)
    requires |values| == |letters| > 0 && DistinctUnitLetters(letters)
    requires EndsCleanly(values, rest)
    ensures MatchGroups(WrittenFields(values, letters, rest), letters) ==
      [FieldGroup(values[0])] + MatchGroups(WrittenFields(values[1..], letters[1..], rest), letters[1..])
  {
    var text := WrittenFields(values, letters, rest);
    var tail := WrittenFields(values[1..], letters[1..], rest);
    assert text == UnitText(values[0], letters[0]) + tail;
    if values[0].None? {
      assert EndsCleanly(values[1..], rest);
      OtherLetterUnmatched(values[1..], letters[1..], rest, letters[0]);
    }
    MatchField(values[0], letters[0], tail);
  }

  /**
   * Round trip: a duration written as `<d>d<h>h<m>m<s>s`, with any field left out,
   * is read back as d*86400 + h*3600 + m*60 + s seconds; whatever follows is ignored,
   * as long as it does not continue the last digit run when the seconds are left out.
   * That many seconds is the `timedelta` returned when it is at most 999999999 days;
   * a longer duration raises.
   */
  lemma {:induction false} DurationRoundTrip(days: Option<nat>, hours: Option<nat>, minutes: Option<nat>, seconds: Option<nat>, rest: string)
    requires seconds.Some? || NoDigitStart(rest)
    ensures DurationSeconds(DurationText(days, hours, minutes, seconds, rest)) ==
      TotalSeconds(OptValue(days), OptValue(hours), OptValue(minutes), OptValue(seconds))
    ensures var total := TotalSeconds(OptValue(days), OptValue(hours), OptValue(minutes), OptValue(seconds));
      var parsed := Timedelta(DurationSeconds(DurationText(days, hours, minutes, seconds, rest)));
      && (total / 86400 <= MaxTimedeltaDays ==> parsed == Ok(total))
      && (total / 86400 > MaxTimedeltaDays ==> parsed == Err(TimedeltaOutOfRange))
  {
    var values := [days, hours, minutes, seconds];
    assert DistinctUnitLetters(UnitLetters);
    GroupsOfWrittenFields(values, UnitLetters, rest);
    var gs := DurationGroups(DurationText(days, hours, minutes, seconds, rest));
    assert gs[0] == FieldGroup(days) && gs[1] == FieldGroup(hours);
    assert gs[2] == FieldGroup(minutes) && gs[3] == FieldGroup(seconds);
  }

  /** Text that does not start with a digit matches no group: it is a zero duration, never a failure. */
  lemma {:induction false} UnrecognisedTextIsZero(s: string)
    requires NoDigitStart(s)
    ensures DurationSeconds(s) == 0
  {
    assert UnitLetters[1..] == "hms" && "hms"[1..] == "ms" && "ms"[1..] == "s" && "s"[1..] == [];
    assert MatchGroups(s, "s") == [None];
    assert MatchGroups(s, "ms") == [None, None];
    assert MatchGroups(s, "hms") == [None, None, None];
    assert DurationGroups(s) == [None, None, None, None];
  }
  // ---------------------------------------------------------------------------
  // Timestamps: `<t:([0-9]+):?.*>` first, then a duration from now
  // ---------------------------------------------------------------------------

  /** `.*>` on one line: some `>` occurs in `s` before any newline. */
  predicate ClosesOnLine(s: string) {
    s != [] && (s[0] == '>' || (s[0] != '\n' && ClosesOnLine(s[1..])))
  }

  /**
   * The pattern `<t:([0-9]+):?.*>` matched at the start of `text`: after `<t:`, a run
   * of digits (all of them: giving some back cannot help the rest match) and a `>`
   * later on the same line.
   */
  function MatchTimestampTag(text: string): (g: Option<string>)
    ensures g.Some? ==> g.value != [] && AllDigits(g.value) && StartsWith(text, "<t:" + g.value)
    ensures g.Some? ==> 3 + |g.value| < |text| && !IsDigit(text[3 + |g.value|]) && ClosesOnLine(text[3 + |g.value|..])
  {
    if StartsWith(text, "<t:") then
      var t := text[3..];
      var n := DigitRun(t);
      if n > 0 && ClosesOnLine(t[n..]) then
        assert text[..3 + n] == "<t:" + t[..n];
        assert text[3 + n..] == t[n..];
        Some(t[..n])
      else None
    else None
  }

  /**
   * Conversely, every tag is read: `<t:`, digits, then text that does not go on with
   * a digit and has a `>` on the same line, captures exactly those digits.
   */
  lemma TagReadsDigits(digits: string, rest: string)
    requires digits != [] && AllDigits(digits)
    requires NoDigitStart(rest) && ClosesOnLine(rest)
    ensures MatchTimestampTag("<t:" + digits + rest) == Some(digits)
  {
    var text := "<t:" + digits + rest;
    assert text[..3] == "<t:";
    var t := text[3..];
    assert t == digits + rest;
    DigitRunOfDigitsThen(digits, rest);
    assert t[|digits|..] == rest;
    assert t[..|digits|] == digits;
  }

  /** A `>` on the line after a run without newlines is a `>` on the line from its start. */
  lemma {:induction false} ClosesOnLineFrom(s: string, n: nat)
    requires n <= |s| && ClosesOnLine(s[n..])
    requires forall i | 0 <= i < n :: s[i] != '\n'
    ensures ClosesOnLine(s)
    decreases n
  {
    if n > 0 {
      assert s[1..][n - 1..] == s[n..];
      ClosesOnLineFrom(s[1..], n - 1);
    }
  }

  /**
   * Text that opens like a tag but has no `>` on that line is no tag; it is then read
   * as a duration, which is zero, so it yields no instant.
   */
  lemma UnclosedTagIsNoInstant(text: string, now: int)
    requires StartsWith(text, "<t:") && !ClosesOnLine(text[3..])
    ensures MatchTimestampTag(text) == None
    ensures TimeFromText(text, now) == Ok(None)
  {
    var t := text[3..];
    if ClosesOnLine(t[DigitRun(t)..]) {
      ClosesOnLineFrom(t, DigitRun(t));
      assert false;
    }
    assert text[0] == '<';
    UnrecognisedTextIsZero(text);
  }

  /**
   * What `parse_text_as_datetime` yields at instant `now`, in epoch seconds: the
   * instant of a Discord timestamp tag; otherwise `now` plus the duration, with a
   * zero duration (and so any unrecognised text) giving `None`. It raises when the
   * tag's instant, the duration or the sum lies outside the range of `datetime` or
   * `timedelta`.
   */
  function TimeFromText(text: string, now: int): (r: Result<Option<int>>)
    ensures MatchTimestampTag(text).Some? ==>
      var epoch := DigitsValue(MatchTimestampTag(text).value);
      (r.Ok? <==> epoch <= MaxEpoch) && (r.Ok? ==> r.value == Some(epoch))
    ensures MatchTimestampTag(text).None? ==>
      var seconds := DurationSeconds(text);
      && (r == Ok(None) <==> seconds == 0)
      && (r.Err? <==> seconds / 86400 > MaxTimedeltaDays || (seconds > 0 && now + seconds > MaxEpoch))
      && (r.Ok? && r.value.Some? ==> r.value.value == now + seconds && r.value.value > now)
  {
    match MatchTimestampTag(text)
    case Some(digits) =>
      (match FromTimestamp(DigitsValue(digits))
       case Ok(time) => Ok(Some(time))
       case Err(e) => Err(e))
    case None =>
      match Timedelta(DurationSeconds(text))
      case Err(e) => Err(e)
      case Ok(seconds) =>
        if seconds == 0 then Ok(None)
        else if now + seconds > MaxEpoch then Err(DateOutOfRange)
        else Ok(Some(now + seconds))
  }

  /** `YtDl.parse_text_as_datetime`, with `datetime.now()` as the parameter `now`. */
  method ParseTextAsDatetime(timeText: string, now: int) returns (r: Result<Option<int>>)
    ensures r == TimeFromText(timeText, now)
  {
    var matches := MatchTimestampTag(timeText);
    if matches.Some? {
      var unixEpoch := DigitsValue(matches.value);
      var time := FromTimestamp(unixEpoch);
      if time.Err? {
        return Err(time.message);
      }
      return Ok(Some(time.value));
    }
    var timedelta := ParseTextDurationTimedelta(timeText);
    if timedelta.Err? {
      return Err(timedelta.message);
    }
    if timedelta.value == 0 {
      return Ok(None);
    }
    if now + timedelta.value > MaxEpoch {
      return Err(DateOutOfRange);
    }
    return Ok(Some(now + timedelta.value));
  }

  /** The Discord timestamp tag `<t:EPOCH:F>` the scheduled-downloads listing writes. */
  function TimestampTag(epoch: int): string {
    "<t:" + IntToDecimal(epoch) + ":F>"
  }

  /**
   * A tag the bot writes for a non-negative instant parses back to that instant, at
   * any `now`, up to the end of year 9999; past it, reading the tag raises.
   */
  lemma TimestampTagRoundTrip(epoch: nat, now: int)
    ensures TimeFromText(TimestampTag(epoch), now) ==
      if epoch <= MaxEpoch then Ok(Some(epoch)) else Err(YearOutOfRange)
  {
    var digits := NatToDigits(epoch);
    assert TimestampTag(epoch) == "<t:" + digits + ":F>";
    assert ClosesOnLine(":F>") by {
      assert ":F>"[1..] == "F>" && "F>"[1..] == ">";
    }
    TagReadsDigits(digits, ":F>");
  }

  /** Written fields start with a digit, unless every field is left out and only `rest` remains. */
  lemma {:induction false} WrittenFieldsStart(values: seq<Option<nat>>, letters: string, rest: string)
    requires |values| == |letters|
    ensures (exists i | 0 <= i < |values| :: values[i].Some?) ==>
      var text := WrittenFields(values, letters, rest); text != [] && IsDigit(text[0])
    ensures (forall i | 0 <= i < |values| :: values[i].None?) ==> WrittenFields(values, letters, rest) == rest
    decreases |letters|
  {
    if letters != [] {
      var tail := WrittenFields(values[1..], letters[1..], rest);
      WrittenFieldsStart(values[1..], letters[1..], rest);
      if values[0].Some? {
        assert WrittenFields(values, letters, rest)[0] == NatToDigits(values[0].value)[0];
      } else {
        assert WrittenFields(values, letters, rest) == tail;
        assert (exists i | 0 <= i < |values| :: values[i].Some?) ==> exists i | 0 <= i < |values[1..]| :: values[1..][i].Some?;
      }
    }
  }

  /** A duration text is never read as a timestamp tag: it starts with a digit, or is `rest` alone. */
  lemma {:induction false} DurationTextIsNoTag(days: Option<nat>, hours: Option<nat>, minutes: Option<nat>, seconds: Option<nat>, rest: string)
    requires days.Some? || hours.Some? || minutes.Some? || seconds.Some? || !StartsWith(rest, "<t:")
    ensures MatchTimestampTag(DurationText(days, hours, minutes, seconds, rest)) == None
  {
    var values := [days, hours, minutes, seconds];
    var text := DurationText(days, hours, minutes, seconds, rest);
    WrittenFieldsStart(values, UnitLetters, rest);
    if days.Some? || hours.Some? || minutes.Some? || seconds.Some? {
      assert values[0].Some? || values[1].Some? || values[2].Some? || values[3].Some?;
      assert text[0] != "<t:"[0];
    } else {
      assert text == rest;
    }
  }

  // ---------------------------------------------------------------------------
  // Free space
  // ---------------------------------------------------------------------------

  datatype SizeUnit = MiB | GiB | TiB

  function UnitBytes(u: SizeUnit): nat {
    match u
    case MiB => 1024 * 1024
    case GiB => 1024 * 1024 * 1024
    case TiB => 1024 * 1024 * 1024 * 1024
  }

  /**
   * The unit `df` reports free space in: the largest unit the free space strictly
   * exceeds, with MiB for anything up to and including one GiB.
   */
  function FreeSpaceUnit(free: int): (u: SizeUnit)
    ensures u == MiB || free > UnitBytes(u)
    ensures u == TiB || free <= UnitBytes(if u == MiB then GiB else TiB)
  {
    if free > UnitBytes(TiB) then TiB
    else if free > UnitBytes(GiB) then GiB
    else MiB
  }

  // ---------------------------------------------------------------------------
  // Listing replies
  // ---------------------------------------------------------------------------

  /** One line of the scheduled-downloads reply. */
  function ScheduledLine(url: string, timestamp: int): string {
    "<" + url + "> " + TimestampTag(timestamp)
  }

  /**
   * A line of the listing names its url between angle brackets, and its tag reads
   * back, through the same parser `scheduled-download` uses, as the row's instant.
   */
  lemma ScheduledLineReadsBack(url: string, timestamp: nat, now: int)
    requires timestamp <= MaxEpoch
    ensures var line := ScheduledLine(url, timestamp);
      && line[..|url| + 3] == "<" + url + "> "
      && TimeFromText(line[|url| + 3..], now) == Ok(Some(timestamp))
  {
    var line := ScheduledLine(url, timestamp);
    assert line == ("<" + url + "> ") + TimestampTag(timestamp);
    TimestampTagRoundTrip(timestamp, now);
  }

  function ScheduledLines(results: seq<(string, int)>): seq<string> {
    seq(|results|, i requires 0 <= i < |results| => ScheduledLine(results[i].0, results[i].1))
  }

  /** The lines of one more row are the lines so far followed by that row's line. */
  lemma ScheduledLinesStep(results: seq<(string, int)>, i: nat)
    requires i < |results|
    ensures ScheduledLines(results[..i + 1]) == ScheduledLines(results[..i]) + [ScheduledLine(results[i].0, results[i].1)]
  {
    var before := ScheduledLines(results[..i]);
    var after := ScheduledLines(results[..i + 1]);
    assert |after| == |before| + 1;
    forall k | 0 <= k < i ensures after[k] == before[k] {
      assert results[..i + 1][k] == results[..i][k];
    }
  }

  const ScheduledHeader: string := "Scheduled Downloads:\n"

  /** The `get-scheduled-downloads` reply for the rows in the order the store returns them. */
  method ScheduledDownloadsMessage(results: seq<(string, int)>) returns (msg: string)
    ensures msg == ScheduledHeader + Join(ScheduledLines(results), '\n')
  {
    var lines: seq<string> := [];
    for i := 0 to |results|
      invariant lines == ScheduledLines(results[..i])
    {
      var (url, timestamp) := results[i];
      ScheduledLinesStep(results, i);
      lines := lines + [ScheduledLine(url, timestamp)];
    }
    assert results[..|results|] == results;
    msg := ScheduledHeader + Join(lines, '\n');
  }

  const RunningHeader: string := "Running downloads:\n"

  /** The `get-running-downloads` reply. */
  function RunningDownloadsMessage(urls: seq<string>): string {
    RunningHeader + Join(seq(|urls|, i requires 0 <= i < |urls| => "<" + urls[i] + ">"), '\n')
  }

  /**
   * The scheduled-downloads reply reads back as one line per row, in row order, each
   * `<url> <t:EPOCH:F>`, as long as no url holds a newline.
   */
  lemma {:induction false} ScheduledReplyOneLinePerRow(results: seq<(string, int)>)
    requires |results| >= 1
    requires forall i | 0 <= i < |results| :: Excludes(results[i].0, '\n')
    ensures var body := Join(ScheduledLines(results), '\n');
      && Split(body, '\n') == ScheduledLines(results)
      && |Split(body, '\n')| == |results|
      && forall i | 0 <= i < |results| :: Split(body, '\n')[i] == "<" + results[i].0 + "> " + TimestampTag(results[i].1)
  {
    var lines := ScheduledLines(results);
    forall k | 0 <= k < |lines| ensures Excludes(lines[k], '\n') {
      ScheduledLineIsOneLine(results[k].0, results[k].1);
    }
    SplitJoin(lines, '\n');
  }

  /** A scheduled-downloads line holds a newline only where its url does. */
  lemma {:induction false} ScheduledLineIsOneLine(url: string, timestamp: int)
    requires Excludes(url, '\n')
    ensures Excludes(ScheduledLine(url, timestamp), '\n')
  {
    var digits := IntToDecimal(timestamp);
    assert Excludes(digits, '\n') by {
      if timestamp < 0 {
        assert digits == "-" + NatToDigits(-timestamp);
      }
    }
    ExcludesAppend("<", url, '\n');
    ExcludesAppend("<" + url, "> <t:", '\n');
    ExcludesAppend("<" + url + "> <t:", digits, '\n');
    ExcludesAppend("<" + url + "> <t:" + digits, ":F>", '\n');
    assert ScheduledLine(url, timestamp) == "<" + url + "> <t:" + digits + ":F>";
  }

  /** The running-downloads reply reads back as one `<url>` line per running url. */
  lemma {:induction false} RunningReplyOneLinePerUrl(urls: seq<string>)
    requires |urls| >= 1
    requires forall i | 0 <= i < |urls| :: Excludes(urls[i], '\n')
    ensures var lines := Split(RunningDownloadsMessage(urls)[|RunningHeader|..], '\n');
      |lines| == |urls| && forall i | 0 <= i < |urls| :: lines[i] == "<" + urls[i] + ">"
  {
    var parts := seq(|urls|, i requires 0 <= i < |urls| => "<" + urls[i] + ">");
    forall k | 0 <= k < |parts| ensures Excludes(parts[k], '\n') {
      assert parts[k] == "<" + urls[k] + ">";
    }
    SplitJoin(parts, '\n');
    assert RunningDownloadsMessage(urls)[|RunningHeader|..] == Join(parts, '\n');
  }

  // ---------------------------------------------------------------------------
  // The cog
  // ---------------------------------------------------------------------------

  /** What `None.timestamp()` raises. */
  const NoneHasNoTimestamp: string := "'NoneType' object has no attribute 'timestamp'"

  /** What the `download` command replies. */
  datatype DownloadReply = ProbeFailed(message: string) | DownloadingNow | SchedulingDownloadFor(epoch: int)

  class YtDl {
    const downloader: Downloader

    constructor (db: Database)
      ensures fresh(downloader) && downloader.db == db && downloader.currentDownloads == map[]
    {
      downloader := new Downloader(db);
    }

    /**
     * The `download` command for `url`, asked from a guild channel, once the probe has
     * answered: an error is only replied; a live item is downloaded now and a future
     * one deferred to its instant, both with the asking channel as destination.
     */
    method Download(url: string, probe: Result<VideoInfo>, guildId: int, channelId: int) returns (reply: DownloadReply)
      modifies downloader, downloader.db
      ensures var availability := GetAvailability(probe);
        match availability
        case AvailabilityError(errstr) =>
          reply == ProbeFailed(errstr) && unchanged(downloader, downloader.db)
        case AvailableNow =>
          && reply == DownloadingNow
          && url in downloader.currentDownloads && fresh(downloader.currentDownloads[url])
          && !downloader.currentDownloads[url].cancelRequested
          && downloader.currentDownloads[url].waitForVideo.None?
          && downloader.currentDownloads == old(downloader.currentDownloads)[url := downloader.currentDownloads[url]]
          && downloader.db.futureDownloads == old(downloader.db.futureDownloads)
        case AvailableFuture(time) =>
          && reply == SchedulingDownloadFor(time)
          && downloader.db.futureDownloads == Upsert(old(downloader.db.futureDownloads), url, time)
          && downloader.currentDownloads == old(downloader.currentDownloads)
      ensures var availability := GetAvailability(probe);
        downloader.db.completionChannels ==
          if !availability.AvailabilityError? && guildId != 0 && channelId != 0
          then old(downloader.db.completionChannels) + {Completion(guildId, channelId, url)}
          else old(downloader.db.completionChannels)
      ensures downloader.db.subscribedChannels == old(downloader.db.subscribedChannels)
    {
      var availability := GetAvailability(probe);
      match availability {
        case AvailabilityError(errstr) =>
          reply := ProbeFailed(errstr);
        case AvailableNow =>
          reply := DownloadingNow;
          downloader.DownloadAsync(url, Some(guildId), Some(channelId));
        case AvailableFuture(time) =>
          downloader.DeferDownloadUntilTime(url, time, Some(guildId), Some(channelId));
          reply := SchedulingDownloadFor(time);
      }
    }

    /**
     * The `scheduled-download` command: the text is read as a timestamp tag or a
     * duration from `now`; a readable instant is deferred to like a probed one, while
     * an unreadable text reaches `.timestamp()` on `None` and raises before anything
     * is stored, as does a text whose instant or duration is out of range.
     */
    method ScheduledDownload(url: string, timestamp: string, guildId: int, channelId: int, now: int) returns (r: Result<int>)
      modifies downloader.db
      ensures TimeFromText(timestamp, now).Err? ==> r == Err(TimeFromText(timestamp, now).message) && unchanged(downloader.db)
      ensures TimeFromText(timestamp, now) == Ok(None) ==> r == Err(NoneHasNoTimestamp) && unchanged(downloader.db)
      ensures TimeFromText(timestamp, now).Ok? && TimeFromText(timestamp, now).value.Some? ==>
        var time := TimeFromText(timestamp, now).value.value;
        && r == Ok(time)
        && downloader.db.futureDownloads == Upsert(old(downloader.db.futureDownloads), url, time)
        && downloader.db.completionChannels == (
             if guildId != 0 && channelId != 0
             then old(downloader.db.completionChannels) + {Completion(guildId, channelId, url)}
             else old(downloader.db.completionChannels))
        && downloader.db.subscribedChannels == old(downloader.db.subscribedChannels)
    {
      var time := ParseTextAsDatetime(timestamp, now);
      if time.Err? {
        return Err(time.message);
      }
      if time.value.None? {
        return Err(NoneHasNoTimestamp);
      }
      downloader.DeferDownloadUntilTime(url, time.value.value, Some(guildId), Some(channelId));
      r := Ok(time.value.value);
    }

    /**
     * The `cancel` command: a running download is flagged and the store left alone;
     * otherwise a scheduled one is disabled. The reply says whether either was found.
     */
    method Cancel(url: string) returns (reply: string)
      modifies downloader.db, if url in downloader.currentDownloads then {downloader.currentDownloads[url]} else {}
      ensures reply == if url in downloader.currentDownloads || url in Scheduled(old(downloader.db.futureDownloads))
        then "Successfully cancelled download of <" + url + ">"
        else "Could not find <" + url + "> in running or future downloads"
      ensures url in downloader.currentDownloads ==> downloader.currentDownloads[url].cancelRequested && unchanged(downloader.db)
      ensures url !in downloader.currentDownloads ==>
        downloader.db.futureDownloads == if url in Scheduled(old(downloader.db.futureDownloads))
          then Disable(old(downloader.db.futureDownloads), url) else old(downloader.db.futureDownloads)
      ensures downloader.db.completionChannels == old(downloader.db.completionChannels)
      ensures downloader.db.subscribedChannels == old(downloader.db.subscribedChannels)
    {
      var cancelled := downloader.CancelDownload(url);
      if cancelled {
        reply := "Successfully cancelled download of <" + url + ">";
      } else {
        reply := "Could not find <" + url + "> in running or future downloads";
      }
    }

    /**
     * One run of the polling loop: the scheduler tick at `now`, then the staleness
     * sweep at `later`, the instant the tick returned. Afterwards no entry that was due
     * at `now` and none more than a day older than `later` is left in the store.
     */
    method CheckTasks(pollingIntervalS: int, now: int, later: int, finished: set<string>)
      modifies downloader, downloader.db
      ensures var due := Due(old(downloader.db.futureDownloads), GraceWindow, now);
        && downloader.db.futureDownloads == Sweep(old(downloader.db.futureDownloads) - due, later)
        && downloader.currentDownloads.Keys == old(downloader.currentDownloads).Keys + due - finished
        && (forall u | u in downloader.currentDownloads && u in due ::
              fresh(downloader.currentDownloads[u]) && !downloader.currentDownloads[u].cancelRequested
              && downloader.currentDownloads[u].waitForVideo == Some(WaitForVideo))
        && (forall u | u in downloader.currentDownloads && u !in due ::
              downloader.currentDownloads[u] == old(downloader.currentDownloads)[u]
              && downloader.currentDownloads[u].cancelRequested == old(downloader.currentDownloads[u].cancelRequested))
      ensures Due(downloader.db.futureDownloads, GraceWindow, now) == {}
      ensures forall u | u in downloader.db.futureDownloads :: downloader.db.futureDownloads[u].utcepoch >= later - StalenessWindow
      ensures downloader.db.completionChannels == old(downloader.db.completionChannels)
      ensures downloader.db.subscribedChannels == old(downloader.db.subscribedChannels)
    {
      var _ := downloader.ScheduleDeferredDownloads(pollingIntervalS, now, finished);
      downloader.db.CleanupFutureDownloads(later);
    }
  }
}

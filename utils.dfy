/**
 * The helpers of app/utils.py: launch-date parsing, day counting, text
 * cleaning and JSON extraction from a model reply. app/tools.py carries
 * textually identical copies of `parse_launch_date` and
 * `calculate_timeline_days`; both are modelled by the members here.
 */
module Utils {
  import opened Wrappers
  import opened Strings
  import opened Json
  import opened Calendar

  /** `dateutil.parser.parse`: `None` when it raises. */
  type DateParser = string -> Option<DateTime>

  // ----- launch dates -----

  predicate MentionsNext(input: string) { Contains(Lower(input), "next") }

  /** The input falls into the "next Tuesday" branch, which is tested first. */
  predicate AsksNextTuesday(input: string)
  {
    MentionsNext(input) && Contains(Lower(input), "tuesday")
  }

  /** The input falls into the "next Friday" branch. */
  predicate AsksNextFriday(input: string)
  {
    MentionsNext(input) && !Contains(Lower(input), "tuesday") && Contains(Lower(input), "friday")
  }

  /** `days_ahead = target - weekday`, pushed into the next week when not positive. */
  function DaysAhead(weekday: int, target: int): (n: int)
    requires 0 <= weekday < 7 && 0 <= target < 7
    ensures 1 <= n <= 7
    ensures (weekday + n) % 7 == target
  {
    var n := target - weekday;
    if n <= 0 then n + 7 else n
  }

  /** `datetime.now() + timedelta(days=days_ahead)` for the target weekday. */
  function NextWeekday(today: DateTime, target: int): (r: Result<DateTime, PyError>)
    requires 0 <= target < 7
    ensures r.Success? ==> Weekday(r.value) == target && 1 <= Day(r.value) - Day(today) <= 7
  {
    AddDays(today, DaysAhead(Weekday(today), target))
  }

  /**
   * `parse_launch_date(date_input)`. The general parser is consulted before
   * the digit fallback, so a digit string means "N days from now" only when
   * the parser gave up on it.
   */
  function ParseLaunchDate(input: string, today: DateTime, parse: DateParser): (r: Result<DateTime, PyError>)
    ensures AsksNextTuesday(input) && r.Success? ==> Weekday(r.value) == 1 && 1 <= Day(r.value) - Day(today) <= 7
    ensures AsksNextFriday(input) && r.Success? ==> Weekday(r.value) == 4 && 1 <= Day(r.value) - Day(today) <= 7
    ensures (AsksNextTuesday(input) || AsksNextFriday(input)) ==> r.Success? || r.error.OverflowError?
    ensures !AsksNextTuesday(input) && !AsksNextFriday(input) && parse(input).Some? ==> r == Success(parse(input).value)
    ensures !AsksNextTuesday(input) && !AsksNextFriday(input) && parse(input).None? && IsDigits(input) ==>
              r == AddDays(today, DigitsValue(input))
    ensures r == Failure(ValueError("Could not parse date: " + input)) <==>
              !AsksNextTuesday(input) && !AsksNextFriday(input) && parse(input).None? && !IsDigits(input)
  {
    var lowered := Lower(input);
    if Contains(lowered, "next") && Contains(lowered, "tuesday") then NextWeekday(today, 1)
    else if Contains(lowered, "next") && Contains(lowered, "friday") then NextWeekday(today, 4)
    else match parse(input)
      case Some(d) => Success(d)
      case None =>
        if IsDigits(input) then AddDays(today, DigitsValue(input))
        else Failure(ValueError("Could not parse date: " + input))
  }

  /**
   * `calculate_timeline_days(launch_date)`: both moments are cut back to
   * midnight before subtracting.
   */
  function CalculateTimelineDays(launch: DateTime, today: DateTime): (days: int)
    ensures days == Day(launch) - Day(today)
  {
    MidnightDay(launch);
    MidnightDay(today);
    DayShift(0, Day(launch) - Day(today));
    DaysBetween(Midnight(launch), Midnight(today))
  }

  /** The count ignores the time of day: two moments of one day count the same. */
  lemma TimelineDaysIgnoreTime(a: DateTime, b: DateTime, today: DateTime)
    requires Day(a) == Day(b)
    ensures CalculateTimelineDays(a, today) == CalculateTimelineDays(b, today)
    ensures CalculateTimelineDays(a, a) == 0
  {
  }

  /** The day count after resolving "next Tuesday" or "next Friday" is between 1 and 7. */
  lemma RelativeDatesAreAhead(input: string, today: DateTime, parse: DateParser)
    requires AsksNextTuesday(input) || AsksNextFriday(input)
    requires ParseLaunchDate(input, today, parse).Success?
    ensures 1 <= CalculateTimelineDays(ParseLaunchDate(input, today, parse).value, today) <= 7
  {
  }

  /** "next Tuesday" asked on a Wednesday resolves to six days later. */
  lemma NextTuesdayFromWednesday(today: DateTime, parse: DateParser)
    requires Valid(today) && Day(today) < MaxOrdinal - 7 && Weekday(today) == 2
    ensures ParseLaunchDate("next Tuesday", today, parse).Success?
    ensures CalculateTimelineDays(ParseLaunchDate("next Tuesday", today, parse).value, today) == 6
  {
    assert StartsWith(Lower("next Tuesday")[0..], "next");
    assert StartsWith(Lower("next Tuesday")[5..], "tuesday");
    DayShift(today.micros, 6);
    assert Day(today) * DayMicros <= today.micros;
  }

  // ----- text -----

  predicate IsMarkdown(c: char) { c == '*' || c == '_' || c == '`' }

  predicate NoMarkdown(s: string)
  {
    forall k | 0 <= k < |s| :: !IsMarkdown(s[k])
  }

  /**
   * Whitespace normal form: no whitespace at either end, none but plain
   * spaces, and never two spaces in a row.
   */
  predicate Normalized(s: string)
  {
    && (s == [] || (!IsSpace(s[0]) && !IsSpace(s[|s| - 1])))
    && (forall k | 0 <= k < |s| :: IsSpace(s[k]) ==> s[k] == ' ')
    && (forall k | 0 <= k < |s| - 1 :: !(s[k] == ' ' && s[k + 1] == ' '))
  }

  /** Only plain spaces, never two in a row. */
  predicate SingleSpaced(s: string)
  {
    && (forall k | 0 <= k < |s| :: IsSpace(s[k]) ==> s[k] == ' ')
    && (forall k | 0 <= k < |s| - 1 :: !(s[k] == ' ' && s[k + 1] == ' '))
  }

  /** A character put in front of a single-spaced string keeps it single-spaced unless it makes two spaces. */
  lemma SingleSpacedCons(c: char, t: string)
    requires SingleSpaced(t) && (IsSpace(c) ==> c == ' ')
    requires c == ' ' ==> t == [] || t[0] != ' '
    ensures SingleSpaced([c] + t)
  {
    var u := [c] + t;
    assert forall k | 1 <= k < |u| :: u[k] == t[k - 1];
  }

  /** `re.sub(r"\s+", " ", s)`: every run of whitespace becomes one space. */
  function CollapseSpaces(s: string): (r: string)
    ensures |r| <= |s|
    decreases |s|
  {
    if s == [] then []
    else if IsSpace(s[0]) then " " + CollapseSpaces(TrimLeft(s[1..]))
    else [s[0]] + CollapseSpaces(s[1..])
  }

  /**
   * Collapsing keeps a string empty or not, keeps whether it opens with
   * whitespace, and ends it with what is not whitespace when it ended so.
   */
  lemma {:induction false} CollapseSpacesEnds(s: string)
    ensures var r := CollapseSpaces(s);
            && (r == [] <==> s == [])
            && (s != [] ==> (IsSpace(r[0]) <==> IsSpace(s[0])))
            && (s != [] && !IsSpace(s[|s| - 1]) ==> !IsSpace(r[|r| - 1]))
    decreases |s|
  {
    if s != [] {
      if IsSpace(s[0]) {
        var rest := TrimLeft(s[1..]);
        assert rest == [] || rest[|rest| - 1] == s[|s| - 1];
        CollapseSpacesEnds(rest);
        assert CollapseSpaces(s) == " " + CollapseSpaces(rest);
      } else {
        CollapseSpacesEnds(s[1..]);
        assert CollapseSpaces(s) == [s[0]] + CollapseSpaces(s[1..]);
      }
    }
  }

  /** Collapsing leaves only plain spaces, never two in a row. */
  lemma {:induction false} CollapseSpacesSingle(s: string)
    ensures SingleSpaced(CollapseSpaces(s))
    decreases |s|
  {
    if s != [] {
      if IsSpace(s[0]) {
        var rest := TrimLeft(s[1..]);
        CollapseSpacesSingle(rest);
        CollapseSpacesEnds(rest);
        SingleSpacedCons(' ', CollapseSpaces(rest));
      } else {
        CollapseSpacesSingle(s[1..]);
        SingleSpacedCons(s[0], CollapseSpaces(s[1..]));
      }
    }
  }

  /** Collapsing a stripped string puts it in whitespace normal form. */
  lemma CollapseStripped(s: string)
    requires Stripped(s)
    ensures Normalized(CollapseSpaces(s))
  {
    CollapseSpacesEnds(s);
    CollapseSpacesSingle(s);
  }

  /** A suffix of a string free of markdown characters is free of them. */
  lemma NoMarkdownSuffix(s: string, n: nat)
    requires n <= |s| && NoMarkdown(s)
    ensures NoMarkdown(s[n..])
  {
    assert forall k | 0 <= k < |s[n..]| :: s[n..][k] == s[n + k];
  }

  /** A character that is not markdown put in front of a string free of markdown keeps it free. */
  lemma NoMarkdownCons(c: char, t: string)
    requires !IsMarkdown(c) && NoMarkdown(t)
    ensures NoMarkdown([c] + t)
  {
    assert forall k | 1 <= k < |[c] + t| :: ([c] + t)[k] == t[k - 1];
  }

  /** Collapsing adds no markdown character. */
  lemma {:induction false} CollapseKeepsNoMarkdown(s: string)
    ensures NoMarkdown(s) ==> NoMarkdown(CollapseSpaces(s))
    decreases |s|
  {
    if s != [] && NoMarkdown(s) {
      var t := s[1..];
      NoMarkdownSuffix(s, 1);
      if IsSpace(s[0]) {
        var rest := TrimLeft(t);
        NoMarkdownSuffix(t, |t| - |rest|);
        CollapseKeepsNoMarkdown(rest);
        NoMarkdownCons(' ', CollapseSpaces(rest));
      } else {
        CollapseKeepsNoMarkdown(t);
        NoMarkdownCons(s[0], CollapseSpaces(t));
      }
    }
  }

  /** `re.sub(r"[*_`]", "", s)`. */
  function RemoveMarkdown(s: string): (r: string)
    ensures |r| <= |s|
    ensures NoMarkdown(r)
    ensures NoMarkdown(s) ==> r == s
  {
    if s == [] then []
    else if IsMarkdown(s[0]) then RemoveMarkdown(s[1..])
    else [s[0]] + RemoveMarkdown(s[1..])
  }

  lemma StripKeepsNoMarkdown(s: string)
    ensures NoMarkdown(s) ==> NoMarkdown(Strip(s))
  {
    if NoMarkdown(s) {
      var left := TrimLeft(s);
      NoMarkdownSuffix(s, |s| - |left|);
      var r := TrimRight(left);
      assert forall k | 0 <= k < |r| :: r[k] == left[k];
    }
  }

  /**
   * `clean_text(text)`: strip, collapse whitespace, then delete the markdown
   * characters '*', '_' and '`'.
   */
  function CleanText(text: string): (r: string)
    ensures NoMarkdown(r)
    ensures |r| <= |text|
    ensures NoMarkdown(text) ==> Normalized(r)
  {
    var stripped := Strip(text);
    var collapsed := CollapseSpaces(stripped);
    StripKeepsNoMarkdown(text);
    CollapseStripped(stripped);
    CollapseKeepsNoMarkdown(stripped);
    RemoveMarkdown(collapsed)
  }

  /** The characters of `s` that are not whitespace, in order. */
  function Spaceless(s: string): string
    decreases |s|
  {
    if s == [] then [] else (if IsSpace(s[0]) then [] else [s[0]]) + Spaceless(s[1..])
  }

  lemma {:induction false} SpacelessAppend(a: string, b: string)
    ensures Spaceless(a + b) == Spaceless(a) + Spaceless(b)
    decreases |a|
  {
    if a == [] {
      assert a + b == b;
    } else {
      assert (a + b)[0] == a[0] && (a + b)[1..] == a[1..] + b;
      SpacelessAppend(a[1..], b);
    }
  }

  /** Deleting markdown goes character by character: the parts of a string are cleaned separately. */
  lemma {:induction false} RemoveMarkdownAppend(a: string, b: string)
    ensures RemoveMarkdown(a + b) == RemoveMarkdown(a) + RemoveMarkdown(b)
    decreases |a|
  {
    if a == [] {
      assert a + b == b;
    } else {
      assert (a + b)[0] == a[0] && (a + b)[1..] == a[1..] + b;
      RemoveMarkdownAppend(a[1..], b);
    }
  }

  /** A markdown character is deleted, and every other character is kept. */
  lemma RemoveMarkdownChar(c: char)
    ensures RemoveMarkdown([c]) == if IsMarkdown(c) then [] else [c]
  {
    assert [c][1..] == [];
  }

  lemma {:induction false} SpacelessTrimLeft(s: string)
    ensures Spaceless(TrimLeft(s)) == Spaceless(s)
    decreases |s|
  {
    if s != [] && IsSpace(s[0]) {
      SpacelessTrimLeft(s[1..]);
    }
  }

  lemma {:induction false} SpacelessTrimRight(s: string)
    ensures Spaceless(TrimRight(s)) == Spaceless(s)
    decreases |s|
  {
    if s != [] && IsSpace(s[|s| - 1]) {
      var init := s[..|s| - 1];
      assert s == init + [s[|s| - 1]];
      SpacelessAppend(init, [s[|s| - 1]]);
      assert Spaceless([s[|s| - 1]]) == [] by {
        assert [s[|s| - 1]][1..] == [];
      }
      SpacelessTrimRight(init);
    }
  }

  /** Collapsing whitespace keeps every other character, in order. */
  lemma {:induction false} CollapseKeepsContent(s: string)
    ensures Spaceless(CollapseSpaces(s)) == Spaceless(s)
    decreases |s|
  {
    if s != [] {
      if IsSpace(s[0]) {
        var rest := TrimLeft(s[1..]);
        CollapseKeepsContent(rest);
        SpacelessTrimLeft(s[1..]);
        var x := CollapseSpaces(rest);
        assert (" " + x)[0] == ' ' && (" " + x)[1..] == x;
      } else {
        CollapseKeepsContent(s[1..]);
        var x := CollapseSpaces(s[1..]);
        assert ([s[0]] + x)[0] == s[0] && ([s[0]] + x)[1..] == x;
      }
    }
  }

  /** Deleting markdown and dropping whitespace can be done in either order. */
  lemma {:induction false} FiltersCommute(s: string)
    ensures Spaceless(RemoveMarkdown(s)) == RemoveMarkdown(Spaceless(s))
    decreases |s|
  {
    if s != [] {
      var c, t := s[0], s[1..];
      assert s == [c] + t;
      FiltersCommute(t);
      RemoveMarkdownAppend([c], t);
      RemoveMarkdownChar(c);
      SpacelessAppend(RemoveMarkdown([c]), RemoveMarkdown(t));
      RemoveMarkdownAppend(if IsSpace(c) then [] else [c], Spaceless(t));
      if !IsSpace(c) {
        RemoveMarkdownChar(c);
      }
      assert Spaceless(RemoveMarkdown([c])) == RemoveMarkdown(if IsSpace(c) then [] else [c]) by {
        assert [c][1..] == [];
      }
    }
  }

  /**
   * What cleaning keeps: apart from whitespace, the cleaned text holds
   * exactly the characters of the input that are not markdown, in order.
   */
  lemma CleanTextKeepsContent(text: string)
    ensures Spaceless(CleanText(text)) == RemoveMarkdown(Spaceless(text))
  {
    var stripped := Strip(text);
    SpacelessTrimLeft(text);
    SpacelessTrimRight(TrimLeft(text));
    CollapseKeepsContent(stripped);
    FiltersCommute(CollapseSpaces(stripped));
  }

  lemma SingleSpacedTail(s: string)
    requires s != [] && SingleSpaced(s)
    ensures SingleSpaced(s[1..])
  {
    var t := s[1..];
    assert forall k | 0 <= k < |t| :: t[k] == s[k + 1];
  }

  /** A single-spaced string collapses to itself. */
  lemma {:induction false} CollapseSingleSpaced(s: string)
    requires SingleSpaced(s)
    ensures CollapseSpaces(s) == s
    decreases |s|
  {
    if s != [] {
      SingleSpacedTail(s);
      CollapseSingleSpaced(s[1..]);
      if IsSpace(s[0]) && |s| > 1 {
        assert !(s[0] == ' ' && s[1] == ' ');
        assert !IsSpace(s[1]);
      }
    }
  }

  /** Cleaning a clean string changes nothing. */
  lemma CleanTextFixesNormalized(s: string)
    requires Normalized(s) && NoMarkdown(s)
    ensures CleanText(s) == s
  {
    assert TrimLeft(s) == s;
    assert TrimRight(s) == s;
    CollapseSingleSpaced(s);
  }

  /** On input free of markdown characters, cleaning twice is cleaning once. */
  lemma CleanTextIdempotent(text: string)
    requires NoMarkdown(text)
    ensures CleanText(CleanText(text)) == CleanText(text)
  {
    CleanTextFixesNormalized(CleanText(text));
  }

  /**
   * With markdown present, deleting it after collapsing can leave whitespace
   * behind: "* a" cleans to " a", which cleans again to "a".
   */
  lemma CleanTextCanLeaveSpace()
    ensures CleanText("* a") == " a"
    ensures CleanText(" a") == "a"
  {
    var star: string := "* a";
    assert !IsSpace(star[0]) && !IsSpace(star[2]);
    assert Strip(star) == star;
    assert CollapseSpaces("a") == "a";
    assert TrimLeft(" a"[1..]) == "a";
    assert CollapseSpaces(" a") == " a";
    assert star[1..] == " a";
    assert CollapseSpaces(star) == [star[0]] + CollapseSpaces(star[1..]);
    assert RemoveMarkdown(star) == RemoveMarkdown(" a") == " a";
    assert CleanText(star) == RemoveMarkdown(CollapseSpaces(Strip(star)));
    var spaced: string := " a";
    assert TrimLeft(spaced) == "a";
    assert Strip(spaced) == "a";
    assert CleanText(spaced) == RemoveMarkdown(CollapseSpaces(Strip(spaced)));
  }

  // ----- JSON in replies -----

  /** The last index of `c` in `s`, or -1 when there is none. */
  function LastIndexOf(s: string, c: char): (i: int)
    ensures -1 <= i < |s|
    ensures 0 <= i ==> s[i] == c
    ensures forall k | i < k < |s| :: s[k] != c
  {
    if s == [] then -1 else if s[|s| - 1] == c then |s| - 1 else LastIndexOf(s[..|s| - 1], c)
  }

  /**
   * What `re.search(r"\{.*\}", s, re.DOTALL)` matches: the greedy span from
   * the first '{' to the last '}', when that '}' comes after the '{'.
   */
  function JsonSlice(s: string): (r: Option<string>)
    ensures r.None? <==> !(exists i, j | 0 <= i < j < |s| :: s[i] == '{' && s[j] == '}')
    ensures r.Some? ==> exists i, j | 0 <= i < j < |s| ::
              && s[i] == '{' && s[j] == '}' && r.value == s[i..j + 1]
              && (forall k | 0 <= k < i :: s[k] != '{')
              && (forall k | j < k < |s| :: s[k] != '}')
  {
    var i := IndexOf(s, '{');
    var j := LastIndexOf(s, '}');
    if i < j then Some(s[i..j + 1]) else None
  }

  /** The object that `json.loads(json_match.group())` yields, when there is a match and it decodes. */
  function DecodeEmbedded(response: string, decode: Decoder): Option<Members>
  {
    match JsonSlice(response)
    case None => None
    case Some(t) => decode(t)
  }

  /**
   * `extract_json_from_response(response)`: the decoded slice, or
   * `{"content": response}` when there is no slice or it does not decode.
   */
  function ExtractJsonFromResponse(response: string, decode: Decoder): (r: Members)
    ensures !(exists i, j | 0 <= i < j < |response| :: response[i] == '{' && response[j] == '}') ==>
              r == [("content", Str(response))]
    ensures JsonSlice(response).Some? && decode(JsonSlice(response).value).None? ==> r == [("content", Str(response))]
    ensures JsonSlice(response).Some? && decode(JsonSlice(response).value).Some? ==>
              r == decode(JsonSlice(response).value).value
  {
    match DecodeEmbedded(response, decode)
    case Some(data) => data
    case None => [("content", Str(response))]
  }
}

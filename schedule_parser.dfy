/** `ScheduleParser`: validation of the schedule table at construction, and
    selection of the entries that are due at a given instant. */
module ScheduleParsing {
  import opened Types

  /** The `cron-parser` library, which is foreign code and so a parameter here.
      `parseError(cron)` is what `parser.parse(cron)` throws, `None` when it
      parses. `prevFiring(cron, tz, now)` is `parse(cron, { currentDate: now, tz })
      .prev()` in epoch milliseconds, `None` when parsing or evaluation throws. */
  datatype CronLibrary = CronLibrary(
    parseError: string -> Option<Thrown>,
    prevFiring: (string, string, int) -> Option<int>)

  /** An entry is due when `now` lies strictly within this many milliseconds
      of the rule's previous firing. */
  const DUE_WINDOW_MS := 60000

  const DEFAULT_TIMEZONE := "UTC"

  const INSTANCE_ID_REQUIRED := "instanceId is required"
  const REGION_REQUIRED := "region is required"

  function Abs(x: int): nat { if x < 0 then -x else x }

  // ---------------------------------------------------------------------------
  // Validation
  // ---------------------------------------------------------------------------

  /** The reason one entry fails validation: the cron rule is parsed first
      (without a timezone), then `instanceId` and `region` are checked. */
  function EntryError(cron: CronLibrary, s: Schedule): (r: Option<string>)
    ensures r.None? <==> cron.parseError(s.cron).None? && s.instanceId != "" && s.region != ""
    ensures cron.parseError(s.cron).Some? ==> r == Some(ErrorMessage(cron.parseError(s.cron).value))
    ensures cron.parseError(s.cron).None? && s.instanceId == "" ==> r == Some(INSTANCE_ID_REQUIRED)
    ensures cron.parseError(s.cron).None? && s.instanceId != "" && s.region == "" ==> r == Some(REGION_REQUIRED)
  {
    match cron.parseError(s.cron)
    case Some(t) => Some(ErrorMessage(t))
    case None =>
      if s.instanceId == "" then Some(INSTANCE_ID_REQUIRED)
      else if s.region == "" then Some(REGION_REQUIRED)
      else None
  }

  datatype ValidationError = ValidationError(index: nat, reason: string)

  const VALIDATION_PREFIX := "Invalid schedule at index "

  /** The message of the `Error` the constructor throws. */
  function ValidationMessage(e: ValidationError): (msg: string)
    ensures |msg| > |VALIDATION_PREFIX| + |e.reason| && msg[..|VALIDATION_PREFIX|] == VALIDATION_PREFIX
    ensures msg[|msg| - |e.reason| - 2..] == ": " + e.reason
  {
    VALIDATION_PREFIX + NatToString(e.index) + ": " + e.reason
  }

  /** Reads the index and the reason back out of a validation message. */
  function ParseValidationMessage(msg: string): Option<ValidationError>
  {
    var n := |VALIDATION_PREFIX|;
    if |msg| < n || msg[..n] != VALIDATION_PREFIX then None
    else
      var digits := LeadingDigits(msg[n..]);
      var rest := msg[n + |digits|..];
      if digits == [] || |rest| < 2 || rest[..2] != ": " then None
      else Some(ValidationError(ParseDecimal(digits), rest[2..]))
  }

  /** The message names the failing index and reason unambiguously. */
  lemma ValidationMessageRoundTrip(e: ValidationError)
    ensures ParseValidationMessage(ValidationMessage(e)) == Some(e)
  {
    var msg := ValidationMessage(e);
    var n := |VALIDATION_PREFIX|;
    var ds := NatToString(e.index);
    assert msg[..n] == VALIDATION_PREFIX;
    assert msg[n..] == ds + (": " + e.reason);
    LeadingDigitsOfDigits(ds, ": " + e.reason);
    assert msg[n + |ds|..] == ": " + e.reason;
    DecimalRoundTrip(e.index);
  }

  /** The first entry at or after index `i` that fails validation. */
  function FirstInvalidFrom(cron: CronLibrary, s: seq<Schedule>, i: nat): (r: Option<ValidationError>)
    requires i <= |s|
    ensures r.Some? ==> i <= r.value.index < |s| && EntryError(cron, s[r.value.index]) == Some(r.value.reason)
    decreases |s| - i
  {
    if i == |s| then None
    else match EntryError(cron, s[i])
      case Some(reason) => Some(ValidationError(i, reason))
      case None => FirstInvalidFrom(cron, s, i + 1)
  }

  /** What `validateSchedules` throws for, if anything. */
  function FirstInvalid(cron: CronLibrary, s: seq<Schedule>): (r: Option<ValidationError>)
    ensures r.Some? ==> r.value.index < |s| && EntryError(cron, s[r.value.index]) == Some(r.value.reason)
  {
    FirstInvalidFrom(cron, s, 0)
  }

  ghost predicate ValidFrom(cron: CronLibrary, s: seq<Schedule>, i: nat, j: nat)
    requires i <= j <= |s|
  {
    forall k :: i <= k < j ==> EntryError(cron, s[k]).None?
  }

  lemma {:induction false} FirstInvalidFromSpec(cron: CronLibrary, s: seq<Schedule>, i: nat)
    requires i <= |s|
    ensures FirstInvalidFrom(cron, s, i).None? <==> ValidFrom(cron, s, i, |s|)
    ensures FirstInvalidFrom(cron, s, i).Some? ==>
              var e := FirstInvalidFrom(cron, s, i).value;
              i <= e.index < |s| && EntryError(cron, s[e.index]) == Some(e.reason) &&
              ValidFrom(cron, s, i, e.index)
    decreases |s| - i
  {
    if i < |s| && EntryError(cron, s[i]).None? {
      FirstInvalidFromSpec(cron, s, i + 1);
    }
  }

  /** Validation fails exactly when some entry is invalid, and then names
      the lowest such index with that entry's reason. */
  lemma FirstInvalidSpec(cron: CronLibrary, s: seq<Schedule>)
    ensures FirstInvalid(cron, s).None? <==>
              forall k :: 0 <= k < |s| ==> EntryError(cron, s[k]).None?
    ensures FirstInvalid(cron, s).Some? ==>
              var e := FirstInvalid(cron, s).value;
              e.index < |s| && EntryError(cron, s[e.index]) == Some(e.reason) &&
              forall k :: 0 <= k < e.index ==> EntryError(cron, s[k]).None?
  {
    FirstInvalidFromSpec(cron, s, 0);
  }

  /** Validation parses the rule without a timezone, so the timezone of an
      entry never decides whether the table is accepted. */
  lemma {:induction false} ValidationIgnoresTimezone(cron: CronLibrary, s: seq<Schedule>, i: nat, tz: Option<string>)
    requires i < |s|
    ensures FirstInvalid(cron, s[i := s[i].(timezone := tz)]) == FirstInvalid(cron, s)
  {
    var s' := s[i := s[i].(timezone := tz)];
    forall j | 0 <= j <= |s|
      ensures FirstInvalidFrom(cron, s', j) == FirstInvalidFrom(cron, s, j)
    {
      FirstInvalidFromTimezone(cron, s, i, tz, j);
    }
  }

  lemma {:induction false} FirstInvalidFromTimezone(cron: CronLibrary, s: seq<Schedule>, i: nat, tz: Option<string>, j: nat)
    requires i < |s| && j <= |s|
    ensures FirstInvalidFrom(cron, s[i := s[i].(timezone := tz)], j) == FirstInvalidFrom(cron, s, j)
    decreases |s| - j
  {
    if j < |s| {
      FirstInvalidFromTimezone(cron, s, i, tz, j + 1);
    }
  }

  // ---------------------------------------------------------------------------
  // Due-set selection
  // ---------------------------------------------------------------------------

  /** `schedule.timezone || 'UTC'` */
  function Timezone(s: Schedule): (tz: string)
    ensures s.timezone.Some? && s.timezone.value != "" ==> tz == s.timezone.value
    ensures s.timezone.None? || s.timezone.value == "" ==> tz == DEFAULT_TIMEZONE
  {
    OrDefault(s.timezone, DEFAULT_TIMEZONE)
  }

  /** The predicate `getSchedulesToRun` filters by. An evaluation that throws
      makes the entry not due, and nothing else. The window is strict on both
      sides: a previous firing exactly one window away is not due. */
  predicate IsDue(cron: CronLibrary, s: Schedule, now: int)
    ensures IsDue(cron, s, now) <==>
              && s.enabled != Some(false)
              && cron.prevFiring(s.cron, Timezone(s), now).Some?
              && now - DUE_WINDOW_MS < cron.prevFiring(s.cron, Timezone(s), now).value < now + DUE_WINDOW_MS
  {
    s.enabled != Some(false) &&
    match cron.prevFiring(s.cron, Timezone(s), now)
    case None => false
    case Some(prev) => Abs(now - prev) < DUE_WINDOW_MS
  }

  /** The due entries of `s`, in their order. */
  function DueSchedules(cron: CronLibrary, s: seq<Schedule>, now: int): (r: seq<Schedule>)
    ensures |r| <= |s|
    ensures forall x :: x in r ==> x in s && IsDue(cron, x, now)
    decreases |s|
  {
    if s == [] then []
    else (if IsDue(cron, s[0], now) then [s[0]] else []) + DueSchedules(cron, s[1..], now)
  }

  /** `r` is obtained from `s` by deleting entries, keeping the order. */
  ghost predicate IsSubsequence<T>(r: seq<T>, s: seq<T>)
    decreases |s|
  {
    if r == [] then true
    else if s == [] then false
    else (r[0] == s[0] && IsSubsequence(r[1..], s[1..])) || IsSubsequence(r, s[1..])
  }

  lemma {:induction false} DueIsSubsequence(cron: CronLibrary, s: seq<Schedule>, now: int)
    ensures IsSubsequence(DueSchedules(cron, s, now), s)
    decreases |s|
  {
    if s != [] {
      DueIsSubsequence(cron, s[1..], now);
      var rest := DueSchedules(cron, s[1..], now);
      if IsDue(cron, s[0], now) {
        assert ([s[0]] + rest)[1..] == rest;
      } else {
        assert DueSchedules(cron, s, now) == rest;
      }
    }
  }

  /** Each copy of an entry is kept iff that entry is due: nothing is added,
      and no due entry is lost. */
  lemma {:induction false} DueMultiplicity(cron: CronLibrary, s: seq<Schedule>, now: int, x: Schedule)
    ensures multiset(DueSchedules(cron, s, now))[x] == if IsDue(cron, x, now) then multiset(s)[x] else 0
    decreases |s|
  {
    if s != [] {
      DueMultiplicity(cron, s[1..], now, x);
      assert s == [s[0]] + s[1..];
    }
  }

  lemma DueMembership(cron: CronLibrary, s: seq<Schedule>, now: int, x: Schedule)
    ensures x in DueSchedules(cron, s, now) <==> x in s && IsDue(cron, x, now)
  {
    DueMultiplicity(cron, s, now, x);
    assert x in DueSchedules(cron, s, now) <==> multiset(DueSchedules(cron, s, now))[x] > 0;
    assert x in s <==> multiset(s)[x] > 0;
  }

  /** Selection is entry by entry: the verdict on one entry does not depend
      on its neighbours, so a failing evaluation excludes only its own entry. */
  lemma {:induction false} DueDistributes(cron: CronLibrary, a: seq<Schedule>, b: seq<Schedule>, now: int)
    ensures DueSchedules(cron, a + b, now) == DueSchedules(cron, a, now) + DueSchedules(cron, b, now)
    decreases |a|
  {
    if a != [] {
      assert (a + b)[1..] == a[1..] + b;
      DueDistributes(cron, a[1..], b, now);
    } else {
      assert a + b == b;
    }
  }

  /** An entry with `enabled === false` is never selected, at any instant. */
  lemma {:induction false} DisabledNeverDue(cron: CronLibrary, s: seq<Schedule>, now: int)
    ensures forall x :: x in DueSchedules(cron, s, now) ==> x.enabled != Some(false)
  {
    forall x | x in DueSchedules(cron, s, now)
      ensures x.enabled != Some(false)
    {
      DueMembership(cron, s, now, x);
    }
  }

  /** A missing `enabled` flag selects exactly as `enabled: true` does, and a
      missing or empty timezone exactly as `'UTC'` does. */
  lemma DefaultsOfEntry(cron: CronLibrary, x: Schedule, now: int)
    ensures IsDue(cron, x.(enabled := None), now) == IsDue(cron, x.(enabled := Some(true)), now)
    ensures IsDue(cron, x.(timezone := None), now) == IsDue(cron, x.(timezone := Some(DEFAULT_TIMEZONE)), now)
    ensures IsDue(cron, x.(timezone := Some("")), now) == IsDue(cron, x.(timezone := None), now)
  {
  }

  // ---------------------------------------------------------------------------
  // The class
  // ---------------------------------------------------------------------------

  class ScheduleParser {
    var schedules: seq<Schedule>

    /** Stores the table as given; validation is `NewScheduleParser`'s job. */
    constructor (schedules: seq<Schedule>)
      ensures this.schedules == schedules
    {
      this.schedules := schedules;
    }

    /** The `forEach` over the table that throws at the first invalid index. */
    method ValidateSchedules(cron: CronLibrary) returns (err: Option<ValidationError>)
      ensures err == FirstInvalid(cron, schedules)
      ensures err.None? <==> forall k :: 0 <= k < |schedules| ==> EntryError(cron, schedules[k]).None?
      ensures err.Some? ==> err.value.index < |schedules| &&
                            EntryError(cron, schedules[err.value.index]) == Some(err.value.reason) &&
                            forall k :: 0 <= k < err.value.index ==> EntryError(cron, schedules[k]).None?
    {
      var index := 0;
      while index < |schedules|
        invariant 0 <= index <= |schedules|
        invariant forall k :: 0 <= k < index ==> EntryError(cron, schedules[k]).None?
        invariant FirstInvalidFrom(cron, schedules, index) == FirstInvalid(cron, schedules)
      {
        var reason := ValidateEntry(cron, schedules[index]);
        if reason.Some? {
          return Some(ValidationError(index, reason.value));
        }
        index := index + 1;
      }
      return None;
    }

    /** `getSchedulesToRun(currentTime)`: a filter of the table. */
    function GetSchedulesToRun(cron: CronLibrary, now: int): (r: seq<Schedule>)
      reads this
      ensures IsSubsequence(r, schedules)
      ensures forall x :: x in r <==> x in schedules && IsDue(cron, x, now)
      ensures forall x :: x in r ==> x.enabled != Some(false)
      ensures forall x :: multiset(r)[x] == if IsDue(cron, x, now) then multiset(schedules)[x] else 0
    {
      DueIsSubsequence(cron, schedules, now);
      DisabledNeverDue(cron, schedules, now);
      forall x
        ensures x in DueSchedules(cron, schedules, now) <==> x in schedules && IsDue(cron, x, now)
        ensures multiset(DueSchedules(cron, schedules, now))[x] == if IsDue(cron, x, now) then multiset(schedules)[x] else 0
      {
        DueMembership(cron, schedules, now, x);
        DueMultiplicity(cron, schedules, now, x);
      }
      DueSchedules(cron, schedules, now)
    }
  }

  /** The body of the `try` for one entry: parse, then the two field checks. */
  method ValidateEntry(cron: CronLibrary, s: Schedule) returns (reason: Option<string>)
    ensures reason == EntryError(cron, s)
  {
    var thrown: Option<Thrown> := cron.parseError(s.cron);
    if thrown.None? && s.instanceId == "" {
      thrown := Some(ErrorObject(INSTANCE_ID_REQUIRED));
    } else if thrown.None? && s.region == "" {
      thrown := Some(ErrorObject(REGION_REQUIRED));
    }
    reason := if thrown.Some? then Some(ErrorMessage(thrown.value)) else None;
  }

  /** `new ScheduleParser(schedules)`: stores the table, then throws an
      `Error` naming the first invalid entry, if there is one. */
  method NewScheduleParser(schedules: seq<Schedule>, cron: CronLibrary) returns (r: Result<ScheduleParser, Thrown>)
    ensures r.Ok? <==> FirstInvalid(cron, schedules).None?
    ensures r.Ok? ==> fresh(r.value) && r.value.schedules == schedules
    ensures r.Err? ==> r.error == ErrorObject(ValidationMessage(FirstInvalid(cron, schedules).value))
  {
    var parser := new ScheduleParser(schedules);
    var err := parser.ValidateSchedules(cron);
    if err.Some? {
      return Err(ErrorObject(ValidationMessage(err.value)));
    }
    return Ok(parser);
  }
}

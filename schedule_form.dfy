/**
 * The schedule-session form: its validation rules, the session it builds
 * from valid input, and the submit flow that adds the session to the store
 * and redirects after a delay.
 */
module ScheduleForm {
  import opened Wrappers
  import opened Text
  import opened Records
  import opened LocalStorage
  import opened SessionContext

  /** The form's fields, as the inputs hold them (all strings). */
  datatype FormValues = FormValues(date: string, time: string, duration: string, topic: string, notes: string)

  const DefaultValues: FormValues := FormValues("", "", "30", "", "")

  /** The values the duration select can hold. */
  const DurationOptions: seq<string> := ["15", "30", "45", "60"]

  /** `new Date().toISOString().split("T")[0]`: the date part of the current timestamp. */
  function Today(isoNow: string): string {
    SplitOn(isoNow, 'T')[0]
  }

  /** For an ISO 8601 timestamp "YYYY-MM-DDTHH:mm:ss.sssZ", today is its first ten characters. */
  lemma TodayOfIsoTimestamp(isoNow: string)
    requires |isoNow| > 10 && isoNow[10] == 'T' && 'T' !in isoNow[..10]
    ensures Today(isoNow) == isoNow[..10]
  {
    FirstPieceIsPrefix(isoNow, 'T');
    var w := SplitOn(isoNow, 'T')[0];
    FirstIndexUnique(isoNow, 'T', |w|, 10);
  }

  /** The first message the date field shows, if any. */
  function DateError(date: string, today: string): Option<string> {
    if date == "" then Some("Date is required")
    else if !LexAtLeast(date, today) then Some("Date must be today or in the future")
    else None
  }

  /** The message each required field shows, if any. */
  datatype FieldErrors = FieldErrors(date: Option<string>, time: Option<string>, duration: Option<string>)

  const NoErrors: FieldErrors := FieldErrors(None, None, None)

  /** `formSchema` applied to the values, with `today` fixed when the page loaded. */
  function Validate(v: FormValues, today: string): FieldErrors {
    FieldErrors(
      DateError(v.date, today),
      if v.time == "" then Some("Time is required") else None,
      if v.duration == "" then Some("Duration is required") else None)
  }

  /**
   * The values pass exactly when the date is non-empty and, compared as a
   * string, not before today, and time and duration are non-empty; an empty
   * date is reported as "Date is required".
   */
  lemma ValidateSpec(v: FormValues, today: string)
    ensures Validate(v, today) == NoErrors <==>
      v.date != "" && !LexLess(v.date, today) && v.time != "" && v.duration != ""
    ensures v.date == "" ==> Validate(v, today).date == Some("Date is required")
    ensures v.date != "" && LexLess(v.date, today) ==>
      Validate(v, today).date == Some("Date must be today or in the future")
  {
  }

  /** Today itself is accepted, and so is any date that sorts after it; an empty date never is. */
  lemma DateBoundary(date: string, today: string)
    requires today != ""
    ensures DateError(today, today) == None
    ensures LexLess(today, date) ==> DateError(date, today) == None
    ensures DateError("", today).Some?
  {
    LexLessIrreflexive(today);
    if LexLess(today, date) {
      LexLessAsymmetric(today, date);
    }
  }

  /** The session built from valid values (`newSession`). */
  function BuildSession(v: FormValues, partnerName: string, language: string): SessionDraft
    requires v.duration in DurationOptions
  {
    assert AllDigits(v.duration);
    SessionDraft(
      partnerName,
      v.date + "T" + v.time + ":00",
      DecimalValue(v.duration),
      language,
      if v.topic == "" then language + " practice session" else v.topic,
      if v.notes == "" then None else Some(v.notes))
  }

  /** Each duration option parses to the number it names, and formats back to itself. */
  lemma DurationOptionValues()
    ensures DecimalValue("15") == 15 && Decimal(15) == "15"
    ensures DecimalValue("30") == 30 && Decimal(30) == "30"
    ensures DecimalValue("45") == 45 && Decimal(45) == "45"
    ensures DecimalValue("60") == 60 && Decimal(60) == "60"
  {
    assert Decimal(1) == "1" && Decimal(3) == "3" && Decimal(4) == "4" && Decimal(6) == "6";
    assert DigitChar(5) == '5' && DigitChar(0) == '0';
    assert "15"[..1] == "1" && "30"[..1] == "3" && "45"[..1] == "4" && "60"[..1] == "6";
  }

  /** The form starts on the 30-minute option, so an untouched duration builds a 30-minute session. */
  lemma DefaultDuration(v: FormValues, partnerName: string, language: string)
    requires v.duration == DefaultValues.duration
    ensures v.duration in DurationOptions
    ensures BuildSession(v, partnerName, language).duration == 30
  {
    DurationOptionValues();
  }

  /**
   * The built session: partner and language from the page, the duration the
   * option names (one of 15, 30, 45, 60 minutes), an empty topic replaced by
   * "<language> practice session", and empty notes dropped.
   */
  lemma BuildSessionSpec(v: FormValues, partnerName: string, language: string)
    requires v.duration in DurationOptions
    ensures var s := BuildSession(v, partnerName, language);
      && s.partnerName == partnerName && s.language == language
      && s.date == v.date + "T" + v.time + ":00"
      && s.duration in {15, 30, 45, 60}
      && Decimal(s.duration) == v.duration
      && (v.topic == "" ==> s.topic == language + " practice session")
      && (v.topic != "" ==> s.topic == v.topic)
      && (s.notes.None? <==> v.notes == "")
      && (s.notes.Some? ==> s.notes.value == v.notes)
  {
    assert v.duration == "15" || v.duration == "30" || v.duration == "45" || v.duration == "60";
    DurationOptionValues();
  }

  /** The built date splits back at its first "T" into the chosen date (which has no "T"). */
  lemma SessionDateRoundTrip(date: string, time: string)
    requires 'T' !in date
    ensures SplitOn(date + "T" + time + ":00", 'T')[0] == date
  {
    var d := date + "T" + time + ":00";
    FirstPieceIsPrefix(d, 'T');
    var w := SplitOn(d, 'T')[0];
    assert d[..|date|] == date;
    FirstIndexUnique(d, 'T', |w|, |date|);
    assert w == d[..|w|];
  }

  /** The form component, bound to the store its page is inside. */
  class ScheduleSessionForm {
    const partnerId: string
    const partnerName: string
    const language: string
    const store: SessionStore
    var isSubmitting: bool
    var pendingRedirects: nat
    var target: Option<string>

    constructor (partnerId: string, partnerName: string, language: string, store: SessionStore)
      ensures this.partnerId == partnerId && this.partnerName == partnerName && this.language == language
      ensures this.store == store
      ensures !isSubmitting && pendingRedirects == 0 && target == None && Valid()
    {
      this.partnerId, this.partnerName, this.language := partnerId, partnerName, language;
      this.store := store;
      isSubmitting, pendingRedirects, target := false, 0, None;
    }

    /** A redirect timer is pending exactly while submitting, and there is at most one. */
    predicate Valid()
      reads this
    {
      pendingRedirects <= 1 && (isSubmitting <==> pendingRedirects == 1)
    }

    /** The submit button's `disabled`: exactly while the redirect after a submit is pending. */
    predicate SubmitDisabled()
      reads this
      ensures Valid() ==> (SubmitDisabled() <==> pendingRedirects > 0)
    {
      isSubmitting
    }

    /**
     * `form.handleSubmit(onSubmit)`, reachable only while the submit button is
     * enabled: invalid values only show their errors. Valid values set
     * `isSubmitting`, add the built session to the store exactly once (only the
     * "upcomingSessions" key of storage changes), and start the redirect timer.
     */
    method HandleSubmit(values: FormValues, today: string, clock: nat) returns (errors: FieldErrors)
      requires Valid() && !SubmitDisabled()
      requires store.Persisted()
      requires values.duration == "" || values.duration in DurationOptions
      modifies this, store, store.storage
      ensures errors == Validate(values, today)
      ensures Valid() && store.Persisted()
      ensures errors != NoErrors ==> unchanged(this) && unchanged(store) && unchanged(store.storage)
      ensures errors == NoErrors ==>
        && isSubmitting && pendingRedirects == 1 && target == old(target)
        && store.upcomingSessions
           == [WithId(BuildSession(values, partnerName, language), SessionId(clock))] + old(store.upcomingSessions)
        && store.pastSessions == old(store.pastSessions)
        && store.storage.items == Persist(old(store.storage.items), UpcomingKey, store.upcomingSessions)
    {
      errors := Validate(values, today);
      if errors != NoErrors {
        return;
      }
      isSubmitting := true;
      var newSession := BuildSession(values, partnerName, language);
      store.AddSession(newSession, clock);
      pendingRedirects := pendingRedirects + 1;
    }

    /** The one-second timer: submitting ends and the page goes to "/sessions". */
    method RedirectTimerFires()
      requires Valid() && pendingRedirects > 0
      modifies this
      ensures Valid() && !isSubmitting && target == Some("/sessions") && pendingRedirects == 0
    {
      isSubmitting := false;
      target := Some("/sessions");
      pendingRedirects := pendingRedirects - 1;
    }
  }
}

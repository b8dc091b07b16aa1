// The settings-form sanitizer of the PHP Notifier plugin (CP_PHP_Notifier_Settings::sanitize):
// it builds the record the host saves from the previous record and the submitted form,
// and reconciles the plugin's email cron event with the submitted frequency.

module NotifierSettings {
  import opened Cron

  datatype Option<T> = None | Some(value: T)

  /** Keys of the submitted form and of the saved settings record. */
  const SendEmailKey := "send_email"
  const FrequencyKey := "email_frequency"

  /** The hook the notification email runs under. */
  const EmailCronHook := "php_notifier_email_cron"

  /** The frequency saved when the form carries none; note the capital N. */
  const DefaultFrequency := "Never"

  /** The values the frequency select control offers (all lower case). */
  const FrequencyChoices: seq<string> := ["never", "daily", "weekly", "monthly"]

  /** A submitted form: the string value of each posted key. A key that was not posted is absent. */
  type Input = map<string, string>

  /** `input[key]` in PHP: the posted string, or null (None) when the key is absent. */
  function Lookup(input: Input, key: string): Option<string>
  {
    if key in input then Some(input[key]) else None
  }

  /** PHP `empty()` of a value that is a string or null: null, "" and "0" are empty. */
  predicate Empty(v: Option<string>)
  {
    v.None? || v.value == "" || v.value == "0"
  }

  /** PHP truthiness of a string or null; `empty($x)` is `!isset($x) || !$x`, so it is the negation of `Empty`. */
  predicate Truthy(v: Option<string>)
  {
    !Empty(v)
  }

  /** The settings record (the `php_notifier_settings` option). A field missing from the stored
      record reads as null (None). */
  datatype Settings = Settings(warningType: Option<string>, sendEmail: bool, emailFrequency: Option<string>)

  /** What the sanitizer reads and writes: the stored record, the cron schedule and the
      `php_notifier_prevent_cron` option (false while unset). */
  datatype Env = Env(options: Settings, events: seq<Event>, preventCron: bool)

  /** The frequency the sanitizer saves: the cleaned posted value, or the default when none was posted. */
  function SavedFrequency(input: Input, clean: string -> string): string
  {
    if FrequencyKey in input then clean(input[FrequencyKey]) else DefaultFrequency
  }

  /** The change test: the stored frequency against the RAW posted one, by PHP's strict `!==`. */
  predicate FrequencyChanged(stored: Settings, input: Input)
  {
    stored.emailFrequency != Lookup(input, FrequencyKey)
  }

  /** The record the sanitizer returns, built from the previous record and the form.
      `clean` stands for sanitize_text_field. */
  function Normalise(previous: Settings, input: Input, clean: string -> string): (r: Settings)
    ensures r.warningType == previous.warningType
    ensures !r.sendEmail <==> (SendEmailKey !in input || input[SendEmailKey] == "" || input[SendEmailKey] == "0")
    ensures FrequencyKey in input ==> r.emailFrequency == Some(clean(input[FrequencyKey]))
    ensures FrequencyKey !in input ==> r.emailFrequency == Some("Never")
  {
    Settings(previous.warningType, !Empty(Lookup(input, SendEmailKey)), Some(SavedFrequency(input, clean)))
  }

  /** The state after the sanitizer has run on `input` at time `now`. */
  function Reconcile(env: Env, input: Input, clean: string -> string, now: int): (r: Env)
    ensures r.options == env.options
    ensures !FrequencyChanged(env.options, input) ==> r == env
    ensures r.preventCron != env.preventCron ==> r.preventCron && Truthy(env.options.emailFrequency)
  {
    if !FrequencyChanged(env.options, input) then env
    else
      var cleared := Cleared(env.events, EmailCronHook);
      if !Truthy(env.options.emailFrequency) then env.(events := cleared)
      else Env(env.options, cleared + [Event(EmailCronHook, now, SavedFrequency(input, clean))], true)
  }

  /** One form submission as the host runs it: the sanitizer, then the host saving the returned record. */
  function Submit(env: Env, input: Input, clean: string -> string, now: int): Env
  {
    Reconcile(env, input, clean, now).(options := Normalise(env.options, input, clean))
  }

  /** The site state the settings page works on. */
  class Site {
    /** The stored settings record as loaded for this request. */
    var options: Settings
    /** The site's cron schedule. */
    var events: seq<Event>
    /** The `php_notifier_prevent_cron` option. */
    var preventCron: bool

    constructor (options: Settings, events: seq<Event>, preventCron: bool)
      ensures State() == Env(options, events, preventCron)
    {
      this.options := options;
      this.events := events;
      this.preventCron := preventCron;
    }

    function State(): Env
      reads this
    {
      Env(options, events, preventCron)
    }

    /** wp_clear_scheduled_hook: unschedules every event under `hook`. */
    method ClearScheduledHook(hook: string)
      modifies this`events
      ensures events == Cleared(old(events), hook)
      ensures Scheduled(events, hook) == []
    {
      events := Cleared(events, hook);
      ClearedLeavesNone(old(events), hook);
    }

    /** update_option('php_notifier_prevent_cron', value). */
    method UpdatePreventCron(value: bool)
      modifies this`preventCron
      ensures preventCron == value
    {
      preventCron := value;
    }

    /** wp_schedule_event: registers one recurring event under `hook`. */
    method ScheduleEvent(start: int, recurrence: string, hook: string)
      modifies this`events
      ensures events == old(events) + [Event(hook, start, recurrence)]
    {
      events := events + [Event(hook, start, recurrence)];
    }

    /** CP_PHP_Notifier_Settings::sanitize: returns the record to save and reconciles the email
        cron event. The stored record itself is left to the host. */
    method Sanitize(input: Input, clean: string -> string, now: int) returns (saved: Settings)
      modifies this`events, this`preventCron
      ensures saved == Normalise(old(options), input, clean)
      ensures State() == Reconcile(old(State()), input, clean, now)
    {
      var warningType := options.warningType;
      var sendEmail := if Empty(Lookup(input, SendEmailKey)) then false else true;
      var frequency := if FrequencyKey in input then clean(input[FrequencyKey]) else DefaultFrequency;
      saved := Settings(warningType, sendEmail, Some(frequency));

      if options.emailFrequency != Lookup(input, FrequencyKey) {
        ClearScheduledHook(EmailCronHook);
        if !Truthy(options.emailFrequency) {
          return;
        }
        UpdatePreventCron(true);
        ScheduleEvent(now, frequency, EmailCronHook);
      }
    }
  }

  // ---------------------------------------------------------------------------
  // The form fields

  /** Only an absent field, "" and "0" switch the email off; every other posted string
      (PHP truthiness: "false", "00", " " included) switches it on. */
  lemma SendEmailExamples(previous: Settings, clean: string -> string)
    ensures !Normalise(previous, map[], clean).sendEmail
    ensures !Normalise(previous, map[SendEmailKey := ""], clean).sendEmail
    ensures !Normalise(previous, map[SendEmailKey := "0"], clean).sendEmail
    ensures Normalise(previous, map[SendEmailKey := "1"], clean).sendEmail
    ensures Normalise(previous, map[SendEmailKey := "false"], clean).sendEmail
    ensures Normalise(previous, map[SendEmailKey := "00"], clean).sendEmail
    ensures Normalise(previous, map[SendEmailKey := " "], clean).sendEmail
  {
  }

  /** The saved frequency is not checked against the select's choices: the default is not one of
      them, and any posted value that sanitises to something else is saved as it is. */
  lemma FrequencyNotValidated(previous: Settings)
    ensures DefaultFrequency !in FrequencyChoices
    ensures Normalise(previous, map[], s => s).emailFrequency == Some("Never")
    ensures Normalise(previous, map[FrequencyKey := "hourly"], s => s).emailFrequency == Some("hourly")
    ensures "hourly" !in FrequencyChoices
  {
  }

  // ---------------------------------------------------------------------------
  // The cron reconciliation

  /** A form without a frequency always counts as a change against a stored frequency (the
      missing value is null), so the email hook is cleared and, when the stored frequency is
      truthy, rescheduled at the default "Never". */
  lemma MissingFrequencyAlwaysChanges(env: Env, input: Input, clean: string -> string, now: int)
    requires FrequencyKey !in input && env.options.emailFrequency.Some?
    ensures FrequencyChanged(env.options, input)
    ensures Scheduled(Reconcile(env, input, clean, now).events, EmailCronHook)
              == if Truthy(env.options.emailFrequency) then [Event(EmailCronHook, now, "Never")] else []
  {
    ClearedLeavesNone(env.events, EmailCronHook);
    ScheduledAppend(Cleared(env.events, EmailCronHook), [Event(EmailCronHook, now, "Never")], EmailCronHook);
  }

  /** On a change with a falsy stored frequency the email hook is cleared and the sanitizer
      returns: no email event is left and the prevent flag is untouched. */
  lemma FalsyStoredFrequencyReturnsEarly(env: Env, input: Input, clean: string -> string, now: int)
    requires FrequencyChanged(env.options, input) && !Truthy(env.options.emailFrequency)
    ensures Reconcile(env, input, clean, now).events == Cleared(env.events, EmailCronHook)
    ensures Scheduled(Reconcile(env, input, clean, now).events, EmailCronHook) == []
    ensures Reconcile(env, input, clean, now).preventCron == env.preventCron
  {
    ClearedLeavesNone(env.events, EmailCronHook);
  }

  /** On a change with a truthy stored frequency the prevent flag is set and the email hook ends
      up with exactly one event: the new one, starting now, recurring at the saved frequency. */
  lemma TruthyStoredFrequencySchedulesOnce(env: Env, input: Input, clean: string -> string, now: int)
    requires FrequencyChanged(env.options, input) && Truthy(env.options.emailFrequency)
    ensures Reconcile(env, input, clean, now).preventCron
    ensures Scheduled(Reconcile(env, input, clean, now).events, EmailCronHook)
              == [Event(EmailCronHook, now, Normalise(env.options, input, clean).emailFrequency.value)]
  {
    var added := Event(EmailCronHook, now, SavedFrequency(input, clean));
    ClearedLeavesNone(env.events, EmailCronHook);
    ScheduledAppend(Cleared(env.events, EmailCronHook), [added], EmailCronHook);
  }

  /** After a call that sees a change there is at most one email event; a call that sees no change
      keeps the schedule, so "at most one email event" is preserved by every call. */
  lemma AtMostOneEmailEvent(env: Env, input: Input, clean: string -> string, now: int)
    ensures FrequencyChanged(env.options, input) ==>
              |Scheduled(Reconcile(env, input, clean, now).events, EmailCronHook)| <= 1
    ensures |Scheduled(env.events, EmailCronHook)| <= 1 ==>
              |Scheduled(Reconcile(env, input, clean, now).events, EmailCronHook)| <= 1
  {
    if FrequencyChanged(env.options, input) {
      if Truthy(env.options.emailFrequency) {
        TruthyStoredFrequencySchedulesOnce(env, input, clean, now);
      } else {
        FalsyStoredFrequencyReturnsEarly(env, input, clean, now);
      }
    }
  }

  /** Events under any other hook are never changed, nor is their order: hook by hook, and as the
      whole schedule with the email events taken out. */
  lemma OtherHooksUntouched(env: Env, input: Input, clean: string -> string, now: int, hook: string)
    requires hook != EmailCronHook
    ensures Scheduled(Reconcile(env, input, clean, now).events, hook) == Scheduled(env.events, hook)
    ensures Cleared(Reconcile(env, input, clean, now).events, EmailCronHook) == Cleared(env.events, EmailCronHook)
  {
    if FrequencyChanged(env.options, input) {
      var cleared := Cleared(env.events, EmailCronHook);
      var added := [Event(EmailCronHook, now, SavedFrequency(input, clean))];
      ClearedKeepsOtherHooks(env.events, EmailCronHook, hook);
      ClearedTwice(env.events, EmailCronHook);
      if Truthy(env.options.emailFrequency) {
        ScheduledAppend(cleared, added, hook);
        ClearedAppend(cleared, added, EmailCronHook);
        assert Cleared(added, EmailCronHook) == [];
      }
    }
  }

  /** A call that sees a change takes away exactly the email events of the old schedule and
      adds at most the one new event; nothing else in the schedule changes. */
  lemma OnlyEmailEventsRemoved(env: Env, input: Input, clean: string -> string, now: int)
    requires FrequencyChanged(env.options, input)
    ensures multiset(Reconcile(env, input, clean, now).events)
              == multiset(env.events) - multiset(Scheduled(env.events, EmailCronHook))
                 + if Truthy(env.options.emailFrequency)
                   then multiset{Event(EmailCronHook, now, SavedFrequency(input, clean))}
                   else multiset{}
  {
    ClearedPartition(env.events, EmailCronHook);
  }

  // ---------------------------------------------------------------------------
  // Repeated submissions

  /** Submitting the same form again is quiet when the posted frequency is already clean: the
      second call sees no change, saves the same record and leaves the schedule and the flag alone. */
  lemma ResubmitIsQuiet(env: Env, input: Input, clean: string -> string, now: int, later: int)
    requires FrequencyKey in input && clean(input[FrequencyKey]) == input[FrequencyKey]
    ensures var next := Submit(env, input, clean, now);
      Reconcile(next, input, clean, later) == next && Normalise(next.options, input, clean) == next.options
  {
  }

  /** After a save, a second submission of the same form sees no change exactly when a frequency
      is posted and sanitising leaves it as it is. */
  lemma ResubmitQuietExactlyWhenClean(env: Env, input: Input, clean: string -> string, now: int)
    ensures (!FrequencyChanged(Submit(env, input, clean, now).options, input))
        <==> (FrequencyKey in input && clean(input[FrequencyKey]) == input[FrequencyKey])
  {
  }

  /** A form without a frequency is never quiet: the saved "Never" differs from the missing value
      and is truthy, so every such submission clears and reschedules the email event. */
  lemma ResubmitWithoutFrequencyReschedules(env: Env, input: Input, clean: string -> string, now: int, later: int)
    requires FrequencyKey !in input
    ensures var next := Submit(env, input, clean, now);
      Reconcile(next, input, clean, later)
        == next.(events := Cleared(next.events, EmailCronHook) + [Event(EmailCronHook, later, "Never")], preventCron := true)
  {
  }

  // ---------------------------------------------------------------------------
  // Scenarios

  /** An empty form over a stored "never": the change test fires (null against "never"), "never"
      is truthy, so an event recurring at "Never" is scheduled and "Never" is saved. */
  lemma EmptyFormOverNever(env: Env, clean: string -> string, now: int)
    requires env.options.emailFrequency == Some("never")
    ensures Normalise(env.options, map[], clean).emailFrequency == Some("Never")
    ensures Reconcile(env, map[], clean, now)
              == Env(env.options, Cleared(env.events, EmailCronHook) + [Event(EmailCronHook, now, "Never")], true)
  {
  }

  /** Switching from "daily" to "never" does not stop the email: the stored frequency is truthy,
      so an event recurring at the cleaned "never" is scheduled. */
  lemma DailyToNeverSchedules(env: Env, clean: string -> string, now: int)
    requires env.options.emailFrequency == Some("daily")
    ensures Reconcile(env, map[FrequencyKey := "never"], clean, now)
              == Env(env.options, Cleared(env.events, EmailCronHook) + [Event(EmailCronHook, now, clean("never"))], true)
  {
  }

  /** Switching on from an empty stored frequency schedules nothing: the early return tests the
      old frequency, so the saved "daily" has no email event behind it. */
  lemma EnableFromEmptySchedulesNothing(env: Env, now: int)
    requires env.options.emailFrequency == Some("")
    ensures Normalise(env.options, map[FrequencyKey := "daily"], s => s).emailFrequency == Some("daily")
    ensures Scheduled(Reconcile(env, map[FrequencyKey := "daily"], s => s, now).events, EmailCronHook) == []
  {
    ClearedLeavesNone(env.events, EmailCronHook);
  }
}

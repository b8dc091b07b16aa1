# PHP Notifier settings sanitizer — a Dafny model

PHP Notifier is a WordPress plugin that emails administrators about the PHP version a site
runs, on a schedule. Its settings page (`CP_PHP_Notifier_Settings`) registers a settings form
whose submissions pass through one callback, `sanitize($input)`. That callback is the only
logic in the plugin's settings page. This project models it and proves what it does.

`sanitize` takes the previous settings record and the untrusted form input. It does two things:

- It builds the record the host saves. `warning_type` is copied from the previous record.
  `send_email` is `false` exactly when the posted value is absent, `""` or `"0"`.
  `email_frequency` is the posted value passed through `sanitize_text_field`, or `'Never'`.
- It reconciles the email cron event. It compares the stored frequency with the RAW posted
  one by PHP's strict `!==`. On a difference it clears the `php_notifier_email_cron` hook.
  Then it returns early if the OLD frequency is falsy. Otherwise it sets the
  `php_notifier_prevent_cron` option to true and schedules one event, starting now, recurring
  at the new frequency.

The model has two modules.

- `Cron` (`cron.dfy`) is the host's cron schedule as a list of events. Each event has a hook,
  a start time and a recurrence name. `Cleared` is what clearing a hook leaves. `Scheduled`
  lists the events under one hook. Lemmas show that clearing removes exactly that hook's
  events and leaves every other hook's events and their order alone.
- `NotifierSettings` (`settings.dfy`) holds the settings record, PHP's `empty()` and
  truthiness over a string-or-null (`Empty`, `Truthy`), and two specification functions.
  `Normalise` is the returned record. `Reconcile` is the new site state.
  The class `Site` has three fields: the stored record, the cron schedule and the prevent
  flag. Its method `Sanitize` follows the source statement by statement, with the early
  return. It is proved to return `Normalise` and to leave the site in the state `Reconcile`
  gives. The lemmas state the properties of those two functions.

`sanitize_text_field` is the parameter `clean: string -> string`, about which nothing is
assumed. `time()` is the parameter `now`.

The model keeps these quirks of the code:

- The default frequency `'Never'` at line 149 has a capital N. The select's choices at lines
  204-207 are all lower case, so the default is not one of them.
- The saved frequency is never checked against those choices. Any posted string is saved after
  `sanitize_text_field`.
- Line 151 compares the stored frequency with the raw posted value, not with the cleaned one.
  A form without a frequency therefore always counts as a change against a stored frequency.
- Line 155 tests the OLD frequency for falsiness. Switching from `daily` to `never` therefore asks
  WordPress to schedule an event recurring at `never` (`DailyToNeverSchedules`). Switching on
  from an empty stored frequency schedules nothing (`EnableFromEmptySchedulesNothing`). So the
  event's cadence does not always match the saved record.
- A second submission of the same form is quiet exactly when a frequency is posted and is already
  clean (`ResubmitIsQuiet`, `ResubmitQuietExactlyWhenClean`). A form without a frequency clears
  and reschedules on every submission (`ResubmitWithoutFrequencyReschedules`).

## Model

| member | source | states |
|---|---|---|
| `NotifierSettings.Normalise` | library/partials/class-options.php:145-149 | The returned record keeps the previous `warning_type` whatever the input holds. `send_email` is false exactly when the posted value is absent, `""` or `"0"`. `email_frequency` is the cleaned posted value when one is posted, and the literal `"Never"` otherwise. `Empty` is PHP `empty()` at line 148; `SavedFrequency` is the ternary at line 149. |
| `NotifierSettings.Reconcile` | library/partials/class-options.php:151-167 | The sanitizer never writes the stored record itself. When the stored frequency equals the raw posted one, nothing changes. The prevent flag only ever changes to true, and only when the stored frequency is truthy. `FrequencyChanged` is the strict `!==` against the raw input at line 151; `Truthy` is the `!` test at line 155. |
| `NotifierSettings.Site.Sanitize` | library/partials/class-options.php:143-169 | On every exit path it returns the same record, `Normalise` of the stored record and the form. The schedule and prevent flag it leaves are those of `Reconcile`. The stored record is unchanged. |
| `NotifierSettings.Site.ClearScheduledHook` | library/partials/class-options.php:153 | Clearing the email hook leaves the schedule `Cleared`, with no event under that hook. |
| `NotifierSettings.Site.UpdatePreventCron` | library/partials/class-options.php:161 | Setting `php_notifier_prevent_cron` to true changes only the flag. |
| `NotifierSettings.Site.ScheduleEvent` | library/partials/class-options.php:163 | Scheduling appends exactly one event with the given hook, start and recurrence, and changes nothing else. |
| `Cron.Cleared` | library/partials/class-options.php:153 | An event survives clearing exactly when it was scheduled and is not under the cleared hook. |
| `Cron.ClearedPartition` | library/partials/class-options.php:153 | Clearing removes exactly the hook's events: the cleared schedule plus the hook's events is the old schedule, as a multiset. |
| `Cron.ClearedLeavesNone` | library/partials/class-options.php:153 | After clearing a hook, no event is left under it. |
| `Cron.ClearedAppend` | library/partials/class-options.php:153 | Clearing a hook from two schedules laid end to end gives the two cleared schedules laid end to end. |
| `Cron.ClearedTwice` | library/partials/class-options.php:153 | Clearing a hook a second time changes nothing. |
| `Cron.ClearedKeepsOtherHooks` | library/partials/class-options.php:153 | Clearing one hook leaves the events of every other hook unchanged, order included. |
| `NotifierSettings.SendEmailExamples` | library/partials/class-options.php:148 | Absent, `""` and `"0"` switch the email off. `"1"`, `"false"`, `"00"` and `" "` switch it on, as PHP truthiness does. |
| `NotifierSettings.FrequencyNotValidated` | library/partials/class-options.php:149 | The default `"Never"` is not one of the select's choices. A posted `"hourly"` is saved as it is, although it is not a choice. |
| `NotifierSettings.MissingFrequencyAlwaysChanges` | library/partials/class-options.php:151-163 | With no posted frequency and a stored one, the change test always fires. The email hook then holds only an event recurring at `"Never"` if the stored frequency is truthy, and nothing otherwise. |
| `NotifierSettings.FalsyStoredFrequencyReturnsEarly` | library/partials/class-options.php:151-157 | On a change with a falsy stored frequency, the schedule is just the cleared one, with no email event. The prevent flag is untouched. |
| `NotifierSettings.TruthyStoredFrequencySchedulesOnce` | library/partials/class-options.php:151-163 | On a change with a truthy stored frequency, the prevent flag is true. The email hook holds exactly one event, starting now and recurring at the saved frequency. |
| `NotifierSettings.AtMostOneEmailEvent` | library/partials/class-options.php:151-165 | After a call that sees a change there is at most one email event. Every call preserves "at most one email event". |
| `NotifierSettings.OtherHooksUntouched` | library/partials/class-options.php:153-163 | Events under any other hook are unchanged, order included: hook by hook, and as the whole schedule with the email events taken out. |
| `NotifierSettings.OnlyEmailEventsRemoved` | library/partials/class-options.php:153-163 | On a change, the new schedule is the old one minus exactly its email events, plus the new event when one is scheduled. |
| `NotifierSettings.ResubmitIsQuiet` | library/partials/class-options.php:147-151 | After the host saves the record, a second submission of a form with an already clean frequency saves the same record. It leaves the schedule and the flag unchanged. |
| `NotifierSettings.ResubmitQuietExactlyWhenClean` | library/partials/class-options.php:149-151 | After the host saves the record, a second submission of the same form sees no change if and only if a frequency is posted and sanitising leaves it unchanged. |
| `NotifierSettings.ResubmitWithoutFrequencyReschedules` | library/partials/class-options.php:149-163 | After the host saves the record, a second submission without a frequency still clears the email hook. It then reschedules an event recurring at `"Never"` and sets the flag. |
| `NotifierSettings.EmptyFormOverNever` | library/partials/class-options.php:149-163 | An empty form over a stored `"never"` saves `"Never"`. It also schedules an event recurring at `"Never"`, because the stored `"never"` is truthy. |
| `NotifierSettings.DailyToNeverSchedules` | library/partials/class-options.php:155-163 | Switching from `"daily"` to `"never"` schedules an event recurring at the cleaned `"never"` instead of stopping the email. |
| `NotifierSettings.EnableFromEmptySchedulesNothing` | library/partials/class-options.php:155-157 | Switching to `"daily"` from an empty stored frequency saves `"daily"` but leaves no email event. |

## Left out

- Page rendering: `create_admin_page`, `print_section_info`, `send_email_callback` and `email_frequency_callback` only print HTML. The choices `never|daily|weekly|monthly` at lines 203-208 appear as the constant `FrequencyChoices`.
- Host registration: the constructor, `add_plugin_page`, `page_init` and the `is_admin()` instantiation only call into WordPress.
- `page_styles` only builds an asset URL and enqueues it.
- Translation and escaping helpers (`__`, `esc_html_e`, `esc_attr`, `wp_kses_post`, `checked`, `selected`) are host code that is not part of this model.
- `sanitize_text_field` is the uninterpreted parameter `clean`; what it strips is not modelled.
- `NotifierSettings.Site.ClearScheduledHook`: WordPress also matches the events' arguments; the plugin schedules none, so the model drops every event under the hook.
- `NotifierSettings.Site.ScheduleEvent`: WordPress refuses an unknown recurrence name; the model appends the event unconditionally, as the plugin assumes.
- Loading `self::$options` belongs to the parent class `CP_PHP_Notifier`, which is not part of this model. The stored record is a field whose missing keys read as null.
- Stored values that are neither strings nor null (PHP booleans, numbers, arrays) are not modelled. Neither is array-valued form input.
- The clock: `time()` is the parameter `now`.
- The cron job firing in the background, and the host saving the returned record, happen outside this code. `Submit` models the save only for the resubmission lemmas.

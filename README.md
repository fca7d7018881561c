# I'm Not OK — emergency notification core, modelled in Dafny

The Android app "I'm Not OK" puts the phone into an emergency mode and
repeatedly notifies the user's emergency contacts until the user says they
are fine. This project models three parts of it and proves properties of the
models:

- **The vigilance state machine** (`EmergencyNotificationService`). The
  service keeps a persisted state, NORMAL, WAITING or EMERGENCY, stored as an
  ordinal under `vigilanceStateKey`. It reacts to five intent actions: START,
  ACTIVATE, CANCEL, STOP and SEND. It drives two alarms: a one-shot alarm that
  ends the cancellation window by delivering ACTIVATE, and a repeating alarm
  that delivers SEND. It also caches the channel flags and the repeat
  interval, and installs a distance-threshold listener once. The class
  `NotificationService.EmergencyNotificationService` has these fields. Each
  method's `ensures` gives the complete new state as a `Snapshot` update of
  the old one, so "nothing else changes" is part of every contract.
  Requests to the SMS sender, the email sender and the caller are kept in a
  ghost log of `Dispatch` values. Each `Message` entry records the channel and
  the state the sender was given.
- **The preference parsers** (`readWaitBetweenMessagesMs`, `getWaitingTime`).
  Each parser computes `Integer.parseInt(s) * 1000` in 32-bit `int`
  arithmetic, and falls back to a default when the preference is absent or
  does not parse (module `Vigilance`, with `JavaInt` for `parseInt` and the
  wrap-around).
- **The email sender** (`EmailNotificationSender`). It flattens the
  contacts' enabled addresses with nested loops and sends one email only when
  that list is non-empty. The body depends on the state. The method always
  returns `true` (module `EmailSender`).
- **The panic gesture** (`ScreenOnOffReceiver`). A queue keeps the last six
  screen on/off times. When it is full and the newest minus the oldest is
  under 5000 ms, the trigger fires and the queue is emptied (module
  `PanicGesture`).

Module `Scenarios` holds client methods. Each one runs a sequence of intents
or broadcasts through the classes and states the outcome. Those outcomes are
proved from the method contracts alone.

The model follows the code where it behaves differently from an idealised
guard table:
- ACTIVATE has no WAITING guard. SEND has no state guard either.
- ACTIVATE does not send anything itself. It arms the repeating alarm with
  its first delivery at "now", and that delivery is what sends.
- START re-reads the preferences before checking anything. A START during an
  episode therefore changes the channels used by later SENDs.
- START checks the channels before it checks the state.
- An ACTIVATE queued by `startService` survives a CANCEL
  (`Scenarios.CancelledStartStillActivates`).
- A SEND delivered after STOP sends the all-clear again
  (`Scenarios.StopThenLateSend`).
- The code has no lock around read, decide and persist, and no
  scheduling-failure path.

Inputs from outside are parameters:
- the elapsed-realtime clock (`now`) and the wall clock (`time`);
- the shared preferences, as a `Preferences` value of optional entries;
- the intent;
- the contact list;
- the location reading;
- the formatting collaborators (`Formatting`, whose function-typed fields
  stand for `FormatUtils` and `%f` formatting);
- the account details;
- what the mail transport does (`Delivery`).

## Model

| member | source | states |
|---|---|---|
| `Vigilance.GetVigilanceState` | android/src/com/google/iamnotok/EmergencyNotificationService.java:278-280 | A state is read exactly when the stored ordinal (0 if the key is missing) is 0, 1 or 2, and its ordinal is that value; any other stored value has no state (Java throws). |
| `Vigilance.StateRoundTrip` | android/src/com/google/iamnotok/EmergencyNotificationService.java:270-280 | Reading back the ordinal written by `changeState` gives the state that was written. |
| `Vigilance.ReadWaitBetweenMessagesMs` | android/src/com/google/iamnotok/EmergencyNotificationService.java:142-150 | The repeat interval is always a 32-bit `int` value, and is 300000 ms when the preference is absent. |
| `Vigilance.GetWaitingTime` | android/src/com/google/iamnotok/EmergencyNotificationService.java:282-295 | The cancellation window is always a 32-bit `int` value, and is 10000 ms when the preference is absent. |
| `Vigilance.UnparseablePreferenceFallsBack` | android/src/com/google/iamnotok/EmergencyNotificationService.java:289-294 | A string that `parseInt` refuses gives the default of each parser (300000 ms and 10000 ms). |
| `Vigilance.SecondsReadAsMillis` | android/src/com/google/iamnotok/EmergencyNotificationService.java:146 | The decimal text of n seconds reads as exactly n * 1000 ms in both parsers whenever n * 1000 fits an `int`. |
| `Vigilance.NegativeSecondsReadAsMillis` | android/src/com/google/iamnotok/EmergencyNotificationService.java:146 | `-n` seconds reads as -n * 1000 ms in both parsers whenever that fits an `int`, so a negative interval or window is accepted as negative. |
| `Vigilance.LargeSecondsWrapAround` | android/src/com/google/iamnotok/EmergencyNotificationService.java:290 | A valid `int` number of seconds whose milliseconds do not fit an `int` reads as the 32-bit wrapped product, which differs from n * 1000. |
| `JavaInt.Mul` | android/src/com/google/iamnotok/EmergencyNotificationService.java:146 | `int * int` gives an `int`, equal to the mathematical product exactly when the product fits. |
| `JavaInt.ParseInt` | android/src/com/google/iamnotok/EmergencyNotificationService.java:290 | A parsed value is always an `int`, and the empty string never parses. |
| `JavaInt.ParseIntDecimal` | android/src/com/google/iamnotok/EmergencyNotificationService.java:146 | The decimal text of n parses back to n when n is at most 2147483647 and fails otherwise. |
| `JavaInt.ParseIntNegative` | android/src/com/google/iamnotok/EmergencyNotificationService.java:146 | `-` followed by the decimal text of n parses to -n when n is at most 2147483648 and fails otherwise. |
| `JavaInt.ParseIntRejects` | android/src/com/google/iamnotok/EmergencyNotificationService.java:147-148 | A lone sign, or a first character that is neither a digit nor a sign, does not parse. |
| `NotificationService.ActivateIntent` | android/src/com/google/iamnotok/EmergencyNotificationService.java:87-89 | The intent the window alarm delivers has the ACTIVATE action and no banner extra. |
| `NotificationService.Fanout` | android/src/com/google/iamnotok/EmergencyNotificationService.java:241-248 | One send goes to SMS iff SMS is enabled and one to email iff email is enabled, SMS first. Each carries the same given state, and no call is placed. |
| `NotificationService.EmergencyNotificationService.constructor` | android/src/com/google/iamnotok/EmergencyNotificationService.java:66-69 | A fresh service has SMS and email on, call off, a 300000 ms interval, no listener, no alarms, and the persisted state that was given. |
| `NotificationService.EmergencyNotificationService.ReadPreferences` | android/src/com/google/iamnotok/EmergencyNotificationService.java:215-221 | Sets the channel flags to the stored booleans or their defaults (true, true, false) and the interval to the parsed preference. Nothing else changes. |
| `NotificationService.EmergencyNotificationService.ChangeState` | android/src/com/google/iamnotok/EmergencyNotificationService.java:270-276 | Persists the ordinal, after which the state read is the new state. Nothing else changes. Callers leave EMERGENCY only with the repeating alarm disarmed, as every call site does. |
| `NotificationService.EmergencyNotificationService.SetNotificationTimer` | android/src/com/google/iamnotok/EmergencyNotificationService.java:223-229 | The repeating alarm becomes armed: first delivery now, period the cached interval. Any earlier arming is replaced. It is only reached in EMERGENCY (lines 129 and 186-187), so an armed repeating alarm always means EMERGENCY is persisted, an invariant of the class. |
| `NotificationService.EmergencyNotificationService.CancelNotificationsTimer` | android/src/com/google/iamnotok/EmergencyNotificationService.java:305-307 | The repeating alarm is disarmed, and that is the only change. |
| `NotificationService.EmergencyNotificationService.RegisterDistanceThresholdListener` | android/src/com/google/iamnotok/EmergencyNotificationService.java:309-328 | After any number of calls the listener is registered and has been installed exactly once by this instance, an invariant kept by every method. |
| `NotificationService.EmergencyNotificationService.OnDistanceThresholdPassed` | android/src/com/google/iamnotok/EmergencyNotificationService.java:128-140 | In EMERGENCY the repeating alarm is re-armed from the crossing time. In any other state nothing changes. |
| `NotificationService.EmergencyNotificationService.SendEmergencyMessages` | android/src/com/google/iamnotok/EmergencyNotificationService.java:241-248 | Appends to the log the fan-out for the cached flags, with the current persisted state. Nothing else changes. |
| `NotificationService.EmergencyNotificationService.InvokeEmergencyResponse` | android/src/com/google/iamnotok/EmergencyNotificationService.java:231-239 | Called in EMERGENCY, it places a call only if the call flag is set, registers the listener and arms the repeating alarm from now. No SMS or email is sent. |
| `NotificationService.EmergencyNotificationService.ShowDisableNotificationAndWaitToInvokeResponse` | android/src/com/google/iamnotok/EmergencyNotificationService.java:250-268 | Shows the banner and arms only the one-shot alarm, at now plus the parsed cancellation delay. |
| `NotificationService.EmergencyNotificationService.StopEmergency` | android/src/com/google/iamnotok/EmergencyNotificationService.java:297-303 | Disarms the repeating alarm, persists NORMAL, sends with state NORMAL on every enabled channel, and deactivates the tracker. |
| `NotificationService.EmergencyNotificationService.HandleStart` | android/src/com/google/iamnotok/EmergencyNotificationService.java:155-183 | Preferences are always reloaded first. With no channel enabled, in any state, nothing else changes. Otherwise, outside NORMAL, nothing else changes. From NORMAL the state becomes WAITING and the tracker is activated. Then either the banner and one-shot alarm are set up, or ACTIVATE is queued. |
| `NotificationService.EmergencyNotificationService.HandleActivate` | android/src/com/google/iamnotok/EmergencyNotificationService.java:184-187 | From any state: the banner is dismissed and EMERGENCY persisted. A call is placed only if enabled, and the repeating alarm is armed from now with the cached interval. |
| `NotificationService.EmergencyNotificationService.HandleCancel` | android/src/com/google/iamnotok/EmergencyNotificationService.java:188-197 | The one-shot alarm and banner are always cleared. Only from WAITING does the state become NORMAL, with the tracker deactivated. A CANCEL in WAITING leaves NORMAL with neither alarm armed. |
| `NotificationService.EmergencyNotificationService.HandleStop` | android/src/com/google/iamnotok/EmergencyNotificationService.java:198-204 | In EMERGENCY it has exactly the effect of `stopEmergency`. In any other state nothing changes. |
| `NotificationService.EmergencyNotificationService.HandleSend` | android/src/com/google/iamnotok/EmergencyNotificationService.java:205-207 | In any state: registers the listener, then sends on each enabled channel with the current state. |
| `NotificationService.EmergencyNotificationService.OnStartCommand` | android/src/com/google/iamnotok/EmergencyNotificationService.java:152-213 | The complete new state for each action. An intent with no action crashes: the process dies, and what follows is a new instance with the initial flags and interval, no listener and an inactive tracker, over the same persisted state, alarms, banner and log. An unknown action changes nothing. A CANCEL in WAITING leaves NORMAL with no alarm armed. |
| `EmailSender.FlattenLength` | android/src/com/google/iamnotok/senders/email_sender/EmailNotificationSender.java:39-47 | The collected list is as long as the sum of the per-contact enabled-email counts. |
| `EmailSender.FlattenAppend` | android/src/com/google/iamnotok/senders/email_sender/EmailNotificationSender.java:41-45 | Collecting over two lists of contacts in turn equals collecting over their concatenation, so addresses appear in contact order, then email order. |
| `EmailSender.FlattenMembership` | android/src/com/google/iamnotok/senders/email_sender/EmailNotificationSender.java:39-47 | An address is collected iff some contact has it enabled. |
| `EmailSender.GetAllContactEmails` | android/src/com/google/iamnotok/senders/email_sender/EmailNotificationSender.java:39-47 | The nested loops return exactly the flattened enabled emails. |
| `EmailSender.MapUrl` | android/src/com/google/iamnotok/senders/email_sender/EmailNotificationSender.java:78-82 | The link is the fixed Maps query prefix, the formatted latitude and longitude, `&sll=`, the same point again, and the fixed span and zoom suffix. |
| `EmailSender.MessageBody` | android/src/com/google/iamnotok/senders/email_sender/EmailNotificationSender.java:57-67 | In NORMAL the body is "I am OK now". Otherwise it starts with the formatted message and is longer than it iff coordinates exist, in which case a space and the map URL follow. |
| `EmailSender.OkBodyIgnoresLocation` | android/src/com/google/iamnotok/senders/email_sender/EmailNotificationSender.java:58-60 | The NORMAL body is the same for any two locations, with or without coordinates. |
| `EmailSender.SendEmailMessage` | android/src/com/google/iamnotok/senders/email_sender/EmailNotificationSender.java:52-76 | The mail goes to the formatted recipients, with the formatted subject, the state's body ("I am OK now" in NORMAL), the account's address and the fixed sender account. The transport's outcome is only recorded, since a throw is caught. |
| `EmailSender.SendNotifications` | android/src/com/google/iamnotok/senders/email_sender/EmailNotificationSender.java:28-37 | Returns true whatever the transport does. An email is attempted iff some contact has an enabled email. The attempt is addressed to the formatted flattened list, with the state's body, the formatted subject and the account's address. |
| `PanicGesture.Offer` | android/src/com/google/iamnotok/ScreenOnOffReceiver.java:24 | An offer never leaves more than the capacity, grows the queue by one below capacity, and puts the new time last. |
| `PanicGesture.OfferKeepsRecent` | android/src/com/google/iamnotok/ScreenOnOffReceiver.java:24 | After an offer the queue is the newest earlier entries, in arrival order, followed by the new time. |
| `PanicGesture.Receive` | android/src/com/google/iamnotok/ScreenOnOffReceiver.java:24-34 | The queue never exceeds six. The trigger fires iff, after the offer, there are six entries and the newest minus the oldest is below 5000 (strict). |
| `PanicGesture.ScreenOnOffReceiver.constructor` | android/src/com/google/iamnotok/ScreenOnOffReceiver.java:16 | A new receiver has an empty queue. |
| `PanicGesture.ScreenOnOffReceiver.OnReceive` | android/src/com/google/iamnotok/ScreenOnOffReceiver.java:20-37 | The code's new queue and its trigger decision equal `Receive` on the old queue, and the queue keeps at most six entries. |
| `PanicGesture.NoTriggerBelowSix` | android/src/com/google/iamnotok/ScreenOnOffReceiver.java:26 | While queue and run together hold fewer than six times, nothing fires and the queue accumulates them all. |
| `PanicGesture.QuietRunKeepsRecent` | android/src/com/google/iamnotok/ScreenOnOffReceiver.java:24-31 | After a run with no trigger, the queue is the most recent six times, or all of them if fewer, in arrival order. |
| `PanicGesture.TriggersNeedSixClicks` | android/src/com/google/iamnotok/ScreenOnOffReceiver.java:31-35 | Six times the number of triggers never exceeds the queued plus the received clicks. So there is at most one per event, and at least six more events after a trigger before the next. |
| `PanicGesture.SixQuickClicksFireOnce` | android/src/com/google/iamnotok/ScreenOnOffReceiver.java:28-34 | From an empty queue, six clicks spanning less than 5000 ms fire exactly once and leave the queue empty. |
| `PanicGesture.SixSlowClicksDoNotFire` | android/src/com/google/iamnotok/ScreenOnOffReceiver.java:28-31 | From an empty queue, six clicks spanning 5000 ms or more fire nothing and stay queued. |
| `PanicGesture.TriggerEventIntent` | android/src/com/google/iamnotok/ScreenOnOffReceiver.java:39-45 | The trigger intent, as written, carries the banner extra and no action. |
| `PanicGesture.IntendedTriggerEventIntent` | android/src/com/google/iamnotok/ScreenOnOffReceiver.java:39-45 | The corrected trigger intent is START with the banner extra. |
| `Scenarios.StartThenCancel` | android/src/com/google/iamnotok/EmergencyNotificationService.java:155-197 | START with the banner at 0 opens a 10000 ms window. CANCEL at 3000 returns to NORMAL with no alarm armed and nothing sent. |
| `Scenarios.WindowElapses` | android/src/com/google/iamnotok/EmergencyNotificationService.java:184-187 | ACTIVATE at the end of the window gives EMERGENCY and sends nothing itself. It arms the send alarm at 10000 with period 300000, and its first SEND sends one SMS. |
| `Scenarios.StopThenLateSend` | android/src/com/google/iamnotok/EmergencyNotificationService.java:198-206 | STOP sends the all-clear once and disarms the send alarm. A late SEND sends the all-clear again. |
| `Scenarios.CancelledStartStillActivates` | android/src/com/google/iamnotok/EmergencyNotificationService.java:182-193 | A START without the banner queues ACTIVATE. A CANCEL handled first gives NORMAL, yet the queued ACTIVATE then enters EMERGENCY. |
| `Scenarios.StartDuringEmergencyReloadsPreferences` | android/src/com/google/iamnotok/EmergencyNotificationService.java:155-167 | A START in EMERGENCY with every channel off leaves the state alone, but later SENDs send nothing. |
| `Scenarios.DistanceListenerInstalledOnce` | android/src/com/google/iamnotok/EmergencyNotificationService.java:312-328 | Repeated lookups install the listener once. A crossing outside EMERGENCY leaves the alarm unarmed, and in EMERGENCY re-arms it from the crossing time. |
| `Scenarios.PanicTriggerAsWritten` | android/src/com/google/iamnotok/ScreenOnOffReceiver.java:39-45 | The service crashes on the as-written trigger intent and stays NORMAL with no window armed. |
| `Scenarios.CrashDuringEmergency` | android/src/com/google/iamnotok/EmergencyNotificationService.java:66-69 | In an SMS-only episode, the as-written trigger kills the process. The next SEND reaches a new instance with the initial flags, so it sends SMS and email, and the tracker is inactive. |
| `Scenarios.PanicTriggerIntended` | android/src/com/google/iamnotok/ScreenOnOffReceiver.java:39-45 | The corrected trigger intent moves NORMAL to WAITING and opens the 10000 ms window. |
| `Scenarios.QuickGesture` | android/src/com/google/iamnotok/ScreenOnOffReceiver.java:24-34 | Toggles at 0, 800, ..., 4000 and 4100 fire only on the sixth. The seventh is left alone in the emptied queue. |

## Left out

- Android platform calls (`Toast`, `Vibrator`, `Log`, the notification builder, `PendingIntent` and `Intent` construction) are not modelled. The banner is a boolean. The "no channel" toast and the vibration are not modelled.
- `AlarmManager` timing is not modelled. Each alarm slot records the last arm or disarm request. Slots are not cleared when the platform delivers a one-shot alarm, and delivery times are not modelled.
- `SharedPreferences` durability (`commit()`) is not modelled. The store is the `storedState` field plus the `Preferences` parameter. The `EmergencyNotificationService` constructor requires a stored ordinal that names a state. Only `changeState` writes that key, and an out-of-range value would make `getVigilanceState` throw.
- `LocationTracker` and `Geocoder` are external. The service keeps only whether the tracker is active. The email body sees a `LocationAddress` of optional coordinates and optional text. A null `LocationAddress` object is not modelled.
- The message transports (`SmsNotificationSender`, `EmergencyCaller`, `GMailSender`) are not part of this model. The service records its requests to them in the ghost log. The email sender returns its one `sendMail` attempt with the transport's outcome, and the GMail credentials are not modelled.
- `FormatUtils`, `AccountUtils` and the `%f` rendering of coordinates are not part of this model. They are function-typed parameters, so nothing is assumed about their results.
- `LimitedQueue` is not part of this model. `PanicGesture.Offer` assumes it appends at the tail and drops from the head beyond its capacity.
- `NotificationSender.java` is an interface without logic, and traits are not used here. `EmailSender.SendNotifications` has its signature and its `true` result.
- The `synchronized` keywords and any race between intents are not modelled. Intents are handled as one sequential stream.
- `JavaInt.ParseInt`: Java's `parseInt` also accepts non-ASCII Unicode decimal digits. The model accepts only `0`-`9`.
- Elapsed-realtime and wall-clock values are unbounded integers. `long` overflow in `now + getWaitingTime()` or in a timestamp difference is not modelled.
- Process death after an uncaught exception keeps the posted banner, the alarms and any queued self-intents. Whether the platform removes the banner with the process, or redelivers intents to the restarted service, is not modelled.
- The receiver's trigger is an abstract event (the `fired` result). What the started service does with the as-written intent is shown separately, under Findings.
- The two `VigilanceState` enums are not distinguished. The email sender imports `com.google.iamnotok.Preferences.VigilanceState`, and the service declares its own nested enum. The model uses one enum for both.

## Findings

| source | as written | input that shows it | evidently intended | confidence | as-written member | corrected member |
|---|---|---|---|---|---|---|
| android/src/com/google/iamnotok/ScreenOnOffReceiver.java:39-45 | `TriggerEvent` starts the service with an intent that has the banner extra but no action. `onStartCommand` calls `intent.getAction().equals(...)` at EmergencyNotificationService.java:155 and so throws `NullPointerException`. | Six screen toggles within 5000 ms, e.g. at 0, 800, 1600, 2400, 3200, 4000 | START with the cancellable banner (the TODO at line 40 says the full event is still to be triggered) | not executed; high that the as-written intent has no action, medium on the intended action | `PanicGesture.TriggerEventIntent`, shown by `Scenarios.PanicTriggerAsWritten` | `PanicGesture.IntendedTriggerEventIntent`, proved by `Scenarios.PanicTriggerIntended` |

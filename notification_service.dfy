/** EmergencyNotificationService: the vigilance state machine driven by the
    intents the service receives, with its two alarms, its cached channel
    preferences and its distance-threshold listener. */
module NotificationService {
  import opened Wrappers
  import opened JavaInt
  import opened Vigilance

  const ActionStartEmergency: string := "startEmergency"
  const ActionActivateEmergency: string := "activateEmergency"
  const ActionCancelEmergency: string := "cancelEmergency"
  const ActionStopEmergency: string := "stopEmergency"
  const ActionSendEmergency: string := "sendEmergency"

  /** An intent as the service reads it: its action (null when none was set)
      and the boolean extra `showNotification`, if present. */
  datatype Intent = Intent(action: Option<string>, showNotification: Option<bool>)

  /** `getActivateIntent`: what the cancellation-window alarm delivers. */
  function ActivateIntent(): (i: Intent)
    ensures i.action == Some(ActionActivateEmergency) && i.showNotification.None?
  {
    Intent(Some(ActionActivateEmergency), None)
  }

  /** The values in the default shared preferences that the service reads;
      `None` is a key that was never written. */
  datatype Preferences = Preferences(
    smsNotification: Option<bool>,
    emailNotification: Option<bool>,
    callNotification: Option<bool>,
    messageInterval: Option<string>,
    cancelationDelay: Option<string>)

  /** The repeating alarm that delivers `sendEmergency`: first delivery time
      and period, both in elapsed-realtime milliseconds. */
  datatype RepeatingAlarm = RepeatingAlarm(firstTrigger: int, interval: int)

  datatype Channel = Sms | Email

  /** A request handed to a transport: a message on a channel, carrying the
      vigilance state the sender was given, or a phone call. */
  datatype Dispatch = Message(channel: Channel, state: VigilanceState) | PhoneCall

  /** `sendEmergencyMessages`: SMS first, then email, each only if enabled,
      both with the same state. */
  function Fanout(sms: bool, email: bool, state: VigilanceState): (r: seq<Dispatch>)
    ensures Message(Sms, state) in r <==> sms
    ensures Message(Email, state) in r <==> email
    ensures PhoneCall !in r
    ensures forall i :: 0 <= i < |r| ==> r[i].Message? && r[i].state == state
    ensures |r| == (if sms then 1 else 0) + (if email then 1 else 0)
    ensures sms ==> r[0] == Message(Sms, state)
  {
    (if sms then [Message(Sms, state)] else []) + (if email then [Message(Email, state)] else [])
  }

  /** Every field of the service and of the platform state it drives. */
  datatype Snapshot = Snapshot(
    storedState: Option<int>,
    notifyViaSms: bool,
    notifyViaEmail: bool,
    notifyViaCall: bool,
    waitBetweenMessagesMs: int,
    registeredListener: bool,
    listenerInstalls: nat,
    trackerActive: bool,
    bannerShown: bool,
    waitingAlarm: Option<int>,
    sendAlarm: Option<RepeatingAlarm>,
    startedIntents: seq<Intent>,
    dispatched: seq<Dispatch>)
  {
    /** `readPreferences`: the channel flags with their defaults, and the
        parsed repeat interval. */
    function WithPreferences(p: Preferences): (r: Snapshot) {
      this.(notifyViaSms := p.smsNotification.GetOr(true),
            notifyViaEmail := p.emailNotification.GetOr(true),
            notifyViaCall := p.callNotification.GetOr(false),
            waitBetweenMessagesMs := ReadWaitBetweenMessagesMs(p.messageInterval))
    }

    /** The same store and platform after the process died and a new
        instance took over: the persisted state, the alarms, the banner, the
        queued intents and what was already sent survive; the fields of the
        dead instance are back at their initialisers, its listener is gone
        and the new instance's tracker is inactive. */
    function Restarted(): (r: Snapshot) {
      this.(notifyViaSms := true, notifyViaEmail := true, notifyViaCall := false,
            waitBetweenMessagesMs := DefaultWaitBetweenMessagesMs,
            registeredListener := false, listenerInstalls := 0,
            trackerActive := false)
    }
  }

  class EmergencyNotificationService {
    /** The int stored under `vigilanceStateKey`, if any. */
    var storedState: Option<int>
    var notifyViaSms: bool
    var notifyViaEmail: bool
    var notifyViaCall: bool
    var waitBetweenMessagesMs: int
    var registeredDistanceThresholdListener: bool
    /** Whether `locationTracker.activate()` was the last tracker request. */
    var trackerActive: bool
    /** Whether the cancellable "emergency response starting" banner is up. */
    var bannerShown: bool
    /** The one-shot alarm that delivers `activateEmergency`, by trigger time. */
    var waitingAlarm: Option<int>
    var sendAlarm: Option<RepeatingAlarm>
    /** Intents the service has sent to itself with `startService`. */
    var startedIntents: seq<Intent>
    /** How many times a listener was handed to `setDistanceThresholdListener`. */
    ghost var listenerInstalls: nat
    /** Every request handed to the SMS and email senders and the caller. */
    ghost var dispatched: seq<Dispatch>

    ghost predicate Valid()
      reads this
    {
      && GetVigilanceState(storedState).Some?
      && listenerInstalls == (if registeredDistanceThresholdListener then 1 else 0)
      // The repeating alarm is only armed after EMERGENCY was persisted,
      // and `stopEmergency` disarms it before leaving EMERGENCY.
      && (sendAlarm.Some? ==> GetVigilanceState(storedState) == Some(Emergency))
    }

    function State(): VigilanceState
      reads this
      requires Valid()
    {
      GetVigilanceState(storedState).value
    }

    ghost function Snap(): Snapshot
      reads this
    {
      Snapshot(storedState, notifyViaSms, notifyViaEmail, notifyViaCall,
               waitBetweenMessagesMs, registeredDistanceThresholdListener,
               listenerInstalls, trackerActive, bannerShown, waitingAlarm,
               sendAlarm, startedIntents, dispatched)
    }

    /** A new service instance over the persisted store, whose state key
        holds `persisted` (only ever written by `changeState`). */
    constructor (persisted: Option<int>)
      requires GetVigilanceState(persisted).Some?
      ensures Valid()
      ensures Snap() == Snapshot(persisted, true, true, false,
                                 DefaultWaitBetweenMessagesMs, false, 0,
                                 false, false, None, None, [], [])
    {
      storedState := persisted;
      notifyViaSms, notifyViaEmail, notifyViaCall := true, true, false;
      waitBetweenMessagesMs := DefaultWaitBetweenMessagesMs;
      registeredDistanceThresholdListener := false;
      trackerActive, bannerShown := false, false;
      waitingAlarm, sendAlarm := None, None;
      startedIntents := [];
      listenerInstalls := 0;
      dispatched := [];
    }

    method ReadPreferences(prefs: Preferences)
      requires Valid()
      modifies this
      ensures Valid()
      ensures Snap() == old(Snap()).WithPreferences(prefs)
    {
      notifyViaSms := prefs.smsNotification.GetOr(true);
      notifyViaEmail := prefs.emailNotification.GetOr(true);
      notifyViaCall := prefs.callNotification.GetOr(false);
      waitBetweenMessagesMs := ReadWaitBetweenMessagesMs(prefs.messageInterval);
    }

    /** `changeState`: persist the ordinal of `newState`. */
    method ChangeState(newState: VigilanceState)
      requires Valid()
      requires newState == Emergency || sendAlarm.None?
      modifies this
      ensures Valid() && State() == newState
      ensures Snap() == old(Snap()).(storedState := Some(Ordinal(newState)))
    {
      storedState := Some(Ordinal(newState));
    }

    /** `setNotificationTimer`: (re)arm the repeating send alarm, first
        delivery now, period the cached interval. */
    method SetNotificationTimer(now: int)
      requires Valid() && State() == Emergency
      modifies this
      ensures Valid()
      ensures Snap() == old(Snap()).(sendAlarm := Some(RepeatingAlarm(now, old(waitBetweenMessagesMs))))
    {
      sendAlarm := Some(RepeatingAlarm(now, waitBetweenMessagesMs));
    }

    /** `cancelNotificationsTimer`. */
    method CancelNotificationsTimer()
      requires Valid()
      modifies this
      ensures Valid()
      ensures Snap() == old(Snap()).(sendAlarm := None)
    {
      sendAlarm := None;
    }

    /** `registerDistanceThresholdListener`, called by every
        `getLocationAddress`: installs the listener on the first call only. */
    method RegisterDistanceThresholdListener()
      requires Valid()
      modifies this
      ensures Valid()
      ensures Snap() == old(Snap()).(registeredListener := true, listenerInstalls := 1)
    {
      if registeredDistanceThresholdListener {
        return;
      }
      registeredDistanceThresholdListener := true;
      listenerInstalls := listenerInstalls + 1;
    }

    /** `onDistanceThresholdPassed`: only in EMERGENCY, restart the repeating
        alarm from now. */
    method OnDistanceThresholdPassed(now: int)
      requires Valid()
      modifies this
      ensures Valid()
      ensures Snap() == if old(State()) == Emergency
                        then old(Snap()).(sendAlarm := Some(RepeatingAlarm(now, old(waitBetweenMessagesMs))))
                        else old(Snap())
    {
      if State() != Emergency {
        return;
      }
      SetNotificationTimer(now);
    }

    /** `sendEmergencyMessages`: hand the current persisted state to each
        enabled message sender. */
    method SendEmergencyMessages()
      requires Valid()
      modifies this
      ensures Valid()
      ensures Snap() == old(Snap()).(dispatched := old(dispatched) + Fanout(old(notifyViaSms), old(notifyViaEmail), old(State())))
    {
      if notifyViaSms {
        dispatched := dispatched + [Message(Sms, State())];
      }
      if notifyViaEmail {
        dispatched := dispatched + [Message(Email, State())];
      }
    }

    /** `invokeEmergencyResponse`: call if enabled, then `getLocationAddress`
        and `sendMessageAndResetTimer`, which only arms the send alarm. */
    method InvokeEmergencyResponse(now: int)
      requires Valid() && State() == Emergency
      modifies this
      ensures Valid()
      ensures Snap() == old(Snap()).(
        dispatched := old(dispatched) + (if old(notifyViaCall) then [PhoneCall] else []),
        registeredListener := true, listenerInstalls := 1,
        sendAlarm := Some(RepeatingAlarm(now, old(waitBetweenMessagesMs))))
    {
      if notifyViaCall {
        dispatched := dispatched + [PhoneCall];
      }
      RegisterDistanceThresholdListener();
      SetNotificationTimer(now);
    }

    /** `showDisableNotificationAndWaitToInvokeResponse`: post the banner and
        arm the one-shot alarm at `now + getWaitingTime()`. */
    method ShowDisableNotificationAndWaitToInvokeResponse(now: int, cancelationDelay: Option<string>)
      requires Valid()
      modifies this
      ensures Valid()
      ensures Snap() == old(Snap()).(bannerShown := true, waitingAlarm := Some(now + GetWaitingTime(cancelationDelay)))
    {
      bannerShown := true;
      waitingAlarm := Some(now + GetWaitingTime(cancelationDelay));
    }

    /** `stopEmergency`: disarm, persist NORMAL, then send (so every sender
        sees NORMAL), then deactivate the tracker. */
    method StopEmergency()
      requires Valid()
      modifies this
      ensures Valid() && State() == Normal
      ensures Snap() == old(Snap()).(
        sendAlarm := None, storedState := Some(Ordinal(Normal)),
        registeredListener := true, listenerInstalls := 1,
        dispatched := old(dispatched) + Fanout(old(notifyViaSms), old(notifyViaEmail), Normal),
        trackerActive := false)
    {
      CancelNotificationsTimer();
      ChangeState(Normal);
      RegisterDistanceThresholdListener();
      SendEmergencyMessages();
      trackerActive := false;
    }

    /** The START branch of `onStartCommand`. */
    method HandleStart(showExtra: Option<bool>, now: int, prefs: Preferences)
      requires Valid()
      modifies this
      ensures Valid()
      ensures
        var read := old(Snap()).WithPreferences(prefs);
        if !(read.notifyViaCall || read.notifyViaEmail || read.notifyViaSms) || old(State()) != Normal
        then Snap() == read
        else if showExtra.GetOr(false)
        then Snap() == read.(storedState := Some(Ordinal(Waiting)), trackerActive := true,
                             bannerShown := true,
                             waitingAlarm := Some(now + GetWaitingTime(prefs.cancelationDelay)))
        else Snap() == read.(storedState := Some(Ordinal(Waiting)), trackerActive := true,
                             startedIntents := old(startedIntents) + [ActivateIntent()])
    {
      ReadPreferences(prefs);
      if !(notifyViaCall || notifyViaEmail || notifyViaSms) {
        return;
      }
      if State() != Normal {
        return;
      }
      ChangeState(Waiting);
      trackerActive := true;
      var showNotification := showExtra.GetOr(false);
      if showNotification {
        ShowDisableNotificationAndWaitToInvokeResponse(now, prefs.cancelationDelay);
      } else {
        startedIntents := startedIntents + [ActivateIntent()];
      }
    }

    /** The ACTIVATE branch of `onStartCommand`. */
    method HandleActivate(now: int)
      requires Valid()
      modifies this
      ensures Valid()
      ensures Snap() == old(Snap()).(
        bannerShown := false, storedState := Some(Ordinal(Emergency)),
        dispatched := old(dispatched) + (if old(notifyViaCall) then [PhoneCall] else []),
        registeredListener := true, listenerInstalls := 1,
        sendAlarm := Some(RepeatingAlarm(now, old(waitBetweenMessagesMs))))
    {
      bannerShown := false;
      ChangeState(Emergency);
      InvokeEmergencyResponse(now);
    }

    /** The CANCEL branch of `onStartCommand`. */
    method HandleCancel()
      requires Valid()
      modifies this
      ensures Valid()
      ensures old(State()) == Waiting ==> State() == Normal && waitingAlarm.None? && sendAlarm.None?
      ensures
        var disarmed := old(Snap()).(waitingAlarm := None, bannerShown := false);
        Snap() == if old(State()) == Waiting
                  then disarmed.(storedState := Some(Ordinal(Normal)), trackerActive := false)
                  else disarmed
    {
      waitingAlarm := None;
      bannerShown := false;
      if State() == Waiting {
        ChangeState(Normal);
        trackerActive := false;
      }
    }

    /** The STOP branch of `onStartCommand`. */
    method HandleStop()
      requires Valid()
      modifies this
      ensures Valid()
      ensures Snap() == if old(State()) == Emergency
                        then old(Snap()).(
                          sendAlarm := None, storedState := Some(Ordinal(Normal)),
                          registeredListener := true, listenerInstalls := 1,
                          dispatched := old(dispatched) + Fanout(old(notifyViaSms), old(notifyViaEmail), Normal),
                          trackerActive := false)
                        else old(Snap())
    {
      if State() == Emergency {
        StopEmergency();
      }
    }

    /** The SEND branch of `onStartCommand`: `getLocationAddress`, then send. */
    method HandleSend()
      requires Valid()
      modifies this
      ensures Valid()
      ensures Snap() == old(Snap()).(
        registeredListener := true, listenerInstalls := 1,
        dispatched := old(dispatched) + Fanout(old(notifyViaSms), old(notifyViaEmail), old(State())))
    {
      RegisterDistanceThresholdListener();
      SendEmergencyMessages();
    }

    /** `onStartCommand`: one received intent. `now` is the elapsed realtime
        and `prefs` the shared preferences at that moment. `crashed` is the
        `NullPointerException` raised for an intent without an action; it is
        not caught, so the process dies and the next intent reaches a new
        instance over the same store and alarms. */
    method OnStartCommand(intent: Intent, now: int, prefs: Preferences) returns (crashed: bool)
      requires Valid()
      modifies this
      ensures Valid()
      ensures crashed <==> intent.action.None?
      ensures intent.action.None? ==> Snap() == old(Snap()).Restarted()
      // START reloads the preferences first; it then stops if no channel is
      // enabled, whatever the state, and otherwise if the state is not NORMAL.
      ensures intent.action == Some(ActionStartEmergency) ==>
        var read := old(Snap()).WithPreferences(prefs);
        if !(read.notifyViaCall || read.notifyViaEmail || read.notifyViaSms) || old(State()) != Normal
        then Snap() == read
        else if intent.showNotification.GetOr(false)
        then Snap() == read.(storedState := Some(Ordinal(Waiting)), trackerActive := true,
                             bannerShown := true,
                             waitingAlarm := Some(now + GetWaitingTime(prefs.cancelationDelay)))
        else Snap() == read.(storedState := Some(Ordinal(Waiting)), trackerActive := true,
                             startedIntents := old(startedIntents) + [ActivateIntent()])
      // ACTIVATE has no state guard.
      ensures intent.action == Some(ActionActivateEmergency) ==>
        Snap() == old(Snap()).(
          bannerShown := false, storedState := Some(Ordinal(Emergency)),
          dispatched := old(dispatched) + (if old(notifyViaCall) then [PhoneCall] else []),
          registeredListener := true, listenerInstalls := 1,
          sendAlarm := Some(RepeatingAlarm(now, old(waitBetweenMessagesMs))))
      // CANCEL always disarms the window alarm and removes the banner; from
      // WAITING it leaves NORMAL with no alarm armed at all.
      ensures intent.action == Some(ActionCancelEmergency) && old(State()) == Waiting ==>
        State() == Normal && waitingAlarm.None? && sendAlarm.None?
      ensures intent.action == Some(ActionCancelEmergency) ==>
        var disarmed := old(Snap()).(waitingAlarm := None, bannerShown := false);
        Snap() == if old(State()) == Waiting
                  then disarmed.(storedState := Some(Ordinal(Normal)), trackerActive := false)
                  else disarmed
      ensures intent.action == Some(ActionStopEmergency) ==>
        Snap() == if old(State()) == Emergency
                  then old(Snap()).(
                    sendAlarm := None, storedState := Some(Ordinal(Normal)),
                    registeredListener := true, listenerInstalls := 1,
                    dispatched := old(dispatched) + Fanout(old(notifyViaSms), old(notifyViaEmail), Normal),
                    trackerActive := false)
                  else old(Snap())
      // SEND has no state guard either.
      ensures intent.action == Some(ActionSendEmergency) ==>
        Snap() == old(Snap()).(
          registeredListener := true, listenerInstalls := 1,
          dispatched := old(dispatched) + Fanout(old(notifyViaSms), old(notifyViaEmail), old(State())))
      ensures intent.action.Some? &&
              intent.action.value !in {ActionStartEmergency, ActionActivateEmergency,
                                       ActionCancelEmergency, ActionStopEmergency, ActionSendEmergency} ==>
        Snap() == old(Snap())
    {
      crashed := false;
      if intent.action.None? {
        crashed := true;
        notifyViaSms, notifyViaEmail, notifyViaCall := true, true, false;
        waitBetweenMessagesMs := DefaultWaitBetweenMessagesMs;
        registeredDistanceThresholdListener := false;
        listenerInstalls := 0;
        trackerActive := false;
        return;
      }
      var action := intent.action.value;
      if action == ActionStartEmergency {
        HandleStart(intent.showNotification, now, prefs);
      } else if action == ActionActivateEmergency {
        HandleActivate(now);
      } else if action == ActionCancelEmergency {
        HandleCancel();
      } else if action == ActionStopEmergency {
        HandleStop();
      } else if action == ActionSendEmergency {
        HandleSend();
      }
    }
  }
}

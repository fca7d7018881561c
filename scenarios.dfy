/** Clients of EmergencyNotificationService and ScreenOnOffReceiver: runs of
    intents as the platform would deliver them, and what each run leaves
    behind, proved from the methods' contracts alone. */
module Scenarios {
  import opened Wrappers
  import opened Vigilance
  import opened NotificationService
  import opened PanicGesture

  /** SMS only, with the default cancellation window (10 s) and repeat
      interval (300 s). */
  function SmsOnly(): Preferences {
    Preferences(Some(true), Some(false), Some(false), None, None)
  }

  function NoChannel(): Preferences {
    Preferences(Some(false), Some(false), Some(false), None, None)
  }

  function ActionIntent(action: string): Intent {
    Intent(Some(action), None)
  }

  /** START with the banner at 0 s, CANCEL at 3 s: back to NORMAL with no
      alarm armed and nothing sent. */
  method StartThenCancel() returns (state: VigilanceState, window: Option<int>, armed: bool, ghost sent: seq<Dispatch>)
    ensures window == Some(10000)
    ensures state == Normal && !armed && sent == []
  {
    var service := new EmergencyNotificationService(None);
    var _ := service.OnStartCommand(Intent(Some(ActionStartEmergency), Some(true)), 0, SmsOnly());
    window := service.waitingAlarm;
    assert service.State() == Waiting;
    var _ := service.OnStartCommand(ActionIntent(ActionCancelEmergency), 3000, SmsOnly());
    state := service.State();
    armed := service.waitingAlarm.Some? || service.sendAlarm.Some?;
    sent := service.dispatched;
  }

  /** START with the banner at 0 s; the window alarm delivers ACTIVATE at
      10 s. Nothing is sent by ACTIVATE itself: the repeating alarm's first
      delivery, at 10 s, sends the first SMS, and the next one is due
      300 s later. */
  method WindowElapses() returns (state: VigilanceState, alarm: Option<RepeatingAlarm>,
                                 ghost sentOnActivate: seq<Dispatch>, ghost sentOnFirstAlarm: seq<Dispatch>)
    ensures state == Emergency
    ensures alarm == Some(RepeatingAlarm(10000, 300000))
    ensures sentOnActivate == [] && sentOnFirstAlarm == [Message(Sms, Emergency)]
  {
    var service := new EmergencyNotificationService(None);
    var _ := service.OnStartCommand(Intent(Some(ActionStartEmergency), Some(true)), 0, SmsOnly());
    var _ := service.OnStartCommand(ActivateIntent(), 10000, SmsOnly());
    sentOnActivate := service.dispatched;
    var _ := service.OnStartCommand(ActionIntent(ActionSendEmergency), 10000, SmsOnly());
    sentOnFirstAlarm := service.dispatched;
    state := service.State();
    alarm := service.sendAlarm;
  }

  /** STOP in EMERGENCY sends the all-clear and disarms the repeating alarm;
      a SEND delivered afterwards (a late alarm) is not guarded by the state
      and sends the all-clear a second time. */
  method StopThenLateSend() returns (state: VigilanceState, alarm: Option<RepeatingAlarm>, ghost sent: seq<Dispatch>)
    ensures state == Normal && alarm == None
    ensures sent == [Message(Sms, Normal), Message(Sms, Normal)]
  {
    var service := new EmergencyNotificationService(Some(Ordinal(Emergency)));
    var _ := service.OnStartCommand(Intent(Some(ActionStartEmergency), None), 0, SmsOnly());
    assert service.notifyViaSms && !service.notifyViaEmail;
    var _ := service.OnStartCommand(ActionIntent(ActionStopEmergency), 1000, SmsOnly());
    var _ := service.OnStartCommand(ActionIntent(ActionSendEmergency), 2000, SmsOnly());
    state := service.State();
    alarm := service.sendAlarm;
    sent := service.dispatched;
  }

  /** START without the banner queues ACTIVATE with `startService`; a CANCEL
      handled before it returns to NORMAL, and the queued ACTIVATE, which has
      no state guard, then enters EMERGENCY and arms the send alarm. */
  method CancelledStartStillActivates() returns (stateAfterCancel: VigilanceState, state: VigilanceState, alarm: Option<RepeatingAlarm>)
    ensures stateAfterCancel == Normal
    ensures state == Emergency && alarm == Some(RepeatingAlarm(2000, DefaultWaitBetweenMessagesMs))
  {
    var service := new EmergencyNotificationService(None);
    var _ := service.OnStartCommand(Intent(Some(ActionStartEmergency), Some(false)), 0, SmsOnly());
    assert service.startedIntents == [ActivateIntent()];
    var _ := service.OnStartCommand(ActionIntent(ActionCancelEmergency), 1000, SmsOnly());
    stateAfterCancel := service.State();
    var queued := service.startedIntents[0];
    var _ := service.OnStartCommand(queued, 2000, SmsOnly());
    state := service.State();
    alarm := service.sendAlarm;
  }

  /** A START during an emergency is ignored as far as the state goes, but it
      reloads the preferences first: once every channel is disabled, later
      SEND deliveries send nothing although the emergency goes on. */
  method StartDuringEmergencyReloadsPreferences() returns (state: VigilanceState, ghost sent: seq<Dispatch>)
    ensures state == Emergency && sent == []
  {
    var service := new EmergencyNotificationService(Some(Ordinal(Emergency)));
    var _ := service.OnStartCommand(Intent(Some(ActionStartEmergency), Some(true)), 0, NoChannel());
    var _ := service.OnStartCommand(ActionIntent(ActionSendEmergency), 1000, NoChannel());
    state := service.State();
    sent := service.dispatched;
  }

  /** The distance listener is installed by the first location lookup and
      never again; a threshold crossing outside EMERGENCY leaves the alarm
      alone, and in EMERGENCY restarts it from the crossing time. */
  method DistanceListenerInstalledOnce() returns (registered: bool, ghost installs: nat, alarmInNormal: Option<RepeatingAlarm>, alarmInEmergency: Option<RepeatingAlarm>)
    ensures registered && installs == 1
    ensures alarmInNormal == None
    ensures alarmInEmergency == Some(RepeatingAlarm(7000, DefaultWaitBetweenMessagesMs))
  {
    var service := new EmergencyNotificationService(None);
    var _ := service.OnStartCommand(ActionIntent(ActionSendEmergency), 0, SmsOnly());
    var _ := service.OnStartCommand(ActionIntent(ActionSendEmergency), 1000, SmsOnly());
    service.OnDistanceThresholdPassed(2000);
    alarmInNormal := service.sendAlarm;
    var _ := service.OnStartCommand(ActivateIntent(), 3000, SmsOnly());
    service.OnDistanceThresholdPassed(7000);
    alarmInEmergency := service.sendAlarm;
    registered := service.registeredDistanceThresholdListener;
    installs := service.listenerInstalls;
  }

  /** The panic trigger as written: the service crashes on the intent and
      the persisted state stays NORMAL with no window armed, so the gesture
      never starts an emergency. */
  method PanicTriggerAsWritten() returns (crashed: bool, state: VigilanceState, window: Option<int>)
    ensures crashed && state == Normal && window == None
  {
    var service := new EmergencyNotificationService(None);
    crashed := service.OnStartCommand(TriggerEventIntent(), 0, SmsOnly());
    state := service.State();
    window := service.waitingAlarm;
  }

  /** During an episode with SMS-only preferences, the as-written trigger
      kills the process. The repeating alarm's next SEND reaches a new
      instance, which has its initial flags, so it sends SMS and email. */
  method CrashDuringEmergency() returns (crashed: bool, state: VigilanceState, tracking: bool,
                                        ghost sentBefore: seq<Dispatch>, ghost sentAfter: seq<Dispatch>)
    ensures crashed && state == Emergency && !tracking
    ensures sentBefore == [Message(Sms, Emergency)]
    ensures sentAfter == sentBefore + [Message(Sms, Emergency), Message(Email, Emergency)]
  {
    var service := new EmergencyNotificationService(Some(Ordinal(Emergency)));
    var _ := service.OnStartCommand(Intent(Some(ActionStartEmergency), Some(true)), 0, SmsOnly());
    var _ := service.OnStartCommand(ActionIntent(ActionSendEmergency), 1000, SmsOnly());
    sentBefore := service.dispatched;
    crashed := service.OnStartCommand(TriggerEventIntent(), 2000, SmsOnly());
    var _ := service.OnStartCommand(ActionIntent(ActionSendEmergency), 3000, SmsOnly());
    sentAfter := service.dispatched;
    state := service.State();
    tracking := service.trackerActive;
  }

  /** The panic trigger as intended: START with the banner, which opens the
      cancellation window. */
  method PanicTriggerIntended() returns (crashed: bool, state: VigilanceState, window: Option<int>)
    ensures !crashed && state == Waiting && window == Some(DefaultWaitToCancelMs)
  {
    var service := new EmergencyNotificationService(None);
    crashed := service.OnStartCommand(IntendedTriggerEventIntent(), 0, SmsOnly());
    state := service.State();
    window := service.waitingAlarm;
  }

  /** Six screen toggles within four seconds fire the gesture once and an
      immediate seventh does not fire again. */
  method QuickGesture() returns (fires: seq<bool>, queue: seq<int>)
    ensures fires == [false, false, false, false, false, true, false]
    ensures queue == [4100]
  {
    var receiver := new ScreenOnOffReceiver();
    fires := [];
    var times := [0, 800, 1600, 2400, 3200, 4000, 4100];
    for i := 0 to |times|
      invariant receiver.Valid()
      invariant |fires| == i
      invariant i <= 5 ==> receiver.clicksQueue == times[..i]
      invariant i == 6 ==> receiver.clicksQueue == []
      invariant i == 7 ==> receiver.clicksQueue == [4100]
      invariant fires == [false, false, false, false, false, true, false][..i]
    {
      var fired := receiver.OnReceive(times[i]);
      fires := fires + [fired];
    }
    queue := receiver.clicksQueue;
  }
}

/** The persisted vigilance state of EmergencyNotificationService and the two
    numeric preferences it parses. */
module Vigilance {
  import opened Wrappers
  import opened JavaInt

  /** `VigilanceState`, in declaration order: the stored value is the ordinal. */
  datatype VigilanceState = Normal | Waiting | Emergency

  function Ordinal(s: VigilanceState): (n: nat)
    ensures n < 3
  {
    match s
    case Normal => 0
    case Waiting => 1
    case Emergency => 2
  }

  /** `getVigilanceState`: `values()[getInt(VIGILANCE_STATE_KEY, 0)]`. A missing
      key reads as ordinal 0; an ordinal outside the enum raises
      `ArrayIndexOutOfBoundsException`, modelled as `None`. */
  function GetVigilanceState(stored: Option<int>): (r: Option<VigilanceState>)
    ensures r.Some? <==> 0 <= stored.GetOr(0) < 3
    ensures r.Some? ==> Ordinal(r.value) == stored.GetOr(0)
  {
    match stored.GetOr(0)
    case 0 => Some(Normal)
    case 1 => Some(Waiting)
    case 2 => Some(Emergency)
    case _ => None
  }

  /** What `changeState` writes, `getVigilanceState` reads back. */
  lemma StateRoundTrip(s: VigilanceState)
    ensures GetVigilanceState(Some(Ordinal(s))) == Some(s)
  {
  }

  const DefaultWaitToCancelMs: int := 10000
  const DefaultWaitBetweenMessagesMs: int := 5 * 60 * 1000

  /** A preference holding a number of seconds, read as milliseconds:
      `Integer.parseInt(s) * 1000` in `int` arithmetic, or `default` when the
      preference is absent or does not parse. */
  function SecondsPreferenceMs(pref: Option<string>, default: int): (r: int) {
    match pref
    case None => default
    case Some(s) =>
      match ParseInt(s)
      case None => default
      case Some(seconds) => Mul(seconds, 1000)
  }

  /** `readWaitBetweenMessagesMs`: the repeat interval of the send alarm. */
  function ReadWaitBetweenMessagesMs(messageInterval: Option<string>): (r: int)
    ensures IsInt(r)
    ensures messageInterval.None? ==> r == DefaultWaitBetweenMessagesMs
  {
    SecondsPreferenceMs(messageInterval, DefaultWaitBetweenMessagesMs)
  }

  /** `getWaitingTime`: the length of the cancellation window. */
  function GetWaitingTime(cancelationDelay: Option<string>): (r: int)
    ensures IsInt(r)
    ensures cancelationDelay.None? ==> r == DefaultWaitToCancelMs
  {
    SecondsPreferenceMs(cancelationDelay, DefaultWaitToCancelMs)
  }

  /** A preference that `parseInt` refuses falls back to the default. */
  lemma UnparseablePreferenceFallsBack(s: string)
    requires ParseInt(s).None?
    ensures ReadWaitBetweenMessagesMs(Some(s)) == DefaultWaitBetweenMessagesMs
    ensures GetWaitingTime(Some(s)) == DefaultWaitToCancelMs
  {
  }

  /** A whole number of seconds small enough for `int` milliseconds is read
      exactly. */
  lemma SecondsReadAsMillis(n: nat)
    requires n * 1000 <= MaxInt
    ensures ReadWaitBetweenMessagesMs(Some(DecimalString(n))) == n * 1000
    ensures GetWaitingTime(Some(DecimalString(n))) == n * 1000
  {
    ParseIntDecimal(n);
  }

  /** A negative number of seconds is read as negative milliseconds: the
      parsers keep the sign, so the interval or window comes out negative. */
  lemma NegativeSecondsReadAsMillis(n: nat)
    requires 0 < n && MinInt <= -(n * 1000)
    ensures ReadWaitBetweenMessagesMs(Some("-" + DecimalString(n))) == -(n * 1000) < 0
    ensures GetWaitingTime(Some("-" + DecimalString(n))) == -(n * 1000) < 0
  {
    ParseIntNegative(n);
  }

  /** A parsable number of seconds whose milliseconds exceed `int` wraps
      around instead of being read as written. */
  lemma LargeSecondsWrapAround(n: nat)
    requires MaxInt < n * 1000 && n <= MaxInt
    ensures ReadWaitBetweenMessagesMs(Some(DecimalString(n))) == Wrap(n * 1000) != n * 1000
    ensures GetWaitingTime(Some(DecimalString(n))) == Wrap(n * 1000)
  {
    ParseIntDecimal(n);
  }
}

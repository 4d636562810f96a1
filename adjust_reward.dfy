/**
 * The values the "Adjust rewards" dialog of
 * src/pageComponents/ConcentratedEdit/AdjustRewardDialog.tsx recomputes on
 * every render: the time left on the current reward, the new emission rate,
 * the 72-hour rule for slowing a reward down, the error shown, whether Save
 * is enabled, and what Save hands back.
 *
 * Times are milliseconds (`now` is the chain-adjusted clock); the typed
 * amount is a real and the typed number of days a whole number, `None`
 * while the box is empty.
 */
module AdjustReward {
  import opened Wrappers
  import opened RewardUtils
  import DateFormat

  /**
   * The reward being adjusted, as far as the dialog reads it; `decimals` is
   * the reward token's, and is `None` exactly when the reward has no token.
   */
  datatype Reward = Reward(endTime: Option<int>, perSecond: Option<real>, decimals: Option<nat>)

  /** The two input boxes. */
  datatype Values = Values(amount: Option<real>, daysExtend: Option<int>)

  /** `rewardToken?.decimals ?? 6` */
  function RewardDecimals(reward: Option<Reward>): nat {
    if reward.Some? && reward.value.decimals.Some? then reward.value.decimals.value else 6
  }

  /** `(endTime || 0)`: a missing or zero end time counts as zero. */
  function EndTimeOrZero(reward: Option<Reward>): int {
    if reward.Some? && reward.value.endTime.Some? then reward.value.endTime.value else 0
  }

  /** `Math.floor((endTime - now) / 1000)`: whole seconds left, rounded down (negative once ended). */
  function RemainSeconds(endTime: int, now: int): (s: int)
    ensures s * 1000 <= endTime - now < (s + 1) * 1000
  {
    (endTime - now) / 1000
  }

  /** `Math.ceil(remainSeconds / DAY_SECONDS)`: the days left, counting a started day as a whole one. */
  function RemainDays(remainSeconds: int): (days: int)
    ensures (days - 1) * DAY_SECONDS < remainSeconds <= days * DAY_SECONDS
  {
    -((-remainSeconds) / DAY_SECONDS)
  }

  /** `isWithin72hrs` */
  predicate IsWithin72Hrs(remainSeconds: int) {
    remainSeconds >= 0 && remainSeconds <= 3600 * 72
  }

  /** The reward may be slowed down exactly when it ends in the next 72 hours and one second, counted in milliseconds. */
  lemma Within72HrsMeaning(endTime: int, now: int)
    ensures IsWithin72Hrs(RemainSeconds(endTime, now)) <==> 0 <= endTime - now < (3600 * 72 + 1) * 1000
  {
  }

  /** The amount still to be emitted: the current rate (to the token's decimals) times the seconds left. */
  function RemainAmount(reward: Option<Reward>, remainSeconds: int): real {
    var decimals := RewardDecimals(reward);
    var perSecond := if reward.Some? && reward.value.perSecond.Some? then ToFixed(reward.value.perSecond.value, decimals) else 0.0;
    perSecond / Pow10(decimals) * remainSeconds as real
  }

  /** `values.amount || 0` and `values.daysExtend || 0` */
  function AmountOrZero(values: Values): real {
    values.amount.GetOr(0.0)
  }

  function DaysOrZero(values: Values): int {
    values.daysExtend.GetOr(0)
  }

  /**
   * The new rate: the smaller of plan A (the added amount over the added
   * seconds) and plan B (the remaining plus added amount over the remaining
   * plus added seconds). `None` when a divisor is zero.
   */
  function NewPerSecond(values: Values, remainAmount: real, remainSeconds: int): (r: Option<real>)
    ensures var secondsA := DaysOrZero(values) * DAY_SECONDS;
            var secondsB := remainSeconds + secondsA;
            r.Some? <==> secondsA != 0 && secondsB != 0
    ensures r.Some? ==>
              var planA := AmountOrZero(values) / (DaysOrZero(values) * DAY_SECONDS) as real;
              var planB := (remainAmount + AmountOrZero(values)) / (remainSeconds + DaysOrZero(values) * DAY_SECONDS) as real;
              r.value <= planA && r.value <= planB && (r.value == planA || r.value == planB)
  {
    var secondsA := DaysOrZero(values) * DAY_SECONDS;
    var secondsB := remainSeconds + secondsA;
    if secondsA == 0 || secondsB == 0 then None
    else
      var planA := AmountOrZero(values) / secondsA as real;
      var planB := (remainAmount + AmountOrZero(values)) / secondsB as real;
      Some(if planA < planB then planA else planB)
  }

  /** `newPerWeek`: a week's worth of the new rate. */
  function NewPerWeek(newPerSecond: real): real {
    newPerSecond * (DAY_SECONDS * 7) as real
  }

  /** A week at the new rate is never more than the added amount spread over the added days, times seven. */
  lemma NewPerWeekBound(values: Values, remainAmount: real, remainSeconds: int)
    requires NewPerSecond(values, remainAmount, remainSeconds).Some?
    requires DaysOrZero(values) > 0
    ensures NewPerWeek(NewPerSecond(values, remainAmount, remainSeconds).value)
            <= AmountOrZero(values) * 7.0 / DaysOrZero(values) as real
  {
    var days := DaysOrZero(values) as real;
    var r := NewPerSecond(values, remainAmount, remainSeconds).value;
    var secondsA := (DaysOrZero(values) * DAY_SECONDS) as real;
    assert r <= AmountOrZero(values) / secondsA;
    assert secondsA == days * 86400.0;
    assert r * 86400.0 * 7.0 <= AmountOrZero(values) / secondsA * 86400.0 * 7.0;
    assert AmountOrZero(values) / secondsA * 86400.0 == AmountOrZero(values) / days;
  }

  /**
   * `isDecreaseSpeed`: with a reward open, the new rate is below the current
   * one, both written to the token's decimals. With no new rate the model
   * reads it as no decrease.
   */
  function IsDecreaseSpeed(reward: Option<Reward>, newPerSecond: Option<real>): (r: bool)
    ensures r ==> reward.Some? && newPerSecond.Some?
  {
    var decimals := RewardDecimals(reward);
    if reward.None? || newPerSecond.None? then false
    else
      var current := reward.value.perSecond.GetOr(0.0) / Pow10(decimals);
      ToFixed(newPerSecond.value, decimals) < ToFixed(current, decimals)
  }

  /** A new rate at least the current one is never a decrease. */
  lemma NoDecreaseWhenFaster(reward: Reward, newPerSecond: real)
    requires newPerSecond >= reward.perSecond.GetOr(0.0) / Pow10(RewardDecimals(Some(reward)))
    ensures !IsDecreaseSpeed(Some(reward), Some(newPerSecond))
  {
    var decimals := RewardDecimals(Some(reward));
    ToFixedMonotone(reward.perSecond.GetOr(0.0) / Pow10(decimals), newPerSecond, decimals);
  }

  /**
   * A new rate at least one smallest unit per second below the current raw
   * rate `perSecond` is a decrease: the rounding cannot hide a whole step.
   */
  lemma DecreaseWhenStepSlower(reward: Reward, newPerSecond: real)
    requires newPerSecond * Pow10(RewardDecimals(Some(reward))) + 1.0 <= reward.perSecond.GetOr(0.0)
    ensures IsDecreaseSpeed(Some(reward), Some(newPerSecond))
  {
    var decimals := RewardDecimals(Some(reward));
    var p := Pow10(decimals);
    var current := reward.perSecond.GetOr(0.0) / p;
    assert current * p == reward.perSecond.GetOr(0.0);
    ToFixedStepApart(newPerSecond, current, decimals);
  }

  /** `isDaysSufficient`: a meaningful number of days within the duration bounds. */
  function IsDaysSufficient(values: Values): (r: bool)
    ensures r <==> values.daysExtend.Some? && MIN_DURATION <= values.daysExtend.value <= MAX_DURATION
  {
    var days := values.daysExtend;
    IsMeaningfulNumber(if days.Some? then Some(days.value as real) else None)
    && days.value >= MIN_DURATION && days.value <= MAX_DURATION
  }

  datatype AdjustError = Duration | DecreaseError | Decrease

  /** `errMsg`: a touched form with bad days first, then a slow-down, refused outside the last 72 hours. */
  function ErrMsg(dirty: bool, isDaysSufficient: bool, isDecreaseSpeed: bool, isWithin72hrs: bool): (r: Option<AdjustError>)
    ensures r == Some(Duration) <==> dirty && !isDaysSufficient
    ensures r == Some(DecreaseError) <==> !(dirty && !isDaysSufficient) && isDecreaseSpeed && !isWithin72hrs
    ensures r == Some(Decrease) <==> !(dirty && !isDaysSufficient) && isDecreaseSpeed && isWithin72hrs
    ensures r.None? <==> !(dirty && !isDaysSufficient) && !isDecreaseSpeed
  {
    if dirty && !isDaysSufficient then Some(Duration)
    else if isDecreaseSpeed then (if !isWithin72hrs then Some(DecreaseError) else Some(Decrease))
    else None
  }

  /** `haveBalance`: a reward token whose balance covers the typed amount. */
  predicate HaveBalance(reward: Option<Reward>, balance: real, values: Values) {
    reward.Some? && reward.value.decimals.Some? && values.amount.Some? && balance >= values.amount.value
  }

  /** The Save button's validators, all of which must hold. */
  predicate CanSave(walletConnected: bool, values: Values, errMsg: Option<AdjustError>, haveBalance: bool) {
    walletConnected && IsMeaningfulNumber(values.amount) && IsDaysSufficient(values)
    && errMsg != Some(DecreaseError) && haveBalance
  }

  /** The dialog's state, derived the way one render derives it. */
  function SaveEnabled(reward: Option<Reward>, values: Values, dirty: bool, walletConnected: bool,
                       balance: real, now: int): bool {
    var remainSeconds := RemainSeconds(EndTimeOrZero(reward), now);
    var newPerSecond := NewPerSecond(values, RemainAmount(reward, remainSeconds), remainSeconds);
    var err := ErrMsg(dirty, IsDaysSufficient(values), IsDecreaseSpeed(reward, newPerSecond), IsWithin72Hrs(remainSeconds));
    CanSave(walletConnected, values, err, HaveBalance(reward, balance, values))
  }

  /**
   * Save is enabled only for a connected wallet, a reward with a token, a
   * non-zero amount the balance of that token covers, 7 to 90 extra days, and, when the rate goes down, a
   * reward ending within the next 72 hours.
   */
  lemma SaveEnabledMeaning(reward: Option<Reward>, values: Values, dirty: bool, walletConnected: bool,
                           balance: real, now: int)
    ensures var remainSeconds := RemainSeconds(EndTimeOrZero(reward), now);
            var newPerSecond := NewPerSecond(values, RemainAmount(reward, remainSeconds), remainSeconds);
            SaveEnabled(reward, values, dirty, walletConnected, balance, now)
            <==> walletConnected && reward.Some? && reward.value.decimals.Some? && values.amount.Some? && values.amount.value != 0.0
                 && balance >= values.amount.value
                 && values.daysExtend.Some? && MIN_DURATION <= values.daysExtend.value <= MAX_DURATION
                 && (IsDecreaseSpeed(reward, newPerSecond) ==> IsWithin72Hrs(remainSeconds))
  {
  }

  /** What Save passes on. */
  datatype UpdateData = UpdateData(amount: Option<real>, daysExtend: Option<int>, openTime: int, endTime: int, perSecond: real)

  /**
   * The payload: the typed values, opening at the chain-adjusted `now`, the
   * end moved on by the extra days (from the wall clock `clock`, without the
   * chain offset, when the reward has no end time), and the new rate in the
   * token's smallest units.
   */
  function SavePayload(reward: Option<Reward>, values: Values, newPerSecond: real, now: int, clock: int): (data: UpdateData)
    ensures data.amount == values.amount && data.daysExtend == values.daysExtend && data.openTime == now
    ensures data.perSecond == newPerSecond * Pow10(RewardDecimals(reward))
    ensures var base := if EndTimeOrZero(reward) == 0 then clock else EndTimeOrZero(reward);
            var sum := base + DaysOrZero(values) * DateFormat.MS_PER_DAY;
            data.endTime == if sum == 0 then clock else sum
  {
    var base := if reward.Some? && reward.value.endTime.Some? then DateFormat.Number(reward.value.endTime.value) else DateFormat.Absent;
    var offset := DateFormat.NoOffset.(days := Some(DaysOrZero(values)));
    UpdateData(values.amount, values.daysExtend, now,
               DateFormat.OffsetDateTime(base, offset, clock), newPerSecond * Pow10(RewardDecimals(reward)))
  }

  /** A saved adjustment of a running reward pushes its end at least seven days later. */
  lemma SavedEndTimeExtends(reward: Reward, values: Values, newPerSecond: real, now: int, clock: int)
    requires reward.endTime.Some? && reward.endTime.value > 0
    requires IsDaysSufficient(values)
    ensures SavePayload(Some(reward), values, newPerSecond, now, clock).endTime
            == reward.endTime.value + values.daysExtend.value * DateFormat.MS_PER_DAY
    ensures SavePayload(Some(reward), values, newPerSecond, now, clock).endTime
            >= reward.endTime.value + MIN_DURATION * DateFormat.MS_PER_DAY
  {
  }
}

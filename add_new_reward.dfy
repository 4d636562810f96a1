/**
 * One "new reward" card of src/pageComponents/ConcentratedEdit/AddNewReward.tsx:
 * the updaters its inputs hand to `setNewReward`, the effect that
 * recomputes the end time and the weekly amount, and the validation message
 * reported for the card.
 *
 * Times are milliseconds; amounts are reals; the duration is the number of
 * days typed (`None` while the box is empty).
 */
module AddNewReward {
  import opened Wrappers
  import opened RewardUtils
  import DateFormat

  datatype Token = Token(mint: string, symbol: string, decimals: nat)

  /** `total` is `pure` plus the transfer `fee`. */
  datatype Amount = Amount(total: Option<real>, pure: Option<real>, fee: Option<real>)

  datatype NewReward = NewReward(token: Option<Token>, amount: Option<Amount>, duration: Option<nat>,
                                 openTime: Option<int>, endTime: Option<int>, perWeek: Option<real>)

  // ---------------------------------------------------------------- updaters

  /** `r.amount?.fee ?? 0` */
  function CurrentFee(r: NewReward): real {
    if r.amount.Some? && r.amount.value.fee.Some? then r.amount.value.fee.value else 0.0
  }

  /** The user typed a total: the fee stays, and the pure amount is what is left. */
  function OnUserInput(r: NewReward, totalAmount: real): (r': NewReward)
    ensures r'.amount == Some(Amount(Some(totalAmount), Some(totalAmount - CurrentFee(r)), Some(CurrentFee(r))))
    ensures r'.amount.value.pure.value + r'.amount.value.fee.value == totalAmount
    ensures r'.(amount := r.amount) == r
  {
    var fee := CurrentFee(r);
    r.(amount := Some(Amount(Some(totalAmount), Some(totalAmount - fee), Some(fee))))
  }

  /** The transfer fee was computed: the total stays (or is the fee when there is none yet), the pure amount is what is left. */
  function OnCalculateTransferFee(r: NewReward, fee: real): (r': NewReward)
    ensures var total := if r.amount.Some? && r.amount.value.total.Some? then r.amount.value.total.value else fee;
            r'.amount == Some(Amount(Some(total), Some(total - fee), Some(fee)))
    ensures r'.amount.value.pure.value + fee == r'.amount.value.total.value
    ensures r'.(amount := r.amount) == r
  {
    var total := if r.amount.Some? && r.amount.value.total.Some? then r.amount.value.total.value else fee;
    r.(amount := Some(Amount(Some(total), Some(total - fee), Some(fee))))
  }

  /** Typing a total and learning the fee give the same amounts in either order. */
  lemma TotalAndFeeCommute(r: NewReward, totalAmount: real, fee: real)
    ensures OnCalculateTransferFee(OnUserInput(r, totalAmount), fee).amount
            == OnUserInput(OnCalculateTransferFee(r, fee), totalAmount).amount
  {
  }

  /**
   * The user typed a weekly amount: total and pure become a seventh of it per
   * day over the duration, and the fee is cleared. With no duration the
   * amounts are unknown here.
   */
  function OnPerWeekInput(r: NewReward, perWeek: real): (r': NewReward)
    ensures r'.perWeek == Some(perWeek)
    ensures r.duration.Some? ==> r'.amount == Some(Amount(Some(perWeek / 7.0 * r.duration.value as real),
                                                          Some(perWeek / 7.0 * r.duration.value as real), None))
    ensures r'.(amount := r.amount, perWeek := r.perWeek) == r
  {
    var cacledAmountPure := if r.duration.Some? then Some(perWeek / 7.0 * r.duration.value as real) else None;
    r.(perWeek := Some(perWeek), amount := Some(Amount(cacledAmountPure, cacledAmountPure, None)))
  }

  // ---------------------------------------------------------------- recomputation effect

  /** `values.token?.decimals ?? 6` */
  function Decimals(r: NewReward): nat {
    if r.token.Some? then r.token.value.decimals else 6
  }

  function DurationValue(r: NewReward): Option<real> {
    if r.duration.Some? then Some(r.duration.value as real) else None
  }

  function OpenTimeValue(r: NewReward): Option<real> {
    if r.openTime.Some? then Some(r.openTime.value as real) else None
  }

  /** The effect's `perWeek`: the pure amount per day times seven, to the token's decimals, or 0 without both. */
  function RecomputedPerWeek(r: NewReward): (perWeek: real)
    ensures !(IsMeaningfulNumber(if r.amount.Some? then r.amount.value.pure else None) && IsMeaningfulNumber(DurationValue(r)))
            ==> perWeek == 0.0
  {
    var pure := if r.amount.Some? then r.amount.value.pure else None;
    if IsMeaningfulNumber(pure) && IsMeaningfulNumber(DurationValue(r))
    then ToFixed(pure.value / r.duration.value as real * 7.0, Decimals(r))
    else 0.0
  }

  /** The effect's `endTime`: the opening time moved on by the duration in days, or the old end time. */
  function RecomputedEndTime(r: NewReward, now: int): (endTime: Option<int>)
    ensures !(IsMeaningfulNumber(OpenTimeValue(r)) && IsMeaningfulNumber(DurationValue(r))) ==> endTime == r.endTime
    ensures IsMeaningfulNumber(OpenTimeValue(r)) && IsMeaningfulNumber(DurationValue(r)) ==>
              var sum := r.openTime.value + r.duration.value * DAY_SECONDS * 1000;
              endTime == Some(if sum == 0 then now else sum)
  {
    if IsMeaningfulNumber(OpenTimeValue(r)) && IsMeaningfulNumber(DurationValue(r)) then
      var offset := DateFormat.NoOffset.(milliseconds := Some(r.duration.value * DAY_SECONDS * 1000));
      Some(DateFormat.OffsetDateTime(DateFormat.DateObject(r.openTime.value), offset, now))
    else r.endTime
  }

  /** The effect run when the duration, opening time or amount change (only once the card has input). */
  function Recompute(r: NewReward, now: int): (r': NewReward)
    ensures r'.(endTime := r.endTime, perWeek := r.perWeek) == r
    ensures r'.endTime == RecomputedEndTime(r, now) && r'.perWeek == Some(RecomputedPerWeek(r))
  {
    r.(endTime := RecomputedEndTime(r, now), perWeek := Some(RecomputedPerWeek(r)))
  }

  /** Running the effect again on its own result changes nothing more for an opening time after the epoch. */
  lemma RecomputeSettles(r: NewReward, now: int)
    requires r.openTime.Some? ==> r.openTime.value > 0
    ensures Recompute(Recompute(r, now), now) == Recompute(r, now)
  {
  }

  /** The end of the period lies the whole duration after its start. */
  lemma EndTimeSpansDuration(r: NewReward, now: int)
    requires r.openTime.Some? && r.openTime.value > 0
    requires r.duration.Some? && r.duration.value > 0
    ensures RecomputedEndTime(r, now) == Some(r.openTime.value + r.duration.value * DAY_SECONDS * 1000)
  {
  }

  // ---------------------------------------------------------------- validation

  /** `minBoundary`: the period in seconds over `10^decimals`, once opening time, end time and token are all set. */
  function MinBoundary(r: NewReward): (b: Option<real>)
    ensures b.Some? <==> r.openTime.Some? && r.endTime.Some? && r.token.Some?
    ensures b.Some? ==> b.value * Pow10(r.token.value.decimals) == (r.endTime.value - r.openTime.value) as real / 1000.0
  {
    if r.openTime.Some? && r.endTime.Some? && r.token.Some? then
      Some((r.endTime.value - r.openTime.value) as real / 1000.0 / Pow10(r.token.value.decimals))
    else None
  }

  datatype RewardError =
    | ConfirmRewardToken
    | EnterTokenAmount
    | InsufficientBalance
    | BelowMinRequired
    | ConfirmEmissionTime
    | LongerThanMax
    | ShorterThanMin

  /** `timeError`: missing setup first, then a period too long, then too short. */
  function TimeError(r: NewReward): (e: Option<RewardError>)
    ensures e.None? <==> r.openTime.Some? && r.duration.Some? && MIN_DURATION <= r.duration.value <= MAX_DURATION
    ensures e == Some(ConfirmEmissionTime) <==> r.openTime.None? || r.duration.None?
    ensures e == Some(LongerThanMax) <==> r.openTime.Some? && r.duration.Some? && r.duration.value > MAX_DURATION
    ensures e == Some(ShorterThanMin) <==> r.openTime.Some? && r.duration.Some? && r.duration.value < MIN_DURATION
  {
    if r.openTime.None? || r.duration.None? then Some(ConfirmEmissionTime)
    else if r.duration.value > MAX_DURATION then Some(LongerThanMax)
    else if r.duration.value < MIN_DURATION then Some(ShorterThanMin)
    else None
  }

  /**
   * The message `onValidateChange` receives: no token, then no amount, then
   * too small a balance, then an amount below the minimum, then the time error.
   */
  function ValidationError(r: NewReward, balanceOf: Token -> real): (e: Option<RewardError>)
    ensures r.token.None? ==> e == Some(ConfirmRewardToken)
    ensures r.token.Some? && IsMeaninglessNumber(if r.amount.Some? then r.amount.value.pure else None) ==>
              e == Some(EnterTokenAmount)
    ensures r.token.Some? && r.amount.Some? && IsMeaningfulNumber(r.amount.value.pure) ==>
              var pure := r.amount.value.pure.value;
              var enough := balanceOf(r.token.value) >= pure + r.amount.value.fee.GetOr(0.0);
              var belowMin := MinBoundary(r).Some? && pure < MinBoundary(r).value;
              && (!enough ==> e == Some(InsufficientBalance))
              && (enough && belowMin ==> e == Some(BelowMinRequired))
              && (enough && !belowMin ==> e == TimeError(r))
    ensures e.None? <==>
              && r.token.Some?
              && r.amount.Some? && IsMeaningfulNumber(r.amount.value.pure)
              && balanceOf(r.token.value) >= r.amount.value.pure.value + r.amount.value.fee.GetOr(0.0)
              && !(MinBoundary(r).Some? && r.amount.value.pure.value < MinBoundary(r).value)
              && TimeError(r).None?
  {
    var pure := if r.amount.Some? then r.amount.value.pure else None;
    if r.token.None? then Some(ConfirmRewardToken)
    else if IsMeaninglessNumber(pure) then Some(EnterTokenAmount)
    else if !(balanceOf(r.token.value) >= pure.value + r.amount.value.fee.GetOr(0.0)) then Some(InsufficientBalance)
    else if MinBoundary(r).Some? && pure.value < MinBoundary(r).value then Some(BelowMinRequired)
    else TimeError(r)
  }

  /** A card that passes validation spends no more than the balance and emits for 7 to 90 days. */
  lemma ValidCardIsFunded(r: NewReward, balanceOf: Token -> real)
    requires ValidationError(r, balanceOf).None?
    requires r.amount.value.fee.GetOr(0.0) >= 0.0
    ensures r.amount.value.pure.value <= balanceOf(r.token.value)
    ensures MIN_DURATION <= r.duration.value <= MAX_DURATION
  {
  }
}

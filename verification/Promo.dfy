/** Promo codes: the discount computed inside a booking transaction and the one the
    public preview shows. */
module Promo {
  import opened Prelude
  import opened Calendar

  datatype Kind = PERCENT | FLAT

  datatype Code = Code(
    business: Id,
    kind: Kind,
    value: int,
    maxUsages: Option<int>,
    expiresAt: Option<int>,
    active: bool)

  datatype Problem = InvalidCode | ExpiredCode | UsedUp

  function Min(a: int, b: int): int {
    if a <= b then a else b
  }

  /** Math.round(n / 100): halves go up. */
  function RoundHundredths(n: int): int {
    (2 * n + 100) / 200
  }

  /** The discount inside `create`. */
  function BookingDiscount(code: Code, subtotalCents: int): int {
    if code.kind == PERCENT
    then Min(subtotalCents, RoundHundredths(subtotalCents * code.value))
    else Min(subtotalCents, code.value)
  }

  /** The discount inside `validate`. */
  function PreviewDiscount(code: Code, priceCents: int): int {
    if code.kind == PERCENT
    then Min(priceCents, RoundHundredths(priceCents * code.value))
    else Min(code.value, priceCents)
  }

  predicate Expired(code: Code, now: int) {
    code.expiresAt.Some? && code.expiresAt.value < now
  }

  predicate Exhausted(code: Code, usage: int) {
    code.maxUsages.Some? && usage >= code.maxUsages.value
  }

  /** The promo stage of a booking: the discount, or why the code is refused. */
  function Apply(code: Code, business: Id, usage: int, now: int, subtotalCents: int): Result<int, Problem> {
    if code.business != business || !code.active then Failure(InvalidCode)
    else if Expired(code, now) then Failure(ExpiredCode)
    else if Exhausted(code, usage) then Failure(UsedUp)
    else Success(BookingDiscount(code, subtotalCents))
  }

  /** `validate`: every refusal reads the same to the public. */
  function Validate(code: Code, business: Id, usage: int, now: int, priceCents: int): Result<int, Problem> {
    if !(code.business == business && code.active) then Failure(InvalidCode)
    else if Expired(code, now) then Failure(InvalidCode)
    else if Exhausted(code, usage) then Failure(InvalidCode)
    else Success(PreviewDiscount(code, priceCents))
  }

  /** Math.max(0, subtotalCents - discountCents) */
  function StoredTotal(subtotalCents: int, discountCents: int): int {
    if subtotalCents - discountCents > 0 then subtotalCents - discountCents else 0
  }

  /** The preview and the booking accept the same codes and compute the same discount;
      the discount never exceeds the subtotal, and what is stored adds up to it. */
  lemma PreviewAgreesWithBooking(code: Code, business: Id, usage: int, now: int, subtotal: int)
    requires subtotal >= 0 && code.value >= 0
    ensures Apply(code, business, usage, now, subtotal).Success? <==>
      Validate(code, business, usage, now, subtotal).Success?
    ensures Apply(code, business, usage, now, subtotal).Success? ==>
      var discount := Apply(code, business, usage, now, subtotal).value;
      && discount == Validate(code, business, usage, now, subtotal).value
      && 0 <= discount <= subtotal
      && StoredTotal(subtotal, discount) + discount == subtotal
  {
    assert 0 <= subtotal * code.value;
  }

  /** A flat code takes its value, a percentage the nearest whole cents (halves go up), and
      neither more than the subtotal. */
  ghost predicate IsDiscount(code: Code, subtotal: int, discount: int) {
    match code.kind
    case FLAT => discount == if code.value < subtotal then code.value else subtotal
    case PERCENT =>
      && discount <= subtotal
      && 100 * discount - subtotal * code.value <= 50
      && (discount < subtotal ==> -50 < 100 * discount - subtotal * code.value)
  }

  lemma DiscountIs(code: Code, subtotal: int, discount: int)
    requires subtotal >= 0 && code.value >= 0
    ensures BookingDiscount(code, subtotal) == discount <==> IsDiscount(code, subtotal, discount)
  {
    var n := subtotal * code.value;
    assert n >= 0;
  }

  /** Why a code is refused, in the order of the checks: another business's or switched
      off, past its end, used up. */
  lemma RefusedExactly(code: Code, business: Id, usage: int, now: int, subtotal: int)
    ensures var problem := Apply(code, business, usage, now, subtotal);
      var ours := code.business == business && code.active;
      var past := code.expiresAt.Some? && now > code.expiresAt.value;
      var spent := code.maxUsages.Some? && code.maxUsages.value <= usage;
      && (problem == Failure(InvalidCode) <==> !ours)
      && (problem == Failure(ExpiredCode) <==> ours && past)
      && (problem == Failure(UsedUp) <==> ours && !past && spent)
      && (problem.Success? <==> ours && !past && !spent)
  {
  }

  /** Rounding moves a percentage by at most half a cent. */
  lemma PercentIsWithinHalfACent(code: Code, subtotal: int)
    requires subtotal >= 0 && code.kind == PERCENT && 0 <= code.value <= 100
    ensures -50 < 100 * BookingDiscount(code, subtotal) - subtotal * code.value <= 50
  {
    var n := subtotal * code.value;
    assert 0 <= subtotal * (100 - code.value) == 100 * subtotal - n;
  }
}

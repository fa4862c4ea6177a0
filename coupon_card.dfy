/**
 * The expiry classification of `CouponCard`
 * (src/components/coupons/coupon-card.jsx), on integer millisecond
 * timestamps. An expiry of `None` is an unparseable date: every comparison
 * with it is false.
 */
module CouponCard {
  import opened Wrappers
  import opened Strings

  /** `7 * 24 * 60 * 60 * 1000`: one week in milliseconds. */
  const WeekMs: int := 7 * 24 * 60 * 60 * 1000

  /** `new Date(expiryDate) < new Date()`. */
  predicate IsExpired(expiry: Option<int>, now: int) {
    expiry.Some? && expiry.value < now
  }

  /** `new Date(expiryDate) <= new Date(Date.now() + WeekMs)`. */
  predicate IsExpiringSoon(expiry: Option<int>, now: int) {
    expiry.Some? && expiry.value <= now + WeekMs
  }

  /** An expired coupon also counts as expiring soon; the priority order below is what tells them apart. */
  lemma ExpiredIsExpiringSoon(expiry: Option<int>, now: int)
    ensures IsExpired(expiry, now) ==> IsExpiringSoon(expiry, now)
    ensures IsExpiringSoon(expiry, now) && !IsExpired(expiry, now) <==>
              expiry.Some? && now <= expiry.value <= now + WeekMs
  {
  }

  const Red: string := "bg-red-100 text-red-800"
  const Orange: string := "bg-orange-100 text-orange-800"
  const Green: string := "bg-green-100 text-green-800"
  const Blue: string := "bg-blue-100 text-blue-800"
  const Purple: string := "bg-purple-100 text-purple-800"

  /** `getBadgeColor()`. */
  function BadgeColor(expiry: Option<int>, now: int, code: string): (c: string)
    ensures c == Red <==> IsExpired(expiry, now)
    ensures c == Orange <==> !IsExpired(expiry, now) && IsExpiringSoon(expiry, now)
    ensures c == Green <==> !IsExpiringSoon(expiry, now) && Includes(code, "SAVE")
    ensures c == Blue <==> !IsExpiringSoon(expiry, now) && !Includes(code, "SAVE") && Includes(code, "WELCOME")
    ensures c == Purple <==> !IsExpiringSoon(expiry, now) && !Includes(code, "SAVE") && !Includes(code, "WELCOME")
  {
    if IsExpired(expiry, now) then Red
    else if IsExpiringSoon(expiry, now) then Orange
    else if Includes(code, "SAVE") then Green
    else if Includes(code, "WELCOME") then Blue
    else Purple
  }

  /** `getStatusText()`. */
  function StatusText(expiry: Option<int>, now: int): (t: string)
    ensures t == "Expired" <==> IsExpired(expiry, now)
    ensures t == "Expiring Soon" <==> !IsExpired(expiry, now) && IsExpiringSoon(expiry, now)
    ensures t == "Active" <==> !IsExpiringSoon(expiry, now)
  {
    if IsExpired(expiry, now) then "Expired"
    else if IsExpiringSoon(expiry, now) then "Expiring Soon"
    else "Active"
  }

  /** `getStatusColor()`. */
  function StatusColor(expiry: Option<int>, now: int): (c: string)
    ensures c == "text-red-500" <==> IsExpired(expiry, now)
    ensures c == "text-orange-500" <==> !IsExpired(expiry, now) && IsExpiringSoon(expiry, now)
    ensures c == "text-grey-500" <==> !IsExpiringSoon(expiry, now)
  {
    if IsExpired(expiry, now) then "text-red-500"
    else if IsExpiringSoon(expiry, now) then "text-orange-500"
    else "text-grey-500"
  }

  /** The status colour and the badge colour follow the status text, case by case. */
  lemma ColorsFollowStatus(expiry: Option<int>, now: int, code: string)
    ensures StatusText(expiry, now) == "Expired" <==> StatusColor(expiry, now) == "text-red-500"
    ensures StatusText(expiry, now) == "Expiring Soon" <==> StatusColor(expiry, now) == "text-orange-500"
    ensures StatusText(expiry, now) == "Active" <==> StatusColor(expiry, now) == "text-grey-500"
    ensures StatusText(expiry, now) == "Expired" <==> BadgeColor(expiry, now, code) == Red
    ensures StatusText(expiry, now) == "Expiring Soon" <==> BadgeColor(expiry, now, code) == Orange
    ensures StatusText(expiry, now) == "Active" <==> BadgeColor(expiry, now, code) in {Green, Blue, Purple}
  {
  }

  /** A coupon whose expiry cannot be parsed is never flagged: it shows as active. */
  lemma UnparseableExpiryIsActive(now: int, code: string)
    ensures StatusText(None, now) == "Active"
    ensures BadgeColor(None, now, code) != Red && BadgeColor(None, now, code) != Orange
  {
  }

  /** A code naming both offers gets the "SAVE" colour, which is tested first. */
  lemma SaveWinsOverWelcome(expiry: Option<int>, now: int, code: string)
    requires !IsExpiringSoon(expiry, now)
    requires Includes(code, "SAVE") && Includes(code, "WELCOME")
    ensures BadgeColor(expiry, now, code) == Green
  {
  }
}

/**
 * The claim button and the profile fallback of components/Header.tsx,
 * as functions of the props. The button's `disabled` flag is what keeps
 * a click from reaching the claim handler.
 */
module Header {
  import opened Wrappers
  import opened Types

  /** The icon shown on the button. */
  datatype Icon = Spinner | Check | Gift

  /** The button's colour scheme: green "claimed", gold "claimable", grey otherwise. */
  datatype Look = ClaimedLook | GoldLook | MutedLook

  /** The FID cell: the number, or `'---'`. */
  datatype FidText = FidNumber(fid: int) | NoFid

  const PlaceholderPicture := "https://picsum.photos/100/100"

  /** The profile shown when there is no user. */
  const Guest := FarcasterUser(0, Some("Guest"), Some("Guest User"), Some(PlaceholderPicture))

  /** `disabled={!canClaim || isClaiming || hasClaimedToday}`. */
  predicate Disabled(canClaim: bool, isClaiming: bool, hasClaimedToday: bool)
    ensures isClaiming || hasClaimedToday ==> Disabled(canClaim, isClaiming, hasClaimedToday)
  {
    !canClaim || isClaiming || hasClaimedToday
  }

  /** The button text. */
  function Label(isClaiming: bool, hasClaimedToday: bool): (caption: string)
    ensures caption == "Claim" <==> !isClaiming && !hasClaimedToday
  {
    if isClaiming then "Claiming..." else if hasClaimedToday then "Claimed" else "Claim"
  }

  /** The button icon. */
  function ButtonIcon(isClaiming: bool, hasClaimedToday: bool): (icon: Icon)
    ensures icon == Gift <==> !isClaiming && !hasClaimedToday
  {
    if isClaiming then Spinner else if hasClaimedToday then Check else Gift
  }

  /** The button class list. */
  function ButtonLook(canClaim: bool, hasClaimedToday: bool): (look: Look)
    ensures hasClaimedToday ==> look == ClaimedLook
    ensures look == GoldLook ==> canClaim
  {
    if hasClaimedToday then ClaimedLook else if canClaim then GoldLook else MutedLook
  }

  /** The icon that goes with each label. */
  function IconFor(caption: string): Icon
  {
    if caption == "Claiming..." then Spinner else if caption == "Claimed" then Check else Gift
  }

  /** `user || Guest`. */
  function DisplayUser(user: Option<FarcasterUser>): (shown: FarcasterUser)
    ensures user.Some? ==> shown == user.value
    ensures user.None? ==> shown.fid == 0 && shown.displayName == Some("Guest User")
  {
    match user
    case None => Guest
    case Some(u) => u
  }

  /** `displayName || username`: an empty or missing display name falls through; nothing is shown if both are missing. */
  function ShownName(u: FarcasterUser): (name: string)
    ensures u.displayName.Some? && u.displayName.value != "" ==> name == u.displayName.value
    ensures (u.displayName.None? || u.displayName.value == "") && u.username.Some? ==> name == u.username.value
    ensures u.username.None? && (u.displayName.None? || u.displayName.value == "") ==> name == ""
  {
    if u.displayName.Some? && u.displayName.value != "" then u.displayName.value
    else if u.username.Some? then u.username.value
    else ""
  }

  /** `fid > 0 ? fid : '---'`. */
  function ShownFid(u: FarcasterUser): (text: FidText)
    ensures text.FidNumber? <==> u.fid > 0
    ensures text.FidNumber? ==> text.fid == u.fid
  {
    if u.fid > 0 then FidNumber(u.fid) else NoFid
  }

  // ---------------------------------------------------------------------
  // Properties of the button

  /** The button is enabled exactly when the claim is unlocked, not in progress and not yet made today. */
  lemma EnabledOnlyWhenReady(canClaim: bool, isClaiming: bool, hasClaimedToday: bool)
    ensures !Disabled(canClaim, isClaiming, hasClaimedToday) <==> canClaim && !isClaiming && !hasClaimedToday
  {
  }

  /** An enabled button is exactly a gold one labelled `'Claim'`. */
  lemma EnabledLooksClaimable(canClaim: bool, isClaiming: bool, hasClaimedToday: bool)
    ensures !Disabled(canClaim, isClaiming, hasClaimedToday)
      <==> ButtonLook(canClaim, hasClaimedToday) == GoldLook && Label(isClaiming, hasClaimedToday) == "Claim"
  {
  }

  /** `'Claiming...'` whenever a claim is in progress, whatever else holds; otherwise `'Claimed'` exactly when claimed today. */
  lemma LabelPrecedence(isClaiming: bool, hasClaimedToday: bool)
    ensures isClaiming ==> Label(isClaiming, hasClaimedToday) == "Claiming..."
    ensures !isClaiming ==> (Label(isClaiming, hasClaimedToday) == "Claimed" <==> hasClaimedToday)
    ensures !isClaiming && !hasClaimedToday ==> Label(isClaiming, hasClaimedToday) == "Claim"
  {
  }

  /** The icon always agrees with the label: spinner, then check, then gift. */
  lemma IconFollowsLabel(isClaiming: bool, hasClaimedToday: bool)
    ensures ButtonIcon(isClaiming, hasClaimedToday) == IconFor(Label(isClaiming, hasClaimedToday))
  {
  }

  /** The claimed look wins whenever claimed today, even if unlocked; gold exactly when unlocked and not claimed. */
  lemma LookPrecedence(canClaim: bool, hasClaimedToday: bool)
    ensures hasClaimedToday ==> ButtonLook(canClaim, hasClaimedToday) == ClaimedLook
    ensures ButtonLook(canClaim, hasClaimedToday) == GoldLook <==> canClaim && !hasClaimedToday
  {
  }

  /** Without a user the guest profile is shown: name `'Guest User'`, FID `'---'`. */
  lemma GuestFallback()
    ensures DisplayUser(None) == Guest
    ensures ShownName(DisplayUser(None)) == "Guest User"
    ensures ShownFid(DisplayUser(None)) == NoFid
  {
  }
}

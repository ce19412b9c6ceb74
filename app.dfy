/**
 * The share-gated claim logic of App.tsx. The React state that the
 * handlers update (`currentQuote`, `userAddress`, `canClaim`,
 * `isClaiming`, `hasClaimedToday`, `showSuccessModal`) are the fields of
 * `ClaimApp`; each handler is a method, and what every outside call
 * returned (the chain reads, the wallet provider, the image upload,
 * opening the composer) is a parameter. Toasts, alerts, wallet requests
 * and opened URLs are recorded as logs so the effects can be stated.
 */
module App {
  import opened Wrappers
  import opened Text
  import opened Types
  import Header

  const ContractAddress := "0x99952E86dD355D77fc19EBc167ac93C4514BA7CB"
  const MiniAppUrl := "https://farcaster.xyz/miniapps/S9xDZOSiOGWl/castinspo"
  /** Base mainnet, chain 8453. */
  const BaseChainId := "0x2105"
  const ComposePrefix := "https://warpcast.com/~/compose?text="
  const EmbedField := "embeds[]="
  const ShareText := "Daily vibes via CastInspo \U{2728} Come for the inspiration, stay for the rewards!"
  const NoWalletAlert := "No wallet connected. Please open in Farcaster."

  /** The joined pair of contract reads (`getCurrentDay`, `lastClaimDay(address)`), or a failure of either. */
  datatype ReadOutcome = ReadOk(currentDay: nat, lastClaim: nat) | ReadFailed

  /** `eth_chainId` as `checkChainId` sees it: no provider, a reply, or a thrown request. */
  datatype ChainReply = NoProvider | ChainIdReply(chainId: string) | ChainIdFailed

  /** What a rejected provider request carries: an optional numeric `code` and an optional `message`. */
  datatype ProviderError = ProviderError(code: Option<int>, message: Option<string>)

  /** `eth_sendTransaction`: a transaction hash, or an error. */
  datatype SendOutcome = TxHash(hash: string) | SendFailed(error: ProviderError)

  /** The image upload: no API key configured, a hosted URL, or a failure (of the upload or of reading the data URL). */
  datatype UploadOutcome = NoApiKey | Uploaded(url: string) | UploadFailed

  datatype ToastKind = Loading | Success | Failure
  datatype Toast = Toast(message: string, kind: ToastKind)

  /** Requests made to the wallet provider. */
  datatype WalletRequest = SwitchChain(chainId: string) | SendClaim(from: string, to: string)

  /** How `handleClaim` sorts a failed send. */
  datatype ErrorClass = LikelyReverted | UserRejected | OtherFailure

  /** How a claim attempt that got past the guards ends. */
  datatype ClaimResult = Sent | Failed(cause: ErrorClass)

  /** The two claim flags the oracle reconciles. */
  datatype ClaimFlags = ClaimFlags(canClaim: bool, hasClaimedToday: bool)

  /** A `Blob`: its bytes and its MIME type. */
  datatype Blob = Blob(bytes: seq<bv8>, mimeType: string)

  // ---------------------------------------------------------------------
  // Pure helpers

  /**
   * `checkClaimStatus` as a reducer: after a read, claimed today exactly
   * when the last claim day is the current day, and then locked; a
   * different day leaves the unlock alone; a failed read changes nothing.
   */
  function Reconcile(flags: ClaimFlags, read: ReadOutcome): (next: ClaimFlags)
    ensures read.ReadFailed? ==> next == flags
    ensures read.ReadOk? ==> next.hasClaimedToday == (read.lastClaim == read.currentDay)
    ensures read.ReadOk? && read.lastClaim == read.currentDay ==> !next.canClaim
    ensures read.ReadOk? && read.lastClaim != read.currentDay ==> next.canClaim == flags.canClaim
  {
    match read
    case ReadFailed => flags
    case ReadOk(currentDay, lastClaim) =>
      if lastClaim == currentDay then ClaimFlags(false, true) else ClaimFlags(flags.canClaim, false)
  }

  /** `checkChainId`: on Base exactly when the provider answers `'0x2105'`; never without a provider or when the request throws. */
  function CheckChainId(reply: ChainReply): (isBase: bool)
    ensures isBase <==> reply.ChainIdReply? && reply.chainId == BaseChainId
    ensures reply.NoProvider? || reply.ChainIdFailed? ==> !isBase
  {
    match reply
    case NoProvider => false
    case ChainIdReply(chainId) => chainId == BaseChainId
    case ChainIdFailed => false
  }

  /**
   * The `catch` of `handleClaim`: a message containing `'reverted'` or
   * `'execution reverted'`, or code 3, is a likely revert; else code 4001
   * is the user's rejection; anything else is another failure.
   */
  function Classify(e: ProviderError): (c: ErrorClass)
    ensures c == LikelyReverted <==> (e.message.Some? && Contains(e.message.value, "reverted")) || e.code == Some(3)
    ensures c == UserRejected <==> c != LikelyReverted && e.code == Some(4001)
  {
    var message := if e.message.Some? then e.message.value else "";
    ExecutionRevertedMentionsReverted(message);
    if (e.message.Some? && Contains(e.message.value, "reverted")) || e.code == Some(3)
      || (e.message.Some? && Contains(e.message.value, "execution reverted"))
    then LikelyReverted
    else if e.code == Some(4001) then UserRejected
    else OtherFailure
  }

  /** The deep link to a quote: `${MINI_APP_URL}?q=${id}`. */
  function AppUrl(id: nat): (url: string)
    ensures MiniAppUrl + "?q=" <= url
    ensures url[|MiniAppUrl| + 3..] == Decimal(id)
  {
    MiniAppUrl + "?q=" + Decimal(id)
  }

  /** The hosted image URL, when the upload produced one. */
  function PublicImageUrl(upload: UploadOutcome): Option<string>
  {
    if upload.Uploaded? then Some(upload.url) else None
  }

  /** The embeds of the cast: the hosted image if there is a non-empty URL for it, then always the deep link. */
  function ShareEmbeds(publicImageUrl: Option<string>, appUrl: string): (embeds: seq<string>)
    ensures 1 <= |embeds| <= 2 && embeds[|embeds| - 1] == appUrl
  {
    (if publicImageUrl.Some? && publicImageUrl.value != "" then [publicImageUrl.value] else []) + [appUrl]
  }

  /** The query parameter appended for one embed: `&embeds[]=<encoded>`. */
  function EmbedParam(embed: string, encode: string -> string): string
  {
    "&" + EmbedField + encode(embed)
  }

  /** The embed parameters for every embed, in order. */
  function EmbedParams(embeds: seq<string>, encode: string -> string): string
    decreases |embeds|
  {
    if |embeds| == 0 then "" else EmbedParam(embeds[0], encode) + EmbedParams(embeds[1..], encode)
  }

  /** The `embeds[]=<encoded>` fields the composer reads back. */
  function EmbedFields(embeds: seq<string>, encode: string -> string): seq<string>
    decreases |embeds|
  {
    if |embeds| == 0 then [] else [EmbedField + encode(embeds[0])] + EmbedFields(embeds[1..], encode)
  }

  /** The compose URL: the encoded share text, then the embeds. */
  function ComposeUrl(embeds: seq<string>, encode: string -> string): (url: string)
    ensures ComposePrefix <= url
  {
    ComposePrefix + encode(ShareText) + EmbedParams(embeds, encode)
  }

  /** The toasts `handleShare` shows while uploading. */
  function UploadToasts(upload: UploadOutcome): seq<Toast>
  {
    match upload
    case NoApiKey => [Toast("Opening Warpcast (No Image)...", Success)]
    case Uploaded(_) => [Toast("Uploading image...", Loading), Toast("Opening Warpcast...", Success)]
    case UploadFailed => [Toast("Uploading image...", Loading), Toast("Image upload failed. Sharing link only.", Failure)]
  }

  /** True when `handleShare` goes past its guard: a quote with a non-empty image. */
  predicate Shareable(quote: Option<Quote>)
  {
    quote.Some? && quote.value.imageUrl.Some? && quote.value.imageUrl.value != ""
  }

  /**
   * How a claim ends after the guards. Without a provider, the switch and
   * the send both read `request` of `undefined`; that TypeError has no
   * code and no "reverted", so it is another failure.
   */
  function ClaimResultOf(chain: ChainReply, send: SendOutcome): ClaimResult
  {
    if chain.NoProvider? then Failed(OtherFailure)
    else match send
      case TxHash(_) => Sent
      case SendFailed(e) => Failed(Classify(e))
  }

  /** The wallet requests of a claim: a switch to Base unless already on it, then the send, whatever the switch did. */
  function ClaimRequests(from: string, chain: ChainReply): seq<WalletRequest>
  {
    if chain.NoProvider? then []
    else (if CheckChainId(chain) then [] else [SwitchChain(BaseChainId)]) + [SendClaim(from, ContractAddress)]
  }

  /** The toasts a settled claim shows. */
  function ClaimToasts(result: ClaimResult): seq<Toast>
  {
    match result
    case Sent => [Toast("Claimed successfully!", Success)]
    case Failed(LikelyReverted) => [Toast("Transaction failed. Already claimed?", Failure)]
    case Failed(UserRejected) => []
    case Failed(OtherFailure) => [Toast("Failed to claim", Failure)]
  }

  /** The payload of a data URL: the second comma-separated field, if any. */
  function Payload(dataUri: string): (payload: Option<string>)
    ensures payload.Some? ==> ',' !in payload.value
  {
    var parts := Split(dataUri, ',');
    SplitPiecesFree(dataUri, ',');
    if |parts| < 2 then None else Some(parts[1])
  }

  /** `dataURI.split(',')[0].split(':')[1].split(';')[0]`; absent when there is no `:` to split at. */
  function MimeType(dataUri: string): (mime: Option<string>)
    ensures mime.Some? ==> ';' !in mime.value
  {
    var fields := Split(Split(dataUri, ',')[0], ':');
    if |fields| < 2 then None else SplitPiecesFree(fields[1], ';'); Some(Split(fields[1], ';')[0])
  }

  /** True when every character of `t` lies in U+0020 to U+007E. */
  predicate PrintableAscii(t: string)
  {
    forall i :: 0 <= i < |t| ==> ' ' <= t[i] <= '~'
  }

  /** ASCII lowercase of one character: `A` to `Z` become `a` to `z`, all else is kept. */
  function LowerAscii(c: char): char
  {
    if 'A' <= c <= 'Z' then ((c as int) + 32) as char else c
  }

  /**
   * The `type` a `Blob` constructor keeps: the empty string when some
   * character is outside U+0020 to U+007E, else the text in ASCII lowercase.
   */
  function BlobType(t: string): (kept: string)
    ensures PrintableAscii(t) ==> |kept| == |t| && forall i :: 0 <= i < |t| ==> kept[i] == LowerAscii(t[i])
    ensures !PrintableAscii(t) ==> kept == ""
    ensures forall i :: 0 <= i < |kept| ==> !('A' <= kept[i] <= 'Z')
  {
    if PrintableAscii(t) then seq(|t|, i requires 0 <= i < |t| => LowerAscii(t[i])) else ""
  }

  /** Normalising a `Blob` type twice changes nothing more; the card's own `image/png` is kept as it is. */
  lemma BlobTypeIdempotent(t: string)
    ensures BlobType(BlobType(t)) == BlobType(t)
    ensures BlobType("image/png") == "image/png"
  {
    var once := BlobType(t);
    if PrintableAscii(t) {
      assert forall i :: 0 <= i < |once| ==> ' ' <= once[i] <= '~' && LowerAscii(once[i]) == once[i];
    }
    assert PrintableAscii("image/png");
    assert forall i :: 0 <= i < |"image/png"| ==> LowerAscii("image/png"[i]) == "image/png"[i];
  }

  /** A character code stored into a `Uint8Array`: modulo 256. */
  function ToUint8(c: char): bv8
  {
    ((c as int) % 256) as bv8
  }

  /**
   * `dataURItoBlob`: decode the payload with `atob` (a parameter; `None`
   * when it throws) and copy its character codes into a fresh byte
   * buffer. A missing payload fails because `atob(undefined)` throws; a
   * header without `:` fails because `undefined.split` throws.
   */
  method DataURItoBlob(dataUri: string, atob: string -> Option<string>) returns (blob: Option<Blob>)
    ensures blob.Some? <==>
      Payload(dataUri).Some? && atob(Payload(dataUri).value).Some? && MimeType(dataUri).Some?
    ensures blob.Some? ==>
      var byteString := atob(Payload(dataUri).value).value;
      && |blob.value.bytes| == |byteString|
      && (forall i :: 0 <= i < |byteString| ==> blob.value.bytes[i] == ToUint8(byteString[i]))
      && blob.value.mimeType == BlobType(MimeType(dataUri).value)
  {
    var payload := Payload(dataUri);
    if payload.None? {
      return None;
    }
    var decoded := atob(payload.value);
    if decoded.None? {
      return None;
    }
    var byteString := decoded.value;
    var mimeString := MimeType(dataUri);
    if mimeString.None? {
      return None;
    }
    var ia := new bv8[|byteString|];
    for i := 0 to |byteString|
      invariant forall k :: 0 <= k < i ==> ia[k] == ToUint8(byteString[k])
    {
      ia[i] := ToUint8(byteString[i]);
    }
    return Some(Blob(ia[..], BlobType(mimeString.value)));
  }

  // ---------------------------------------------------------------------
  // Lemmas about the helpers

  lemma ContainsTail(s: string, a: string, b: string)
    requires Contains(s, a + b)
    ensures Contains(s, b)
  {
    ContainsAt(s, a + b);
    var i :| 0 <= i <= |s| - |a + b| && IsAt(s, a + b, i);
    assert s[i + |a|..i + |a| + |b|] == (a + b)[|a|..];
    assert (a + b)[|a|..] == b;
    assert IsAt(s, b, i + |a|);
    ContainsAt(s, b);
  }

  /** The source's third test, `'execution reverted'`, is already covered by `'reverted'`. */
  lemma ExecutionRevertedMentionsReverted(message: string)
    ensures Contains(message, "execution reverted") ==> Contains(message, "reverted")
  {
    if Contains(message, "execution reverted") {
      assert "execution reverted" == "execution " + "reverted";
      ContainsTail(message, "execution ", "reverted");
    }
  }

  /** The day rolls over: the same last claim day read against any other current day means not claimed today. */
  lemma DayRollover(flags: ClaimFlags, day: nat, later: nat)
    requires later != day
    ensures Reconcile(flags, ReadOk(day, day)) == ClaimFlags(false, true)
    ensures !Reconcile(Reconcile(flags, ReadOk(day, day)), ReadOk(later, day)).hasClaimedToday
  {
  }

  /**
   * The delayed re-check after an optimistic claim: if the chain shows no
   * claim today, the claimed mark is cleared but the claim stays locked
   * (the button stays disabled) until the next share; no message is shown.
   */
  lemma UndoneClaimStaysLocked(flags: ClaimFlags, currentDay: nat, lastClaim: nat)
    requires flags == ClaimFlags(false, true)
    requires currentDay != lastClaim
    ensures Reconcile(flags, ReadOk(currentDay, lastClaim)) == ClaimFlags(false, false)
    ensures var r := Reconcile(flags, ReadOk(currentDay, lastClaim));
      Header.Disabled(r.canClaim, false, r.hasClaimedToday)
  {
  }

  /** The image embed comes first when there is one; the deep link is always the last embed. */
  lemma ShareEmbedsOrder(publicImageUrl: Option<string>, appUrl: string)
    ensures var embeds := ShareEmbeds(publicImageUrl, appUrl);
      && embeds[|embeds| - 1] == appUrl
      && (|embeds| == 2 <==> publicImageUrl.Some? && publicImageUrl.value != "")
      && (|embeds| == 2 ==> embeds[0] == publicImageUrl.value)
      && 1 <= |embeds| <= 2
  {
  }

  lemma {:induction false} EmbedParamsSplit(head: string, embeds: seq<string>, encode: string -> string)
    requires '&' !in head
    requires forall s :: '&' !in encode(s)
    ensures Split(head + EmbedParams(embeds, encode), '&') == [head] + EmbedFields(embeds, encode)
    decreases |embeds|
  {
    if |embeds| == 0 {
      assert head + "" == head;
      SplitWithoutSeparator(head, '&');
    } else {
      var field := EmbedField + encode(embeds[0]);
      assert '&' !in EmbedField;
      assert '&' !in field;
      var rest := EmbedParams(embeds[1..], encode);
      EmbedParamsSplit(field, embeds[1..], encode);
      assert EmbedParam(embeds[0], encode) == ['&'] + field;
      assert head + EmbedParams(embeds, encode) == head + ['&'] + (field + rest);
      SplitAtFirst(head, field + rest, '&');
    }
  }

  /**
   * When the encoder escapes `&` (as `encodeURIComponent` does), the
   * compose URL splits at `&` into the text field followed by exactly one
   * `embeds[]=` field per embed, in order.
   */
  lemma ComposeUrlFields(embeds: seq<string>, encode: string -> string)
    requires forall s :: '&' !in encode(s)
    ensures Split(ComposeUrl(embeds, encode), '&') == [ComposePrefix + encode(ShareText)] + EmbedFields(embeds, encode)
  {
    assert '&' !in ComposePrefix;
    EmbedParamsSplit(ComposePrefix + encode(ShareText), embeds, encode);
  }

  /** The data URL `data:<mime>;base64,<data>` yields `<mime>` and `<data>` when they hold no separators. */
  lemma DataUrlParts(mime: string, data: string)
    requires ',' !in mime && ':' !in mime && ';' !in mime
    requires ',' !in data
    ensures Payload("data:" + mime + ";base64," + data) == Some(data)
    ensures MimeType("data:" + mime + ";base64," + data) == Some(mime)
  {
    var header := "data:" + mime + ";base64";
    assert "data:" + mime + ";base64," + data == header + [','] + data;
    assert ',' !in header;
    SplitAtFirst(header, data, ',');
    SplitWithoutSeparator(data, ',');
    assert header == "data" + [':'] + (mime + ";base64");
    SplitAtFirst("data", mime + ";base64", ':');
    assert ':' !in mime + ";base64";
    SplitWithoutSeparator(mime + ";base64", ':');
    assert mime + ";base64" == mime + [';'] + "base64";
    SplitAtFirst(mime, "base64", ';');
  }

  /** A character code below 256, as `atob` produces, is stored unchanged. */
  lemma ByteKeepsCode(c: char)
    requires (c as int) < 256
    ensures ToUint8(c) as int == c as int
  {
  }

  // ---------------------------------------------------------------------
  // The component's state and its event handlers

  class ClaimApp {
    var currentQuote: Option<Quote>
    var userAddress: Option<string>
    var canClaim: bool
    var isClaiming: bool
    var hasClaimedToday: bool
    var showSuccessModal: bool
    /** Every `showToast`, in order. */
    var toasts: seq<Toast>
    /** Every `alert`, in order. */
    var alerts: seq<string>
    /** Every request to the wallet provider's switch and send, in order. */
    var walletRequests: seq<WalletRequest>
    /** Every URL handed to `sdk.actions.openUrl`, in order. */
    var openedUrls: seq<string>

    /** Claimed today means locked: kept by every handler. */
    predicate Valid()
      reads this
    {
      hasClaimedToday ==> !canClaim
    }

    /** `!userAddress` is false: an address that is present and non-empty. */
    predicate Connected()
      reads this
    {
      userAddress.Some? && userAddress.value != ""
    }

    function Flags(): ClaimFlags
      reads this
    {
      ClaimFlags(canClaim, hasClaimedToday)
    }

    /** The initial state of the component. */
    constructor ()
      ensures Valid()
      ensures currentQuote == None && userAddress == None
      ensures !canClaim && !isClaiming && !hasClaimedToday && !showSuccessModal
      ensures toasts == [] && alerts == [] && walletRequests == [] && openedUrls == []
    {
      currentQuote := None;
      userAddress := None;
      canClaim := false;
      isClaiming := false;
      hasClaimedToday := false;
      showSuccessModal := false;
      toasts := [];
      alerts := [];
      walletRequests := [];
      openedUrls := [];
    }

    /** The wallet answers `eth_requestAccounts`: the first account, if any, becomes the address. */
    method ConnectWallet(accounts: seq<string>)
      modifies this`userAddress
      ensures userAddress == if |accounts| > 0 then Some(accounts[0]) else old(userAddress)
    {
      if |accounts| > 0 {
        userAddress := Some(accounts[0]);
      }
    }

    /** `fetchNewQuote` settles: a generated quote replaces the current one; a failure keeps it. */
    method QuoteLoaded(generated: Option<Quote>)
      modifies this`currentQuote
      ensures currentQuote == if generated.Some? then generated else old(currentQuote)
    {
      if generated.Some? {
        currentQuote := generated;
      }
    }

    /** `checkClaimStatus(address)` settles with the oracle's answer for the address. */
    method CheckClaimStatus(read: ReadOutcome)
      requires Valid()
      modifies this`canClaim, this`hasClaimedToday
      ensures Valid()
      ensures Flags() == Reconcile(old(Flags()), read)
    {
      match read
      case ReadOk(currentDay, lastClaim) =>
        if lastClaim == currentDay {
          hasClaimedToday := true;
          canClaim := false;
        } else {
          hasClaimedToday := false;
        }
      case ReadFailed =>
    }

    /**
     * `handleShare`: with a quote that has an image, unlock the claim
     * unless claimed today (before and whatever the upload and the
     * composer do), upload, build the compose URL with `+=` and open it.
     */
    method HandleShare(upload: UploadOutcome, encode: string -> string, openSucceeded: bool)
      requires Valid()
      modifies this`canClaim, this`toasts, this`openedUrls
      ensures Valid()
      ensures !Shareable(old(currentQuote)) ==>
        canClaim == old(canClaim) && toasts == old(toasts) && openedUrls == old(openedUrls)
      ensures Shareable(old(currentQuote)) ==>
        && canClaim == (old(canClaim) || !hasClaimedToday)
        && openedUrls == old(openedUrls) + [ComposeUrl(ShareEmbeds(PublicImageUrl(upload), AppUrl(currentQuote.value.id)), encode)]
        && toasts == old(toasts) + UploadToasts(upload)
                     + (if openSucceeded then [] else [Toast("Failed to open Warpcast", Failure)])
    {
      if !Shareable(currentQuote) {
        return;
      }
      if !hasClaimedToday {
        canClaim := true;
      }
      var appUrl := MiniAppUrl + "?q=" + Decimal(currentQuote.value.id);
      var publicImageUrl: Option<string> := None;
      match upload {
      case NoApiKey =>
        toasts := toasts + [Toast("Opening Warpcast (No Image)...", Success)];
      case Uploaded(url) =>
        toasts := toasts + [Toast("Uploading image...", Loading)];
        publicImageUrl := Some(url);
        toasts := toasts + [Toast("Opening Warpcast...", Success)];
      case UploadFailed =>
        toasts := toasts + [Toast("Uploading image...", Loading)];
        toasts := toasts + [Toast("Image upload failed. Sharing link only.", Failure)];
      }

      assert publicImageUrl == PublicImageUrl(upload);
      var warpcastUrl := ComposePrefix + encode(ShareText);
      ghost var base := warpcastUrl;
      assert EmbedParams([appUrl], encode) == EmbedParam(appUrl, encode) + "";
      if publicImageUrl.Some? && publicImageUrl.value != "" {
        warpcastUrl := warpcastUrl + EmbedParam(publicImageUrl.value, encode);
        assert [publicImageUrl.value, appUrl][1..] == [appUrl];
      }
      warpcastUrl := warpcastUrl + EmbedParam(appUrl, encode);
      assert warpcastUrl == base + EmbedParams(ShareEmbeds(publicImageUrl, appUrl), encode);
      assert appUrl == AppUrl(currentQuote.value.id);
      assert warpcastUrl == ComposeUrl(ShareEmbeds(PublicImageUrl(upload), AppUrl(currentQuote.value.id)), encode);
      openedUrls := openedUrls + [warpcastUrl];
      if !openSucceeded {
        toasts := toasts + [Toast("Failed to open Warpcast", Failure)];
      }
    }

    /**
     * `handleClaim` up to its first `await`: with no usable address it
     * alerts; claimed today it does nothing; otherwise it marks a claim in
     * progress and hands the captured address to the rest of the handler.
     * It does not look at `canClaim` or `isClaiming`.
     */
    method HandleClaim() returns (from: Option<string>)
      requires Valid()
      modifies this`isClaiming, this`alerts
      ensures Valid()
      ensures from.Some? <==> old(Connected()) && !old(hasClaimedToday)
      ensures from.Some? ==> from == userAddress && isClaiming && alerts == old(alerts)
      ensures !old(Connected()) ==> alerts == old(alerts) + [NoWalletAlert] && isClaiming == old(isClaiming)
      ensures old(Connected()) && old(hasClaimedToday) ==> alerts == old(alerts) && isClaiming == old(isClaiming)
    {
      if !Connected() {
        alerts := alerts + [NoWalletAlert];
        return None;
      }
      if hasClaimedToday {
        return None;
      }
      isClaiming := true;
      return userAddress;
    }

    /**
     * The rest of `handleClaim`: check the chain, request a switch when not
     * on Base (a failed switch is only logged), send the claim, then update
     * optimistically or classify the failure; a likely revert re-reads the
     * oracle (`resync`). The claim flag is cleared on every path.
     */
    method CompleteClaim(from: string, chain: ChainReply, send: SendOutcome, resync: ReadOutcome)
      requires Valid()
      modifies this`isClaiming, this`hasClaimedToday, this`canClaim, this`showSuccessModal
      modifies this`toasts, this`walletRequests
      ensures Valid() && !isClaiming
      ensures walletRequests == old(walletRequests) + ClaimRequests(from, chain)
      ensures toasts == old(toasts) + ClaimToasts(ClaimResultOf(chain, send))
      ensures ClaimResultOf(chain, send) == Sent ==> hasClaimedToday && !canClaim && showSuccessModal
      ensures ClaimResultOf(chain, send) == Failed(LikelyReverted) ==>
        Flags() == Reconcile(old(Flags()), resync) && showSuccessModal == old(showSuccessModal)
      ensures ClaimResultOf(chain, send) in {Failed(UserRejected), Failed(OtherFailure)} ==>
        Flags() == old(Flags()) && showSuccessModal == old(showSuccessModal)
    {
      var isBase := CheckChainId(chain);
      if chain.NoProvider? {
        // reading `request` of an undefined provider throws, in the switch and again in the send
        toasts := toasts + [Toast("Failed to claim", Failure)];
      } else {
        if !isBase {
          walletRequests := walletRequests + [SwitchChain(BaseChainId)];
        }
        walletRequests := walletRequests + [SendClaim(from, ContractAddress)];
        match send
        case TxHash(_) =>
          hasClaimedToday := true;
          canClaim := false;
          toasts := toasts + [Toast("Claimed successfully!", Success)];
          showSuccessModal := true;
        case SendFailed(error) =>
          var cause := Classify(error);
          if cause == LikelyReverted {
            toasts := toasts + [Toast("Transaction failed. Already claimed?", Failure)];
            CheckClaimStatus(resync);
          } else if cause == UserRejected {
          } else {
            toasts := toasts + [Toast("Failed to claim", Failure)];
          }
      }
      isClaiming := false;
    }

    /**
     * A click on the header's claim button: a disabled button ignores it;
     * otherwise `handleClaim` runs. A claim starts only when unlocked, not
     * in progress, not claimed today and connected.
     */
    method PressClaimButton() returns (from: Option<string>)
      requires Valid()
      modifies this`isClaiming, this`alerts
      ensures Valid()
      ensures from.Some? <==>
        !Header.Disabled(old(canClaim), old(isClaiming), old(hasClaimedToday)) && old(Connected())
      ensures from.Some? ==> old(canClaim) && !old(isClaiming) && !old(hasClaimedToday)
      ensures isClaiming == (from.Some? || old(isClaiming))
      ensures Header.Disabled(old(canClaim), old(isClaiming), old(hasClaimedToday)) ==>
        isClaiming == old(isClaiming) && alerts == old(alerts)
    {
      if Header.Disabled(canClaim, isClaiming, hasClaimedToday) {
        return None;
      }
      from := HandleClaim();
    }

    /**
     * A click whose claim settles before any other event: a transaction is
     * sent only when the claim was unlocked, not in progress and not made
     * today.
     */
    method ClaimThroughButton(chain: ChainReply, send: SendOutcome, resync: ReadOutcome)
      requires Valid()
      modifies this`isClaiming, this`alerts, this`hasClaimedToday, this`canClaim, this`showSuccessModal
      modifies this`toasts, this`walletRequests
      ensures isClaiming == old(isClaiming)
      ensures walletRequests != old(walletRequests) ==>
        old(canClaim) && !old(isClaiming) && !old(hasClaimedToday) && old(Connected())
      ensures Valid()
    {
      var from := PressClaimButton();
      if from.Some? {
        CompleteClaim(from.value, chain, send, resync);
      }
    }
  }
}

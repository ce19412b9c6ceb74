# CastInspo claim and quote-card core, in Dafny

CastInspo is a Farcaster mini app. It shows an inspirational quote, renders it
as a 1200x630 social card, and unlocks a once-a-day on-chain reward claim after
the user shares the quote. This project models three parts of it and proves
properties of them:

- **The claim state machine of `App.tsx`** (`app.dfy`, module `App`). The class
  `ClaimApp` holds the component's React state: `currentQuote`, `userAddress`,
  `canClaim`, `isClaiming`, `hasClaimedToday` and `showSuccessModal`. It also
  keeps logs of toasts, alerts, wallet requests and opened URLs.
  - Each event handler is a method. Whatever an outside call returned is a
    parameter: the contract reads, `eth_chainId`, `eth_sendTransaction`, the
    image upload, `openUrl`, `atob` and `encodeURIComponent`.
  - `handleClaim` is split at its first `await`. `HandleClaim` runs the guards
    and sets `isClaiming`. `CompleteClaim` runs the rest with the address
    `HandleClaim` captured. `PressClaimButton` is a click that goes through the
    header's `disabled` flag.
  - Every handler keeps the invariant `hasClaimedToday ==> !canClaim`.
  - The module also holds the pure helpers: the oracle reducer `Reconcile`,
    `CheckChainId`, the error classification, the compose URL, and
    `dataURItoBlob`.
- **Quote selection and the quote card's text layout in `services/Service.ts`**
  (`service.dfy` and `compositor.dfy`).
  - `GenerateQuote` validates the requested index or draws a random one. It
    renders the card and never fails because of the image.
  - `CreateQuoteImage` splits the text at spaces and wraps the words greedily
    at 960px. `ctx.measureText` is any width function.
  - The lines are laid out at y = 335 − 40n + 80i and the author at y = 375 + 40n.
  - `toDataURL` is a parameter: a function of the text that is drawn.
- **The claim button and the profile fallback of `components/Header.tsx`**
  (`header.dfy`). These are pure functions of the props.

`text.dfy` holds the JavaScript string built-ins the code relies on:
`split` with a one-character separator, `includes`, and decimal formatting.
`types.dfy` holds the records of `types.ts`.

The code does not do some things the app's design calls for. The model follows
the code:
- The card font is fixed at 60px. There is no shrink-to-fit loop and no bound
  that keeps the text inside the 630px height (`LongQuotesOverflow`).
- Sharing always unlocks the claim, before the upload and the composer run and
  whatever they do.
- A failed network switch does not stop the claim: the transaction is sent anyway.
- Sharing has no native file-share strategy and no plain-link fallback. It
  uploads if an API key is set, then opens the composer.
- The delayed re-check has no guard against a changed address.
- When the delayed re-check finds no claim after an optimistic success, it clears the claimed mark but leaves the claim locked and shows no message. A new share is needed to unlock it (`UndoneClaimStaysLocked`).

## Model

| member | source | states |
|---|---|---|
| `Text.Split` | services/Service.ts:90 | JavaScript `split` with one separator character: always at least one piece. `SplitTerminated` and `SplitPiecesFree` pin down the pieces. |
| `Text.Contains` | App.tsx:350 | `includes`: a substring that occurs is never longer than the text. `ContainsAt` gives the position-by-position meaning. |
| `Text.SplitTerminated` | services/Service.ts:90 | Each piece of `split(' ')` followed by one space, concatenated, gives back the text plus one trailing space. |
| `Text.SplitPiecesFree` | services/Service.ts:90 | No piece of `split` contains the separator, so every word is space-free. |
| `Text.ContainsAt` | App.tsx:350 | `includes` holds exactly when the substring occurs at some position. |
| `Text.DecimalRoundTrip` | App.tsx:206 | The digits written for the quote id in `?q=` read back as that id. |
| `Compositor.WrapLines` | services/Service.ts:90-105 | The wrap's output: the committed lines, then the open line pushed after the loop, so there is always at least one line. |
| `Compositor.WrapText` | services/Service.ts:88-105 | The wrap loop produces exactly the lines of the greedy wrap `WrapLines`. The loop invariant ties each iteration's state to the wrap of the words so far. |
| `Compositor.WrapKeepsQuoteText` | services/Service.ts:90-105 | The wrapped lines concatenate to the text plus one space. No word is lost, split or reordered. |
| `Compositor.WrapKeepsText` | services/Service.ts:94-105 | For any words, the lines concatenate to every word followed by one space, in order. |
| `Compositor.WrapShape` | services/Service.ts:91-105 | There is always at least one line and never more lines than words. With at least one word, every line is non-empty and ends in a space. |
| `Compositor.WrapGreedy` | services/Service.ts:94-104 | A line holding two or more words measures at most 960. Every line but the last would measure over 960 with the next line's first word, so a break happens only when the word does not fit. |
| `Compositor.WrapQuoteGreedy` | services/Service.ts:89-104 | The greedy-fit property for the words of any quote text. |
| `Compositor.StartY` | services/Service.ts:108-111 | `startY` for n lines is exactly 335 − 40n. |
| `Compositor.AuthorY` | services/Service.ts:118 | `authorY` for n lines is exactly 375 + 40n. |
| `Compositor.DrawPlan` | services/Service.ts:113-121 | One draw per wrapped line with that line's text, in order, then a single `- <author>` draw. |
| `Compositor.DrawPlanLayout` | services/Service.ts:108-121 | Line i is drawn at 335 − 40n + 80i and the lines are 80 apart. `- <author>` comes last, at 375 + 40n, which is 40 below the slot after the last line. |
| `Compositor.BlockCentre` | services/Service.ts:111-115 | The first and last line centres are symmetric about y = 295 for every line count. |
| `Compositor.LongQuotesOverflow` | services/Service.ts:78-118 | The layout is not bounded: from 7 lines the author is below the 630px edge, and from 9 lines the first line is above the top. |
| `Compositor.Rendered` | services/Service.ts:45-124 | `createQuoteImage`'s result: nothing exactly when rendering raises, and `''` without a 2D context. |
| `Compositor.CreateQuoteImage` | services/Service.ts:36-125 | Resolves to `''` without a 2D context. Otherwise it encodes exactly the planned text draws of the wrapped lines and the author. It gives nothing only when the surface raises. |
| `Compositor.RenderedOutcomes` | services/Service.ts:45-50 | The image is missing exactly when rendering raises. A missing 2D context gives the empty string. |
| `Service.RandomIndex` | services/Service.ts:11 | `floor(random · length)` with `random` in [0, 1) is a valid index of a non-empty store. |
| `Service.GenerateQuote` | services/Service.ts:5-30 | A defined, numeric index in [0, length) is used unchanged. Anything else is replaced by the random index. The record has `id` = the chosen index, the store entry's text and author, and the rendered image. The call fails only for an empty store, never because of the image. |
| `Header.Disabled` | components/Header.tsx:58 | A claim in progress or a claim made today always disables the button. |
| `Header.Label` | components/Header.tsx:77-81 | The button reads `'Claim'` exactly when no claim is in progress and none was made today. |
| `Header.ButtonIcon` | components/Header.tsx:68-74 | The gift icon appears exactly when no claim is in progress and none was made today. |
| `Header.ButtonLook` | components/Header.tsx:59-66 | A claim made today always gives the claimed look, and the gold look needs the claim to be unlocked. |
| `Header.DisplayUser` | components/Header.tsx:15-20 | A given user is shown as is. Without one, the guest has FID 0 and the display name `'Guest User'`. |
| `Header.ShownName` | components/Header.tsx:41 | Shows the display name if it is non-empty, else the username, else nothing. |
| `Header.ShownFid` | components/Header.tsx:44 | The FID is shown only when it is positive, otherwise `'---'`. |
| `Header.GuestFallback` | components/Header.tsx:15-20 | Without a user, the guest profile is shown: `'Guest User'` and FID `'---'`. |
| `Header.EnabledOnlyWhenReady` | components/Header.tsx:58 | The button is enabled iff `canClaim ∧ ¬isClaiming ∧ ¬hasClaimedToday`. |
| `Header.EnabledLooksClaimable` | components/Header.tsx:58-81 | The button is enabled exactly when it has the gold look and reads `'Claim'`. |
| `Header.LabelPrecedence` | components/Header.tsx:77-81 | `'Claiming...'` whenever a claim is in progress, whatever else holds. Otherwise `'Claimed'` iff claimed today, else `'Claim'`. |
| `Header.IconFollowsLabel` | components/Header.tsx:68-81 | The icon always matches the label: spinner, then check, then gift. |
| `Header.LookPrecedence` | components/Header.tsx:60-66 | The claimed look wins whenever the claim was made today, even if unlocked. The gold look appears exactly when unlocked and not yet claimed. |
| `App.Reconcile` | App.tsx:131-139 | After a read, `hasClaimedToday` is `lastClaim == currentDay`. Equal days lock the claim; different days leave `canClaim` alone. A failed read changes nothing. |
| `App.DayRollover` | App.tsx:131-136 | After a claim day reads as claimed and locked, the same last claim day read against any other current day means not claimed today. |
| `App.CheckChainId` | App.tsx:278-288 | True exactly when the provider answers `'0x2105'`. False with no provider or when the request throws. |
| `App.Classify` | App.tsx:348-357 | A likely revert iff the message contains `'reverted'` or the code is 3. Otherwise a user rejection iff the code is 4001. Anything else is another failure. |
| `App.ExecutionRevertedMentionsReverted` | App.tsx:350 | The third test, `'execution reverted'`, is already covered by `'reverted'`. |
| `App.UndoneClaimStaysLocked` | App.tsx:131-136 | After an optimistic claim, a re-check showing no claim today clears `hasClaimedToday` but leaves `canClaim` false, so the button stays disabled. |
| `App.AppUrl` | App.tsx:206 | The deep link is the mini app URL, `?q=`, then exactly the decimal digits of the quote id. |
| `App.ShareEmbeds` | App.tsx:246-251 | One or two embeds, always ending with the deep link. |
| `App.ComposeUrl` | App.tsx:237-251 | The opened URL always starts with the Warpcast compose prefix `https://warpcast.com/~/compose?text=`. |
| `App.ShareEmbedsOrder` | App.tsx:246-251 | The deep link is always the last embed. An image embed precedes it exactly when a non-empty upload URL was obtained. |
| `App.ComposeUrlFields` | App.tsx:237-251 | When encoding escapes `&`, the compose URL splits into the text field and exactly one `embeds[]=` field per embed, in order. |
| `App.Payload` | App.tsx:38 | `dataURI.split(',')[1]`: when present, it holds no comma. |
| `App.MimeType` | App.tsx:39 | The header's MIME text: when present, it holds no `;`. |
| `App.DataURItoBlob` | App.tsx:37-46 | Gives a blob iff the URL has a payload, `atob` accepts it and the header has a `:`. The bytes have the decoded string's length, with byte i = char code i mod 256. The type is the header text between `:` and `;`, normalised as the `Blob` constructor does (`BlobType`). |
| `App.BlobType` | App.tsx:45 | The `Blob` constructor's `type`: the ASCII-lowercased text when every character is in U+0020 to U+007E, else the empty string. It never holds an upper-case letter. |
| `App.BlobTypeIdempotent` | App.tsx:45 | Normalising twice changes nothing more, and the card's own `image/png` is kept as it is. |
| `App.DataUrlParts` | App.tsx:38-39 | For `data:<mime>;base64,<data>`, the payload is `<data>` and the MIME type is `<mime>`. |
| `App.ByteKeepsCode` | App.tsx:43 | A character code below 256 is stored unchanged. |
| `App.ClaimApp.constructor` | App.tsx:88-98 | Starts with no quote and no address, with every claim flag false and every log empty. |
| `App.ClaimApp.ConnectWallet` | App.tsx:161-164 | The first account, if any, becomes the user address. |
| `App.ClaimApp.QuoteLoaded` | App.tsx:187-192 | A generated quote replaces the current one. A failure keeps the current one. |
| `App.ClaimApp.CheckClaimStatus` | App.tsx:113-140 | The claim flags become `Reconcile` of the old flags and the read. Nothing else changes, and the invariant is kept. |
| `App.ClaimApp.HandleShare` | App.tsx:198-259 | Without a quote that has a non-empty image, nothing changes. Otherwise `canClaim` becomes true iff not claimed today, whatever the upload and the composer do. The compose URL with the image embed (if any) and then the deep link is opened. The upload toasts are shown, and a failure toast if opening failed. |
| `App.ClaimApp.HandleClaim` | App.tsx:290-300 | Proceeds iff there is a non-empty address and no claim today. It never looks at `canClaim` or `isClaiming`. With no address it alerts and changes nothing else. When it proceeds it sets `isClaiming`. |
| `App.ClaimApp.CompleteClaim` | App.tsx:302-360 | Requests a switch when not on Base, then always sends the claim. A sent claim sets claimed, locks and shows the modal. A likely revert toasts and re-reads the oracle. A rejection is silent; anything else toasts. No failure writes the flags except through the re-read, and `isClaiming` ends false. |
| `App.ClaimApp.PressClaimButton` | components/Header.tsx:56-58 | A click starts a claim only when the button is enabled and an address is connected, so only when unlocked, not in progress and not claimed today. |
| `App.ClaimApp.ClaimThroughButton` | components/Header.tsx:56-58 | A claim transaction is requested only when the claim was unlocked, not in progress, not made today and an address was connected. |

## Left out

- The JSX markup, styling, tabs, `QuoteCard`, `ClaimSuccessModal`, `Footer` and the `Toast` component. They render state and hold no logic worth a contract. Closing the success modal is not modelled.
- Canvas drawing other than the text: background, border, the badge and its glyph, fonts, colours and the `Math.PI` arc. The PNG encoding is the parameter `encode`.
- `sdk.context` and the profile bootstrap, apart from the account-to-address step (`ConnectWallet`). The check that follows connecting is a separate `CheckClaimStatus` event.
- `uploadToImgBB` and its `fetch`. The upload, together with reading the data URL for it, is the parameter `upload`.
- `Promise.all` concurrency and the 5-second `setTimeout` re-check. The re-check is a later `CheckClaimStatus` event.
- Toast expiry and `setToastMessage(null)`. The toast log records shown toasts, not cleared ones.
- `handleRewardShare` and the share-text truncation. The share text is a constant under 280 characters, so that branch never runs.
- `fetchNewQuote`'s `loading` flag and the `?q=` parsing with `parseInt` on load.
- `Math.random`, `atob`, `encodeURIComponent`, `measureText` and `toDataURL` are parameters with only their ranges assumed.
- React closure staleness: every handler reads the current fields, as it would from the latest render.
- GenerateQuote: indices are integers or undefined/null/NaN. Infinities act like out-of-range integers. A fractional in-range index, which would make the entry lookup throw, is not modelled: the app only passes `parseInt` results.
- Classify: a thrown `null` or `undefined` is not modelled. Reading its `message` would itself throw inside the `catch`. Any other thrown value without `message` or `code` is `ProviderError(None, None)`, another failure.
- DataURItoBlob: `charCodeAt` is modelled per character. Code points above U+FFFF, which JavaScript counts as two UTF-16 units, are not modelled. `atob` only yields codes below 256.

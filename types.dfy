/** The records of types.ts. Neither has any behaviour of its own. */
module Types {
  import opened Wrappers

  /** A selected quote; `id` is its index in the quote store, `imageUrl` the rendered card (a data URL), if any. */
  datatype Quote = Quote(id: nat, text: string, author: string, imageUrl: Option<string>)

  /** A Farcaster profile as the host context reports it; every text field may be absent. */
  datatype FarcasterUser = FarcasterUser(
    fid: int,
    username: Option<string>,
    displayName: Option<string>,
    pfpUrl: Option<string>)
}

/** `fetchUserNFTs` of src/services/api.js: the signed-in user's passes,
    newest first as the datastore returns them, each mapped to the card the
    dashboard shows. */
module Api {
  import opened Common
  import opened Wire
  import opened Foreign

  /** The joined `events(name, starts_at)` of a pass; a missing column is `None`. */
  datatype EventView = EventView(name: Option<string>, startsAt: Option<string>)

  /** One row of `passes.select('minted_asset,wallet_pubkey,created_at,events(name,starts_at)')`. */
  datatype PassView = PassView(mintedAsset: Option<string>, walletPubkey: Option<string>,
                               createdAt: Option<string>, event: Option<EventView>)

  /** `{id, name, image, description, _explorer}`; `id` is null for a pass without an asset. */
  datatype Card = Card(id: Option<string>, name: string, image: string, description: string, explorer: string)

  /** What the passes query gives: its error, `null` data, or the rows. */
  datatype Query = QueryFailed(message: string) | NoData | Rows(rows: seq<PassView>)


  /** `s.slice(0, n)` for `n >= 0`. */
  function SliceFront(s: string, n: nat): (r: string)
    ensures |r| == Min(n, |s|) && r == s[..|r|]
  {
    s[..Min(n, |s|)]
  }

  /** `s.slice(-n)` for `n >= 0`: `-0` is `0`, so `n == 0` gives the whole text. */
  function SliceBack(s: string, n: nat): (r: string)
    ensures n == 0 ==> r == s
    ensures n > 0 ==> |r| == Min(n, |s|) && r == s[|s| - |r|..]
  {
    if n == 0 then s else s[Max(0, |s| - n)..]
  }

  /** The `short` wallet of a card: first four characters, an ellipsis, last
      four; an absent or empty wallet gives "". */
  function ShortWallet(wallet: Option<string>): string {
    if Truthy(wallet) then SliceFront(wallet.value, 4) + "…" + SliceBack(wallet.value, 4) else ""
  }

  /** A template literal renders a null `minted_asset` as "null". */
  function IdText(id: Option<string>): string {
    if id.Some? then id.value else "null"
  }

  /** `r?.events?.starts_at || r?.created_at` */
  function When(row: PassView): Option<string> {
    if row.event.Some? && Truthy(row.event.value.startsAt) then row.event.value.startsAt else row.createdAt
  }

  /** `r?.events?.name || 'POAP'` */
  function Title(row: PassView): string {
    if row.event.Some? && Truthy(row.event.value.name) then row.event.value.name.value else "POAP"
  }

  /** The card of one pass. */
  function CardOf(f: Foreign, row: PassView): Card {
    var when := When(row);
    var ts := if Truthy(when) then f.localeString(when.value) else "";
    Card(row.mintedAsset, Title(row),
         "https://picsum.photos/seed/" + f.encodeUri(IdText(row.mintedAsset)) + "/400/400",
         "Minted to " + ShortWallet(row.walletPubkey) + (if ts != "" then " · " + ts else ""),
         "https://solscan.io/address/" + IdText(row.mintedAsset) + "?cluster=devnet")
  }

  /** `fetchUserNFTs()`: the cards, or the message it throws. */
  function FetchUserNFTs(f: Foreign, session: Session, query: Query): (r: Result<seq<Card>, string>)
    ensures session.AuthFailed? ==> r == Err(session.message)
    ensures session.SignedOut? ==> r == Err(NotSignedIn)
    ensures session.SignedIn? && query.QueryFailed? ==> r == Err(query.message)
    ensures session.SignedIn? && query.NoData? ==> r == Ok([])
    ensures r.Ok? ==> (session.SignedIn? && !query.QueryFailed? &&
                       |r.value| == (if query.Rows? then |query.rows| else 0) &&
                       forall i :: 0 <= i < |r.value| ==> r.value[i] == CardOf(f, query.rows[i]))
  {
    match session
    case AuthFailed(m) => Err(m)
    case SignedOut => Err(NotSignedIn)
    case SignedIn(_) =>
      match query
      case QueryFailed(m) => Err(m)
      case NoData => Ok([])
      case Rows(rows) => Ok(seq(|rows|, i requires 0 <= i < |rows| => CardOf(f, rows[i])))
  }

  /** Each card keeps its pass's asset as id, has a non-empty name that is
      the event's name when there is one, links the explorer page of that
      asset on devnet, and describes the wallet it was minted to, with the
      time appended after " · " exactly when the event's start (or else the
      pass's creation time) is set. */
  lemma CardFields(f: Foreign, row: PassView)
    ensures var c := CardOf(f, row);
      c.id == row.mintedAsset && c.name != "" &&
      (row.event.Some? && Truthy(row.event.value.name) ==> c.name == row.event.value.name.value) &&
      (!(row.event.Some? && Truthy(row.event.value.name)) ==> c.name == "POAP") &&
      StartsWith(c.explorer, "https://solscan.io/address/") &&
      c.explorer[|"https://solscan.io/address/"|..] == IdText(row.mintedAsset) + "?cluster=devnet" &&
      StartsWith(c.description, "Minted to " + ShortWallet(row.walletPubkey)) &&
      (Truthy(When(row)) && f.localeString(When(row).value) != "" <==>
         |c.description| > |"Minted to " + ShortWallet(row.walletPubkey)|)
    ensures var c := CardOf(f, row);
      var head := "Minted to " + ShortWallet(row.walletPubkey);
      |c.description| > |head| ==> c.description[|head|..] == " · " + f.localeString(When(row).value)
  {
    var head := "Minted to " + ShortWallet(row.walletPubkey);
    var c := CardOf(f, row);
    assert c.description[..|head|] == head;
    if |c.description| > |head| {
      assert c.description == head + (" · " + f.localeString(When(row).value));
    }
    var base := "https://solscan.io/address/";
    assert c.explorer[..|base|] == base;
  }

  /** A wallet of at least eight characters shortens to its first four
      characters, "…" and its last four; a shorter non-empty wallet repeats
      what it has on both sides; an absent or empty one gives "". */
  lemma ShortWalletShape(wallet: Option<string>)
    ensures !Truthy(wallet) ==> ShortWallet(wallet) == ""
    ensures Truthy(wallet) ==>
      var w := wallet.value;
      var k := Min(4, |w|);
      var s := ShortWallet(wallet);
      |s| == 2 * k + 1 && s[..k] == w[..k] && s[k] == '…' && s[k + 1..] == w[|w| - k..]
    ensures Truthy(wallet) && |wallet.value| >= 8 ==> |ShortWallet(wallet)| == 9
  {
    if Truthy(wallet) {
      var w := wallet.value;
      var k := Min(4, |w|);
      var s := ShortWallet(wallet);
      assert s == SliceFront(w, 4) + "…" + SliceBack(w, 4);
    }
  }
}

/**
 * The parameters of the `create` command and the `config.json` record built
 * from them (cogs/bot_setup.py:32-53, 86-109). Role and channel parameters are
 * reduced to their integer ids, which is all the record keeps of them.
 */
module Config {
  import opened Optional

  /** The parameters of the `create` slash command, in declaration order. */
  datatype Request = Request(
    accessRole: int,
    nonRole: int,
    sellAccountsCategory: int,
    buyAccountsCategory: int,
    middlemanCategory: int,
    profileSellCategory: int,
    profileBuyCategory: int,
    mfaCategory: int,
    coinCategory: int,
    accountsCategory: int,
    profilesCategory: int,
    bedwarsCategory: int,
    ticketLogsChannel: int,
    coinPriceBuy: string,
    coinPriceSell: string,
    allowMembership: bool,
    membershipPrice: string,
    membershipFee: string,
    botToken: string,
    botName: string,
    venvName: string)

  /** The keys of a configuration record whose values are ids. */
  datatype IdKey =
    AccessRole
    | NonRole
    | SellAccountsCategory
    | BuyAccountsCategory
    | MiddlemanCategory
    | ProfileSellCategory
    | ProfileBuyCategory
    | MfaCategory
    | CoinCategory
    | AccountsCategory
    | ProfilesCategory
    | BedwarsCategory
    | TicketLogsChannel
    | OwnerId

  /** The keys of a configuration record whose values are strings. */
  datatype TextKey =
    CoinPriceBuy
    | CoinPriceSell
    | MembershipPrice
    | MembershipFee
    | Token
    | Prefix

  /** How an id key is spelled in `config.json`. */
  function IdName(k: IdKey): string
  {
    match k
    case AccessRole => "access_role"
    case NonRole => "non_role"
    case SellAccountsCategory => "sell_accounts_category"
    case BuyAccountsCategory => "buy_accounts_category"
    case MiddlemanCategory => "middleman_category"
    case ProfileSellCategory => "profile_sell_category"
    case ProfileBuyCategory => "profile_buy_category"
    case MfaCategory => "mfa_category"
    case CoinCategory => "coin_category"
    case AccountsCategory => "accounts_category"
    case ProfilesCategory => "profiles_category"
    case BedwarsCategory => "bedwars_category"
    case TicketLogsChannel => "ticket_logs_channel"
    case OwnerId => "owner_id"
  }

  /** How a string key is spelled in `config.json`. */
  function TextName(k: TextKey): string
  {
    match k
    case CoinPriceBuy => "coin_price_buy"
    case CoinPriceSell => "coin_price_sell"
    case MembershipPrice => "membership_price"
    case MembershipFee => "membership_fee"
    case Token => "token"
    case Prefix => "prefix"
  }

  /** The command prefix every new instance is given. */
  const DefaultPrefix: string := "!"

  /** The settings an instance reads back from its `config.json`. */
  datatype Settings = Settings(
    accessRole: int,
    nonRole: int,
    sellAccountsCategory: int,
    buyAccountsCategory: int,
    middlemanCategory: int,
    profileSellCategory: int,
    profileBuyCategory: int,
    mfaCategory: int,
    coinCategory: int,
    accountsCategory: int,
    profilesCategory: int,
    bedwarsCategory: int,
    ticketLogsChannel: int,
    coinPriceBuy: string,
    coinPriceSell: string,
    allowMembership: bool,
    membershipPrice: string,
    membershipFee: string,
    token: string,
    prefix: string,
    ownerId: int)

  /** The settings a request by `ownerId` should give its instance: every
      parameter but the instance name and the environment name, the default
      prefix, and the requesting user as owner. */
  function SettingsOf(req: Request, ownerId: int): Settings
  {
    Settings(
      req.accessRole, req.nonRole, req.sellAccountsCategory, req.buyAccountsCategory,
      req.middlemanCategory, req.profileSellCategory, req.profileBuyCategory, req.mfaCategory,
      req.coinCategory, req.accountsCategory, req.profilesCategory, req.bedwarsCategory,
      req.ticketLogsChannel, req.coinPriceBuy, req.coinPriceSell, req.allowMembership,
      req.membershipPrice, req.membershipFee, req.botToken, DefaultPrefix, ownerId)
  }

  /** The value the record gives an id key: the id entries of the
      dictionary literal of cogs/bot_setup.py:87-109. */
  function IdField(req: Request, ownerId: int, k: IdKey): int
  {
    match k
    case AccessRole => req.accessRole
    case NonRole => req.nonRole
    case SellAccountsCategory => req.sellAccountsCategory
    case BuyAccountsCategory => req.buyAccountsCategory
    case MiddlemanCategory => req.middlemanCategory
    case ProfileSellCategory => req.profileSellCategory
    case ProfileBuyCategory => req.profileBuyCategory
    case MfaCategory => req.mfaCategory
    case CoinCategory => req.coinCategory
    case AccountsCategory => req.accountsCategory
    case ProfilesCategory => req.profilesCategory
    case BedwarsCategory => req.bedwarsCategory
    case TicketLogsChannel => req.ticketLogsChannel
    case OwnerId => ownerId
  }

  /** The value the record gives a string key. */
  function TextField(req: Request, k: TextKey): string
  {
    match k
    case CoinPriceBuy => req.coinPriceBuy
    case CoinPriceSell => req.coinPriceSell
    case MembershipPrice => req.membershipPrice
    case MembershipFee => req.membershipFee
    case Token => req.botToken
    case Prefix => DefaultPrefix
  }

  /**
   * The JSON object written to `config.json`, its members grouped by the kind
   * of their values: the id members, the string members, and the one boolean
   * member, `allow_membership`.
   */
  datatype Record = Record(ids: map<IdKey, int>, texts: map<TextKey, string>, allowMembership: bool)

  /** The configuration record written to `config.json` (cogs/bot_setup.py:87-109). */
  function ConfigData(req: Request, ownerId: int): Record
  {
    Record(
      map i: IdKey | true :: IdField(req, ownerId, i),
      map t: TextKey | true :: TextField(req, t),
      req.allowMembership)
  }

  /** The record has all 21 members: every id key and every string key. */
  predicate Complete(r: Record)
  {
    (forall i: IdKey :: i in r.ids) && (forall t: TextKey :: t in r.texts)
  }

  /** How an instance reads its settings back from a configuration record:
      None unless every member is present. */
  function Decode(r: Record): Option<Settings>
  {
    if Complete(r) then
      Some(Settings(
        r.ids[AccessRole], r.ids[NonRole], r.ids[SellAccountsCategory],
        r.ids[BuyAccountsCategory], r.ids[MiddlemanCategory], r.ids[ProfileSellCategory],
        r.ids[ProfileBuyCategory], r.ids[MfaCategory], r.ids[CoinCategory],
        r.ids[AccountsCategory], r.ids[ProfilesCategory], r.ids[BedwarsCategory],
        r.ids[TicketLogsChannel], r.texts[CoinPriceBuy], r.texts[CoinPriceSell],
        r.allowMembership, r.texts[MembershipPrice], r.texts[MembershipFee],
        r.texts[Token], r.texts[Prefix], r.ids[OwnerId]))
    else
      None
  }

  /** The record has all 21 members, the default prefix, the requesting user
      as owner and the supplied token. */
  lemma ConfigRecord(req: Request, ownerId: int)
    ensures Complete(ConfigData(req, ownerId))
    ensures ConfigData(req, ownerId).texts[Prefix] == DefaultPrefix
    ensures ConfigData(req, ownerId).ids[OwnerId] == ownerId
    ensures ConfigData(req, ownerId).texts[Token] == req.botToken
  {
  }

  /** The 21 keys of `config.json` are spelled differently from one another,
      so the record's members map one-to-one onto the keys of the dictionary
      literal of cogs/bot_setup.py:87-109. */
  lemma KeysDistinct(i: IdKey, j: IdKey, s: TextKey, t: TextKey)
    ensures IdName(i) == IdName(j) ==> i == j
    ensures TextName(s) == TextName(t) ==> s == t
    ensures IdName(i) != TextName(s)
    ensures IdName(i) != "allow_membership" && TextName(s) != "allow_membership"
  {
  }

  /** The record loses nothing: reading it back yields every supplied setting,
      each under its own key. */
  lemma ConfigRoundTrip(req: Request, ownerId: int)
    ensures Decode(ConfigData(req, ownerId)) == Some(SettingsOf(req, ownerId))
  {
    assert Complete(ConfigData(req, ownerId));
  }
}

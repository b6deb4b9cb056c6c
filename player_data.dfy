/**
 * The game server's player records: icons, special-user colours, account
 * data and the reduced preview sent for the player list.
 */
module PlayerData {
  import opened Wrappers

  /** Rust `i16`. */
  type I16 = i: int | -0x8000 <= i < 0x8000
  /** Rust `i32`. */
  type I32 = i: int | -0x8000_0000 <= i < 0x8000_0000
  /** Rust `u16`. */
  type U16 = i: int | 0 <= i < 0x1_0000
  /** Rust `u8`. */
  type U8 = i: int | 0 <= i < 0x100

  /** An RGB colour. */
  datatype Color3B = Color3B(r: U8, g: U8, b: U8)

  /**
   * A special user as the shared configuration describes one: the colour
   * text, and the rest of its entries, which the conversion does not read.
   */
  datatype SpecialUser = SpecialUser(color: string, others: seq<string>)

  /** The icon ids and colours a player shows (`PlayerIconData`). */
  datatype PlayerIconData = PlayerIconData(
    cube: I16, ship: I16, ball: I16, ufo: I16, wave: I16, robot: I16,
    spider: I16, swing: I16, jetpack: I16, deathEffect: I16,
    color1: I16, color2: I16)

  /** `SpecialUserData`. */
  datatype SpecialUserData = SpecialUserData(nameColor: Color3B)

  /** `PlayerAccountData`; the name's length bound is not modelled. */
  datatype PlayerAccountData = PlayerAccountData(
    accountId: I32, name: string, icons: PlayerIconData,
    specialUserData: Option<SpecialUserData>)

  /** `PlayerPreviewAccountData`: the fields the total player list needs. */
  datatype PlayerPreviewAccountData = PlayerPreviewAccountData(
    accountId: I32, name: string, cube: I16, color1: I16, color2: I16, levelId: I32)

  /** `PlayerData`: a player's data in a level, with no fields yet. */
  datatype LevelPlayerData = LevelPlayerData

  /** `AssociatedPlayerData`. */
  datatype AssociatedPlayerData = AssociatedPlayerData(accountId: I32, data: LevelPlayerData)

  /** `PlayerMetadata`: progress in a level. */
  datatype PlayerMetadata = PlayerMetadata(percentage: U16, attempts: I32)

  /** `AssociatedPlayerMetadata`. */
  datatype AssociatedPlayerMetadata = AssociatedPlayerMetadata(accountId: I32, data: PlayerMetadata)

  /** `PlayerIconData::default`: every icon and the first colour are 1, the second colour is 3. */
  function DefaultIcons(): (d: PlayerIconData)
    ensures d.cube == d.ship == d.ball == d.ufo == d.wave == d.robot == 1
    ensures d.spider == d.swing == d.jetpack == d.deathEffect == d.color1 == 1
    ensures d.color2 == 3
  {
    PlayerIconData(1, 1, 1, 1, 1, 1, 1, 1, 1, 1, 1, 3)
  }

  /** `PlayerIconData::is_valid`: no icon set is rejected. */
  function IsValid(icons: PlayerIconData): (r: bool)
    ensures r
  {
    true
  }

  /** `SpecialUserData::default`: a white name. */
  function DefaultSpecialUserData(): (d: SpecialUserData)
    ensures d.nameColor == Color3B(255, 255, 255)
  {
    SpecialUserData(Color3B(255, 255, 255))
  }

  /**
   * `SpecialUserData::try_from`: the special user's colour text is parsed
   * with `parse`; the result holds the parsed colour, and a parse error is
   * returned unchanged.
   */
  function TryFromSpecialUser<E>(user: SpecialUser, parse: string -> Result<Color3B, E>): (r: Result<SpecialUserData, E>)
    ensures r.Ok? <==> parse(user.color).Ok?
    ensures r.Ok? ==> r.value.nameColor == parse(user.color).value
    ensures r.Err? ==> r.error == parse(user.color).error
  {
    match parse(user.color)
    case Ok(c) => Ok(SpecialUserData(c))
    case Err(e) => Err(e)
  }

  /** Two special users with the same colour text convert alike, whatever their other entries. */
  lemma TryFromDependsOnColorOnly<E>(u1: SpecialUser, u2: SpecialUser, parse: string -> Result<Color3B, E>)
    requires u1.color == u2.color
    ensures TryFromSpecialUser(u1, parse) == TryFromSpecialUser(u2, parse)
  {
  }

  /** The derived `PlayerAccountData::default`: account 0, empty name, default icons, no special data. */
  function DefaultAccount(): (d: PlayerAccountData)
    ensures d.accountId == 0 && d.name == []
    ensures d.icons == DefaultIcons() && d.specialUserData == None
  {
    PlayerAccountData(0, [], DefaultIcons(), None)
  }

  /** The derived `PlayerPreviewAccountData::default`: every number 0, empty name. */
  function DefaultPreview(): (d: PlayerPreviewAccountData)
    ensures d.accountId == 0 && d.name == [] && d.levelId == 0
    ensures d.cube == 0 && d.color1 == 0 && d.color2 == 0
  {
    PlayerPreviewAccountData(0, [], 0, 0, 0, 0)
  }

  /** The derived `PlayerMetadata::default`. */
  function DefaultMetadata(): (d: PlayerMetadata)
    ensures d.percentage == 0 && d.attempts == 0
  {
    PlayerMetadata(0, 0)
  }

  /** The derived `AssociatedPlayerData::default`. */
  function DefaultAssociatedData(): (d: AssociatedPlayerData)
    ensures d.accountId == 0
  {
    AssociatedPlayerData(0, LevelPlayerData)
  }

  /** The derived `AssociatedPlayerMetadata::default`. */
  function DefaultAssociatedMetadata(): (d: AssociatedPlayerMetadata)
    ensures d.accountId == 0 && d.data == DefaultMetadata()
  {
    AssociatedPlayerMetadata(0, DefaultMetadata())
  }

  /**
   * `PlayerAccountData::make_preview`: the account id and name are copied,
   * the cube and both colours come from the icons, and the level is the
   * argument.
   */
  function MakePreview(account: PlayerAccountData, levelId: I32): (p: PlayerPreviewAccountData)
    ensures p.accountId == account.accountId && p.name == account.name
    ensures p.cube == account.icons.cube
    ensures p.color1 == account.icons.color1 && p.color2 == account.icons.color2
    ensures p.levelId == levelId
  {
    PlayerPreviewAccountData(
      account.accountId, account.name,
      account.icons.cube, account.icons.color1, account.icons.color2,
      levelId)
  }

  /**
   * The preview sees nothing of an account but its id, name, cube and two
   * colours: no other icon and not the special-user data.
   */
  lemma PreviewIgnoresOtherFields(a: PlayerAccountData, b: PlayerAccountData, levelId: I32)
    requires a.accountId == b.accountId && a.name == b.name
    requires a.icons.cube == b.icons.cube
    requires a.icons.color1 == b.icons.color1 && a.icons.color2 == b.icons.color2
    ensures MakePreview(a, levelId) == MakePreview(b, levelId)
  {
  }

  /** Previews of one account for two levels differ in the level only. */
  lemma PreviewLevelOnly(a: PlayerAccountData, l1: I32, l2: I32)
    ensures MakePreview(a, l1) == MakePreview(a, l2).(levelId := l1)
  {
  }

  /** The preview of a default account: id 0, empty name, cube 1, colours 1 and 3. */
  lemma PreviewOfDefault(levelId: I32)
    ensures MakePreview(DefaultAccount(), levelId) == PlayerPreviewAccountData(0, [], 1, 1, 3, levelId)
  {
  }
}

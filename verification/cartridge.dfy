/**
 * A loaded cartridge: the ROM image and the path it came from, with the
 * accessors that read the cartridge header out of the image. Every accessor
 * reads at a fixed offset and reports a field that lies past the end of the
 * image as missing, except the new licensee, which falls back to `Unknown`.
 */
module Cartridge {
  import opened Bytes
  import opened Wrappers
  import HeaderLayout
  import Strings
  import ColorGameBoyFlag
  import NewLicensee
  import SuperGameBoyFlag
  import CartridgeType
  import RomSize
  import RamSize
  import Destination

  /** Where the ROM image was loaded from. */
  datatype CartridgeContext = CartridgeContext(path: string)

  /** A ROM image together with its context. */
  datatype Cartridge = Cartridge(context: CartridgeContext, rom: seq<byte>)

  /**
   * `CartridgeContext::filename`: the part of the path after its last '/', or
   * the whole path when it has none. It never fails, and is empty when the
   * path ends in '/'.
   */
  function Filename(context: CartridgeContext): (name: string)
    ensures '/' !in name
    ensures |name| <= |context.path| && context.path[|context.path| - |name|..] == name
    ensures '/' in context.path ==> |name| < |context.path| && context.path[|context.path| - |name| - 1] == '/'
    ensures '/' !in context.path ==> name == context.path
  {
    Strings.LastPiece(context.path, '/')
  }

  /** `rom_size`: the length of the ROM image in bytes; the whole header is present exactly when it exceeds 0x014F. */
  function RomLength(cart: Cartridge): (n: nat)
    ensures Header(cart).Some? <==> n > HeaderLayout.HeaderEnd
    ensures n == |cart.rom|
  {
    |cart.rom|
  }

  /** `header`: the 80 header bytes 0x0100-0x014F, when the image is long enough to hold all of them. */
  function Header(cart: Cartridge): (r: Option<seq<byte>>)
    ensures r.Some? <==> |cart.rom| >= 0x0150
    ensures r.Some? ==> |r.value| == 0x50 && forall i :: 0 <= i < 0x50 ==> r.value[i] == cart.rom[0x0100 + i]
  {
    GetInclusive(cart.rom, HeaderLayout.HeaderStart, HeaderLayout.HeaderEnd)
  }

  /** `header_logo`: the 48 bytes of the Nintendo logo bitmap, 0x0104-0x0133. */
  function HeaderLogo(cart: Cartridge): (r: Option<seq<byte>>)
    ensures r.Some? <==> |cart.rom| >= 0x0134
    ensures r.Some? ==> |r.value| == 48 && forall i :: 0 <= i < 48 ==> r.value[i] == cart.rom[0x0104 + i]
  {
    GetInclusive(cart.rom, HeaderLayout.HeaderLogoStart, HeaderLayout.HeaderLogoEnd)
  }

  /** Bytes read as text, each byte becoming the character with that code point (`b as char`). */
  function Latin1(bytes: seq<byte>): (text: string)
    ensures |text| == |bytes|
    ensures forall i :: 0 <= i < |bytes| ==> text[i] as int == bytes[i]
  {
    seq(|bytes|, i requires 0 <= i < |bytes| => ByteAsChar(bytes[i]))
  }

  /** The title from 0x0134 up to and including `end`, as text. */
  function Title(cart: Cartridge, end: nat): Option<string> {
    match GetInclusive(cart.rom, HeaderLayout.HeaderTitleStart, end)
    case None => None
    case Some(bytes) => Some(Latin1(bytes))
  }

  /** `header_title_16`: the title as first specified, 16 characters from 0x0134 through 0x0143. */
  function HeaderTitle16(cart: Cartridge): (t: Option<string>)
    ensures t.Some? <==> |cart.rom| > 0x0143
    ensures t.Some? ==> |t.value| == 16 && forall i :: 0 <= i < 16 ==> t.value[i] as int == cart.rom[0x0134 + i]
  {
    Title(cart, HeaderLayout.HeaderTitleLen16End)
  }

  /** `header_title_15`: the title once the CGB flag took its last byte, 15 characters from 0x0134 through 0x0142. */
  function HeaderTitle15(cart: Cartridge): (t: Option<string>)
    ensures t.Some? <==> |cart.rom| > 0x0142
    ensures t.Some? ==> |t.value| == 15 && forall i :: 0 <= i < 15 ==> t.value[i] as int == cart.rom[0x0134 + i]
  {
    Title(cart, HeaderLayout.HeaderTitleLen15End)
  }

  /** `header_title_11`: the title once the manufacturer code took its last four bytes, 11 characters from 0x0134 through 0x013E. */
  function HeaderTitle11(cart: Cartridge): (t: Option<string>)
    ensures t.Some? <==> |cart.rom| > 0x013E
    ensures t.Some? ==> |t.value| == 11 && forall i :: 0 <= i < 11 ==> t.value[i] as int == cart.rom[0x0134 + i]
  {
    Title(cart, HeaderLayout.HeaderTitleLen11End)
  }

  /** `header_manufacturer_code`: the four bytes 0x013F-0x0142. */
  function HeaderManufacturerCode(cart: Cartridge): (r: Option<seq<byte>>)
    ensures r.Some? <==> |cart.rom| > 0x0142
    ensures r.Some? ==> |r.value| == 4 && forall i :: 0 <= i < 4 ==> r.value[i] == cart.rom[0x013F + i]
  {
    GetInclusive(cart.rom, HeaderLayout.HeaderManufacturerCodeStart, HeaderLayout.HeaderManufacturerCodeEnd)
  }

  /** `header_color_game_boy_flag`: byte 0x0143 decoded, when the image holds it. */
  function HeaderColorGameBoyFlag(cart: Cartridge): (r: Option<ColorGameBoyFlag.ColorGameBoyFlag>)
    ensures r.Some? <==> |cart.rom| > 0x0143
    ensures r.Some? ==> r.value == ColorGameBoyFlag.FromByte(cart.rom[0x0143])
  {
    match Get(cart.rom, HeaderLayout.HeaderColorGameBoyFlag)
    case None => None
    case Some(b) => Some(ColorGameBoyFlag.FromByte(b))
  }

  /**
   * `header_new_licensee`: bytes 0x0144-0x0145 decoded as a big-endian word.
   * It never fails: an image too short to hold both bytes gives `Unknown`.
   */
  function HeaderNewLicensee(cart: Cartridge): (l: NewLicensee.NewLicensee)
    ensures |cart.rom| > 0x0145 ==> l == NewLicensee.FromWord(FromBeBytes(cart.rom[0x0144], cart.rom[0x0145]))
    ensures |cart.rom| <= 0x0145 ==> l == NewLicensee.Unknown
  {
    match NewLicensee.FromBytes(GetInclusive(cart.rom, HeaderLayout.HeaderNewLicenseeCodeStart, HeaderLayout.HeaderNewLicenseeCodeEnd))
    case Ok(l) => l
    case Err(_) => NewLicensee.Unknown
  }

  /** `header_super_game_boy_flag`: byte 0x0146 decoded, when the image holds it. */
  function HeaderSuperGameBoyFlag(cart: Cartridge): (r: Option<SuperGameBoyFlag.SuperGameBoyFlag>)
    ensures r.Some? <==> |cart.rom| > 0x0146
    ensures r.Some? ==> r.value == SuperGameBoyFlag.FromByte(cart.rom[0x0146])
  {
    match Get(cart.rom, HeaderLayout.HeaderSuperGameBoyFlag)
    case None => None
    case Some(b) => Some(SuperGameBoyFlag.FromByte(b))
  }

  /** `header_cartridge_type`: byte 0x0147 decoded, when the image holds it. */
  function HeaderCartridgeType(cart: Cartridge): (r: Option<CartridgeType.CartridgeType>)
    ensures r.Some? <==> |cart.rom| > 0x0147
    ensures r.Some? ==> r.value == CartridgeType.FromByte(cart.rom[0x0147])
  {
    match Get(cart.rom, HeaderLayout.HeaderCartridgeType)
    case None => None
    case Some(b) => Some(CartridgeType.FromByte(b))
  }

  /** `header_cartridge_rom_size`: byte 0x0148 decoded, when the image holds it. */
  function HeaderCartridgeRomSize(cart: Cartridge): (r: Option<RomSize.RomSize>)
    ensures r.Some? <==> |cart.rom| > 0x0148
    ensures r.Some? ==> r.value == RomSize.FromByte(cart.rom[0x0148])
  {
    match Get(cart.rom, HeaderLayout.HeaderRomSize)
    case None => None
    case Some(b) => Some(RomSize.FromByte(b))
  }

  /** `header_cartridge_ram_size`: byte 0x0149 decoded, when the image holds it. */
  function HeaderCartridgeRamSize(cart: Cartridge): (r: Option<RamSize.RamSize>)
    ensures r.Some? <==> |cart.rom| > 0x0149
    ensures r.Some? ==> r.value == RamSize.FromByte(cart.rom[0x0149])
  {
    match Get(cart.rom, HeaderLayout.HeaderRamSize)
    case None => None
    case Some(b) => Some(RamSize.FromByte(b))
  }

  /** `header_destination`: byte 0x014A decoded, when the image holds it. */
  function HeaderDestination(cart: Cartridge): (r: Option<Destination.Destination>)
    ensures r.Some? <==> |cart.rom| > 0x014A
    ensures r.Some? ==> r.value == Destination.FromByte(cart.rom[0x014A])
  {
    match Get(cart.rom, HeaderLayout.HeaderDestinationCode)
    case None => None
    case Some(b) => Some(Destination.FromByte(b))
  }

  /**
   * The three titles are one field read to three lengths: whenever a longer
   * title is present, the shorter ones are present too and are its prefixes.
   */
  lemma TitlesArePrefixes(cart: Cartridge)
    ensures HeaderTitle16(cart).Some? ==> HeaderTitle15(cart).Some? && HeaderTitle15(cart).value == HeaderTitle16(cart).value[..15]
    ensures HeaderTitle15(cart).Some? ==> HeaderTitle11(cart).Some? && HeaderTitle11(cart).value == HeaderTitle15(cart).value[..11]
  {
  }

  /**
   * The 15-character title is the 11-character title followed by the
   * manufacturer code, and the last character of the 16-character title is
   * the CGB flag byte.
   */
  lemma TitleOverlapsLaterFields(cart: Cartridge)
    ensures HeaderTitle15(cart).Some? ==>
      HeaderTitle15(cart).value == HeaderTitle11(cart).value + Latin1(HeaderManufacturerCode(cart).value)
    ensures HeaderTitle16(cart).Some? ==>
      HeaderColorGameBoyFlag(cart) == Some(ColorGameBoyFlag.FromByte(HeaderTitle16(cart).value[15] as int))
  {
  }

  /**
   * Every field accessor reads inside the header: when the whole header is
   * present, each field is present and decodes the header's own bytes.
   */
  lemma HeaderHoldsEveryField(cart: Cartridge)
    requires Header(cart).Some?
    ensures var h := Header(cart).value;
      && HeaderLogo(cart) == Some(h[0x04..0x34])
      && HeaderTitle16(cart) == Some(Latin1(h[0x34..0x44]))
      && HeaderManufacturerCode(cart) == Some(h[0x3F..0x43])
      && HeaderColorGameBoyFlag(cart) == Some(ColorGameBoyFlag.FromByte(h[0x43]))
      && HeaderNewLicensee(cart) == NewLicensee.FromWord(FromBeBytes(h[0x44], h[0x45]))
      && HeaderSuperGameBoyFlag(cart) == Some(SuperGameBoyFlag.FromByte(h[0x46]))
      && HeaderCartridgeType(cart) == Some(CartridgeType.FromByte(h[0x47]))
      && HeaderCartridgeRomSize(cart) == Some(RomSize.FromByte(h[0x48]))
      && HeaderCartridgeRamSize(cart) == Some(RamSize.FromByte(h[0x49]))
      && HeaderDestination(cart) == Some(Destination.FromByte(h[0x4A]))
  {
    var h := Header(cart).value;
    assert HeaderLogo(cart).value == h[0x04..0x34] by {
      forall i | 0 <= i < 48 ensures HeaderLogo(cart).value[i] == h[0x04..0x34][i] {}
    }
    assert HeaderTitle16(cart).value == Latin1(h[0x34..0x44]) by {
      forall i | 0 <= i < 16 ensures HeaderTitle16(cart).value[i] == Latin1(h[0x34..0x44])[i] {}
    }
    assert HeaderManufacturerCode(cart).value == h[0x3F..0x43] by {
      forall i | 0 <= i < 4 ensures HeaderManufacturerCode(cart).value[i] == h[0x3F..0x43][i] {}
    }
  }
}

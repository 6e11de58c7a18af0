/**
 * Where each cartridge header field sits in the ROM image. The header spans
 * 0x0100-0x014F; multi-byte fields are given by their first and last offset,
 * both inclusive.
 */
module HeaderLayout {
  const HeaderStart: nat := 0x0100
  const HeaderLogoStart: nat := 0x0104
  const HeaderLogoEnd: nat := 0x0133
  const HeaderTitleStart: nat := 0x0134
  const HeaderTitleLen11End: nat := 0x013E
  const HeaderTitleLen15End: nat := 0x0142
  /** The title as first specified: 16 characters, overlapping the CGB flag. */
  const HeaderTitleLen16End: nat := 0x0143
  const HeaderManufacturerCodeStart: nat := 0x013F
  const HeaderManufacturerCodeEnd: nat := 0x0142
  const HeaderColorGameBoyFlag: nat := 0x0143
  const HeaderNewLicenseeCodeStart: nat := 0x0144
  const HeaderNewLicenseeCodeEnd: nat := 0x0145
  const HeaderSuperGameBoyFlag: nat := 0x0146
  const HeaderCartridgeType: nat := 0x0147
  const HeaderRomSize: nat := 0x0148
  const HeaderRamSize: nat := 0x0149
  const HeaderDestinationCode: nat := 0x014A
  const HeaderOldLicenseeCode: nat := 0x014B
  const HeaderEnd: nat := 0x014F
}

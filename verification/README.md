# Game Boy cartridge header decoder

A model, in Dafny, of how the FerrisBoy emulator reads the header of a Game
Boy cartridge: the ROM image and the path it was loaded from, the fixed
offsets of the header fields inside the image, and the code tables that turn
the header's bytes into typed values (CGB and SGB flags, cartridge type, ROM
and RAM size, destination, new and old licensee).

- `wrappers.dfy`, `errors.dfy`: Rust's `Option` and `Result`, and the
  `InvalidInput { expected, actual }` error.
- `bytes.dfy`: bytes and 16-bit words as bounded integers. It covers the
  `ascii_pair!` macro, written as the shift and bitwise or it expands to,
  `u16::from_be_bytes` and slice `get`.
- `color_game_boy_flag.dfy`, `super_game_boy_flag.dfy`, `cartridge_type.dfy`,
  `rom_size.dfy`, `ram_size.dfy`, `destination.dfy`: one module per one-byte
  code table. Each has a datatype with one constructor per variant, its
  `#[repr(u8)]` discriminant, the derived `try_from` and `from_byte`;
  `rom_size.dfy` and `ram_size.dfy` also hold the ROM and RAM bank counts.
- `num_enum.dfy`: the two ways the `TryFromPrimitive` derive may treat a
  number that is no variant's discriminant (see below).
- `licensee_code.dfy`, `new_licensee.dfy`, `old_licensee.dfy`: the two
  licensee tables. Their discriminants are `ascii_pair!` codes. Each variant
  is identified by its two characters, and the enum is the set of declared
  codes plus `Unknown`. Every variant is a named constant in declaration
  order.
- `strings.dfy`: `str::split` on one character, as `filename` uses it.
- `header_layout.dfy`, `cartridge.dfy`: the header offsets, `Cartridge`,
  `CartridgeContext` and the header accessors.

Rust integers are unbounded `int`s restricted to their range (`byte`, `u16`).
`b as char` on a `u8` is the character with that code point. Rust's implicit
discriminants are written out: a variant declared without a value takes its
predecessor's value plus one. Every variant declared without a value is a
`#[default]` one, but not every `#[default]` variant lacks a value:
`CartridgeType::Unknown` is explicitly 0xFB. For example,
`NewLicensee::Unknown` follows `Kodansha` ("DK") as "DL", and
`OldLicensee::Unknown` follows `Ljn3` ("FF") as "FG"; `try_from` finds those
variants from those values.

Every enum marks its fallback variant with the standard `#[default]`
attribute. Whether the `num_enum` derive reads that attribute as a catch-all
depends on its release, and the source does not fix the release. So each
`TryFromPrimitive` takes a `NumEnum.Reading`: `ErrorOnMiss` (a number that is
no discriminant is an error) or `DefaultOnMiss` (it gives the default
variant). The contracts about `try_from` say which reading they hold under.
`from_byte` and `from_word` replace an error by the default variant, so they
give the same result under both readings; `FromByteUnderEitherReading` and
`FromWordUnderEitherReading` prove it.

Two points where the code departs from the Pan Docs description of the
header ("The Cartridge Header"), which the source cites; the model follows
the code:

- In Pan Docs, an old licensee value of 0x33 means "use the new licensee
  code". The code has no such rule: `header_new_licensee` always reads the
  two new-licensee bytes, and nothing reads the old licensee byte at 0x014B.
- The old licensee field is one byte (0x014B), but the `OldLicensee` table
  is keyed by two ASCII characters. `OldLicensee.WidenedByteIsUnknown` shows
  that the header byte itself, widened to a word, never decodes to a
  declared variant.

## Model

| member | source | states |
|---|---|---|
| Bytes.AsciiPairIsBigEndian | crates/fb-core/src/hardware/cartridge_definitions.rs:8-12 | `ascii_pair!(a, b)`, computed as `(a as u16) << 8 | (b as u16)`, equals the big-endian word of the two character codes, `u16::from_be_bytes([a, b])`, for any pair of one-byte characters |
| Bytes.BeBytesRoundTrip | crates/fb-core/src/hardware/cartridge_definitions.rs:280 | `u16::from_be_bytes` of two bytes, split back into its high and low byte, gives the same two bytes |
| ColorGameBoyFlag.TryFromPrimitiveInvertsDiscriminant | crates/fb-core/src/hardware/cartridge_definitions.rs:41-49 | under either reading of `#[default]`, the derived `try_from` finds every variant of `ColorGameBoyFlag` from its own discriminant, the default `Unknown` from its implicit 0xC1 |
| ColorGameBoyFlag.TryFromPrimitiveSound | crates/fb-core/src/hardware/cartridge_definitions.rs:41-49 | a variant `try_from` returns has the byte it was given as its discriminant; only when the derive reads `#[default]` as a catch-all may it instead be the default `Unknown` |
| ColorGameBoyFlag.TryFromPrimitiveComplete | crates/fb-core/src/hardware/cartridge_definitions.rs:41-49 | when the derive has no catch-all, `try_from` fails exactly on the bytes that are no variant's discriminant; when it reads `#[default]` as one, `try_from` never fails and answers those bytes with `Unknown` |
| ColorGameBoyFlag.FromByte | crates/fb-core/src/hardware/cartridge_definitions.rs:51-63 | `from_byte` is total: the result's discriminant is the byte, or the byte is no discriminant at all and the result is the default `Unknown` (0xC1) |
| ColorGameBoyFlag.FromByteInvertsDiscriminant | crates/fb-core/src/hardware/cartridge_definitions.rs:41-49 | `from_byte` of a variant's discriminant gives that variant back, so no two variants share a byte |
| ColorGameBoyFlag.FromByteUnderEitherReading | crates/fb-core/src/hardware/cartridge_definitions.rs:51-63 | `from_byte`, which keeps the variant `try_from` finds and replaces an error by `Unknown`, decodes every byte to the same variant whether the derive reports a miss as an error or answers it with `Unknown` |
| SuperGameBoyFlag.TryFromPrimitiveInvertsDiscriminant | crates/fb-core/src/hardware/cartridge_definitions.rs:286-293 | under either reading of `#[default]`, the derived `try_from` finds every variant of `SuperGameBoyFlag` from its own discriminant, the default `Unsupported` from its implicit 0x04 |
| SuperGameBoyFlag.TryFromPrimitiveSound | crates/fb-core/src/hardware/cartridge_definitions.rs:286-293 | a variant `try_from` returns has the byte it was given as its discriminant; only when the derive reads `#[default]` as a catch-all may it instead be the default `Unsupported` |
| SuperGameBoyFlag.TryFromPrimitiveComplete | crates/fb-core/src/hardware/cartridge_definitions.rs:286-293 | when the derive has no catch-all, `try_from` fails exactly on the bytes that are no variant's discriminant; when it reads `#[default]` as one, `try_from` never fails and answers those bytes with `Unsupported` |
| SuperGameBoyFlag.FromByte | crates/fb-core/src/hardware/cartridge_definitions.rs:295-307 | `from_byte` is total: the result's discriminant is the byte, or the byte is no discriminant at all and the result is the default `Unsupported` (0x04); the result is `SupportsSuperGameBoyFunctions` exactly when the byte is 0x03 |
| SuperGameBoyFlag.FromByteInvertsDiscriminant | crates/fb-core/src/hardware/cartridge_definitions.rs:286-293 | `from_byte` of a variant's discriminant gives that variant back, so no two variants share a byte |
| SuperGameBoyFlag.FromByteUnderEitherReading | crates/fb-core/src/hardware/cartridge_definitions.rs:295-307 | `from_byte`, which keeps the variant `try_from` finds and replaces an error by `Unsupported`, decodes every byte to the same variant whether the derive reports a miss as an error or answers it with `Unsupported` |
| CartridgeType.TryFromPrimitiveInvertsDiscriminant | crates/fb-core/src/hardware/cartridge_definitions.rs:310-377 | under either reading of `#[default]`, the derived `try_from` finds every variant of `CartridgeType` from its own discriminant, the default `Unknown` from its explicit 0xFB |
| CartridgeType.TryFromPrimitiveSound | crates/fb-core/src/hardware/cartridge_definitions.rs:310-377 | a variant `try_from` returns has the byte it was given as its discriminant; only when the derive reads `#[default]` as a catch-all may it instead be the default `Unknown` |
| CartridgeType.TryFromPrimitiveComplete | crates/fb-core/src/hardware/cartridge_definitions.rs:310-377 | when the derive has no catch-all, `try_from` fails exactly on the bytes that are no variant's discriminant; when it reads `#[default]` as one, `try_from` never fails and answers those bytes with `Unknown` |
| CartridgeType.FromByte | crates/fb-core/src/hardware/cartridge_definitions.rs:379-391 | `from_byte` is total: the result's discriminant is the byte, or the byte is no discriminant at all and the result is the default `Unknown` (0xFB) |
| CartridgeType.FromByteInvertsDiscriminant | crates/fb-core/src/hardware/cartridge_definitions.rs:310-377 | `from_byte` of a variant's discriminant gives that variant back, so no two variants share a byte |
| CartridgeType.FromByteUnderEitherReading | crates/fb-core/src/hardware/cartridge_definitions.rs:379-391 | `from_byte`, which keeps the variant `try_from` finds and replaces an error by `Unknown`, decodes every byte to the same variant whether the derive reports a miss as an error or answers it with `Unknown` |
| RomSize.TryFromPrimitiveInvertsDiscriminant | crates/fb-core/src/hardware/cartridge_definitions.rs:394-424 | under either reading of `#[default]`, the derived `try_from` finds every variant of `RomSize` from its own discriminant, the default `Unknown` from its implicit 0x55 |
| RomSize.TryFromPrimitiveSound | crates/fb-core/src/hardware/cartridge_definitions.rs:394-424 | a variant `try_from` returns has the byte it was given as its discriminant; only when the derive reads `#[default]` as a catch-all may it instead be the default `Unknown` |
| RomSize.TryFromPrimitiveComplete | crates/fb-core/src/hardware/cartridge_definitions.rs:394-424 | when the derive has no catch-all, `try_from` fails exactly on the bytes that are no variant's discriminant; when it reads `#[default]` as one, `try_from` never fails and answers those bytes with `Unknown` |
| RomSize.FromByte | crates/fb-core/src/hardware/cartridge_definitions.rs:426-437 | `from_byte` is total: the result's discriminant is the byte, or the byte is no discriminant at all and the result is the default `Unknown` (0x55) |
| RomSize.FromByteInvertsDiscriminant | crates/fb-core/src/hardware/cartridge_definitions.rs:394-424 | `from_byte` of a variant's discriminant gives that variant back, so no two variants share a byte |
| RomSize.FromByteUnderEitherReading | crates/fb-core/src/hardware/cartridge_definitions.rs:426-437 | `from_byte`, which keeps the variant `try_from` finds and replaces an error by `Unknown`, decodes every byte to the same variant whether the derive reports a miss as an error or answers it with `Unknown` |
| RamSize.TryFromPrimitiveInvertsDiscriminant | crates/fb-core/src/hardware/cartridge_definitions.rs:473-488 | under either reading of `#[default]`, the derived `try_from` finds every variant of `RamSize` from its own discriminant, the default `Unknown` from its implicit 0x06 |
| RamSize.TryFromPrimitiveSound | crates/fb-core/src/hardware/cartridge_definitions.rs:473-488 | a variant `try_from` returns has the byte it was given as its discriminant; only when the derive reads `#[default]` as a catch-all may it instead be the default `Unknown` |
| RamSize.TryFromPrimitiveComplete | crates/fb-core/src/hardware/cartridge_definitions.rs:473-488 | when the derive has no catch-all, `try_from` fails exactly on the bytes that are no variant's discriminant; when it reads `#[default]` as one, `try_from` never fails and answers those bytes with `Unknown` |
| RamSize.FromByte | crates/fb-core/src/hardware/cartridge_definitions.rs:490-501 | `from_byte` is total: the result's discriminant is the byte, or the byte is no discriminant at all and the result is the default `Unknown` (0x06) |
| RamSize.FromByteInvertsDiscriminant | crates/fb-core/src/hardware/cartridge_definitions.rs:473-488 | `from_byte` of a variant's discriminant gives that variant back, so no two variants share a byte |
| RamSize.FromByteUnderEitherReading | crates/fb-core/src/hardware/cartridge_definitions.rs:490-501 | `from_byte`, which keeps the variant `try_from` finds and replaces an error by `Unknown`, decodes every byte to the same variant whether the derive reports a miss as an error or answers it with `Unknown` |
| Destination.TryFromPrimitiveInvertsDiscriminant | crates/fb-core/src/hardware/cartridge_definitions.rs:517-525 | under either reading of `#[default]`, the derived `try_from` finds every variant of `Destination` from its own discriminant, the default `Unknown` from its implicit 0x02 |
| Destination.TryFromPrimitiveSound | crates/fb-core/src/hardware/cartridge_definitions.rs:517-525 | a variant `try_from` returns has the byte it was given as its discriminant; only when the derive reads `#[default]` as a catch-all may it instead be the default `Unknown` |
| Destination.TryFromPrimitiveComplete | crates/fb-core/src/hardware/cartridge_definitions.rs:517-525 | when the derive has no catch-all, `try_from` fails exactly on the bytes that are no variant's discriminant; when it reads `#[default]` as one, `try_from` never fails and answers those bytes with `Unknown` |
| Destination.FromByte | crates/fb-core/src/hardware/cartridge_definitions.rs:527-539 | `from_byte` is total: the result's discriminant is the byte, or the byte is no discriminant at all and the result is the default `Unknown` (0x02) |
| Destination.FromByteInvertsDiscriminant | crates/fb-core/src/hardware/cartridge_definitions.rs:517-525 | `from_byte` of a variant's discriminant gives that variant back, so no two variants share a byte |
| Destination.FromByteUnderEitherReading | crates/fb-core/src/hardware/cartridge_definitions.rs:527-539 | `from_byte`, which keeps the variant `try_from` finds and replaces an error by `Unknown`, decodes every byte to the same variant whether the derive reports a miss as an error or answers it with `Unknown` |
| RomSize.NumberOfRomBanks | crates/fb-core/src/hardware/cartridge_definitions.rs:439-467 | codes 0x00-0x08 hold `2 * 2^code` banks of 16 KiB; the bank count is zero exactly for `Unknown` |
| RomSize.RomBanksOfCode | crates/fb-core/src/hardware/cartridge_definitions.rs:427-467 | the size byte decodes to `2 << code` banks for 0x00-0x08, to 72, 80 and 96 banks for 0x52, 0x53 and 0x54, and to none for every other byte |
| RamSize.NumberOfRam8KiBBanks | crates/fb-core/src/hardware/cartridge_definitions.rs:503-513 | the bank count is one of 0, 1, 4, 8, 16, and zero exactly for `_0`, `Unused` and `Unknown` |
| RamSize.RamBanksMatchNamedSize | crates/fb-core/src/hardware/cartridge_definitions.rs:475-513 | for every size named by its capacity (`_0`, `_8KiB`, `_32KiB`, `_128KiB`, `_64KiB`), the bank count times 8 KiB is that capacity; `Unused` and `Unknown` name none and have no banks |
| RamSize.RamBanksOfCode | crates/fb-core/src/hardware/cartridge_definitions.rs:491-513 | codes 0x00-0x05 give 0, 0, 1, 4, 16 and 8 banks of 8 KiB; every other byte gives none |
| RamSize.RamBanksNotMonotonic | crates/fb-core/src/hardware/cartridge_definitions.rs:509-510 | a larger code can mean fewer banks: 0x04 (128 KiB, 16 banks) precedes 0x05 (64 KiB, 8 banks) |
| NewLicensee.UnknownFollowsLast | crates/fb-core/src/hardware/cartridge_definitions.rs:239-243 | `Unknown`, declared without a value, takes `Kodansha`'s discriminant plus one, and no declared variant has that code |
| NewLicensee.TryFromPrimitiveInvertsDiscriminant | crates/fb-core/src/hardware/cartridge_definitions.rs:67-243 | under either reading of `#[default]`, the derived `try_from` finds every variant from its own `ascii_pair!` discriminant, `Unknown` included |
| NewLicensee.TryFromPrimitiveComplete | crates/fb-core/src/hardware/cartridge_definitions.rs:67-243 | when the derive has no catch-all, `try_from` fails exactly on the words that are no variant's discriminant, and a variant it finds has the given word as its discriminant; when it reads `#[default]` as one, `try_from` never fails and answers those words with `Unknown` |
| NewLicensee.FromWord | crates/fb-core/src/hardware/cartridge_definitions.rs:246-255 | `from_word` is total: the result's discriminant is the word, or the word is no variant's discriminant and the result is the default `Unknown` |
| NewLicensee.FromWordInvertsDiscriminant | crates/fb-core/src/hardware/cartridge_definitions.rs:67-243 | `from_word` of a variant's discriminant gives that variant back, so no two variants share a code |
| NewLicensee.FromWordUnderEitherReading | crates/fb-core/src/hardware/cartridge_definitions.rs:246-255 | `from_word`, which keeps the variant `try_from` finds and replaces an error by `Unknown`, decodes every word to the same variant whether the derive reports a miss as an error or answers it with `Unknown` |
| NewLicensee.FromBytes | crates/fb-core/src/hardware/cartridge_definitions.rs:257-282 | a missing slice is `InvalidInput { expected: 2, actual: 0 }`, a slice of length n other than 2 is `InvalidInput { expected: 2, actual: n }`, and exactly the 2-byte slices decode, to `from_word` of their big-endian word: the variant with that discriminant, or `Unknown` |
| NewLicensee.FromBytesInvertsDiscriminant | crates/fb-core/src/hardware/cartridge_definitions.rs:257-282 | the big-endian bytes of any variant's discriminant decode to that variant |
| OldLicensee.UnknownFollowsLast | crates/fb-core/src/hardware/cartridge_definitions.rs:945-949 | `Unknown`, declared without a value, takes `Ljn3`'s discriminant plus one, and no declared variant has that code |
| OldLicensee.TryFromPrimitiveInvertsDiscriminant | crates/fb-core/src/hardware/cartridge_definitions.rs:542-949 | under either reading of `#[default]`, the derived `try_from` finds every variant from its own `ascii_pair!` discriminant, `Unknown` included |
| OldLicensee.TryFromPrimitiveComplete | crates/fb-core/src/hardware/cartridge_definitions.rs:542-949 | when the derive has no catch-all, `try_from` fails exactly on the words that are no variant's discriminant, and a variant it finds has the given word as its discriminant; when it reads `#[default]` as one, `try_from` never fails and answers those words with `Unknown` |
| OldLicensee.FromWord | crates/fb-core/src/hardware/cartridge_definitions.rs:952-961 | `from_word` is total: the result's discriminant is the word, or the word is no variant's discriminant and the result is the default `Unknown` |
| OldLicensee.FromWordInvertsDiscriminant | crates/fb-core/src/hardware/cartridge_definitions.rs:542-949 | `from_word` of a variant's discriminant gives that variant back, so no two variants share a code |
| OldLicensee.FromWordUnderEitherReading | crates/fb-core/src/hardware/cartridge_definitions.rs:952-961 | `from_word`, which keeps the variant `try_from` finds and replaces an error by `Unknown`, decodes every word to the same variant whether the derive reports a miss as an error or answers it with `Unknown` |
| OldLicensee.FromBytes | crates/fb-core/src/hardware/cartridge_definitions.rs:963-988 | a missing slice is `InvalidInput { expected: 2, actual: 0 }`, a slice of length n other than 2 is `InvalidInput { expected: 2, actual: n }`, and exactly the 2-byte slices decode, to `from_word` of their big-endian word: the variant with that discriminant, or `Unknown` |
| OldLicensee.FromBytesInvertsDiscriminant | crates/fb-core/src/hardware/cartridge_definitions.rs:963-988 | the big-endian bytes of any variant's discriminant decode to that variant |
| NewLicensee.NintendoFromAscii31 | crates/fb-core/src/hardware/cartridge_definitions.rs:105 | the macro maps '3','1' to `Nintendo`, and the header bytes 0x33 0x31 decode to `Nintendo` |
| OldLicensee.Nintendo1FromAscii01 | crates/fb-core/src/hardware/cartridge_definitions.rs:548 | the macro maps '0','1' to `Nintendo1` |
| OldLicensee.WidenedByteIsUnknown | crates/fb-core/src/hardware/cartridge_definitions.rs:952-961 | a single byte widened to a word, as the one-byte old licensee field at 0x014B would be, never decodes to a declared variant |
| Strings.Split | crates/fb-core/src/hardware/cartridge.rs:20 | `split('/')` yields at least one piece, no piece contains the separator, joining the pieces with it gives the string back, and there is one piece exactly when the string has no separator |
| Strings.SplitJoin | crates/fb-core/src/hardware/cartridge.rs:20 | splitting a join of separator-free pieces gives the pieces back, so splitting and joining are inverse |
| Strings.LastPiece | crates/fb-core/src/hardware/cartridge.rs:20 | the last piece of the split is a separator-free suffix of the string, preceded by the separator when the string has one and equal to the whole string otherwise (so `unwrap` cannot fail) |
| Cartridge.Filename | crates/fb-core/src/hardware/cartridge.rs:19-21 | `filename` is the text after the path's last '/', or the whole path when it has none; it never contains '/' |
| Cartridge.RomLength | crates/fb-core/src/hardware/cartridge.rs:52-54 | `rom_size` is the number of bytes in the image, and the whole header is present exactly when it exceeds 0x014F |
| Cartridge.Header | crates/fb-core/src/hardware/cartridge.rs:69-73 | `header` is present exactly when the image has at least 0x0150 bytes, and is then the 80 bytes from 0x0100 |
| Cartridge.HeaderLogo | crates/fb-core/src/hardware/cartridge.rs:75-81 | `header_logo` is present exactly when the image has at least 0x0134 bytes, and is then the 48 bytes from 0x0104 |
| Cartridge.HeaderTitle16 | crates/fb-core/src/hardware/cartridge.rs:84-99 | the 16-character title is present exactly when the image is longer than 0x0143; character i has the code of byte 0x0134 + i |
| Cartridge.HeaderTitle15 | crates/fb-core/src/hardware/cartridge.rs:101-116 | the 15-character title is present exactly when the image is longer than 0x0142; character i has the code of byte 0x0134 + i |
| Cartridge.HeaderTitle11 | crates/fb-core/src/hardware/cartridge.rs:118-133 | the 11-character title is present exactly when the image is longer than 0x013E; character i has the code of byte 0x0134 + i |
| Cartridge.HeaderManufacturerCode | crates/fb-core/src/hardware/cartridge.rs:135-141 | the manufacturer code is present exactly when the image is longer than 0x0142, and is then the 4 bytes from 0x013F |
| Cartridge.HeaderColorGameBoyFlag | crates/fb-core/src/hardware/cartridge.rs:143-159 | present exactly when the image is longer than 0x0143, and then `from_byte` of byte 0x0143 |
| Cartridge.HeaderNewLicensee | crates/fb-core/src/hardware/cartridge.rs:161-174 | never missing: `from_word` of the big-endian word at 0x0144-0x0145 when the image holds both bytes, `Unknown` otherwise |
| Cartridge.HeaderSuperGameBoyFlag | crates/fb-core/src/hardware/cartridge.rs:176-192 | present exactly when the image is longer than 0x0146, and then `from_byte` of byte 0x0146 |
| Cartridge.HeaderCartridgeType | crates/fb-core/src/hardware/cartridge.rs:194-207 | present exactly when the image is longer than 0x0147, and then `from_byte` of byte 0x0147 |
| Cartridge.HeaderCartridgeRomSize | crates/fb-core/src/hardware/cartridge.rs:209-222 | present exactly when the image is longer than 0x0148, and then `from_byte` of byte 0x0148 |
| Cartridge.HeaderCartridgeRamSize | crates/fb-core/src/hardware/cartridge.rs:224-237 | present exactly when the image is longer than 0x0149, and then `from_byte` of byte 0x0149 |
| Cartridge.HeaderDestination | crates/fb-core/src/hardware/cartridge.rs:239-252 | present exactly when the image is longer than 0x014A, and then `from_byte` of byte 0x014A |
| Cartridge.TitlesArePrefixes | crates/fb-core/src/hardware/cartridge.rs:84-133 | whenever a longer title is present the shorter ones are too, and are its prefixes |
| Cartridge.TitleOverlapsLaterFields | crates/fb-core/src/hardware/cartridge_definitions.rs:19-24 | the 15-character title is the 11-character title followed by the manufacturer code, and the 16th title character is the CGB flag byte |
| Cartridge.HeaderHoldsEveryField | crates/fb-core/src/hardware/cartridge_definitions.rs:14-38 | when the whole header is present, every field accessor is present and reads the header's own bytes at the field's offset |

## Left out

- `Cartridge::load_from_file` reads a file; the model starts from the path and the image it produced. `Cartridge::new`, `CartridgeContext::new` and `context` are the datatype constructors and field.
- `check_integrity`, `check_compatibility` and `check_all` are `todo!()` in the source and have no behaviour to model.
- Logging (`debug!`, `warn!`) is left out; the diagnostics carry no result.
- The Pan Docs rule that an old licensee of 0x33 defers to the new licensee code is not implemented in the code, so it is not modelled.
- `FerrisBoyError` has further variants (I/O and others) that the header code never produces; only `InvalidInput` is modelled.
- The address bus, CPU, PPU, timer, memory bank controllers, the command-line front end and the crate's module and context plumbing are outside the header decoder.
- Which `num_enum` release the crate builds with is not in the source, so both readings of `#[default]` are modelled rather than one.
- The variant doc comments of the licensee enums (publisher names) are left out; the constant names carry them.

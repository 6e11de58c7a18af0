/** The old licensee code: the publisher, as the enum keys it by two ASCII characters. */
module OldLicensee {
  import opened Bytes
  import opened LicenseeCode
  import Wrappers
  import NumEnum
  import Errors

  /** The codes the enum declares with an explicit `ascii_pair!` discriminant, by first character. */
  predicate Declared(c: Code) {
    match c.first
    case '0' => c.second in "0189ABC"
    case '1' => c.second in "389ADF"
    case '2' => c.second in "4589"
    case '3' => c.second in "01234589CE"
    case '4' => c.second in "124679ADF"
    case '5' => c.second in "012345679ABCD"
    case '6' => c.second in "0179EF"
    case '7' => c.second in "0123589ACF"
    case '8' => c.second in "036BCEF"
    case '9' => c.second in "1235679ABCDF"
    case 'A' => c.second in "124679ACDF"
    case 'B' => c.second in "0124679ABDF"
    case 'C' => c.second in "02345689ABCDEF"
    case 'D' => c.second in "01234679ABDEF"
    case 'E' => c.second in "01235789ABCE"
    case 'F' => c.second in "03F"
    case _ => false
  }

  /** The code of `Unknown`, declared last and without a discriminant: Ljn3's "FF" plus one. */
  const UnknownCode := Code('F', 'G')

  /** A variant of `OldLicensee`, identified by its code. */
  type OldLicensee = c: Code | Declared(c) || c == UnknownCode witness UnknownCode

  // The variants, in declaration order.
  const None: OldLicensee := Code('0', '0')
  const Nintendo1: OldLicensee := Code('0', '1')
  const Capcom1: OldLicensee := Code('0', '8')
  const HotB: OldLicensee := Code('0', '9')
  const Jaleco1: OldLicensee := Code('0', 'A')
  const CoconutsJapan: OldLicensee := Code('0', 'B')
  const EliteSystems1: OldLicensee := Code('0', 'C')
  const ElectronicArts1: OldLicensee := Code('1', '3')
  const HudsonSoft: OldLicensee := Code('1', '8')
  const ItcEntertainment: OldLicensee := Code('1', '9')
  const Yanoman: OldLicensee := Code('1', 'A')
  const JapanClary: OldLicensee := Code('1', 'D')
  const VirginGamesLtd1: OldLicensee := Code('1', 'F')
  const PcmComplete: OldLicensee := Code('2', '4')
  const SanX: OldLicensee := Code('2', '5')
  const Kemco1: OldLicensee := Code('2', '8')
  const SetaCorporation: OldLicensee := Code('2', '9')
  const Infogrames1: OldLicensee := Code('3', '0')
  const Nintendo2: OldLicensee := Code('3', '1')
  const Bandai2: OldLicensee := Code('3', '2')
  const NewLicenseeCodeIndicator: OldLicensee := Code('3', '3')
  const Konami1: OldLicensee := Code('3', '4')
  const HectorSoft: OldLicensee := Code('3', '5')
  const Capcom2: OldLicensee := Code('3', '8')
  const Banpresto1: OldLicensee := Code('3', '9')
  const EntertainmentInteractive: OldLicensee := Code('3', 'C')
  const Gremlin: OldLicensee := Code('3', 'E')
  const UbiSoft: OldLicensee := Code('4', '1')
  const Atlus1: OldLicensee := Code('4', '2')
  const MalibuInteractive1: OldLicensee := Code('4', '4')
  const Angel1: OldLicensee := Code('4', '6')
  const SpectrumHoloByte: OldLicensee := Code('4', '7')
  const Irem: OldLicensee := Code('4', '9')
  const VirginGamesLtd2: OldLicensee := Code('4', 'A')
  const MalibuInteractive2: OldLicensee := Code('4', 'D')
  const UsGold: OldLicensee := Code('4', 'F')
  const Absolute: OldLicensee := Code('5', '0')
  const AcclaimEntertainment1: OldLicensee := Code('5', '1')
  const Activision: OldLicensee := Code('5', '2')
  const SammyUsaCorporation: OldLicensee := Code('5', '3')
  const GameTek: OldLicensee := Code('5', '4')
  const ParkPlace: OldLicensee := Code('5', '5')
  const Ljn1: OldLicensee := Code('5', '6')
  const Matchbox: OldLicensee := Code('5', '7')
  const MiltonBradleyCompany: OldLicensee := Code('5', '9')
  const Mindscape: OldLicensee := Code('5', 'A')
  const Romstar: OldLicensee := Code('5', 'B')
  const NaxatSoft: OldLicensee := Code('5', 'C')
  const Tradewest: OldLicensee := Code('5', 'D')
  const TitusInteractive: OldLicensee := Code('6', '0')
  const VirginGamesLtd: OldLicensee := Code('6', '1')
  const OceanSoftware: OldLicensee := Code('6', '7')
  const ElectronicArts2: OldLicensee := Code('6', '9')
  const EliteSystems2: OldLicensee := Code('6', 'E')
  const ElectroBrain: OldLicensee := Code('6', 'F')
  const Infogrames2: OldLicensee := Code('7', '0')
  const InterplayEntertainment: OldLicensee := Code('7', '1')
  const Broderbund1: OldLicensee := Code('7', '2')
  const SculpturedSoftware: OldLicensee := Code('7', '3')
  const TheSalesCurveLimited: OldLicensee := Code('7', '5')
  const Thq: OldLicensee := Code('7', '8')
  const Accolade: OldLicensee := Code('7', '9')
  const TriffixEntertainment: OldLicensee := Code('7', 'A')
  const MicroProse: OldLicensee := Code('7', 'C')
  const Kemco2: OldLicensee := Code('7', 'F')
  const MisawaEntertainment: OldLicensee := Code('8', '0')
  const LozcG: OldLicensee := Code('8', '3')
  const TokumaShoten1: OldLicensee := Code('8', '6')
  const BulletProofSoftware: OldLicensee := Code('8', 'B')
  const VicTokaiCorp: OldLicensee := Code('8', 'C')
  const ApeInc: OldLicensee := Code('8', 'E')
  const Imax: OldLicensee := Code('8', 'F')
  const ChunsoftCo: OldLicensee := Code('9', '1')
  const VideoSystem: OldLicensee := Code('9', '2')
  const TsubarayaProductions: OldLicensee := Code('9', '3')
  const Varie1: OldLicensee := Code('9', '5')
  const YonezawaOrSpal: OldLicensee := Code('9', '6')
  const Kemco3: OldLicensee := Code('9', '7')
  const Arc: OldLicensee := Code('9', '9')
  const NihonBussan: OldLicensee := Code('9', 'A')
  const Tecmo: OldLicensee := Code('9', 'B')
  const Imagineer: OldLicensee := Code('9', 'C')
  const Banpresto2: OldLicensee := Code('9', 'D')
  const Nova: OldLicensee := Code('9', 'F')
  const HoriElectric: OldLicensee := Code('A', '1')
  const Bandai3: OldLicensee := Code('A', '2')
  const Konami2: OldLicensee := Code('A', '4')
  const Kawada: OldLicensee := Code('A', '6')
  const Takara: OldLicensee := Code('A', '7')
  const TechnosJapan: OldLicensee := Code('A', '9')
  const Broderbund2: OldLicensee := Code('A', 'A')
  const ToeiAnimation: OldLicensee := Code('A', 'C')
  const Toho: OldLicensee := Code('A', 'D')
  const Namco: OldLicensee := Code('A', 'F')
  const AcclaimEntertainment2: OldLicensee := Code('B', '0')
  const AsciiCorporationOrNexsoft: OldLicensee := Code('B', '1')
  const Bandai4: OldLicensee := Code('B', '2')
  const SquareEnix: OldLicensee := Code('B', '4')
  const HalLaboratory: OldLicensee := Code('B', '6')
  const SNK: OldLicensee := Code('B', '7')
  const PonyCanyon1: OldLicensee := Code('B', '9')
  const CultureBrain: OldLicensee := Code('B', 'A')
  const Sunsoft: OldLicensee := Code('B', 'B')
  const SonyImagesoft: OldLicensee := Code('B', 'D')
  const SammyCorporation: OldLicensee := Code('B', 'F')
  const Taito1: OldLicensee := Code('C', '0')
  const Kemco: OldLicensee := Code('C', '2')
  const Square: OldLicensee := Code('C', '3')
  const TokumaShoten2: OldLicensee := Code('C', '4')
  const DataEast: OldLicensee := Code('C', '5')
  const TonkinHouse: OldLicensee := Code('C', '6')
  const Koei: OldLicensee := Code('C', '8')
  const Ufl: OldLicensee := Code('C', '9')
  const UltraGames: OldLicensee := Code('C', 'A')
  const VapInc: OldLicensee := Code('C', 'B')
  const UseCorporation: OldLicensee := Code('C', 'C')
  const Meldac: OldLicensee := Code('C', 'D')
  const PonyCanyon2: OldLicensee := Code('C', 'E')
  const Angel2: OldLicensee := Code('C', 'F')
  const Taito2: OldLicensee := Code('D', '0')
  const Sofel: OldLicensee := Code('D', '1')
  const Quest: OldLicensee := Code('D', '2')
  const SigmaEnterprises: OldLicensee := Code('D', '3')
  const AskKodanshaCo: OldLicensee := Code('D', '4')
  const NaxatSoft14: OldLicensee := Code('D', '6')
  const CopyaSystem: OldLicensee := Code('D', '7')
  const Banpresto3: OldLicensee := Code('D', '9')
  const Tomy: OldLicensee := Code('D', 'A')
  const Ljn2: OldLicensee := Code('D', 'B')
  const NipponComputerSystems: OldLicensee := Code('D', 'D')
  const HumanEnt: OldLicensee := Code('D', 'E')
  const Altron: OldLicensee := Code('D', 'F')
  const Jaleco2: OldLicensee := Code('E', '0')
  const TowaChiki: OldLicensee := Code('E', '1')
  const Yutaka: OldLicensee := Code('E', '2')
  const Varie2: OldLicensee := Code('E', '3')
  const Epoch: OldLicensee := Code('E', '5')
  const Athena: OldLicensee := Code('E', '7')
  const AsmikAceEntertainment: OldLicensee := Code('E', '8')
  const Natsume: OldLicensee := Code('E', '9')
  const KingRecords: OldLicensee := Code('E', 'A')
  const Atlus2: OldLicensee := Code('E', 'B')
  const EpicSonyRecords: OldLicensee := Code('E', 'C')
  const Igs: OldLicensee := Code('E', 'E')
  const AWave: OldLicensee := Code('F', '0')
  const ExtremeEntertainment: OldLicensee := Code('F', '3')
  const Ljn3: OldLicensee := Code('F', 'F')
  const Unknown: OldLicensee := UnknownCode

  /** The `#[repr(u16)]` discriminant of a variant: `ascii_pair!` of its code. */
  function Discriminant(l: OldLicensee): u16 {
    Word(l)
  }

  /**
   * `Unknown` takes the discriminant after the last declared variant's, and
   * no declared variant has it: the enum's discriminants are distinct.
   */
  lemma UnknownFollowsLast()
    ensures Discriminant(Unknown) == Discriminant(Ljn3) + 1
    ensures !Declared(Unknown)
  {
  }

  /**
   * The derived `TryFromPrimitive::try_from` under `reading`: the variant whose
   * discriminant is `word`; for any other word an error, or the default variant
   * `Unknown` when the derive reads `#[default]` as its catch-all.
   */
  function TryFromPrimitive(word: u16, reading: NumEnum.Reading): Wrappers.Option<OldLicensee> {
    var c := OfWord(word);
    if Declared(c) || c == UnknownCode then Wrappers.Some(c) else NumEnum.OnMiss(reading, Unknown)
  }

  /** Decoding a variant's own discriminant finds that variant, under either reading. */
  lemma TryFromPrimitiveInvertsDiscriminant(l: OldLicensee, reading: NumEnum.Reading)
    ensures TryFromPrimitive(Discriminant(l), reading) == Wrappers.Some(l)
  {
    OfWordInvertsWord(l);
  }

  /**
   * Without a catch-all, `try_from` finds only a variant whose discriminant is
   * the word and fails exactly on the words that are no variant's
   * discriminant; with one it never fails and answers those words with
   * `Unknown`.
   */
  lemma TryFromPrimitiveComplete(word: u16)
    ensures TryFromPrimitive(word, NumEnum.ErrorOnMiss).None? <==> forall v: OldLicensee :: Discriminant(v) != word
    ensures var r := TryFromPrimitive(word, NumEnum.ErrorOnMiss); r.Some? ==> Discriminant(r.value) == word
    ensures TryFromPrimitive(word, NumEnum.DefaultOnMiss).Some?
    ensures (forall v: OldLicensee :: Discriminant(v) != word) ==> TryFromPrimitive(word, NumEnum.DefaultOnMiss) == Wrappers.Some(Unknown)
  {
    forall v: OldLicensee | Discriminant(v) == word
      ensures TryFromPrimitive(word, NumEnum.ErrorOnMiss) == Wrappers.Some(v)
    {
      TryFromPrimitiveInvertsDiscriminant(v, NumEnum.ErrorOnMiss);
    }
  }

  /**
   * `from_word`: the variant a 16-bit word stands for. It never fails: a word
   * that is no variant's discriminant decodes to the default variant `Unknown`.
   */
  function FromWord(word: u16): (l: OldLicensee)
    ensures Discriminant(l) == word || (l == Unknown && forall v: OldLicensee :: Discriminant(v) != word)
  {
    TryFromPrimitiveComplete(word);
    NumEnum.OrDefault(TryFromPrimitive(word, NumEnum.ErrorOnMiss), Unknown)
  }

  /**
   * `from_word` decodes every word alike under either reading: whether a miss
   * comes back from `try_from` as an error or as `Unknown`, the result is `Unknown`.
   */
  lemma FromWordUnderEitherReading(word: u16, reading: NumEnum.Reading)
    ensures FromWord(word) == NumEnum.OrDefault(TryFromPrimitive(word, reading), Unknown)
  {
    TryFromPrimitiveComplete(word);
  }

  /** Decoding a variant's own discriminant gives that variant back. */
  lemma FromWordInvertsDiscriminant(l: OldLicensee)
    ensures FromWord(Discriminant(l)) == l
  {
    TryFromPrimitiveInvertsDiscriminant(l, NumEnum.ErrorOnMiss);
  }

  /**
   * `from_bytes`: the variant two big-endian bytes stand for. A missing slice
   * is reported as zero bytes and a slice of another length by its length;
   * two bytes always decode, like `from_word`.
   */
  function FromBytes(bytes: Wrappers.Option<seq<byte>>): (r: Wrappers.Result<OldLicensee, Errors.FerrisBoyError>)
    ensures r.Ok? <==> bytes.Some? && |bytes.value| == 2
    ensures bytes.None? ==> r == Wrappers.Err(Errors.InvalidInput(2, 0))
    ensures bytes.Some? && |bytes.value| != 2 ==> r == Wrappers.Err(Errors.InvalidInput(2, |bytes.value|))
    ensures r.Ok? ==> r.value == FromWord(FromBeBytes(bytes.value[0], bytes.value[1]))
  {
    if bytes.None? then
      Wrappers.Err(Errors.InvalidInput(2, 0))
    else if |bytes.value| != 2 then
      Wrappers.Err(Errors.InvalidInput(2, |bytes.value|))
    else
      Wrappers.Ok(FromWord(FromBeBytes(bytes.value[0], bytes.value[1])))
  }

  /** The big-endian bytes of a variant's discriminant decode to that variant. */
  lemma FromBytesInvertsDiscriminant(l: OldLicensee)
    ensures FromBytes(Wrappers.Some(ToBeBytes(Discriminant(l)))) == Wrappers.Ok(l)
  {
    FromWordInvertsDiscriminant(l);
  }


  /** The macro as written gives '0','1' the discriminant of `Nintendo1`. */
  lemma Nintendo1FromAscii01()
    ensures FromWord(AsciiPair('0', '1')) == Nintendo1
  {
    AsciiPairIsBigEndian('0', '1');
    FromWordInvertsDiscriminant(Nintendo1);
  }

  /**
   * A single byte widened to a word never decodes to a declared variant: its
   * high byte is zero, and every declared code starts with a digit or a letter.
   */
  lemma WidenedByteIsUnknown(b: byte)
    ensures FromWord(b) == Unknown
  {
  }
}

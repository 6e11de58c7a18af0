/** The new licensee code, header bytes 0x0144-0x0145: two ASCII characters naming the publisher. */
module NewLicensee {
  import opened Bytes
  import opened LicenseeCode
  import Wrappers
  import NumEnum
  import Errors

  /** The codes the enum declares with an explicit `ascii_pair!` discriminant, by first character. */
  predicate Declared(c: Code) {
    match c.first
    case '0' => c.second in "018"
    case '1' => c.second in "389"
    case '2' => c.second in "024589"
    case '3' => c.second in "012345789"
    case '4' => c.second in "124679"
    case '5' => c.second in "0123456789"
    case '6' => c.second in "01479"
    case '7' => c.second in "0123589"
    case '8' => c.second in "0367"
    case '9' => c.second in "1235679H"
    case 'A' => c.second in "4"
    case 'B' => c.second in "L"
    case 'D' => c.second in "K"
    case _ => false
  }

  /** The code of `Unknown`, declared last and without a discriminant: Kodansha's "DK" plus one. */
  const UnknownCode := Code('D', 'L')

  /** A variant of `NewLicensee`, identified by its code. */
  type NewLicensee = c: Code | Declared(c) || c == UnknownCode witness UnknownCode

  // The variants, in declaration order.
  const None: NewLicensee := Code('0', '0')
  const NintendoResearchAndDevelopment1: NewLicensee := Code('0', '1')
  const Capcom: NewLicensee := Code('0', '8')
  const ElectronicArts1: NewLicensee := Code('1', '3')
  const HudsonSoft1: NewLicensee := Code('1', '8')
  const BAi: NewLicensee := Code('1', '9')
  const Kss: NewLicensee := Code('2', '0')
  const PlanningOfficeWADA: NewLicensee := Code('2', '2')
  const PCMComplete: NewLicensee := Code('2', '4')
  const SanX: NewLicensee := Code('2', '5')
  const Kemco: NewLicensee := Code('2', '8')
  const SetaCorporation: NewLicensee := Code('2', '9')
  const Viacom: NewLicensee := Code('3', '0')
  const Nintendo: NewLicensee := Code('3', '1')
  const Bandai1: NewLicensee := Code('3', '2')
  const OceanSoftwareOrAcclaimEntertainment1: NewLicensee := Code('3', '3')
  const Konami1: NewLicensee := Code('3', '4')
  const HectorSoft: NewLicensee := Code('3', '5')
  const Taito: NewLicensee := Code('3', '7')
  const HudsonSoft2: NewLicensee := Code('3', '8')
  const Banpresto: NewLicensee := Code('3', '9')
  const UbiSoft: NewLicensee := Code('4', '1')
  const Atlus: NewLicensee := Code('4', '2')
  const MalibuInteractive: NewLicensee := Code('4', '4')
  const Angel: NewLicensee := Code('4', '6')
  const BulletProofSoftware: NewLicensee := Code('4', '7')
  const Irem: NewLicensee := Code('4', '9')
  const Absolute: NewLicensee := Code('5', '0')
  const AcclaimEntertainment: NewLicensee := Code('5', '1')
  const Activision: NewLicensee := Code('5', '2')
  const SammyUSACorporation: NewLicensee := Code('5', '3')
  const Konami2: NewLicensee := Code('5', '4')
  const HiTechExpressions: NewLicensee := Code('5', '5')
  const Ljn: NewLicensee := Code('5', '6')
  const Matchbox: NewLicensee := Code('5', '7')
  const Mattel: NewLicensee := Code('5', '8')
  const MiltonBradleyCompany: NewLicensee := Code('5', '9')
  const TitusInteractive: NewLicensee := Code('6', '0')
  const VirginGamesLtd: NewLicensee := Code('6', '1')
  const LucasfilmGames: NewLicensee := Code('6', '4')
  const OceanSoftware: NewLicensee := Code('6', '7')
  const ElectronicArts2: NewLicensee := Code('6', '9')
  const Infogrames: NewLicensee := Code('7', '0')
  const InterplayEntertainment: NewLicensee := Code('7', '1')
  const Broderbund: NewLicensee := Code('7', '2')
  const SculpturedSoftware: NewLicensee := Code('7', '3')
  const TheSalesCurveLimited: NewLicensee := Code('7', '5')
  const Thq: NewLicensee := Code('7', '8')
  const Accolade: NewLicensee := Code('7', '9')
  const MisawaEntertainment: NewLicensee := Code('8', '0')
  const Lozc: NewLicensee := Code('8', '3')
  const TokumaShoten: NewLicensee := Code('8', '6')
  const TsukudaOriginal: NewLicensee := Code('8', '7')
  const ChunsoftCo: NewLicensee := Code('9', '1')
  const VideoSystem: NewLicensee := Code('9', '2')
  const OceanSoftwareOrAcclaimEntertainment2: NewLicensee := Code('9', '3')
  const Varie: NewLicensee := Code('9', '5')
  const YonezawaOrSpal: NewLicensee := Code('9', '6')
  const Kaneko: NewLicensee := Code('9', '7')
  const PackInVideo: NewLicensee := Code('9', '9')
  const BottomUp: NewLicensee := Code('9', 'H')
  const KonamiYuGiOh: NewLicensee := Code('A', '4')
  const Mto: NewLicensee := Code('B', 'L')
  const Kodansha: NewLicensee := Code('D', 'K')
  const Unknown: NewLicensee := UnknownCode

  /** The `#[repr(u16)]` discriminant of a variant: `ascii_pair!` of its code. */
  function Discriminant(l: NewLicensee): u16 {
    Word(l)
  }

  /**
   * `Unknown` takes the discriminant after the last declared variant's, and
   * no declared variant has it: the enum's discriminants are distinct.
   */
  lemma UnknownFollowsLast()
    ensures Discriminant(Unknown) == Discriminant(Kodansha) + 1
    ensures !Declared(Unknown)
  {
  }

  /**
   * The derived `TryFromPrimitive::try_from` under `reading`: the variant whose
   * discriminant is `word`; for any other word an error, or the default variant
   * `Unknown` when the derive reads `#[default]` as its catch-all.
   */
  function TryFromPrimitive(word: u16, reading: NumEnum.Reading): Wrappers.Option<NewLicensee> {
    var c := OfWord(word);
    if Declared(c) || c == UnknownCode then Wrappers.Some(c) else NumEnum.OnMiss(reading, Unknown)
  }

  /** Decoding a variant's own discriminant finds that variant, under either reading. */
  lemma TryFromPrimitiveInvertsDiscriminant(l: NewLicensee, reading: NumEnum.Reading)
    ensures TryFromPrimitive(Discriminant(l), reading) == Wrappers.Some(l)
  {
    OfWordInvertsWord(l);
  }

  /**
   * Without a catch-all, `try_from` finds only a variant whose discriminant is
   * the word and fails exactly on the words that are no variant's
   * discriminant; with one it never fails and answers those words with
   * `Unknown`.
   */
  lemma TryFromPrimitiveComplete(word: u16)
    ensures TryFromPrimitive(word, NumEnum.ErrorOnMiss).None? <==> forall v: NewLicensee :: Discriminant(v) != word
    ensures var r := TryFromPrimitive(word, NumEnum.ErrorOnMiss); r.Some? ==> Discriminant(r.value) == word
    ensures TryFromPrimitive(word, NumEnum.DefaultOnMiss).Some?
    ensures (forall v: NewLicensee :: Discriminant(v) != word) ==> TryFromPrimitive(word, NumEnum.DefaultOnMiss) == Wrappers.Some(Unknown)
  {
    forall v: NewLicensee | Discriminant(v) == word
      ensures TryFromPrimitive(word, NumEnum.ErrorOnMiss) == Wrappers.Some(v)
    {
      TryFromPrimitiveInvertsDiscriminant(v, NumEnum.ErrorOnMiss);
    }
  }

  /**
   * `from_word`: the variant a 16-bit word stands for. It never fails: a word
   * that is no variant's discriminant decodes to the default variant `Unknown`.
   */
  function FromWord(word: u16): (l: NewLicensee)
    ensures Discriminant(l) == word || (l == Unknown && forall v: NewLicensee :: Discriminant(v) != word)
  {
    TryFromPrimitiveComplete(word);
    NumEnum.OrDefault(TryFromPrimitive(word, NumEnum.ErrorOnMiss), Unknown)
  }

  /**
   * `from_word` decodes every word alike under either reading: whether a miss
   * comes back from `try_from` as an error or as `Unknown`, the result is `Unknown`.
   */
  lemma FromWordUnderEitherReading(word: u16, reading: NumEnum.Reading)
    ensures FromWord(word) == NumEnum.OrDefault(TryFromPrimitive(word, reading), Unknown)
  {
    TryFromPrimitiveComplete(word);
  }

  /** Decoding a variant's own discriminant gives that variant back. */
  lemma FromWordInvertsDiscriminant(l: NewLicensee)
    ensures FromWord(Discriminant(l)) == l
  {
    TryFromPrimitiveInvertsDiscriminant(l, NumEnum.ErrorOnMiss);
  }

  /**
   * `from_bytes`: the variant two big-endian bytes stand for. A missing slice
   * is reported as zero bytes and a slice of another length by its length;
   * two bytes always decode, like `from_word`.
   */
  function FromBytes(bytes: Wrappers.Option<seq<byte>>): (r: Wrappers.Result<NewLicensee, Errors.FerrisBoyError>)
    ensures r.Ok? <==> bytes.Some? && |bytes.value| == 2
    ensures bytes.None? ==> r == Wrappers.Err(Errors.InvalidInput(2, 0))
    ensures bytes.Some? && |bytes.value| != 2 ==> r == Wrappers.Err(Errors.InvalidInput(2, |bytes.value|))
    ensures r.Ok? ==> r.value == FromWord(FromBeBytes(bytes.value[0], bytes.value[1]))
  {
    if bytes.None? then
      Wrappers.Err(Errors.InvalidInput(2, 0))
    else if |bytes.value| != 2 then
      Wrappers.Err(Errors.InvalidInput(2, |bytes.value|))
    else
      Wrappers.Ok(FromWord(FromBeBytes(bytes.value[0], bytes.value[1])))
  }

  /** The big-endian bytes of a variant's discriminant decode to that variant. */
  lemma FromBytesInvertsDiscriminant(l: NewLicensee)
    ensures FromBytes(Wrappers.Some(ToBeBytes(Discriminant(l)))) == Wrappers.Ok(l)
  {
    FromWordInvertsDiscriminant(l);
  }


  /** The macro as written gives '3','1' Nintendo's discriminant, and the header bytes 0x33 0x31 decode to Nintendo. */
  lemma NintendoFromAscii31()
    ensures FromWord(AsciiPair('3', '1')) == Nintendo
    ensures FromBytes(Wrappers.Some([0x33, 0x31])) == Wrappers.Ok(Nintendo)
  {
    AsciiPairIsBigEndian('3', '1');
    FromWordInvertsDiscriminant(Nintendo);
  }
}

/** Clock policy of the verbit helium card: the sample rates the DAC link
    admits, the bit-clock ratio it asks of the I2S controller, and the MCLK
    divider, PLL target and channel-status code of the S/PDIF link. Every
    clock on the board is derived from one 12 MHz crystal. */
module ClockPolicy {

  datatype Option<T> = None | Some(value: T) {
    function GetOr(default: T): T {
      match this
      case Some(v) => v
      case None => default
    }
  }

  /** The board's crystal frequency in Hz; fixed on this board. */
  const Xtal: nat := 12000000

  // ---------------------------------------------------------------------
  // DAC link (WM8731 over I2S)
  // ---------------------------------------------------------------------

  /** The rate-constraint list the DAC link installs at stream start,
      in the order the driver declares it. */
  const DacRates: seq<nat> := [8000, 16000, 32000, 44100, 48000, 96000, 88200]

  /** The explicit arms of the DAC hw_params rate switch; `None` stands for
      the `default` arm. */
  function DacRatioCase(rate: nat): Option<nat> {
    match rate
    case 8000 => Some(1)
    case 16000 => Some(750)
    case 32000 => Some(375)
    case 44100 => Some(272)
    case 48000 => Some(250)
    case 88200 => Some(136)
    case 96000 => Some(125)
    case _ => None
  }

  /** The bit-clock ratio the DAC link requests for a rate; the default arm
      asks for 125, so the mapping is total. */
  function DacBclkRatio(rate: nat): (ratio: nat)
    ensures ratio > 0
  {
    DacRatioCase(rate).GetOr(125)
  }

  /** The constraint list holds seven distinct rates, and they are exactly
      the rates the switch names explicitly: no constrained rate falls into
      the default arm, and no explicit arm is unreachable. */
  lemma DacConstraintMatchesSwitch(rate: nat)
    ensures |DacRates| == 7
    ensures forall i, j :: 0 <= i < j < |DacRates| ==> DacRates[i] != DacRates[j]
    ensures rate in DacRates <==> DacRatioCase(rate).Some?
  {
  }

  /** Outside the constraint list the switch takes its default arm. */
  lemma DacRatioDefault(rate: nat)
    requires rate !in DacRates
    ensures DacBclkRatio(rate) == 125
  {
  }

  /** For every constrained rate except 8000 the ratio is the number of
      crystal cycles per frame, 12000000 / rate rounded down; at 8000 Hz the
      table holds 1 where that quotient is 1500. */
  lemma DacRatioCrystalQuotient(rate: nat)
    requires rate in DacRates
    ensures DacBclkRatio(rate) == Xtal / rate <==> rate != 8000
    ensures rate == 8000 ==> DacBclkRatio(rate) == 1
  {
  }

  // ---------------------------------------------------------------------
  // S/PDIF link (WM8804)
  // ---------------------------------------------------------------------

  /** The WM8804 master-clock divider settings the driver chooses from. */
  datatype MclkDiv = Mclk256Fs | Mclk128Fs

  /** How many MCLK cycles a divider setting makes per sample. */
  function MclkRatio(d: MclkDiv): nat {
    match d
    case Mclk256Fs => 256
    case Mclk128Fs => 128
  }

  /** The divider: 256fs up to 96 kHz, 128fs above. */
  function SpdifMclkDiv(rate: nat): MclkDiv {
    if rate <= 96000 then Mclk256Fs else Mclk128Fs
  }

  /** The PLL output frequency requested for a rate. */
  function SpdifPllOut(rate: nat): nat {
    if rate <= 96000 then rate * 256 else rate * 128
  }

  /** The PLL target and the divider are chosen together: dividing the PLL
      output by the selected divider gives back the sample rate. */
  lemma SpdifDividerRecoversRate(rate: nat)
    ensures SpdifPllOut(rate) == rate * MclkRatio(SpdifMclkDiv(rate))
    ensures SpdifPllOut(rate) / MclkRatio(SpdifMclkDiv(rate)) == rate
    ensures SpdifMclkDiv(rate) == Mclk256Fs <==> rate <= 96000
  {
  }

  /** Switching to 128fs above 96 kHz keeps the PLL target of every rate up
      to 192 kHz at or below the 96 kHz target, 24.576 MHz. */
  lemma SpdifPllOutBounded(rate: nat)
    requires rate <= 192000
    ensures SpdifPllOut(rate) <= SpdifPllOut(96000) == 24576000
  {
  }

  /** The driver computes the PLL target as a C `int` product. Every rate
      up to 16777215 Hz gives a target below 2^31, so the product cannot
      overflow; 16777216 Hz is the first rate whose target would not fit. */
  lemma SpdifPllOutFitsInt(rate: nat)
    ensures rate <= 16777215 ==> SpdifPllOut(rate) < 0x8000_0000
    ensures rate == 16777216 ==> SpdifPllOut(rate) == 0x8000_0000
  {
  }

  /** The rates the S/PDIF status switch names explicitly. */
  const SpdifRates: seq<nat> := [32000, 44100, 48000, 88200, 96000, 176400, 192000]

  /** The explicit arms of the S/PDIF sampling-frequency switch; `None`
      stands for the `default` arm, which only logs an error. */
  function SpdifStatusCase(rate: nat): Option<bv8> {
    match rate
    case 32000 => Some(0x03)
    case 44100 => Some(0x00)
    case 48000 => Some(0x02)
    case 88200 => Some(0x08)
    case 96000 => Some(0x0a)
    case 176400 => Some(0x0c)
    case 192000 => Some(0x0e)
    case _ => None
  }

  /** The value the status code is initialised to before the switch. */
  const StatusCodeInit: bv8 := 0x01

  /** The channel-status sampling-frequency code written for a rate: the
      switch's value, or the initialiser when the default arm is taken. Every
      code fits the four-bit field it is written to. */
  function SpdifStatusCode(rate: nat): (code: bv8)
    ensures code < 0x10
  {
    SpdifStatusCase(rate).GetOr(StatusCodeInit)
  }

  /** The default arm is taken exactly for the rates outside SpdifRates, and
      the initialiser is then written: no explicit arm produces 0x01, so the
      code tells the two cases apart. */
  lemma SpdifStatusDefault(rate: nat)
    ensures rate in SpdifRates <==> SpdifStatusCase(rate).Some?
    ensures SpdifStatusCode(rate) == StatusCodeInit <==> rate !in SpdifRates
  {
  }

  /** Distinct explicit rates get distinct codes. */
  lemma SpdifStatusCodeInjective(a: nat, b: nat)
    requires a in SpdifRates && b in SpdifRates
    requires SpdifStatusCode(a) == SpdifStatusCode(b)
    ensures a == b
  {
  }
}

/** The verbit helium card's stream operations on the two links. A `Card`
    holds the WM8804 register file and the trace of framework calls issued
    so far; every operation changes the registers through masked writes and
    appends the calls it makes, in order. Results of framework calls the
    driver uses are parameters of the operation. */
module HeliumCard {
  import opened ClockPolicy
  import opened Wm8804
  import opened Events
  import opened Paths

  class Card {
    /** The WM8804 register file. */
    var regs: map<Reg, bv8>
    /** Every framework call issued so far, oldest first. */
    var trace: seq<Event>
    /** The register file when the card was bound. */
    ghost const bootRegs: map<Reg, bv8>

    /** The registers the driver addresses exist, and the register file is
        exactly what replaying the recorded calls on the boot state gives. */
    ghost predicate Valid()
      reads this
    {
      HasPathRegs(regs) && regs == Replay(bootRegs, trace)
    }

    constructor (boot: map<Reg, bv8>)
      requires HasPathRegs(boot)
      ensures Valid()
      ensures bootRegs == boot && regs == boot && trace == []
    {
      bootRegs := boot;
      regs := boot;
      trace := [];
    }

    /** Records a framework call that does not write a register. */
    method Call(e: Event)
      requires Valid()
      requires !e.UpdateBits?
      modifies this
      ensures Valid()
      ensures regs == old(regs) && trace == old(trace) + [e]
    {
      ReplayAppend(bootRegs, trace, [e]);
      trace := trace + [e];
    }

    /** `snd_soc_update_bits`: a masked read-modify-write of one register. */
    method UpdateBits(reg: Reg, mask: bv8, val: bv8)
      requires Valid()
      requires reg in regs
      modifies this
      ensures Valid()
      ensures regs == old(regs)[reg := Masked(old(regs)[reg], mask, val)]
      ensures trace == old(trace) + [Event.UpdateBits(reg, mask, val)]
    {
      ReplayAppend(bootRegs, trace, [Event.UpdateBits(reg, mask, val)]);
      regs := regs[reg := Masked(regs[reg], mask, val)];
      trace := trace + [Event.UpdateBits(reg, mask, val)];
    }

    // -------------------------------------------------------------------
    // DAC link
    // -------------------------------------------------------------------

    /** DAC startup installs the 12 MHz rate constraint and succeeds. */
    method DacStartup() returns (ret: int)
      requires Valid()
      modifies this
      ensures Valid()
      ensures ret == 0
      ensures regs == old(regs)
      ensures trace == old(trace) + [HwConstraintList(DacRates)]
    {
      Call(HwConstraintList(DacRates));
      ret := 0;
    }

    /** DAC hw_params sets the I2S bit-clock ratio for the rate and returns
        what that call returns. */
    method DacHwParams(rate: nat, bclkRet: int) returns (ret: int)
      requires Valid()
      modifies this
      ensures Valid()
      ensures ret == bclkRet
      ensures regs == old(regs)
      ensures trace == old(trace) + [SetBclkRatio(CpuI2s, DacBclkRatio(rate))]
    {
      Call(SetBclkRatio(CpuI2s, DacBclkRatio(rate)));
      ret := bclkRet;
    }

    /** DAC init selects the WM8731's crystal input at 12 MHz as its system
        clock and returns what that call returns. */
    method DacInit(sysclkRet: int) returns (ret: int)
      requires Valid()
      modifies this
      ensures Valid()
      ensures ret == sysclkRet
      ensures regs == old(regs)
      ensures trace == old(trace) + [SetSysclk(Wm8731Dai, Wm8731Xtal, Xtal, ClockIn)]
    {
      Call(SetSysclk(Wm8731Dai, Wm8731Xtal, Xtal, ClockIn));
      ret := sysclkRet;
    }

    // -------------------------------------------------------------------
    // S/PDIF link
    // -------------------------------------------------------------------

    /** The sampling-frequency switch of S/PDIF hw_params: the status code
        for the rate, starting from the initialiser; the default arm reports
        the unsupported rate. */
    method SamplingFreqSwitch(rate: nat) returns (samplingFreq: bv8)
      requires Valid()
      modifies this
      ensures Valid()
      ensures samplingFreq == SpdifStatusCode(rate)
      ensures regs == old(regs)
      ensures trace == old(trace) + RateReport(rate)
    {
      samplingFreq := StatusCodeInit;
      match SpdifStatusCase(rate) {
        case Some(code) =>
          samplingFreq := code;
        case None =>
          Call(DevErr(UnsupportedRate(rate)));
      }
    }

    /** S/PDIF hw_params. `clkdivRet` and `pllRet` are what the divider and
        PLL calls return; the driver ignores both. `sysclkRet` and `bclkRet`
        are the results of the clock-source select and of the bit-clock
        ratio call. */
    method SpdifHwParams(rate: nat, clkdivRet: int, pllRet: int, sysclkRet: int, bclkRet: int)
      returns (ret: int)
      requires Valid()
      modifies this
      ensures Valid()
      ensures ret == SpdifHwParamsResult(sysclkRet, bclkRet)
      ensures regs == SpdifHwParamsRegs(old(regs), rate, sysclkRet)
      ensures trace == old(trace) + SpdifHwParamsEvents(rate, sysclkRet)
    {
      ghost var regs0, trace0 := regs, trace;
      var mclkDiv := SpdifMclkDiv(rate);
      var mclkFreq := SpdifPllOut(rate);
      var samplingFreq := SamplingFreqSwitch(rate);
      Call(SetClkdiv(Wm8804Dai, mclkDiv));
      Call(SetPll(Wm8804Dai, 0, 0, Xtal, mclkFreq));
      Call(SetSysclk(Wm8804Dai, Wm8804TxClkSrcPll, Xtal, ClockOut));
      ghost var pre := RateReport(rate) + ClockSetup(rate);
      assert trace == trace0 + pre;
      if sysclkRet < 0 {
        Call(DevErr(SysclkFailed(sysclkRet)));
        AppendAssoc(trace0, pre, [DevErr(SysclkFailed(sysclkRet))]);
        return sysclkRet;
      }
      ghost var trace1 := trace;
      // enable TX output, then power on
      UpdateBits(Pwrdn, 0x04, 0x00);
      UpdateBits(Pwrdn, 0x09, 0x00);
      // sampling-frequency status bits
      UpdateBits(Spdtx4, 0x0f, samplingFreq);
      SpdifHwParamsMasks(regs0, samplingFreq);
      Call(SetBclkRatio(CpuI2s, 64));
      ret := bclkRet;
      AppendFour(trace1, Event.UpdateBits(Pwrdn, 0x04, 0x00), Event.UpdateBits(Pwrdn, 0x09, 0x00),
        Event.UpdateBits(Spdtx4, 0x0f, samplingFreq), SetBclkRatio(CpuI2s, 64));
      AppendAssoc(trace0, pre, TxSetup(samplingFreq));
    }

    /** S/PDIF startup turns the digital output on and succeeds. */
    method SpdifStartup() returns (ret: int)
      requires Valid()
      modifies this
      ensures Valid()
      ensures ret == 0
      ensures regs == SpdifStartupRegs(old(regs))
      ensures trace == old(trace) + SpdifStartupEvents()
    {
      UpdateBits(Pwrdn, OutputPowerBits, 0x00);
      ret := 0;
    }

    /** S/PDIF shutdown turns the digital output off when the
        `auto_shutdown_output` parameter, read at the time of the call, is
        nonzero. */
    method SpdifShutdown(autoShutdown: int)
      requires Valid()
      modifies this
      ensures Valid()
      ensures regs == SpdifShutdownRegs(old(regs), autoShutdown)
      ensures trace == old(trace) + SpdifShutdownEvents(autoShutdown)
    {
      if autoShutdown != 0 {
        UpdateBits(Pwrdn, OutputPowerBits, OutputPowerBits);
      }
    }

    /** S/PDIF init enables the TX output, puts every input in CMOS mode
        and succeeds. */
    method SpdifInit() returns (ret: int)
      requires Valid()
      modifies this
      ensures Valid()
      ensures ret == 0
      ensures regs == SpdifInitRegs(old(regs))
      ensures trace == old(trace) + SpdifInitEvents()
    {
      UpdateBits(Pwrdn, 0x04, 0x00);
      UpdateBits(Spdmode, 0xff, 0x00);
      ret := 0;
    }
  }

  /** A client of the card: a 192 kHz S/PDIF stream that starts, negotiates
      and stops with auto-shutdown enabled, and a 44.1 kHz DAC stream. */
  method StreamScenario(boot: map<Reg, bv8>)
    requires HasPathRegs(boot)
  {
    var card := new Card(boot);
    var r := card.SpdifStartup();
    assert r == 0 && OutputPower(card.regs[Pwrdn]) == On;
    r := card.SpdifHwParams(192000, 0, 0, 0, 0);
    assert r == 0;
    assert card.regs[Spdtx4] & 0x0f == 0x0e;
    assert card.regs[Pwrdn] & 0x3d == 0;
    card.SpdifShutdown(1);
    assert OutputPower(card.regs[Pwrdn]) == Off;
    r := card.DacStartup();
    r := card.DacHwParams(44100, 0);
    assert card.trace[|card.trace| - 1] == SetBclkRatio(CpuI2s, 272);
  }
}

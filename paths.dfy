/** What each S/PDIF link operation does, stated as values: the calls it
    issues, in order, and the register file it leaves behind. The driver's
    methods in module HeliumCard are proved to do exactly this, and the
    lemmas here state what the card promises about it. */
module Paths {
  import opened ClockPolicy
  import opened Wm8804
  import opened Events
  import opened Iec60958

  // ---------------------------------------------------------------------
  // hw_params
  // ---------------------------------------------------------------------

  /** The PWRDN bits hw_params clears: 0x04 (TX output) and 0x09. */
  const HwParamsPowerBits: bv8 := 0x0d

  /** The report the sampling-frequency switch issues: one for a rate it
      has no arm for, none otherwise. */
  function RateReport(rate: nat): seq<Event> {
    if SpdifStatusCase(rate).None? then [DevErr(UnsupportedRate(rate))] else []
  }

  /** The clock configuration calls: divider, PLL from the crystal, then
      the PLL as the transmitter's clock source. */
  function ClockSetup(rate: nat): seq<Event> {
    [ SetClkdiv(Wm8804Dai, SpdifMclkDiv(rate)),
      SetPll(Wm8804Dai, 0, 0, Xtal, SpdifPllOut(rate)),
      SetSysclk(Wm8804Dai, Wm8804TxClkSrcPll, Xtal, ClockOut) ]
  }

  /** The calls after a successful clock-source select: TX output on, power
      on, status code into SPDTX4, then a bit-clock ratio of 64. */
  function TxSetup(code: bv8): seq<Event> {
    [ UpdateBits(Pwrdn, 0x04, 0x00),
      UpdateBits(Pwrdn, 0x09, 0x00),
      UpdateBits(Spdtx4, 0x0f, code),
      SetBclkRatio(CpuI2s, 64) ]
  }

  /** The calls S/PDIF hw_params issues for `rate` when the clock-source
      select returns `sysclkRet`. */
  function SpdifHwParamsEvents(rate: nat, sysclkRet: int): seq<Event> {
    RateReport(rate) + ClockSetup(rate)
    + if sysclkRet < 0 then [DevErr(SysclkFailed(sysclkRet))] else TxSetup(SpdifStatusCode(rate))
  }

  /** The register file after S/PDIF hw_params: on success the hw_params
      power-down bits are clear and SPDTX4's low nibble holds the status
      code; on a failed clock-source select nothing is written. */
  function SpdifHwParamsRegs(regs: map<Reg, bv8>, rate: nat, sysclkRet: int): map<Reg, bv8>
    requires HasPathRegs(regs)
  {
    if sysclkRet < 0 then regs
    else regs[Pwrdn := regs[Pwrdn] & !HwParamsPowerBits]
             [Spdtx4 := (regs[Spdtx4] & 0xf0) | SpdifStatusCode(rate)]
  }

  /** The value S/PDIF hw_params returns. */
  function SpdifHwParamsResult(sysclkRet: int, bclkRet: int): int {
    if sysclkRet < 0 then sysclkRet else bclkRet
  }

  /** The order of the hw_params calls: an unsupported-rate report, then the
      divider, the PLL, the clock-source select, then either the failure
      report or the register writes, and the bit-clock ratio last. */
  function Stage(e: Event): nat {
    match e
    case DevErr(UnsupportedRate(_)) => 0
    case SetClkdiv(_, _) => 1
    case SetPll(_, _, _, _, _) => 2
    case SetSysclk(_, _, _, _) => 3
    case DevErr(SysclkFailed(_)) => 4
    case UpdateBits(_, _, _) => 5
    case SetBclkRatio(_, _) => 6
    case HwConstraintList(_) => 7
  }

  /** hw_params issues its calls stage by stage, each stage at most once
      except the register writes; in particular the PLL, always fed from the
      12 MHz crystal, is configured strictly before the PLL is selected as
      the transmitter's clock source. */
  lemma SpdifHwParamsOrder(rate: nat, sysclkRet: int)
    ensures var e := SpdifHwParamsEvents(rate, sysclkRet);
      forall i, j :: 0 <= i < j < |e| ==>
        Stage(e[i]) < Stage(e[j]) || (e[i].UpdateBits? && e[j].UpdateBits?)
    ensures var e := SpdifHwParamsEvents(rate, sysclkRet);
      exists i, j :: 0 <= i < j < |e|
        && e[i] == SetPll(Wm8804Dai, 0, 0, Xtal, SpdifPllOut(rate))
        && e[j] == SetSysclk(Wm8804Dai, Wm8804TxClkSrcPll, Xtal, ClockOut)
  {
    var e := SpdifHwParamsEvents(rate, sysclkRet);
    var k := if SpdifStatusCase(rate).None? then 1 else 0;
    assert e[k + 1] == SetPll(Wm8804Dai, 0, 0, Xtal, SpdifPllOut(rate));
    assert e[k + 2] == SetSysclk(Wm8804Dai, Wm8804TxClkSrcPll, Xtal, ClockOut);
  }

  /** A failed clock-source select is returned unchanged; the failure is
      reported, no register is written and the bit-clock ratio is not set. */
  lemma SpdifHwParamsSysclkFailure(regs: map<Reg, bv8>, rate: nat, sysclkRet: int, bclkRet: int)
    requires HasPathRegs(regs)
    requires sysclkRet < 0
    ensures SpdifHwParamsResult(sysclkRet, bclkRet) == sysclkRet
    ensures SpdifHwParamsRegs(regs, rate, sysclkRet) == regs
    ensures var e := SpdifHwParamsEvents(rate, sysclkRet);
      e[|e| - 1] == DevErr(SysclkFailed(sysclkRet))
      && forall i :: 0 <= i < |e| ==> !e[i].UpdateBits? && !e[i].SetBclkRatio?
  {
  }

  /** After a successful clock-source select the result is the bit-clock
      call's, the TX output and the other hw_params power-down bits are
      clear while the rest of PWRDN is kept, SPDTX4 carries the status code
      in its low nibble and keeps its high nibble, and no other register
      changes. */
  lemma SpdifHwParamsSuccess(regs: map<Reg, bv8>, rate: nat, sysclkRet: int, bclkRet: int)
    requires HasPathRegs(regs)
    requires sysclkRet >= 0
    ensures SpdifHwParamsResult(sysclkRet, bclkRet) == bclkRet
    ensures var r := SpdifHwParamsRegs(regs, rate, sysclkRet);
      && r.Keys == regs.Keys
      && r[Pwrdn] & 0x0d == 0
      && r[Pwrdn] & 0xf2 == regs[Pwrdn] & 0xf2
      && r[Spdtx4] & 0x0f == SpdifStatusCode(rate)
      && r[Spdtx4] & 0xf0 == regs[Spdtx4] & 0xf0
      && forall g :: g in regs && g != Pwrdn && g != Spdtx4 ==> r[g] == regs[g]
    ensures var e := SpdifHwParamsEvents(rate, sysclkRet);
      e[|e| - 1] == SetBclkRatio(CpuI2s, 64)
  {
  }

  /** On success the S/PDIF stream's channel status announces, in bits 24
      to 27, the sampling frequency IEC 60958-3 assigns to the rate, or "not
      indicated" for a rate the driver does not name. */
  lemma SpdifHwParamsAnnouncesRate(regs: map<Reg, bv8>, rate: nat, sysclkRet: int)
    requires HasPathRegs(regs)
    requires sysclkRet >= 0
    ensures rate in SpdifRates ==> FsField(rate).Some?
    ensures var r := SpdifHwParamsRegs(regs, rate, sysclkRet);
      Unpack((r[Spdtx4] & 0x0f) as nat, 4)
        == if rate in SpdifRates then FsField(rate).value else NotIndicated
  {
    TransmittedField(rate);
  }

  /** The three masked writes of a successful hw_params, applied one after
      the other, have the effect SpdifHwParamsRegs states. */
  lemma SpdifHwParamsMasks(regs: map<Reg, bv8>, code: bv8)
    requires HasPathRegs(regs)
    requires code < 0x10
    ensures var r1 := regs[Pwrdn := Masked(regs[Pwrdn], 0x04, 0x00)];
      var r2 := r1[Pwrdn := Masked(r1[Pwrdn], 0x09, 0x00)];
      r2[Spdtx4 := Masked(r2[Spdtx4], 0x0f, code)]
        == regs[Pwrdn := regs[Pwrdn] & !HwParamsPowerBits]
               [Spdtx4 := (regs[Spdtx4] & 0xf0) | code]
  {
    var p2 := Masked(Masked(regs[Pwrdn], 0x04, 0x00), 0x09, 0x00);
    MaskedClearTwice(regs[Pwrdn], 0x04, 0x09);
    MaskedLowNibble(regs[Spdtx4], code);
    assert p2 == regs[Pwrdn] & !HwParamsPowerBits;
  }

  /** Replaying the first write of a trace. */
  lemma ReplayStep(regs: map<Reg, bv8>, events: seq<Event>)
    requires events != []
    ensures Replay(regs, events) == Replay(Apply(regs, events[0]), events[1..])
  {
  }

  /** The writes of a successful hw_params, replayed one by one. */
  lemma SpdifHwParamsTailWrites(regs: map<Reg, bv8>, code: bv8)
    requires HasPathRegs(regs)
    requires code < 0x10
    ensures Replay(regs, TxSetup(code)) == regs[Pwrdn := regs[Pwrdn] & !HwParamsPowerBits]
                   [Spdtx4 := (regs[Spdtx4] & 0xf0) | code]
  {
    var post := TxSetup(code);
    var r1 := regs[Pwrdn := Masked(regs[Pwrdn], 0x04, 0x00)];
    var r2 := r1[Pwrdn := Masked(r1[Pwrdn], 0x09, 0x00)];
    var r3 := r2[Spdtx4 := Masked(r2[Spdtx4], 0x0f, code)];
    ReplayStep(regs, post);
    ReplayStep(r1, post[1..]);
    ReplayStep(r2, post[2..]);
    ReplayStep(r3, post[3..]);
    assert post[1..][0] == post[1] && post[1..][1..] == post[2..];
    assert post[2..][0] == post[2] && post[2..][1..] == post[3..];
    assert post[3..][0] == post[3] && post[3..][1..] == [];
    SpdifHwParamsMasks(regs, code);
  }

  /** The register writes hw_params records produce exactly its effect. */
  lemma SpdifHwParamsWrites(regs: map<Reg, bv8>, rate: nat, sysclkRet: int)
    requires HasPathRegs(regs)
    ensures Replay(regs, SpdifHwParamsEvents(rate, sysclkRet))
            == SpdifHwParamsRegs(regs, rate, sysclkRet)
  {
    var pre := RateReport(rate) + ClockSetup(rate);
    var post := if sysclkRet < 0 then [DevErr(SysclkFailed(sysclkRet))]
      else TxSetup(SpdifStatusCode(rate));
    assert SpdifHwParamsEvents(rate, sysclkRet) == pre + post;
    ReplayAppend(regs, pre, post);
    ReplayNoWrites(regs, pre);
    if sysclkRet < 0 {
      ReplayNoWrites(regs, post);
    } else {
      SpdifHwParamsTailWrites(regs, SpdifStatusCode(rate));
    }
  }

  // ---------------------------------------------------------------------
  // startup, shutdown, init
  // ---------------------------------------------------------------------

  function SpdifStartupEvents(): seq<Event> {
    [UpdateBits(Pwrdn, OutputPowerBits, 0x00)]
  }

  function SpdifStartupRegs(regs: map<Reg, bv8>): map<Reg, bv8>
    requires HasPathRegs(regs)
  {
    regs[Pwrdn := regs[Pwrdn] & !OutputPowerBits]
  }

  /** The calls shutdown issues when `auto_shutdown_output` is `flag`. */
  function SpdifShutdownEvents(flag: int): seq<Event> {
    if flag != 0 then [UpdateBits(Pwrdn, OutputPowerBits, OutputPowerBits)] else []
  }

  function SpdifShutdownRegs(regs: map<Reg, bv8>, flag: int): map<Reg, bv8>
    requires HasPathRegs(regs)
  {
    if flag != 0 then regs[Pwrdn := regs[Pwrdn] | OutputPowerBits] else regs
  }

  function SpdifInitEvents(): seq<Event> {
    [UpdateBits(Pwrdn, 0x04, 0x00), UpdateBits(Spdmode, 0xff, 0x00)]
  }

  function SpdifInitRegs(regs: map<Reg, bv8>): map<Reg, bv8>
    requires HasPathRegs(regs)
  {
    regs[Pwrdn := regs[Pwrdn] & !0x04][Spdmode := 0x00]
  }

  /** Startup powers the output on: it clears exactly the output power-down
      bits and touches nothing else. */
  lemma SpdifStartupPowersOn(regs: map<Reg, bv8>)
    requires HasPathRegs(regs)
    ensures var r := SpdifStartupRegs(regs);
      && r.Keys == regs.Keys
      && OutputPower(r[Pwrdn]) == On
      && r[Pwrdn] & !OutputPowerBits == regs[Pwrdn] & !OutputPowerBits
      && forall g :: g in regs && g != Pwrdn ==> r[g] == regs[g]
    ensures Replay(regs, SpdifStartupEvents()) == SpdifStartupRegs(regs)
  {
  }

  /** Shutdown powers the output off, keeping the rest of PWRDN, when the
      auto-shutdown flag is nonzero, and otherwise issues no call at all. */
  lemma SpdifShutdownPolicy(regs: map<Reg, bv8>, flag: int)
    requires HasPathRegs(regs)
    ensures var r := SpdifShutdownRegs(regs, flag);
      && r.Keys == regs.Keys
      && (flag != 0 ==> OutputPower(r[Pwrdn]) == Off)
      && r[Pwrdn] & !OutputPowerBits == regs[Pwrdn] & !OutputPowerBits
      && forall g :: g in regs && g != Pwrdn ==> r[g] == regs[g]
    ensures flag == 0 <==> SpdifShutdownEvents(flag) == []
    ensures flag == 0 ==> SpdifShutdownRegs(regs, flag) == regs
    ensures Replay(regs, SpdifShutdownEvents(flag)) == SpdifShutdownRegs(regs, flag)
  {
  }

  /** A stream that starts and stops leaves every output power-down bit set
      when the flag is nonzero and every one clear otherwise; the rest of
      PWRDN is as before the stream. */
  lemma SpdifStartupThenShutdown(regs: map<Reg, bv8>, flag: int)
    requires HasPathRegs(regs)
    ensures var r := SpdifShutdownRegs(SpdifStartupRegs(regs), flag);
      && r[Pwrdn] == (if flag != 0 then regs[Pwrdn] | OutputPowerBits
                      else regs[Pwrdn] & !OutputPowerBits)
      && OutputPower(r[Pwrdn]) == (if flag != 0 then Off else On)
  {
  }

  /** hw_params repeats init's clear of the TX power-down bit (PWRDN 0x04);
      after init that write leaves PWRDN as it is. */
  lemma SpdifHwParamsAfterInit(regs: map<Reg, bv8>)
    requires HasPathRegs(regs)
    ensures var r := SpdifInitRegs(regs);
      Masked(r[Pwrdn], 0x04, 0x00) == r[Pwrdn]
  {
    MaskedIdempotent(regs[Pwrdn], 0x04, 0x00);
  }

  /** Init clears the TX power-down bit, sets SPDMODE to 0x00 whatever it
      held, and changes no other bit or register. */
  lemma SpdifInitEffect(regs: map<Reg, bv8>)
    requires HasPathRegs(regs)
    ensures var r := SpdifInitRegs(regs);
      && r.Keys == regs.Keys
      && r[Pwrdn] & 0x04 == 0
      && r[Pwrdn] & 0xfb == regs[Pwrdn] & 0xfb
      && r[Spdmode] == 0x00
      && forall g :: g in regs && g != Pwrdn && g != Spdmode ==> r[g] == regs[g]
    ensures Replay(regs, SpdifInitEvents()) == SpdifInitRegs(regs)
  {
    var e := SpdifInitEvents();
    var r1 := regs[Pwrdn := Masked(regs[Pwrdn], 0x04, 0x00)];
    assert e[1..][1..] == [];
    assert Replay(regs, e) == Replay(r1, e[1..]);
    assert Replay(r1, e[1..]) == r1[Spdmode := Masked(r1[Spdmode], 0xff, 0x00)];
  }
}

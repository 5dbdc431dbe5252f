/** The framework calls the card driver issues, recorded in the order it
    issues them. The implementations of these calls are outside the model:
    each becomes an event, and a call whose result the driver uses takes
    that result as a parameter of the operation. Only `UpdateBits` has a
    modelled effect, the masked write on the WM8804 register file. */
module Events {
  import opened ClockPolicy
  import opened Wm8804

  /** The digital audio interfaces the calls address. */
  datatype Dai = CpuI2s | Wm8731Dai | Wm8804Dai

  /** Clock sources selected with `set_sysclk`. */
  datatype SysclkSource = Wm8731Xtal | Wm8804TxClkSrcPll

  datatype ClockDir = ClockIn | ClockOut

  /** What the driver reports through `dev_err`. */
  datatype Diagnostic = UnsupportedRate(rate: nat) | SysclkFailed(code: int)

  datatype Event =
    | HwConstraintList(rates: seq<nat>)
    | SetBclkRatio(dai: Dai, ratio: nat)
    | SetSysclk(dai: Dai, source: SysclkSource, freq: nat, dir: ClockDir)
    | SetClkdiv(dai: Dai, div: MclkDiv)
    | SetPll(dai: Dai, pllId: nat, pllSource: nat, freqIn: nat, freqOut: nat)
    | UpdateBits(reg: Reg, mask: bv8, val: bv8)
    | DevErr(diag: Diagnostic)

  /** The effect of one event on the register file. */
  function Apply(regs: map<Reg, bv8>, e: Event): map<Reg, bv8> {
    match e
    case UpdateBits(reg, mask, val) =>
      if reg in regs then regs[reg := Masked(regs[reg], mask, val)] else regs
    case _ => regs
  }

  /** The register file after a sequence of events, first event first. The
      set of registers never changes. */
  function Replay(regs: map<Reg, bv8>, events: seq<Event>): (r: map<Reg, bv8>)
    ensures r.Keys == regs.Keys
  {
    if events == [] then regs else Replay(Apply(regs, events[0]), events[1..])
  }

  /** Replaying two traces one after the other is replaying their
      concatenation, so a register file can be rebuilt from its trace call
      by call. */
  lemma {:induction false} ReplayAppend(regs: map<Reg, bv8>, a: seq<Event>, b: seq<Event>)
    ensures Replay(regs, a + b) == Replay(Replay(regs, a), b)
  {
    if a == [] {
      assert a + b == b;
    } else {
      assert (a + b)[0] == a[0];
      assert (a + b)[1..] == a[1..] + b;
      ReplayAppend(Apply(regs, a[0]), a[1..], b);
    }
  }

  /** Concatenation of traces is associative. */
  lemma AppendAssoc(a: seq<Event>, b: seq<Event>, c: seq<Event>)
    ensures (a + b) + c == a + (b + c)
  {
  }

  /** Four calls recorded one at a time form one block of the trace. */
  lemma AppendFour(t: seq<Event>, a: Event, b: Event, c: Event, d: Event)
    ensures t + [a] + [b] + [c] + [d] == t + [a, b, c, d]
  {
  }

  /** Events other than register writes leave the register file alone. */
  lemma {:induction false} ReplayNoWrites(regs: map<Reg, bv8>, events: seq<Event>)
    requires forall i :: 0 <= i < |events| ==> !events[i].UpdateBits?
    ensures Replay(regs, events) == regs
  {
    if events != [] {
      ReplayNoWrites(Apply(regs, events[0]), events[1..]);
    }
  }
}

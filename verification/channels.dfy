/** The three probe lines FSM#0..FSM#2 and the state code they encode. */
module Channels {
  import FsmStates

  /** One atomic reading of the three probe lines, bit 0 first. */
  datatype Pins = Pins(fsm0: bool, fsm1: bool, fsm2: bool)

  /** The numeric value of one pin reading. */
  function Bit(b: bool): (v: nat)
    ensures v < 2
  {
    if b then 1 else 0
  }

  /** The little-endian weighted sum of the pins. It always lies in 0..7, so
      it is always a key of the label table. */
  function StateCode(p: Pins): (k: int)
    ensures 0 <= k < 8
    ensures FsmStates.Lookup(k).Some?
  {
    1 * Bit(p.fsm0) + 2 * Bit(p.fsm1) + 4 * Bit(p.fsm2)
  }

  /** The pin reading that encodes state code `k`. */
  function PinsOf(k: int): (p: Pins)
    requires 0 <= k < 8
    ensures StateCode(p) == k
  {
    Pins(k % 2 == 1, (k / 2) % 2 == 1, (k / 4) % 2 == 1)
  }

  /** Decoding a code back to pins recovers the reading: distinct readings
      give distinct codes, so every edge on any line changes the code. */
  lemma DecodeEncode(p: Pins)
    ensures PinsOf(StateCode(p)) == p
  {
  }

  /** Two readings have the same code exactly when they are the same reading. */
  lemma StateCodeInjective(p: Pins, q: Pins)
    ensures StateCode(p) == StateCode(q) <==> p == q
  {
  }
}

/** The header check a saved machine state must pass before any of it is
    loaded: a supported format version and the title of the loaded game. */
module Savestate {

  datatype Verdict = Accepted | UnsupportedVersion | WrongGame

  /** The version must lie in [oldest, newest] (the oldest and the current
      format the emulator reads) and the 16-byte title stored in the state
      must equal the loaded game's; the version is checked first. */
  function CheckHeader(version: int, oldest: int, newest: int, saved: seq<bv8>, rom: seq<bv8>): (v: Verdict)
    requires |saved| == 16 && |rom| == 16
    ensures v == UnsupportedVersion <==> version > newest || version < oldest
    ensures v == WrongGame <==> oldest <= version <= newest && saved != rom
    ensures v == Accepted <==> oldest <= version <= newest && saved == rom
  {
    if version > newest || version < oldest then UnsupportedVersion
    else if !SameTitle(saved, rom) then WrongGame
    else Accepted
  }

  /** Byte-by-byte comparison of two titles. */
  predicate SameTitle(a: seq<bv8>, b: seq<bv8>)
    requires |a| == |b|
    ensures SameTitle(a, b) <==> a == b
  {
    forall i :: 0 <= i < |a| ==> a[i] == b[i]
  }

  /** The pending-interrupt state restored with the saved IRQ delay: pending
      exactly when the delay is positive, and a negative delay reads as zero. */
  function RestoredDelay(saved: int): (r: (bool, int))
    ensures r.0 <==> saved > 0
    ensures r.1 >= 0 && (saved > 0 ==> r.1 == saved)
    ensures saved <= 0 ==> r.1 == 0
  {
    if saved > 0 then (true, saved) else (false, 0)
  }
}

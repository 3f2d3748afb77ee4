/** Calls to a remote store, which may fail before or after they took effect. */
module Calls {
  type Bytes = seq<bv8>

  /** How a call goes: answered; failed, having taken effect or not; abandoned by its context; cut off by a crash. */
  datatype Luck = Smooth | Broken(took: bool, conflict: bool) | Halted(took: bool) | Crash(took: bool)

  function Took(luck: Luck): bool { luck.Smooth? || luck.took }
}

/** Shared vocabulary: optional values and the persistence step of the agent's state file. */
module Durable {

  datatype Option<+T> = None | Some(value: T) {

    function GetOr(default: T): T { if Some? then value else default }
  }

  /**
   How one State.Save can end (internal/agent/state.go). The file is replaced by
   a rename and the directory is synced afterwards, so a save that reports an
   error may still have replaced the file; a process may also die on either side
   of the rename.
   */
  datatype Save = Saved | NotWritten | Unsynced | DiedBefore | DiedAfter {

    predicate Written() { Saved? || Unsynced? || DiedAfter? }

    predicate Died() { DiedBefore? || DiedAfter? }
  }

  /** What hex decodes into 32 bytes. */
  predicate IsHex32(h: string) {
    |h| == 64 && forall i :: 0 <= i < |h| ==> '0' <= h[i] <= '9' || 'a' <= h[i] <= 'f' || 'A' <= h[i] <= 'F'
  }

  /** The file after an attempt to save this state. */
  function File<S>(state: S, file: S, save: Save): S {
    if save.Written() then state else file
  }
}

/** What replacing a state file can come to. */
module StateFile {
  /** Nothing was installed; the new file is visible, but its directory entry may not
      survive a power loss; or it is durable. */
  datatype Save = NotCommitted | Unsynced | Synced
}

/**
 * Values passed between the application shell, the selection screens and
 * the terminal.
 */
module Types {

  /** A JavaScript value that may be `null`. */
  datatype Option<T> = None | Some(value: T)

  /** A string that may be `null` is truthy when present and non-empty. */
  predicate Truthy(s: Option<string>)
  {
    s.Some? && s.value != ""
  }

  /** The operation the terminal runs (`actionType`, minus its `null`, which
      is `Option.None`). */
  datatype ActionType = Install | Wipe | AdvancedWipe | Mount

  /** One requested change from the mount screen: mount (`true`) or unmount
      (`false`) the named partition. */
  datatype MountOp = MountOp(partition: string, mount: bool)
}

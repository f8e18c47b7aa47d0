/**
  The `Role` list of the e-commerce example as a concrete configuration: its
  three list flags are the negation of the `canManageRoles` permission, and
  its `assignedTo` field is read-only in the item view.  The permission
  itself lives in a module outside this model, so it is a parameter.
*/
module RoleExample {
  import opened Wrappers
  import opened MaybeFunctions
  import opened AdminMetaTypes
  import opened FieldModes
  import opened ListMeta

  const ROLE := "Role"
  const ASSIGNED_TO := "assignedTo"

  /** The `ui` of the `Role` list. */
  function RoleListConfig<S, I>(canManageRoles: SessionArgs<S> -> bool): ListConfig<S, I> {
    var hidden := (args: SessionArgs<S>) => !canManageRoles(args);
    ListConfig(Fn(hidden), Fn(hidden), Fn(hidden), Absent, Absent, Absent)
  }

  /** The `ui` of the `assignedTo` field: `itemView: { fieldMode: 'read' }`. */
  function AssignedToUi<S, I>(): FieldUi<S, I> {
    FieldUi(Absent, Absent, Const(Read))
  }

  /** Every list flag of `Role` is true exactly for sessions that may not
      manage roles. */
  lemma RoleFlagsNegatePermission<S, I>(config: KeystoneConfig<S, I>, canManageRoles: SessionArgs<S> -> bool,
                                        flag: ListFlag, session: Option<S>)
    requires ROLE in config.lists && config.lists[ROLE] == RoleListConfig(canManageRoles)
    ensures ListFlagValue(config, ROLE, flag, Live(session)) == Ok(!canManageRoles(SessionArgs(session)))
  {
  }

  /**
    `assignedTo` is never editable in the item view: `read` whenever it can
    be read, whatever the item, the session or the list's default, and
    `hidden` otherwise.
  */
  lemma AssignedToIsReadOnlyInItemView<S, I>(config: KeystoneConfig<S, I>, lists: Lists<S, I>, itemId: string,
                                             session: Option<S>, find: ItemLookup<I>)
    requires IsRegistered(lists, FieldIdentifier(ROLE, ASSIGNED_TO))
    requires FieldAt(lists, FieldIdentifier(ROLE, ASSIGNED_TO)).ui == AssignedToUi()
    ensures FieldAt(lists, FieldIdentifier(ROLE, ASSIGNED_TO)).isEnabled.read ==>
      ItemViewFieldMode(config, lists, FieldIdentifier(ROLE, ASSIGNED_TO), itemId, Live(session), find) == Ok(Read)
    ensures !FieldAt(lists, FieldIdentifier(ROLE, ASSIGNED_TO)).isEnabled.read ==>
      ItemViewFieldMode(config, lists, FieldIdentifier(ROLE, ASSIGNED_TO), itemId, Live(session), find) == Ok(Hidden)
  {
  }
}

/**
  The list-level resolvers: the `hideCreate`, `hideDelete` and `isHidden`
  flags of `KeystoneAdminUIListMeta`, and `list(key)` of `KeystoneAdminMeta`.
*/
module ListMeta {
  import opened Wrappers
  import opened MaybeFunctions
  import opened AdminMetaTypes

  /** The three list-level UI flags. */
  datatype ListFlag = HideCreate | HideDelete | IsHidden

  /** The GraphQL field whose resolver computes `flag`, as its error names it. */
  function FlagField(flag: ListFlag): string {
    match flag
    case HideCreate => "KeystoneAdminUIListMeta.hideCreate"
    case HideDelete => "KeystoneAdminUIListMeta.hideDelete"
    case IsHidden => "KeystoneAdminUIListMeta.isHidden"
  }

  /** The list's configured policy for `flag` (`ui.hideCreate` and so on). */
  function FlagPolicy<S, I>(list: ListConfig<S, I>, flag: ListFlag): MaybeFunction<SessionArgs<S>, bool> {
    match flag
    case HideCreate => list.hideCreate
    case HideDelete => list.hideDelete
    case IsHidden => list.isHidden
  }

  /**
    The resolver of `flag` on the list `key`.  Fails during the build and
    when the list has no configuration; otherwise the configured policy,
    evaluated on the request's session, or `false` when none is set.
  */
  function ListFlagValue<S, I>(config: KeystoneConfig<S, I>, key: string, flag: ListFlag, ctx: Context<S>)
    : (r: Result<bool, Error>)
    ensures ctx.AdminUIBuildProcess? ==> r == Err(BuildProcess(BuildProcessMessage(FlagField(flag))))
    ensures ctx.Live? ==> (r.Ok? <==> key in config.lists)
    ensures ctx.Live? && key in config.lists ==>
      var policy := FlagPolicy(config.lists[key], flag);
      (policy.Absent? ==> r == Ok(false)) &&
      (policy.Const? ==> r == Ok(policy.value)) &&
      (policy.Fn? ==> r == Ok(policy.f(SessionArgs(ctx.session))))
    ensures r.Err? ==> r.error.BuildProcess? || r.error == UndefinedProperty
    ensures ctx.Live? && r.Err? ==> r.error == UndefinedProperty
  {
    match ctx
    case AdminUIBuildProcess => Err(BuildProcess(BuildProcessMessage(FlagField(flag))))
    case Live(session) =>
      if key !in config.lists then Err(UndefinedProperty)
      else Ok(RunMaybeFunction(FlagPolicy(config.lists[key], flag), false, SessionArgs(session)))
  }

  /** Under a live request every flag is `false` for a list that configures
      none of them. */
  lemma UnconfiguredFlagsAreFalse<S, I>(config: KeystoneConfig<S, I>, key: string, flag: ListFlag, session: Option<S>)
    requires key in config.lists
    requires config.lists[key].hideCreate.Absent?
    requires config.lists[key].hideDelete.Absent?
    requires config.lists[key].isHidden.Absent?
    ensures ListFlagValue(config, key, flag, Live(session)) == Ok(false)
  {
  }

  /**
    `list(key)`: the list stored under `key` in `listsByKey`, or nothing
    when there is none (the field is nullable).
  */
  function List(root: AdminMetaRoot, key: string): (r: Option<ListMetaRoot>)
    ensures r.Some? <==> key in root.listsByKey
    ensures r.Some? ==> r.value == root.listsByKey[key]
  {
    if key in root.listsByKey then Some(root.listsByKey[key]) else None
  }
}

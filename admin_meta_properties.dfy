/**
  Properties that span all the request-time resolvers: what the admin UI's
  static build gets, and that live requests are never mistaken for it.
*/
module AdminMetaProperties {
  import opened Wrappers
  import opened AdminMetaTypes
  import opened FieldModes
  import opened ListMeta
  import opened AccessGate

  /** A build-process failure. */
  predicate IsBuildFailure<T>(r: Result<T, Error>) {
    r.Err? && r.error.BuildProcess?
  }

  /**
    During the build every dynamic resolver (the three `fieldMode`s and the
    three list flags) throws a build-process error instead of returning a
    value, while `adminMeta` itself returns the root without asking the
    access predicate.
  */
  lemma BuildProcessFailsEveryDynamicResolver<S, I>(config: KeystoneConfig<S, I>, lists: Lists<S, I>,
                                                   id: FieldIdentifier, itemId: string, find: ItemLookup<I>,
                                                   key: string, flag: ListFlag,
                                                   gate: Option<Context<S> -> bool>, root: AdminMetaRoot)
    ensures IsBuildFailure(CreateViewFieldMode(config, lists, id, AdminUIBuildProcess))
    ensures IsBuildFailure(ListViewFieldMode(config, lists, id, AdminUIBuildProcess))
    ensures IsBuildFailure(ItemViewFieldMode(config, lists, id, itemId, AdminUIBuildProcess, find))
    ensures IsBuildFailure(ListFlagValue(config, key, flag, AdminUIBuildProcess))
    ensures AdminMeta(gate, root, AdminUIBuildProcess) == Ok(root)
  {
  }

  /** A live request never gets a build-process error from any resolver. */
  lemma LiveRequestsNeverFailAsBuild<S, I>(config: KeystoneConfig<S, I>, lists: Lists<S, I>, id: FieldIdentifier,
                                          itemId: string, find: ItemLookup<I>, key: string, flag: ListFlag,
                                          gate: Option<Context<S> -> bool>, root: AdminMetaRoot, session: Option<S>)
    ensures !IsBuildFailure(CreateViewFieldMode(config, lists, id, Live(session)))
    ensures !IsBuildFailure(ListViewFieldMode(config, lists, id, Live(session)))
    ensures !IsBuildFailure(ItemViewFieldMode(config, lists, id, itemId, Live(session), find))
    ensures !IsBuildFailure(ListFlagValue(config, key, flag, Live(session)))
    ensures !IsBuildFailure(AdminMeta(gate, root, Live(session)))
  {
  }

  /** The static tree and the registry agree: every field of every list in the
      root is registered under its list's key and path, and its list is
      configured. */
  ghost predicate RootMatchesRegistry<S, I>(root: AdminMetaRoot, config: KeystoneConfig<S, I>, lists: Lists<S, I>) {
    forall l, f :: l in root.lists && f in l.fields ==>
      IsRegistered(lists, ViewIdentifier(f)) && f.listKey in config.lists
  }

  /**
    For a root that agrees with the registry, the three view objects of any
    of its fields resolve for every live request: none of the field-mode
    resolvers throws.
  */
  lemma EveryRootFieldResolves<S, I>(root: AdminMetaRoot, config: KeystoneConfig<S, I>, lists: Lists<S, I>,
                                     l: ListMetaRoot, f: FieldMetaRoot, itemId: string, session: Option<S>,
                                     find: ItemLookup<I>)
    requires RootMatchesRegistry(root, config, lists)
    requires l in root.lists && f in l.fields
    ensures CreateViewFieldMode(config, lists, ViewIdentifier(f), Live(session)).Ok?
    ensures ListViewFieldMode(config, lists, ViewIdentifier(f), Live(session)).Ok?
    ensures ItemViewFieldMode(config, lists, ViewIdentifier(f), itemId, Live(session), find).Ok?
  {
  }
}

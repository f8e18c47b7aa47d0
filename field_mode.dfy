/**
  The `fieldMode` resolvers of the create, list and item views: for one field
  of one list, and one request, whether the admin UI shows it editable,
  read-only or not at all.
*/
module FieldModes {
  import opened Wrappers
  import opened MaybeFunctions
  import opened AdminMetaTypes

  const CREATE_VIEW_FIELD_MODE := "KeystoneAdminUIFieldMetaCreateView.fieldMode"
  const LIST_VIEW_FIELD_MODE := "KeystoneAdminUIFieldMetaListView.fieldMode"
  const ITEM_VIEW_FIELD_MODE := "KeystoneAdminUIFieldMetaItemView.fieldMode"

  /** `lists[listKey].fields[fieldPath]` exists (otherwise reading its
      `graphql` property throws). */
  predicate IsRegistered<S, I>(lists: Lists<S, I>, id: FieldIdentifier) {
    id.listKey in lists && id.fieldPath in lists[id.listKey].fields
  }

  function FieldAt<S, I>(lists: Lists<S, I>, id: FieldIdentifier): InitialisedField<S, I>
    requires IsRegistered(lists, id)
  {
    lists[id.listKey].fields[id.fieldPath]
  }

  /** A live request about a registered field: the only case in which a
      resolver gets past its first two steps. */
  predicate LiveOn<S, I>(lists: Lists<S, I>, id: FieldIdentifier, ctx: Context<S>) {
    ctx.Live? && IsRegistered(lists, id)
  }

  /**
    `KeystoneAdminUIFieldMetaCreateView.fieldMode`.  Fails during the build;
    `hidden` when the field cannot be created, whatever is configured;
    otherwise the field's own policy if set (the list configuration's `ui` is
    then never read, so a missing list configuration does not throw), else the list's default policy, else `edit`.
  */
  function CreateViewFieldMode<S, I>(config: KeystoneConfig<S, I>, lists: Lists<S, I>, id: FieldIdentifier,
                                     ctx: Context<S>)
    : (r: Result<CreateViewMode, Error>)
    ensures ctx.AdminUIBuildProcess? ==> r == Err(BuildProcess(BuildProcessMessage(CREATE_VIEW_FIELD_MODE)))
    ensures ctx.Live? && !IsRegistered(lists, id) ==> r == Err(UndefinedProperty)
    ensures LiveOn(lists, id, ctx) && !FieldAt(lists, id).isEnabled.create ==> r == Ok(Hidden)
    ensures LiveOn(lists, id, ctx) && FieldAt(lists, id).isEnabled.create ==>
      var own := FieldAt(lists, id).ui.createViewFieldMode;
      var args := SessionArgs(ctx.session);
      && (r.Ok? <==> !own.Absent? || id.listKey in config.lists)
      && (!own.Absent? ==> r == Ok(RunMaybeFunction<SessionArgs<S>, CreateViewMode>(own, Edit, args)))
      && (own.Absent? && id.listKey in config.lists ==>
            var listDefault := config.lists[id.listKey].createViewDefaultFieldMode;
            r == Ok(RunMaybeFunction<SessionArgs<S>, CreateViewMode>(listDefault, Edit, args)))
    ensures r.Err? ==> r.error == BuildProcess(BuildProcessMessage(CREATE_VIEW_FIELD_MODE)) || r.error == UndefinedProperty
    ensures ctx.Live? && r.Err? ==> r.error == UndefinedProperty
  {
    match ctx
    case AdminUIBuildProcess => Err(BuildProcess(BuildProcessMessage(CREATE_VIEW_FIELD_MODE)))
    case Live(session) =>
      if !IsRegistered(lists, id) then Err(UndefinedProperty)
      else
        var field := FieldAt(lists, id);
        if !field.isEnabled.create then Ok(Hidden)
        else
          var listDefault: Result<MaybeFunction<SessionArgs<S>, CreateViewMode>, Error> :=
            if id.listKey in config.lists then Ok(config.lists[id.listKey].createViewDefaultFieldMode)
            else Err(UndefinedProperty);
          match Coalesce(field.ui.createViewFieldMode, listDefault)
          case Err(e) => Err(e)
          case Ok(policy) => Ok(RunMaybeFunction<SessionArgs<S>, CreateViewMode>(policy, Edit, SessionArgs(session)))
  }

  /**
    `KeystoneAdminUIFieldMetaListView.fieldMode`.  Fails during the build;
    `hidden` when the field cannot be read, whatever is configured;
    otherwise the field's own policy if set (the list configuration's `ui` is
    then never read, so a missing list configuration does not throw), else the list's default policy, else `read`.
  */
  function ListViewFieldMode<S, I>(config: KeystoneConfig<S, I>, lists: Lists<S, I>, id: FieldIdentifier,
                                   ctx: Context<S>)
    : (r: Result<ListViewMode, Error>)
    ensures ctx.AdminUIBuildProcess? ==> r == Err(BuildProcess(BuildProcessMessage(LIST_VIEW_FIELD_MODE)))
    ensures ctx.Live? && !IsRegistered(lists, id) ==> r == Err(UndefinedProperty)
    ensures LiveOn(lists, id, ctx) && !FieldAt(lists, id).isEnabled.read ==> r == Ok(Hidden)
    ensures LiveOn(lists, id, ctx) && FieldAt(lists, id).isEnabled.read ==>
      var own := FieldAt(lists, id).ui.listViewFieldMode;
      var args := SessionArgs(ctx.session);
      && (r.Ok? <==> !own.Absent? || id.listKey in config.lists)
      && (!own.Absent? ==> r == Ok(RunMaybeFunction<SessionArgs<S>, ListViewMode>(own, Read, args)))
      && (own.Absent? && id.listKey in config.lists ==>
            var listDefault := config.lists[id.listKey].listViewDefaultFieldMode;
            r == Ok(RunMaybeFunction<SessionArgs<S>, ListViewMode>(listDefault, Read, args)))
    ensures r.Err? ==> r.error == BuildProcess(BuildProcessMessage(LIST_VIEW_FIELD_MODE)) || r.error == UndefinedProperty
    ensures ctx.Live? && r.Err? ==> r.error == UndefinedProperty
  {
    match ctx
    case AdminUIBuildProcess => Err(BuildProcess(BuildProcessMessage(LIST_VIEW_FIELD_MODE)))
    case Live(session) =>
      if !IsRegistered(lists, id) then Err(UndefinedProperty)
      else
        var field := FieldAt(lists, id);
        if !field.isEnabled.read then Ok(Hidden)
        else
          var listDefault: Result<MaybeFunction<SessionArgs<S>, ListViewMode>, Error> :=
            if id.listKey in config.lists then Ok(config.lists[id.listKey].listViewDefaultFieldMode)
            else Err(UndefinedProperty);
          match Coalesce(field.ui.listViewFieldMode, listDefault)
          case Err(e) => Err(e)
          case Ok(policy) => Ok(RunMaybeFunction<SessionArgs<S>, ListViewMode>(policy, Read, SessionArgs(session)))
  }

  /**
    `KeystoneAdminUIFieldMetaItemView.fieldMode` for the item `itemId`.
    Fails during the build; `hidden` when the field cannot be read, else
    `read` when it cannot be updated, in both cases without looking the item
    up; otherwise the item is fetched with `find` (which bypasses access
    control and may find nothing) and the field's own policy if set (the
    list configuration's `ui` is then never read, so a missing list
    configuration does not throw), else the list's default policy,
    else `edit`, is evaluated on `{ session, item }`.
  */
  function ItemViewFieldMode<S, I>(config: KeystoneConfig<S, I>, lists: Lists<S, I>, id: FieldIdentifier,
                                   itemId: string, ctx: Context<S>, find: ItemLookup<I>)
    : (r: Result<FieldMode, Error>)
    ensures ctx.AdminUIBuildProcess? ==> r == Err(BuildProcess(BuildProcessMessage(ITEM_VIEW_FIELD_MODE)))
    ensures ctx.Live? && !IsRegistered(lists, id) ==> r == Err(UndefinedProperty)
    ensures LiveOn(lists, id, ctx) && !FieldAt(lists, id).isEnabled.read ==> r == Ok(Hidden)
    ensures LiveOn(lists, id, ctx) && FieldAt(lists, id).isEnabled.read && !FieldAt(lists, id).isEnabled.update ==>
      r == Ok(Read)
    ensures LiveOn(lists, id, ctx) && FieldAt(lists, id).isEnabled.read && FieldAt(lists, id).isEnabled.update ==>
      var own := FieldAt(lists, id).ui.itemViewFieldMode;
      var args := ItemArgs(ctx.session, find(id.listKey, itemId));
      && (r.Ok? <==> !own.Absent? || id.listKey in config.lists)
      && (!own.Absent? ==> r == Ok(RunMaybeFunction(own, Edit, args)))
      && (own.Absent? && id.listKey in config.lists ==>
            r == Ok(RunMaybeFunction(config.lists[id.listKey].itemViewDefaultFieldMode, Edit, args)))
    ensures r.Err? ==> r.error == BuildProcess(BuildProcessMessage(ITEM_VIEW_FIELD_MODE)) || r.error == UndefinedProperty
    ensures ctx.Live? && r.Err? ==> r.error == UndefinedProperty
  {
    match ctx
    case AdminUIBuildProcess => Err(BuildProcess(BuildProcessMessage(ITEM_VIEW_FIELD_MODE)))
    case Live(session) =>
      if !IsRegistered(lists, id) then Err(UndefinedProperty)
      else
        var field := FieldAt(lists, id);
        if !field.isEnabled.read then Ok(Hidden)
        else if !field.isEnabled.update then Ok(Read)
        else
          var item := find(id.listKey, itemId);
          var listDefault: Result<MaybeFunction<ItemArgs<S, I>, FieldMode>, Error> :=
            if id.listKey in config.lists then Ok(config.lists[id.listKey].itemViewDefaultFieldMode)
            else Err(UndefinedProperty);
          match Coalesce(field.ui.itemViewFieldMode, listDefault)
          case Err(e) => Err(e)
          case Ok(policy) => Ok(RunMaybeFunction(policy, Edit, ItemArgs(session, item)))
  }

  /** With no policy at either level and the capability enabled, each view
      falls back to its fixed default: `edit`, `read` and `edit`. */
  lemma UnconfiguredDefaults<S, I>(config: KeystoneConfig<S, I>, lists: Lists<S, I>, id: FieldIdentifier,
                                   itemId: string, ctx: Context<S>, find: ItemLookup<I>)
    requires LiveOn(lists, id, ctx) && id.listKey in config.lists
    requires FieldAt(lists, id).ui == FieldUi(Absent, Absent, Absent)
    requires config.lists[id.listKey].createViewDefaultFieldMode.Absent?
    requires config.lists[id.listKey].listViewDefaultFieldMode.Absent?
    requires config.lists[id.listKey].itemViewDefaultFieldMode.Absent?
    ensures FieldAt(lists, id).isEnabled.create ==> CreateViewFieldMode(config, lists, id, ctx) == Ok(Edit)
    ensures FieldAt(lists, id).isEnabled.read ==> ListViewFieldMode(config, lists, id, ctx) == Ok(Read)
    ensures FieldAt(lists, id).isEnabled.read && FieldAt(lists, id).isEnabled.update ==>
      ItemViewFieldMode(config, lists, id, itemId, ctx, find) == Ok(Edit)
  {
  }

  /**
    When the item view is decided by the field's capabilities (read or update
    disabled), neither the item lookup nor any configured policy matters:
    two lookups and two configurations give the same mode.
  */
  lemma ItemViewCapabilityIgnoresLookupAndPolicy<S, I>(config1: KeystoneConfig<S, I>, config2: KeystoneConfig<S, I>,
                                                      lists: Lists<S, I>, id: FieldIdentifier, itemId: string,
                                                      ctx: Context<S>, find1: ItemLookup<I>, find2: ItemLookup<I>)
    requires IsRegistered(lists, id)
    requires !FieldAt(lists, id).isEnabled.read || !FieldAt(lists, id).isEnabled.update
    ensures ItemViewFieldMode(config1, lists, id, itemId, ctx, find1)
         == ItemViewFieldMode(config2, lists, id, itemId, ctx, find2)
  {
  }

  /** A field-level policy that is set decides the mode in every view,
      whatever the list's configuration says, even when there is none. */
  lemma FieldPolicyBeatsListDefault<S, I>(config1: KeystoneConfig<S, I>, config2: KeystoneConfig<S, I>,
                                          lists: Lists<S, I>, id: FieldIdentifier, itemId: string,
                                          ctx: Context<S>, find: ItemLookup<I>)
    requires IsRegistered(lists, id)
    ensures !FieldAt(lists, id).ui.createViewFieldMode.Absent? ==>
      CreateViewFieldMode(config1, lists, id, ctx) == CreateViewFieldMode(config2, lists, id, ctx)
    ensures !FieldAt(lists, id).ui.listViewFieldMode.Absent? ==>
      ListViewFieldMode(config1, lists, id, ctx) == ListViewFieldMode(config2, lists, id, ctx)
    ensures !FieldAt(lists, id).ui.itemViewFieldMode.Absent? ==>
      ItemViewFieldMode(config1, lists, id, itemId, ctx, find)
        == ItemViewFieldMode(config2, lists, id, itemId, ctx, find)
  {
  }

  /** A set field-level `fieldMode` needs no list configuration at all: when
      the field sets all three, the three views resolve for a live request
      whether or not its list has an entry, whatever its capabilities. */
  lemma FieldPolicyNeedsNoListConfig<S, I>(config: KeystoneConfig<S, I>, lists: Lists<S, I>, id: FieldIdentifier,
                                           itemId: string, session: Option<S>, find: ItemLookup<I>)
    requires IsRegistered(lists, id)
    requires !FieldAt(lists, id).ui.createViewFieldMode.Absent?
    requires !FieldAt(lists, id).ui.listViewFieldMode.Absent?
    requires !FieldAt(lists, id).ui.itemViewFieldMode.Absent?
    ensures CreateViewFieldMode(config, lists, id, Live(session)).Ok?
    ensures ListViewFieldMode(config, lists, id, Live(session)).Ok?
    ensures ItemViewFieldMode(config, lists, id, itemId, Live(session), find).Ok?
  {
  }
}

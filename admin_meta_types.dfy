/**
  The data the admin-meta resolvers work on: field modes, the request context,
  the static list configuration, the initialised list/field registry, the
  static admin-meta root value tree and the errors the resolvers throw.
  `S` is the type of a session, `I` the type of a stored item.
*/
module AdminMetaTypes {
  import opened Wrappers
  import opened MaybeFunctions

  /** How a field is shown in one view of the admin UI. */
  datatype FieldMode = Edit | Read | Hidden

  /** The create view's enum has only `edit` and `hidden`. */
  type CreateViewMode = m: FieldMode | m != Read witness Edit

  /** The list view's enum has only `read` and `hidden`. */
  type ListViewMode = m: FieldMode | m != Edit witness Read

  /**
    The context a resolver runs in: the admin UI's static build, which has no
    session at all, or a live request whose session may be missing.  A `None`
    session is an `undefined` one; a `null` session, which the default access
    predicate lets in, is not modelled.  A live request carries only its
    session, so the rest of the request context is not modelled either.
  */
  datatype Context<S> = AdminUIBuildProcess | Live(session: Option<S>)

  /** `{ session }`, passed to list-level and create/list-view policies. */
  datatype SessionArgs<S> = SessionArgs(session: Option<S>)

  /** `{ session, item }`, passed to item-view policies; the item is missing
      when the elevated lookup found no record. */
  datatype ItemArgs<S, I> = ItemArgs(session: Option<S>, item: Option<I>)

  /** The errors a resolver or the schema construction throws. */
  datatype Error =
    | BuildProcess(message: string)   // a dynamic resolver ran during the build
    | AccessDenied(message: string)   // the access predicate rejected the request
    | UndefinedProperty               // a property of `undefined` was read (a TypeError)
    | NotAScalarType(name: string)    // `assertScalarType` on a type of another kind
    | NotAnEnumType(name: string)     // `assertEnumType` on a type of another kind
    | MissingQueryType                // `.toConfig()` on `undefined`: a schema without a query type (a TypeError; the `!` is a compile-time assertion only)

  /** The text of a build-process error for the resolver of `field`. */
  function BuildProcessMessage(field: string): string {
    field + " cannot be resolved during the build process"
  }

  const ACCESS_DENIED_MESSAGE := "Access denied"

  /** The `ui` part of a list's configuration (an unset `ui` is all `Absent`). */
  datatype ListConfig<!S, !I> = ListConfig(
    hideCreate: MaybeFunction<SessionArgs<S>, bool>,
    hideDelete: MaybeFunction<SessionArgs<S>, bool>,
    isHidden: MaybeFunction<SessionArgs<S>, bool>,
    createViewDefaultFieldMode: MaybeFunction<SessionArgs<S>, CreateViewMode>,
    listViewDefaultFieldMode: MaybeFunction<SessionArgs<S>, ListViewMode>,
    itemViewDefaultFieldMode: MaybeFunction<ItemArgs<S, I>, FieldMode>)

  /**
    The system configuration as far as the admin meta reads it: the lists'
    configurations, whether a session strategy is configured, and the
    optional `ui.isAccessAllowed` predicate (called with the context).
  */
  datatype KeystoneConfig<!S, !I> = KeystoneConfig(
    lists: map<string, ListConfig<S, I>>,
    sessionConfigured: bool,
    isAccessAllowed: Option<Context<S> -> bool>)

  /** `graphql.isEnabled` of an initialised field. */
  datatype Capabilities = Capabilities(read: bool, create: bool, update: bool)

  /** The per-field `ui.*View.fieldMode` overrides. */
  datatype FieldUi<!S, !I> = FieldUi(
    createViewFieldMode: MaybeFunction<SessionArgs<S>, CreateViewMode>,
    listViewFieldMode: MaybeFunction<SessionArgs<S>, ListViewMode>,
    itemViewFieldMode: MaybeFunction<ItemArgs<S, I>, FieldMode>)

  datatype InitialisedField<!S, !I> = InitialisedField(isEnabled: Capabilities, ui: FieldUi<S, I>)

  datatype InitialisedList<!S, !I> = InitialisedList(fields: map<string, InitialisedField<S, I>>)

  /** The initialised lists, by list key. */
  type Lists<!S, !I> = map<string, InitialisedList<S, I>>

  /** The elevated lookup of one record: list key and item id to the record, if any. */
  type ItemLookup<I> = (string, string) -> Option<I>

  /** Which field of which list a view resolver is about. */
  datatype FieldIdentifier = FieldIdentifier(listKey: string, fieldPath: string)

  datatype SortDirection = Asc | Desc

  datatype Sort = Sort(field: string, direction: SortDirection)

  /** The static description of one field, built once at startup. */
  datatype FieldMetaRoot = FieldMetaRoot(
    path: string,
    labelText: string,   // `label`
    listKey: string,
    isOrderable: bool,
    isFilterable: bool,
    viewsIndex: int,
    customViewsIndex: Option<int>)

  /** The static description of one list, built once at startup. */
  datatype ListMetaRoot = ListMetaRoot(
    key: string,
    path: string,
    labelText: string,   // `label`
    singular: string,
    plural: string,
    description: Option<string>,
    itemQueryName: string,
    listQueryName: string,
    initialColumns: seq<string>,
    pageSize: int,
    labelField: string,
    fields: seq<FieldMetaRoot>,
    initialSort: Option<Sort>)

  /** The static admin-meta tree served under `keystone.adminMeta`. */
  datatype AdminMetaRoot = AdminMetaRoot(
    enableSignout: bool,
    enableSessionItem: bool,
    lists: seq<ListMetaRoot>,
    listsByKey: map<string, ListMetaRoot>)

  /** The identifier the `createView`, `listView` and `itemView` fields hand
      to their object types: the field's path and its list's key (the item
      view adds the `id` argument). */
  function ViewIdentifier(field: FieldMetaRoot): FieldIdentifier {
    FieldIdentifier(field.listKey, field.path)
  }
}

# Admin-meta decision logic of the Keystone admin UI

This project models, in Dafny, the request-time decision rules of Keystone's
admin-meta GraphQL schema (`getAdminMetaSchema`). The admin UI reads this schema
to learn how to render each list and field. The model covers:

- **Policy evaluation** (`MaybeFunctions`). A UI policy is unset, a constant,
  or a function of the resolver's arguments. `RunMaybeFunction` evaluates it
  against a default. `Coalesce` is the `??` that lets a field-level policy
  override the list-level default.
- **Field modes** (`FieldModes`). These are the `fieldMode` resolvers of the
  create, list and item views. Each fails during the admin UI's static build.
  A disabled `create`/`read`/`update` capability forces a restrictive mode
  without consulting any policy. Otherwise the field's own policy applies,
  then the list's default, then a fixed default (`edit`, `read`, `edit`).
  The item view first fetches the record through an elevated lookup, which
  is a parameter `find` here.
- **List flags and lookup** (`ListMeta`). These are `hideCreate`,
  `hideDelete` and `isHidden` (default `false`), plus `list(key)`.
- **Access gate** (`AccessGate`). This is the `isAccessAllowed` predicate
  chosen from the configuration, and the `adminMeta` resolver. The resolver
  returns the static root or throws "Access denied".
- **Schema splice** (`SchemaSplice`). This covers reusing the base schema's
  `JSON` scalar and `QueryMode` enum, and rebuilding the schema: types named
  `Query` are dropped, and the query type is rebuilt with a `keystone` field
  that resolves to `{}`.
- **Cross-cutting properties** (`AdminMetaProperties`) for the build-process
  context.
- **A concrete instance** (`RoleExample`): the e-commerce `Role` list.

Everything is pure functions over datatypes. The source has no loops and no
mutable state. Its only effect is the awaited record lookup, and the model
takes that as an input. A thrown error is a `Result.Err`. The session type
`S` and the item type `I` are type parameters.

The model follows the code on these points:

- `runMaybeFunction` returns a function's result as it is
  (`RunMaybeFunction`, `Fn` case); a function's result is never replaced by
  the default. A policy function that returns `undefined` cannot be written
  here, because the mode and flag types have no `undefined`, as in the
  TypeScript types.
- The access predicate is called with the whole request context, not with
  `{ session }`. The default predicate reads `session` from that context.
- Reading the registry for an unknown list or field is a `TypeError` in the
  code. The model calls it `UndefinedProperty`, and it happens in the same
  order as in the code. For example, a disabled capability yields `hidden`
  before the list configuration is looked up. A field-level `fieldMode` that
  is set decides without `listConfig.ui` being read, so a missing list
  configuration does not throw, because `??` evaluates its right side only
  when the left side is unset.

## Model

| member | source | states |
|---|---|---|
| `MaybeFunctions.RunMaybeFunction` | packages/keystone/src/admin-ui/system/getAdminMetaSchema.ts:330-342 | a function policy gives the function's result on the arguments; an unset policy gives the default; any other value is returned unchanged |
| `MaybeFunctions.DefaultOnlyWhenAbsent` | packages/keystone/src/admin-ui/system/getAdminMetaSchema.ts:335-341 | the default never influences the result of a policy that is set |
| `MaybeFunctions.Coalesce` | packages/keystone/src/admin-ui/system/getAdminMetaSchema.ts:80-82 | `??`: a set field-level policy is chosen, and the list default only when the field-level one is unset |
| `MaybeFunctions.CoalesceEvaluation` | packages/keystone/src/admin-ui/system/getAdminMetaSchema.ts:161-164 | the coalesced policy fails only when the field policy is unset and the list-level read fails; otherwise it evaluates to the field policy's value if set, else the list policy's, else the default |
| `FieldModes.CreateViewFieldMode` | packages/keystone/src/admin-ui/system/getAdminMetaSchema.ts:70-84 | build context: the create-view build error; unknown field: TypeError; create disabled: `hidden` whatever the policies; otherwise it succeeds iff the field's own policy is set or the list has a configuration; a set field policy gives its value without `listConfig.ui` being read, so a missing list configuration does not throw, else the list default's value, with `edit` as the fallback |
| `FieldModes.ListViewFieldMode` | packages/keystone/src/admin-ui/system/getAdminMetaSchema.ts:105-119 | build context: the list-view build error; unknown field: TypeError; read disabled: `hidden` whatever the policies; otherwise it succeeds iff the field's own policy is set or the list has a configuration; a set field policy gives its value without `listConfig.ui` being read, so a missing list configuration does not throw, else the list default's value, with `read` as the fallback |
| `FieldModes.ItemViewFieldMode` | packages/keystone/src/admin-ui/system/getAdminMetaSchema.ts:144-168 | build context: the item-view build error; unknown field: TypeError; read disabled: `hidden`; else update disabled: `read`; otherwise it succeeds iff the field's own policy is set or the list has a configuration, evaluating field policy over list default on `{session, item}` (item from the elevated lookup, fetched first), with `edit` as the fallback |
| `FieldModes.UnconfiguredDefaults` | packages/keystone/src/admin-ui/system/getAdminMetaSchema.ts:76-164 | with no policy at either level and the capability enabled, the modes are `edit`, `read` and `edit` |
| `FieldModes.ItemViewCapabilityIgnoresLookupAndPolicy` | packages/keystone/src/admin-ui/system/getAdminMetaSchema.ts:150-159 | when read or update is disabled, the item-view mode is the same for any two lookups and any two configurations (no lookup, no policy) |
| `FieldModes.FieldPolicyBeatsListDefault` | packages/keystone/src/admin-ui/system/getAdminMetaSchema.ts:80-163 | in all three views a set field-level policy makes the mode independent of the list's configuration, including whether the list has one at all |
| `FieldModes.FieldPolicyNeedsNoListConfig` | packages/keystone/src/admin-ui/system/getAdminMetaSchema.ts:80-163 | a field whose three `fieldMode`s are set resolves in every view for a live request, whatever its capabilities, whether or not its list has a configuration entry |
| `ListMeta.ListFlagValue` | packages/keystone/src/admin-ui/system/getAdminMetaSchema.ts:204-253 | build context: the flag's own build error; live: succeeds iff the list has a configuration, giving `false` for an unset policy, the constant, or the function on `{session}`; no other error |
| `ListMeta.UnconfiguredFlagsAreFalse` | packages/keystone/src/admin-ui/system/getAdminMetaSchema.ts:212-251 | with none of the three flags configured, every flag resolves to `false` for every live session |
| `ListMeta.List` | packages/keystone/src/admin-ui/system/getAdminMetaSchema.ts:269-279 | `list(key)` is present iff `key` is in `listsByKey`, and then it is that entry |
| `AccessGate.IsAccessAllowed` | packages/keystone/src/admin-ui/system/getAdminMetaSchema.ts:32-35 | no predicate iff no session strategy; with one, the configured predicate, or else "the context has a session" |
| `AccessGate.AdminMeta` | packages/keystone/src/admin-ui/system/getAdminMetaSchema.ts:287-301 | build context or no predicate: the root; otherwise it succeeds iff the predicate holds of the context; success is exactly the root, failure exactly "Access denied" |
| `AccessGate.DefaultGate` | packages/keystone/src/admin-ui/system/getAdminMetaSchema.ts:32-35 | with a session strategy and no `ui.isAccessAllowed`, a live request is let in iff it has a session; without a strategy, always |
| `SchemaSplice.GetType` | packages/keystone/src/admin-ui/system/getAdminMetaSchema.ts:36-40 | a found type is in the schema and has the name; nothing is found iff no type has the name |
| `SchemaSplice.JsonScalar` | packages/keystone/src/admin-ui/system/getAdminMetaSchema.ts:36-39 | built-in when the schema has no `JSON` type; the schema's own when it is a scalar; the `assertScalarType` error iff it is of another kind |
| `SchemaSplice.QueryModeEnum` | packages/keystone/src/admin-ui/system/getAdminMetaSchema.ts:40-43 | built-in when the schema has no `QueryMode` type; the schema's own when it is an enum; the `assertEnumType` error iff it is of another kind |
| `SchemaSplice.RemoveTypesNamed` | packages/keystone/src/admin-ui/system/getAdminMetaSchema.ts:310 | the result holds exactly the types not named `Query`, in their original order; nothing changes when none is named so |
| `SchemaSplice.SetField` | packages/keystone/src/admin-ui/system/getAdminMetaSchema.ts:313-320 | the object spread: the names gain the new one; that name reads the new configuration; every other name reads what it did; a new name is appended, and an existing one keeps its place, as `SchemaSplice.SetFieldKeepsPlace` proves |
| `SchemaSplice.FirstIndexOf` | packages/keystone/src/admin-ui/system/getAdminMetaSchema.ts:313-320 | the position of the first field with the name: it has the name and no earlier field does |
| `SchemaSplice.SetFieldKeepsPlace` | packages/keystone/src/admin-ui/system/getAdminMetaSchema.ts:313-320 | spreading over an existing name replaces the first field of that name where it stands, and leaves the fields before and after it as they were |
| `SchemaSplice.SetFieldKeepsNamesUnique` | packages/keystone/src/admin-ui/system/getAdminMetaSchema.ts:313-320 | the spread keeps field names unique |
| `SchemaSplice.WithKeystoneField` | packages/keystone/src/admin-ui/system/getAdminMetaSchema.ts:306-323 | fails iff the schema has no query type; otherwise the new query type keeps its name, description and every field, and gains `keystone` (non-null `KeystoneMeta`, resolving to `{}`), appended when new and in place of an existing `keystone` field otherwise; the type list is the old one without `Query` types, in order; mutation, subscription and directives are unchanged |
| `SchemaSplice.GetAdminMetaSchema` | packages/keystone/src/admin-ui/system/getAdminMetaSchema.ts:36-323 | the `JSON` error comes first, then the `QueryMode` error, then the splice; it succeeds iff all three succeed |
| `SchemaSplice.SpliceReplacesQuery` | packages/keystone/src/admin-ui/system/getAdminMetaSchema.ts:306-312 | for a query type named `Query` with unique field names, the old query type is gone from the type list and the new one's field names are unique |
| `AdminMetaProperties.BuildProcessFailsEveryDynamicResolver` | packages/keystone/src/admin-ui/system/getAdminMetaSchema.ts:71-291 | under the build context, the three `fieldMode`s and the three list flags all fail with a build error (lines 71-75, 106-110, 145-149, 207-211, 219-223, 245-249), and `adminMeta` returns the root (lines 290-291) |
| `AdminMetaProperties.LiveRequestsNeverFailAsBuild` | packages/keystone/src/admin-ui/system/getAdminMetaSchema.ts:71-291 | no resolver gives a build error to a live request: each of the six build checks (lines 71-75, 106-110, 145-149, 207-211, 219-223, 245-249) and the gate's (lines 290-291) fire only for the build context |
| `AdminMetaProperties.EveryRootFieldResolves` | packages/keystone/src/admin-ui/system/getAdminMetaSchema.ts:55-172 | for a live request, every field of every list in the admin-meta root whose registry and list configuration are present gets a mode in all three views |
| `RoleExample.RoleFlagsNegatePermission` | examples-staging/ecommerce/schemas/Role.ts:15-19 | each of `Role`'s list flags resolves to the negation of `canManageRoles` on the session |
| `RoleExample.AssignedToIsReadOnlyInItemView` | examples-staging/ecommerce/schemas/Role.ts:23-29 | `assignedTo` resolves to `read` in the item view whenever it is readable, whatever the session, item or list default, and to `hidden` otherwise |

## Left out

- GraphQL object, enum and scalar construction: type names, `nonNull` wrappers and the static pass-through fields of
  `KeystoneAdminUIFieldMeta`, `KeystoneAdminUIListMeta`, `KeystoneAdminUISort` and `KeystoneAdminMeta`
  (getAdminMetaSchema.ts:45-54, 58-69, 173-203, 228-241, 257-268, 283-286). These are thin calls into the GraphQL library,
  whose code is not part of this model. Only the choice between the schema's `JSON`/`QueryMode` type and the built-in
  one is modelled, and the identifier that the `createView`, `listView` and `itemView` resolvers hand to their object
  types (lines 55-57, 90-92, 130-132), which is `AdminMetaTypes.ViewIdentifier`.
- The GraphQL execution engine and its null propagation, and `GraphQLSchema`'s own validation.
- `SchemaSplice.WithKeystoneField`: the result's `types` is the `types` option passed to `new GraphQLSchema`
  (getAdminMetaSchema.ts:308-310). The constructor's completion of the type map with the new query type and the
  `KeystoneMeta` types it references is not modelled, and neither is its throw when two types share a name (for
  example, when the query type is not named `Query`).
- Promises and async evaluation. A possibly asynchronous policy result, predicate result or lookup is a plain value.
- The elevated `context.sudo().db.lists[key].findOne` lookup: it is the parameter `find`.
- JavaScript truthiness: the access predicate is modelled as returning a `bool`.
- `AccessGate.IsAccessAllowed`: a live request's context carries only its session, so a configured
  `ui.isAccessAllowed` that reads any other part of the context (getAdminMetaSchema.ts:293) cannot be expressed. A `null`
  session, which the default predicate lets in because it only tests `!== undefined` (line 35), is not modelled.
- `ListMeta.ListFlagValue`: assumes a `hideCreate`/`hideDelete`/`isHidden` function never throws, because a policy is a
  total Dafny function; "no other error" holds only under this assumption (getAdminMetaSchema.ts:336).
- `AccessGate.AdminMeta`: assumes the `isAccessAllowed` predicate never throws, because it is a total Dafny function;
  "failure exactly Access denied" holds only under this assumption (getAdminMetaSchema.ts:293).
- `FieldModes.ItemViewFieldMode`: assumes the elevated `findOne` lookup and a `fieldMode` function never throw, because
  `find` and the policies are total Dafny functions; its error cases hold only under this assumption
  (getAdminMetaSchema.ts:157-159, 336).
- `FieldModes.CreateViewFieldMode`, `FieldModes.ListViewFieldMode`: assume a `fieldMode` function never throws, for the
  same reason (getAdminMetaSchema.ts:336).
- A `null` policy value is not modelled, because the configuration types exclude it; `Absent` is `undefined`. `??` would
  skip a `null` field-level policy, but `runMaybeFunction` returns a `null` policy as it is (getAdminMetaSchema.ts:341),
  where `Absent` gives the default.
- Keys that a JavaScript object inherits from its prototype (`listsByKey["toString"]`). How `listsByKey` is built is
  not part of this model.
- `SchemaSplice.GetType`: does not state which of several types with one name it returns, because a schema's type
  names are unique.
- `SchemaSplice.RemoveTypesNamed`: states membership and order, not how often a duplicated type appears, because a
  schema lists each type once.
- The idempotence of a resolution, and the stability of the schema merge: both hold because functions are
  deterministic, and nothing is stated for them.
- `access.operation` of `Role.ts` (lines 7-14) and its other fields: this is access-control configuration that the
  admin-meta rules do not read.
- design-system/packages/segmented-control/src/SegmentedControl.tsx: a presentational React widget (DOM measurement,
  floating-point offsets, styling). It has no decision logic of this kind.

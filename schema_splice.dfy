/**
  The GraphQL schema as far as `getAdminMetaSchema` reads and rebuilds it:
  finding the `JSON` scalar and `QueryMode` enum to reuse, and splicing the
  `keystone` field into the query type.
*/
module SchemaSplice {
  import opened Wrappers
  import opened AdminMetaTypes

  /** A reference to a type from a field: a named type, or a non-null or list wrapper. */
  datatype TypeRef = Named(typeName: string) | NonNull(inner: TypeRef) | ListOf(inner: TypeRef)

  /** What a field's resolver does: the default property read, return `{}`, or
      some other resolver from the base schema, known by a tag. */
  datatype Resolver = DefaultResolver | EmptyObject | OtherResolver(tag: string)

  datatype FieldConfig = FieldConfig(typeRef: TypeRef, resolve: Resolver)

  /** One entry of an object type's `fields` record. */
  datatype Field = Field(name: string, config: FieldConfig)

  /** A named type of the schema. */
  datatype NamedType =
    | Object(name: string, description: Option<string>, fields: seq<Field>)
    | Scalar(name: string)
    | Enum(name: string, values: seq<string>)
    | OtherType(name: string)   // interfaces, unions and input objects, which the splice never inspects

  type ObjectType = t: NamedType | t.Object? witness Object("Query", None, [])

  /** The configuration of a `GraphQLSchema`: the root operation types, the
      named types and the directives.  From `toConfig()` the `types` hold every
      named type (the root types included); in the spliced result they are the
      `types` option handed to the constructor, which the constructor completes
      with the types the root types reference. */
  datatype Schema = Schema(
    query: Option<ObjectType>,
    mutation: Option<ObjectType>,
    subscription: Option<ObjectType>,
    types: seq<NamedType>,
    directives: seq<string>)

  const QUERY := "Query"
  const KEYSTONE := "keystone"
  const JSON := "JSON"
  const QUERY_MODE := "QueryMode"

  /** The `keystone` field: non-null `KeystoneMeta`, resolving to `{}` (the
      nested fields do the real work). */
  const KEYSTONE_FIELD := Field(KEYSTONE, FieldConfig(NonNull(Named("KeystoneMeta")), EmptyObject))

  /** `schema.getType(name)`: the type of that name, if the schema has one. */
  function GetType(types: seq<NamedType>, name: string): (r: Option<NamedType>)
    ensures r.Some? ==> r.value in types && r.value.name == name
    ensures r.None? <==> forall t :: t in types ==> t.name != name
  {
    if types == [] then None
    else if types[0].name == name then Some(types[0])
    else GetType(types[1..], name)
  }

  /** Use the schema's own type, or the built-in equivalent when it has none. */
  datatype TypeChoice = Existing(existing: NamedType) | BuiltIn

  /**
    The JSON scalar of the field metadata: the schema's `JSON` type, which
    `assertScalarType` requires to be a scalar, or the built-in JSON scalar
    when the schema has no `JSON` type.
  */
  function JsonScalar(schema: Schema): (r: Result<TypeChoice, Error>)
    ensures r == Ok(BuiltIn) <==> forall t :: t in schema.types ==> t.name != JSON
    ensures r.Ok? && r.value.Existing? ==>
      r.value.existing in schema.types && r.value.existing.name == JSON && r.value.existing.Scalar?
    ensures var found := GetType(schema.types, JSON); r.Err? <==> found.Some? && !found.value.Scalar?
    ensures r.Err? ==> r.error == NotAScalarType(JSON)
  {
    match GetType(schema.types, JSON)
    case None => Ok(BuiltIn)
    case Some(t) => if t.Scalar? then Ok(Existing(t)) else Err(NotAScalarType(JSON))
  }

  /**
    The query-mode enum of a field's `search`: the schema's `QueryMode` type,
    which `assertEnumType` requires to be an enum, or the built-in one when
    the schema has no `QueryMode` type.
  */
  function QueryModeEnum(schema: Schema): (r: Result<TypeChoice, Error>)
    ensures r == Ok(BuiltIn) <==> forall t :: t in schema.types ==> t.name != QUERY_MODE
    ensures r.Ok? && r.value.Existing? ==>
      r.value.existing in schema.types && r.value.existing.name == QUERY_MODE && r.value.existing.Enum?
    ensures var found := GetType(schema.types, QUERY_MODE); r.Err? <==> found.Some? && !found.value.Enum?
    ensures r.Err? ==> r.error == NotAnEnumType(QUERY_MODE)
  {
    match GetType(schema.types, QUERY_MODE)
    case None => Ok(BuiltIn)
    case Some(t) => if t.Enum? then Ok(Existing(t)) else Err(NotAnEnumType(QUERY_MODE))
  }

  /** `a` is `b` with some elements left out, in the same order. */
  ghost predicate IsSubsequence<T>(a: seq<T>, b: seq<T>)
    decreases |b|
  {
    a == [] || (b != [] && ((a[0] == b[0] && IsSubsequence(a[1..], b[1..])) || IsSubsequence(a, b[1..])))
  }

  /** `types.filter(x => x.name !== name)`. */
  function RemoveTypesNamed(types: seq<NamedType>, name: string): (r: seq<NamedType>)
    ensures forall t :: t in r <==> t in types && t.name != name
    ensures IsSubsequence(r, types)
    ensures (forall t :: t in types ==> t.name != name) ==> r == types
  {
    if types == [] then []
    else if types[0].name == name then RemoveTypesNamed(types[1..], name)
    else [types[0]] + RemoveTypesNamed(types[1..], name)
  }

  /** The names of a `fields` record. */
  function FieldNames(fields: seq<Field>): set<string> {
    set f | f in fields :: f.name
  }

  lemma FieldNamesCons(head: Field, tail: seq<Field>)
    ensures FieldNames([head] + tail) == {head.name} + FieldNames(tail)
  {
  }

  /** Reading `fields[name]`. */
  function LookupField(fields: seq<Field>, name: string): (r: Option<FieldConfig>)
    ensures r.None? <==> name !in FieldNames(fields)
  {
    if fields == [] then None
    else if fields[0].name == name then Some(fields[0].config)
    else LookupField(fields[1..], name)
  }

  /** The position of the first field called `name`. */
  function FirstIndexOf(fields: seq<Field>, name: string): (i: nat)
    requires name in FieldNames(fields)
    ensures i < |fields| && fields[i].name == name
    ensures forall j :: 0 <= j < i ==> fields[j].name != name
  {
    if fields[0].name == name then 0
    else
      assert fields == [fields[0]] + fields[1..];
      FieldNamesCons(fields[0], fields[1..]);
      1 + FirstIndexOf(fields[1..], name)
  }

  /** No two fields share a name, as in any JavaScript object. */
  predicate UniqueNames(fields: seq<Field>) {
    forall i, j :: 0 <= i < j < |fields| ==> fields[i].name != fields[j].name
  }

  /**
    `{ ...fields, [field.name]: field.config }`: a field of that name keeps its
    place and takes the new configuration; otherwise the field goes at the end.
  */
  function SetField(fields: seq<Field>, field: Field): (r: seq<Field>)
    ensures FieldNames(r) == FieldNames(fields) + {field.name}
    ensures LookupField(r, field.name) == Some(field.config)
    ensures forall n :: n != field.name ==> LookupField(r, n) == LookupField(fields, n)
    ensures field.name !in FieldNames(fields) ==> r == fields + [field]
    ensures field.name in FieldNames(fields) ==> |r| == |fields|
  {
    if fields == [] then [field]
    else if fields[0].name == field.name then [field] + fields[1..]
    else
      var rest := SetField(fields[1..], field);
      FieldNamesCons(fields[0], fields[1..]);
      FieldNamesCons(fields[0], rest);
      [fields[0]] + rest
  }

  /** Setting a field keeps the names of a `fields` record unique. */
  lemma {:induction false} SetFieldKeepsNamesUnique(fields: seq<Field>, field: Field)
    requires UniqueNames(fields)
    ensures UniqueNames(SetField(fields, field))
  {
    if fields != [] && fields[0].name != field.name {
      var rest := SetField(fields[1..], field);
      SetFieldKeepsNamesUnique(fields[1..], field);
      forall k | 0 < k < |[fields[0]] + rest|
        ensures ([fields[0]] + rest)[k].name != fields[0].name
      {
        assert rest[k - 1].name in FieldNames(rest);
      }
    }
  }

  /** Spreading over another name leaves the head in front. */
  lemma SetFieldCons(fields: seq<Field>, field: Field)
    requires fields != [] && fields[0].name != field.name
    ensures SetField(fields, field) == [fields[0]] + SetField(fields[1..], field)
  {
  }

  /** Spreading over an existing name replaces that field where it stands. */
  lemma {:induction false} SetFieldKeepsPlace(fields: seq<Field>, field: Field)
    requires field.name in FieldNames(fields)
    ensures var i := FirstIndexOf(fields, field.name);
      SetField(fields, field) == fields[..i] + [field] + fields[i + 1..]
  {
    if fields[0].name != field.name {
      var tail := fields[1..];
      assert fields == [fields[0]] + tail;
      FieldNamesCons(fields[0], tail);
      SetFieldKeepsPlace(tail, field);
      var j := FirstIndexOf(tail, field.name);
      SetFieldCons(fields, field);
      ReplaceCons(fields, j, field);
    }
  }

  /** Replacing element `j + 1` of a sequence is replacing element `j` of its tail. */
  lemma ReplaceCons<T>(s: seq<T>, j: nat, x: T)
    requires j + 1 < |s|
    ensures s[..j + 1] + [x] + s[j + 2..] == [s[0]] + (s[1..][..j] + [x] + s[1..][j + 1..])
  {
    assert s[..j + 1] == [s[0]] + s[1..][..j];
  }

  /**
    The rebuilt schema: every type named `Query` dropped from the type list,
    and the query type rebuilt with its own name and description and its
    fields plus `keystone`; everything else as it was.  Fails when the schema
    has no query type: `getQueryType()` is then `undefined`, and calling
    `.toConfig()` on it throws a TypeError (the `!` is a compile-time assertion
    with no effect at run time).
  */
  function WithKeystoneField(schema: Schema): (r: Result<Schema, Error>)
    ensures r.Err? <==> schema.query.None?
    ensures r.Err? ==> r.error == MissingQueryType
    ensures r.Ok? ==>
      var before, after := schema.query.value, r.value.query;
      && after.Some?
      && after.value.name == before.name && after.value.description == before.description
      && LookupField(after.value.fields, KEYSTONE) == Some(KEYSTONE_FIELD.config)
      && (forall n :: n != KEYSTONE ==> LookupField(after.value.fields, n) == LookupField(before.fields, n))
      && FieldNames(after.value.fields) == FieldNames(before.fields) + {KEYSTONE}
      && (KEYSTONE !in FieldNames(before.fields) ==> after.value.fields == before.fields + [KEYSTONE_FIELD])
      && (KEYSTONE in FieldNames(before.fields) ==>
            var i := FirstIndexOf(before.fields, KEYSTONE);
            after.value.fields == before.fields[..i] + [KEYSTONE_FIELD] + before.fields[i + 1..])
    ensures r.Ok? ==>
      && (forall t :: t in r.value.types <==> t in schema.types && t.name != QUERY)
      && IsSubsequence(r.value.types, schema.types)
      && r.value.mutation == schema.mutation
      && r.value.subscription == schema.subscription
      && r.value.directives == schema.directives
  {
    match schema.query
    case None => Err(MissingQueryType)
    case Some(q) =>
      var fields := SetField(q.fields, KEYSTONE_FIELD);
      assert KEYSTONE in FieldNames(q.fields) ==>
        var i := FirstIndexOf(q.fields, KEYSTONE); fields == q.fields[..i] + [KEYSTONE_FIELD] + q.fields[i + 1..]
      by {
        if KEYSTONE in FieldNames(q.fields) {
          SetFieldKeepsPlace(q.fields, KEYSTONE_FIELD);
        }
      }
      var query: ObjectType := Object(q.name, q.description, fields);
      var types := RemoveTypesNamed(schema.types, QUERY);
      Ok(Schema(Some(query), schema.mutation, schema.subscription, types, schema.directives))
  }

  /**
    `getAdminMetaSchema` as far as the schema is concerned: the JSON and
    QueryMode lookups can throw first; otherwise the result is the spliced
    schema.
  */
  function GetAdminMetaSchema(schema: Schema): (r: Result<Schema, Error>)
    ensures JsonScalar(schema).Err? ==> r == Err(NotAScalarType(JSON))
    ensures JsonScalar(schema).Ok? && QueryModeEnum(schema).Err? ==> r == Err(NotAnEnumType(QUERY_MODE))
    ensures JsonScalar(schema).Ok? && QueryModeEnum(schema).Ok? ==> r == WithKeystoneField(schema)
    ensures r.Ok? <==> JsonScalar(schema).Ok? && QueryModeEnum(schema).Ok? && schema.query.Some?
  {
    match JsonScalar(schema)
    case Err(e) => Err(e)
    case Ok(_) =>
      match QueryModeEnum(schema)
      case Err(e) => Err(e)
      case Ok(_) => WithKeystoneField(schema)
  }

  /** A query type already named `Query` leaves no stale copy of itself in
      the type list, and the splice keeps the new query type's fields unique. */
  lemma SpliceReplacesQuery(schema: Schema)
    requires schema.query.Some? && schema.query.value.name == QUERY
    requires UniqueNames(schema.query.value.fields)
    ensures WithKeystoneField(schema).Ok?
    ensures schema.query.value !in WithKeystoneField(schema).value.types
    ensures UniqueNames(WithKeystoneField(schema).value.query.value.fields)
  {
    SetFieldKeepsNamesUnique(schema.query.value.fields, KEYSTONE_FIELD);
  }
}

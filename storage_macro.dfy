/**
 * The `#[loamstorage]` attribute macro (crates/loam-sdk-macro/src/subcontract/storage.rs).
 * It rewrites a struct whose fields are Soroban storage maps and stores: each
 * field gets a generated key wrapper type as its last generic argument, and a
 * `DataKey` enum gets one variant per field.
 *
 * The `syn` syntax tree is abstracted to what the macro inspects: an item is
 * a struct or something else; a field has a name and a type; a path type is
 * known by its last segment's identifier and generic arguments. Heck's
 * `to_upper_camel_case` is the parameter `upperCamel`. The output tokens are
 * abstracted to the rewritten fields, the `DataKey` variants and the key
 * wrappers.
 */
module StorageMacro {
  import opened Soroban

  /** Generic arguments of a path segment: none, `<…>`, or `(…)`. */
  datatype PathArguments = NoArguments | AngleBracketed(args: seq<Type>) | Parenthesized

  /** A type: a path, known by its last segment, or any other kind of type. */
  datatype Type = PathType(prefix: seq<string>, ident: string, arguments: PathArguments) | OtherType

  datatype Field = Field(name: string, ty: Type)

  datatype Fields = Named(named: seq<Field>) | Unnamed | Unit

  datatype Item = Struct(name: string, fields: Fields) | OtherItem

  /** A compile error at a span, or a panic of the macro itself. */
  datatype Failure = CompileError(message: string) | MacroPanic

  /** A field of the rewritten struct: its name, the storage type, and that type's generic arguments. */
  datatype StorageField = StorageField(name: string, storage: string, args: seq<Type>)

  /** A generated key wrapper: a newtype around the map key, or a unit struct for a store. */
  datatype KeyWrapper = MapKey(wrapper: string, keyType: Type, variant: string) | StoreKey(wrapper: string, variant: string)

  /** A `DataKey` variant: its name and, for a map, the key type it carries. */
  datatype Variant = Variant(name: string, payload: Option<Type>)

  datatype Storage = Storage(name: string, fields: seq<StorageField>, dataKey: seq<Variant>, wrappers: seq<KeyWrapper>)

  const MapKinds: set<string> := {"PersistentMap", "InstanceMap", "TempMap"}
  const StoreKinds: set<string> := {"PersistentStore", "InstanceStore", "TempStore"}

  const WrongKind := "Must use one of PersistentMap, InstanceMap, TempMap, PersistentStore, InstanceStore, or TempStore"

  /** The key wrapper's name: the field name in upper camel case, then `Key`. */
  function KeyWrapperName(fieldName: string, upperCamel: string -> string): string {
    upperCamel(fieldName) + "Key"
  }

  /** A path type naming nothing but an identifier, as the generated wrappers are used. */
  function Named1(ident: string): Type {
    PathType([], ident, NoArguments)
  }

  /** `field_to_enum_case`: the data-key variant shares its name with the key wrapper, less the `Key` suffix. */
  function FieldToEnumCase(fieldName: string, upperCamel: string -> string): (r: string)
    ensures KeyWrapperName(fieldName, upperCamel) == r + "Key"
  {
    upperCamel(fieldName)
  }

  /** `generate_map_field`: a map needs exactly a key type and a value type; the wrapper is appended. */
  function GenerateMapField(fieldName: string, fieldType: Type, keyWrapper: string, mapType: string, upperCamel: string -> string)
    : (r: Result<(StorageField, KeyWrapper), Failure>)
    ensures r.Ok? ==> fieldType.PathType? && fieldType.ident == mapType && fieldType.arguments.AngleBracketed?
                      && |fieldType.arguments.args| == 2
    ensures r.Ok? ==> r.value.0 == StorageField(fieldName, mapType, fieldType.arguments.args + [Named1(keyWrapper)])
    ensures r.Ok? ==> r.value.1 == MapKey(keyWrapper, fieldType.arguments.args[0], upperCamel(fieldName))
  {
    if fieldType.OtherType? then Err(CompileError(mapType + " must be a path type"))
    else if fieldType.ident != mapType then Err(CompileError("Expected " + mapType + ", found " + fieldType.ident))
    else if fieldType.arguments.AngleBracketed? && |fieldType.arguments.args| == 2 then
      var enumCaseName := FieldToEnumCase(fieldName, upperCamel);
      var keyType := fieldType.arguments.args[0];
      var valueType := fieldType.arguments.args[1];
      Ok((StorageField(fieldName, mapType, [keyType, valueType, Named1(keyWrapper)]),
          MapKey(keyWrapper, keyType, enumCaseName)))
    else Err(CompileError(mapType + " must contain key and value types"))
  }

  /**
   * `generate_store_field`: a store's value type is its first generic
   * argument, read without checking that there is one (empty angle brackets
   * make the macro panic); further arguments are dropped.
   */
  function GenerateStoreField(fieldName: string, fieldType: Type, keyWrapper: string, storeType: string, upperCamel: string -> string)
    : (r: Result<(StorageField, KeyWrapper), Failure>)
    ensures fieldType.PathType? && fieldType.ident == storeType && fieldType.arguments == AngleBracketed([]) ==> r == Err(MacroPanic)
    ensures r.Ok? ==> fieldType.PathType? && fieldType.ident == storeType && fieldType.arguments.AngleBracketed?
                      && |fieldType.arguments.args| >= 1
    ensures r.Ok? ==> r.value.0 == StorageField(fieldName, storeType, [fieldType.arguments.args[0], Named1(keyWrapper)])
    ensures r.Ok? ==> r.value.1 == StoreKey(keyWrapper, upperCamel(fieldName))
  {
    if fieldType.OtherType? then Err(CompileError(storeType + " must be a path type"))
    else if fieldType.ident != storeType then Err(CompileError("Expected " + storeType + ", found " + fieldType.ident))
    else if fieldType.arguments.AngleBracketed? then
      if |fieldType.arguments.args| == 0 then Err(MacroPanic)
      else
        var enumCaseName := FieldToEnumCase(fieldName, upperCamel);
        var valueType := fieldType.arguments.args[0];
        Ok((StorageField(fieldName, storeType, [valueType, Named1(keyWrapper)]), StoreKey(keyWrapper, enumCaseName)))
    else Err(CompileError(storeType + " must contain value type"))
  }

  /** The per-field closure of `generate_storage`: dispatch on the storage kind. */
  function GenerateField(field: Field, upperCamel: string -> string): Result<(StorageField, KeyWrapper), Failure> {
    if field.ty.PathType? then
      var keyWrapper := KeyWrapperName(field.name, upperCamel);
      if field.ty.ident in MapKinds then GenerateMapField(field.name, field.ty, keyWrapper, field.ty.ident, upperCamel)
      else if field.ty.ident in StoreKinds then GenerateStoreField(field.name, field.ty, keyWrapper, field.ty.ident, upperCamel)
      else Err(CompileError(WrongKind))
    else Err(CompileError(WrongKind))
  }

  /** A field the macro accepts: a map with a key and a value type, or a store with a value type. */
  predicate ValidField(field: Field) {
    && field.ty.PathType?
    && field.ty.arguments.AngleBracketed?
    && ((field.ty.ident in MapKinds && |field.ty.arguments.args| == 2) ||
        (field.ty.ident in StoreKinds && |field.ty.arguments.args| >= 1))
  }

  /**
   * What the macro makes of one field: a map field gains its wrapper after
   * the key and value types, a store field after its value type, and the
   * wrapper is named after the field; an invalid field is an error.
   */
  lemma GenerateFieldMeaning(field: Field, upperCamel: string -> string)
    ensures GenerateField(field, upperCamel).Ok? <==> ValidField(field)
    ensures ValidField(field) && field.ty.ident in MapKinds ==>
      GenerateField(field, upperCamel) == Ok((StorageField(field.name, field.ty.ident, field.ty.arguments.args + [Named1(upperCamel(field.name) + "Key")]),
                                              MapKey(upperCamel(field.name) + "Key", field.ty.arguments.args[0], upperCamel(field.name))))
    ensures ValidField(field) && field.ty.ident in StoreKinds ==>
      GenerateField(field, upperCamel) == Ok((StorageField(field.name, field.ty.ident, [field.ty.arguments.args[0], Named1(upperCamel(field.name) + "Key")]),
                                              StoreKey(upperCamel(field.name) + "Key", upperCamel(field.name))))
    ensures !ValidField(field) ==>
      (GenerateField(field, upperCamel) == Err(MacroPanic) <==>
         field.ty.PathType? && field.ty.ident in StoreKinds && field.ty.arguments == AngleBracketed([]))
  {
    if field.ty.PathType? && field.ty.ident in MapKinds && field.ty.arguments.AngleBracketed? && |field.ty.arguments.args| == 2 {
      assert field.ty.arguments.args == [field.ty.arguments.args[0], field.ty.arguments.args[1]];
    }
  }

  /** `collect::<Result<Vec<_>>>()`: every field in order, stopping at the first error. */
  function GenerateFields(fields: seq<Field>, upperCamel: string -> string): (r: Result<seq<(StorageField, KeyWrapper)>, Failure>)
    ensures r.Ok? ==> |r.value| == |fields|
    ensures r.Ok? ==> forall i :: 0 <= i < |fields| ==> GenerateField(fields[i], upperCamel) == Ok(r.value[i])
  {
    if |fields| == 0 then Ok([])
    else
      var first :- GenerateField(fields[0], upperCamel);
      var rest :- GenerateFields(fields[1..], upperCamel);
      Ok([first] + rest)
  }

  /** The index of the first invalid field. */
  function FirstInvalid(fields: seq<Field>): (r: Option<nat>)
    ensures r.Some? ==> r.value < |fields| && !ValidField(fields[r.value]) && forall i :: 0 <= i < r.value ==> ValidField(fields[i])
    ensures r.None? ==> forall i :: 0 <= i < |fields| ==> ValidField(fields[i])
  {
    if |fields| == 0 then None
    else if !ValidField(fields[0]) then Some(0)
    else match FirstInvalid(fields[1..])
      case None => None
      case Some(i) => Some(i + 1)
  }

  /** One bad field fails the whole struct, with the error of the first bad field. */
  lemma {:induction false} GenerateFieldsFailsAtFirstInvalid(fields: seq<Field>, upperCamel: string -> string)
    ensures GenerateFields(fields, upperCamel).Ok? <==> FirstInvalid(fields).None?
    ensures FirstInvalid(fields).Some? ==>
      GenerateFields(fields, upperCamel) == Err(GenerateField(fields[FirstInvalid(fields).value], upperCamel).error)
  {
    if |fields| > 0 {
      GenerateFieldMeaning(fields[0], upperCamel);
      GenerateFieldsFailsAtFirstInvalid(fields[1..], upperCamel);
    }
  }

  /** `generate_data_key_variants`: one variant per field, a map's carrying its key type. */
  function GenerateDataKeyVariants(fields: seq<Field>, upperCamel: string -> string): (r: Result<seq<Variant>, Failure>)
    ensures r.Ok? ==> |r.value| == |fields|
  {
    if |fields| == 0 then Ok([])
    else
      var field := fields[0];
      var name := FieldToEnumCase(field.name, upperCamel);
      var first :-
        if field.ty.PathType? then
          if field.ty.ident in MapKinds then
            if field.ty.arguments.AngleBracketed? && |field.ty.arguments.args| == 2 then Ok(Variant(name, Some(field.ty.arguments.args[0])))
            else Err(CompileError("Map must contain key and value types"))
          else if field.ty.ident in StoreKinds then Ok(Variant(name, None))
          else Err(CompileError(WrongKind))
        else Err(CompileError(WrongKind));
      var rest :- GenerateDataKeyVariants(fields[1..], upperCamel);
      Ok([first] + rest)
  }

  /** The variant of an accepted field. */
  function ExpectedVariant(field: Field, upperCamel: string -> string): Variant
    requires ValidField(field)
  {
    Variant(upperCamel(field.name), if field.ty.ident in MapKinds then Some(field.ty.arguments.args[0]) else None)
  }

  /**
   * Once every field has been accepted, the `DataKey` pass cannot fail: it
   * names the variants after the fields, in declaration order, with the key
   * type for maps and no payload for stores.
   */
  lemma {:induction false} DataKeyVariantsFollowFields(fields: seq<Field>, upperCamel: string -> string)
    requires forall i :: 0 <= i < |fields| ==> ValidField(fields[i])
    ensures GenerateDataKeyVariants(fields, upperCamel).Ok?
    ensures forall i :: 0 <= i < |fields| ==>
      GenerateDataKeyVariants(fields, upperCamel).value[i] == ExpectedVariant(fields[i], upperCamel)
  {
    if |fields| > 0 {
      DataKeyVariantsFollowFields(fields[1..], upperCamel);
      var rest := GenerateDataKeyVariants(fields[1..], upperCamel).value;
      forall i | 0 < i < |fields|
        ensures GenerateDataKeyVariants(fields, upperCamel).value[i] == ExpectedVariant(fields[i], upperCamel)
      {
        assert fields[i] == fields[1..][i - 1];
      }
    }
  }

  /** `generate_storage`: named fields only; the fields first, then the `DataKey` variants. */
  function GenerateStorage(name: string, fields: Fields, upperCamel: string -> string): (r: Result<Storage, Failure>)
    ensures !fields.Named? ==> r == Err(CompileError("Only named fields are supported"))
    ensures r.Ok? ==> r.value.name == name && fields.Named?
    ensures r.Ok? ==> |r.value.fields| == |r.value.dataKey| == |r.value.wrappers| == |fields.named|
    ensures r.Ok? ==> forall i :: 0 <= i < |fields.named| ==> GenerateField(fields.named[i], upperCamel) == Ok((r.value.fields[i], r.value.wrappers[i]))
  {
    if !fields.Named? then Err(CompileError("Only named fields are supported"))
    else
      var generated :- GenerateFields(fields.named, upperCamel);
      var dataKey :- GenerateDataKeyVariants(fields.named, upperCamel);
      Ok(Storage(name, seq(|generated|, i requires 0 <= i < |generated| => generated[i].0), dataKey,
                 seq(|generated|, i requires 0 <= i < |generated| => generated[i].1)))
  }

  /** `from_item`: only structs. */
  function FromItem(item: Item, upperCamel: string -> string): (r: Result<Storage, Failure>)
    ensures item.OtherItem? ==> r == Err(CompileError("loamstorage can only be applied to structs"))
    ensures item.Struct? && !item.fields.Named? ==> r == Err(CompileError("Only named fields are supported"))
  {
    match item
    case Struct(name, fields) => GenerateStorage(name, fields, upperCamel)
    case OtherItem => Err(CompileError("loamstorage can only be applied to structs"))
  }

  /**
   * A struct of named fields is accepted exactly when every field is valid;
   * then every field keeps its name and storage kind and gains its wrapper,
   * and the `DataKey` variants follow the fields.
   */
  lemma FromItemAcceptsValidStructs(name: string, fields: seq<Field>, upperCamel: string -> string)
    ensures FromItem(Struct(name, Named(fields)), upperCamel).Ok? <==> forall i :: 0 <= i < |fields| ==> ValidField(fields[i])
    ensures FromItem(Struct(name, Named(fields)), upperCamel).Ok? ==>
      var s := FromItem(Struct(name, Named(fields)), upperCamel).value;
      && |s.fields| == |fields|
      && (forall i :: 0 <= i < |fields| ==>
            && s.fields[i].name == fields[i].name
            && s.fields[i].storage == fields[i].ty.ident
            && s.fields[i].args[|s.fields[i].args| - 1] == Named1(upperCamel(fields[i].name) + "Key"))
      && (forall i :: 0 <= i < |fields| ==> s.dataKey[i].name == upperCamel(fields[i].name))
  {
    GenerateFieldsFailsAtFirstInvalid(fields, upperCamel);
    if forall i :: 0 <= i < |fields| ==> ValidField(fields[i]) {
      DataKeyVariantsFollowFields(fields, upperCamel);
      var s := FromItem(Struct(name, Named(fields)), upperCamel).value;
      forall i | 0 <= i < |fields|
        ensures s.fields[i].name == fields[i].name && s.fields[i].storage == fields[i].ty.ident
        ensures s.fields[i].args[|s.fields[i].args| - 1] == Named1(upperCamel(fields[i].name) + "Key")
      {
        GenerateFieldMeaning(fields[i], upperCamel);
      }
    }
  }

  /**
   * The macro's own test: `struct Foo { bar: PersistentMap<String, u64>,
   * baz: PersistentStore<u64> }` becomes `bar: PersistentMap<String, u64,
   * BarKey>`, `baz: PersistentStore<u64, BazKey>` and `enum DataKey { Bar(String), Baz }`.
   */
  lemma FooExample(upperCamel: string -> string)
    requires upperCamel("bar") == "Bar" && upperCamel("baz") == "Baz"
    ensures
      var str, u64 := Named1("String"), Named1("u64");
      var foo := Struct("Foo", Named([Field("bar", PathType([], "PersistentMap", AngleBracketed([str, u64]))),
                                      Field("baz", PathType([], "PersistentStore", AngleBracketed([u64])))]));
      FromItem(foo, upperCamel) ==
        Ok(Storage("Foo",
                   [StorageField("bar", "PersistentMap", [str, u64, Named1("BarKey")]),
                    StorageField("baz", "PersistentStore", [u64, Named1("BazKey")])],
                   [Variant("Bar", Some(str)), Variant("Baz", None)],
                   [MapKey("BarKey", str, "Bar"), StoreKey("BazKey", "Baz")]))
  {
    var str, u64 := Named1("String"), Named1("u64");
    var fields := [Field("bar", PathType([], "PersistentMap", AngleBracketed([str, u64]))),
                   Field("baz", PathType([], "PersistentStore", AngleBracketed([u64])))];
    var bar := (StorageField("bar", "PersistentMap", [str, u64, Named1("BarKey")]), MapKey("BarKey", str, "Bar"));
    var baz := (StorageField("baz", "PersistentStore", [u64, Named1("BazKey")]), StoreKey("BazKey", "Baz"));
    assert "PersistentMap" in MapKinds && "PersistentStore" !in MapKinds && "PersistentStore" in StoreKinds;
    assert "Bar" + "Key" == "BarKey" && "Baz" + "Key" == "BazKey";
    assert [str, u64] + [Named1("BarKey")] == [str, u64, Named1("BarKey")];
    assert ValidField(fields[0]) && ValidField(fields[1]);
    GenerateFieldMeaning(fields[0], upperCamel);
    GenerateFieldMeaning(fields[1], upperCamel);
    assert GenerateField(fields[0], upperCamel) == Ok(bar);
    assert GenerateField(fields[1], upperCamel) == Ok(baz);
    GenerateFieldsFailsAtFirstInvalid(fields, upperCamel);
    var generated := GenerateFields(fields, upperCamel).value;
    assert generated == [bar, baz];
    DataKeyVariantsFollowFields(fields, upperCamel);
    var variants := GenerateDataKeyVariants(fields, upperCamel).value;
    assert variants == [Variant("Bar", Some(str)), Variant("Baz", None)];
    var storageFields := seq(|generated|, i requires 0 <= i < |generated| => generated[i].0);
    var wrappers := seq(|generated|, i requires 0 <= i < |generated| => generated[i].1);
    assert storageFields == [bar.0, baz.0] && wrappers == [bar.1, baz.1];
    assert FromItem(Struct("Foo", Named(fields)), upperCamel) == Ok(Storage("Foo", storageFields, variants, wrappers));
  }
}

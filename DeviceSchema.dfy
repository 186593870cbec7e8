/**
 * The zod input schemas of the device procedures: `deviceSchema`,
 * `deviceCreateSchema` and `deviceUpdateSchema`. A raw input is a record whose
 * keys are each absent or a string; parsing keeps only the schema's own keys.
 */
module DeviceSchema {
  import opened Wrappers

  /** Bounds of `z.string().min(1).max(255)`. */
  const MinLength: nat := 1
  const MaxLength: nat := 255

  /** A raw procedure input as it arrives from the client. */
  datatype DeviceInput = DeviceInput(id: Option<string>, buildingId: Option<string>, roomId: Option<string>)

  /** What each schema hands to the handler after a successful parse. */
  datatype DeviceId = DeviceId(id: string)
  datatype DeviceCreate = DeviceCreate(buildingId: string, roomId: string)
  datatype DeviceUpdate = DeviceUpdate(id: string, buildingId: Option<string>, roomId: Option<string>)

  /** `z.string().min(1).max(255)` on a string that is there. */
  predicate Bounded(s: string) {
    MinLength <= |s| <= MaxLength
  }

  /** A required bounded field. */
  predicate RequiredBounded(field: Option<string>) {
    field.Some? && Bounded(field.value)
  }

  /** The same field with `.optional()`: absent, or bounded. */
  predicate OptionalBounded(field: Option<string>) {
    field.Some? ==> Bounded(field.value)
  }

  /** `deviceSchema`: `id` is a required string, with no length constraint. */
  predicate DeviceSchemaAccepts(x: DeviceInput) {
    x.id.Some?
  }

  /** `deviceCreateSchema`: both identifiers required and bounded. */
  predicate CreateSchemaAccepts(x: DeviceInput) {
    RequiredBounded(x.buildingId) && RequiredBounded(x.roomId)
  }

  /** `deviceUpdateSchema`: `id` required, both identifiers optional but bounded when present. */
  predicate UpdateSchemaAccepts(x: DeviceInput) {
    x.id.Some? && OptionalBounded(x.buildingId) && OptionalBounded(x.roomId)
  }

  function ParseDevice(x: DeviceInput): (r: Option<DeviceId>)
    ensures r.Some? <==> DeviceSchemaAccepts(x)
    ensures r.Some? ==> x.id == Some(r.value.id)
  {
    if x.id.Some? then Some(DeviceId(x.id.value)) else None
  }

  function ParseCreate(x: DeviceInput): (r: Option<DeviceCreate>)
    ensures r.Some? <==> CreateSchemaAccepts(x)
    ensures r.Some? ==> x.buildingId == Some(r.value.buildingId) && x.roomId == Some(r.value.roomId)
  {
    if CreateSchemaAccepts(x) then Some(DeviceCreate(x.buildingId.value, x.roomId.value)) else None
  }

  function ParseUpdate(x: DeviceInput): (r: Option<DeviceUpdate>)
    ensures r.Some? <==> UpdateSchemaAccepts(x)
    ensures r.Some? ==> r.value == DeviceUpdate(x.id.value, x.buildingId, x.roomId)
  {
    if UpdateSchemaAccepts(x) then Some(DeviceUpdate(x.id.value, x.buildingId, x.roomId)) else None
  }

  /** Any string is a valid `id`, the empty one and arbitrarily long ones included. */
  lemma DeviceSchemaAcceptsAnyId(id: string, buildingId: Option<string>, roomId: Option<string>)
    ensures ParseDevice(DeviceInput(Some(id), buildingId, roomId)) == Some(DeviceId(id))
    ensures ParseDevice(DeviceInput(None, buildingId, roomId)) == None
  {
  }

  /** A create input is valid exactly when both identifiers are there with 1 to 255 characters. */
  lemma CreateValidIff(x: DeviceInput)
    ensures ParseCreate(x).Some? <==>
              x.buildingId.Some? && 1 <= |x.buildingId.value| <= 255 &&
              x.roomId.Some? && 1 <= |x.roomId.value| <= 255
  {
  }

  /** `{buildingId: "", roomId: "R1"}` is refused: the empty string is below the minimum. */
  lemma CreateRejectsEmptyBuilding()
    ensures ParseCreate(DeviceInput(None, Some(""), Some("R1"))) == None
  {
  }

  /** A create input with an identifier longer than 255 characters is refused. */
  lemma CreateRejectsOverlong(x: DeviceInput)
    requires (x.buildingId.Some? && |x.buildingId.value| > 255) || (x.roomId.Some? && |x.roomId.value| > 255)
    ensures ParseCreate(x) == None
  {
  }

  /** An update carrying only `id` is valid, and carries no identifier to overwrite. */
  lemma UpdateIdOnly(id: string)
    ensures ParseUpdate(DeviceInput(Some(id), None, None)) == Some(DeviceUpdate(id, None, None))
  {
  }

  /**
   * In an update an absent identifier never affects validity, and a present
   * one is held to the same bound as in a create.
   */
  lemma UpdateFieldsIndependent(x: DeviceInput)
    ensures UpdateSchemaAccepts(x) <==>
              UpdateSchemaAccepts(x.(buildingId := None)) &&
              (x.buildingId.Some? ==> RequiredBounded(x.buildingId))
    ensures UpdateSchemaAccepts(x) <==>
              UpdateSchemaAccepts(x.(roomId := None)) &&
              (x.roomId.Some? ==> RequiredBounded(x.roomId))
  {
  }

  /** A valid create input, given an `id`, is a valid update that sets both identifiers. */
  lemma CreateExtendsToUpdate(x: DeviceInput, id: string)
    requires ParseCreate(x).Some?
    ensures ParseUpdate(x.(id := Some(id))) ==
              Some(DeviceUpdate(id, Some(ParseCreate(x).value.buildingId), Some(ParseCreate(x).value.roomId)))
  {
  }

  /** Conversely, a valid update that sets both identifiers holds a valid create input. */
  lemma FullUpdateIsCreate(x: DeviceInput)
    requires ParseUpdate(x).Some? && x.buildingId.Some? && x.roomId.Some?
    ensures ParseCreate(x) == Some(DeviceCreate(x.buildingId.value, x.roomId.value))
  {
  }
}

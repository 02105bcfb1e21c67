# glTF schema codec: asset and camera types

A Dafny model of the part of UnityGLTF's glTF serialization that reads and writes
the `asset` object and the camera objects (`camera`, `camera.perspective`,
`camera.orthographic`). It also models the small `GLTFJsonParser.ReadObject`
character scanner. Each schema type has three parts:

- **`Deserialize`** reads a forward-only JSON token stream. It checks for
  `StartObject`, except in `GLTFCamera`. It then loops over property names,
  dispatching each recognised name to its field setter by exact string match.
  Unknown names go to the extension bag.
- **`Serialize`** writes the fields in a fixed order, leaving some out by
  value. It then writes the bag and `EndObject`.
- **A copy constructor.**

Files and modules:

- `json_tokens.dfy` (`JsonTokens`): the token datatype and the number type.
  Numbers are only stored, copied and compared with 0 and positive infinity.
  The module also gives, as functions on the remaining tokens, what the
  reader's value calls take from the front of a stream.
- `json_stream.dfy` (`JsonStream`): `JsonReader` is a cursor over a token
  sequence. `JsonWriter` is an append-only token sequence.
- `gltf_property.dfy` (`GltfProperty`): the extension bag of the common
  property base class. `DefaultPropertyDeserializer` captures one complete
  value under its property name. The base `Serialize` writes the entries back
  in insertion order.
- `camera_perspective.dfy`, `camera_orthographic.dfy`, `asset.dfy`: one
  module and one class per schema type.
- `gltf_camera.dfy` (`Camera`): `GLTFCamera`, with its two sub-objects.
- `gltf_json_parser.dfy` (`JsonParser`): `ReadObject` over a text reader.

## How the model is built

Every class method is proved against a specification function of the
remaining tokens. For example, `CameraPerspective.Deserialize` behaves as
`DeserializePerspective`, and `Serialize` appends `PerspectiveTokens`. The
properties are then proved about those functions:

- **Dispatch.** Each recognised name sets its own field only. Every other name
  adds one bag entry holding exactly the skipped tokens.
- **Last one wins.** `LastOneWins` states this for any sequence of properties.
- **Omission rules.** They are written out in `FieldTokens`, `WriteFields` and
  `WriteProjections`.
- **Round trips.** `RoundTrip` connects writing and reading back for every
  object whose bags are as Deserialize leaves them. `DeserializedBagIsValid`
  shows that every deserialized object qualifies. For `Asset`, `CameraPerspective`
  and `CameraOrthographic`, `SerializeIsStable` then says that a deserialized
  object is written and read back unchanged. `GLTFCamera` has no such lemma,
  because its cycle is not stable (see below).

Two round trips are not the identity:

- **`Asset`** comes back with `minVersion` null, because `Serialize` never
  writes it.
- **`GLTFCamera`** comes back with the `type` string moved into the bag.
  `Serialize` always writes `type`, but `Deserialize` does not recognise the
  name, so the entry goes to the bag. The `type` field and the `Type` enum come
  back at their defaults. A camera that was itself deserialized has a null
  `type`, so each read, write and read cycle adds one more `type` entry,
  holding null, to the front of its bag (`Camera.ReadWriteReadAddsType`).

A stream that ends between two properties does not raise an error. The loop
ends because `reader.Read()` returns false, and the object built so far is
returned. The same holds for a stream that ends right after the name of an
`Asset` string field: `ReadAsString()` gives null there, so the field is null.
A `GLTFCamera` body that ends right after `orthographic` or `perspective`
gives the camera read so far with a default sub-object under that name. The
sub-object's Deserialize finds the stream exhausted, so it skips its
StartObject check and its loop (`Camera.TruncatedAfterProjectionName`).
A stream that ends after the name of a
camera number field fails as a null number, because `ReadAsDouble().Value`
has no value. A stream that ends inside an unknown value fails as an
unexpected end. `Perspective.TruncatedAfterNumberName`,
`Perspective.TruncatedInsideUnknownValue` and
`AssetSchema.TruncatedAfterStringName` state these cases. The model follows
the code here; a stricter reading of the format would call every truncated
stream malformed.

## Model

| member | source | states |
|---|---|---|
| JsonTokens.NextDouble | UnityGLTF/Assets/GLTFSerialization/Schema/CameraPerspective.cs:71 | `ReadAsDouble()`: succeeds exactly on the end of the stream, a number or null; only a number gives a value, and exactly one token is consumed when there is one |
| JsonTokens.NextNumber | UnityGLTF/Assets/GLTFSerialization/Schema/CameraPerspective.cs:71 | `ReadAsDouble().Value`: succeeds exactly when the next token is a number, returns it and consumes it; the end of the stream or null fails with the null-value error |
| JsonTokens.NextString | UnityGLTF/Assets/GLTFSerialization/Schema/Asset.cs:63 | `ReadAsString()`: succeeds exactly on the end of the stream, a string or null; the token consumed is the string token of the value returned |
| JsonTokens.StringTokenRoundTrip | UnityGLTF/Assets/GLTFSerialization/Schema/Asset.cs:63 | a string written with `WriteValue(string)` (null as a null token) is read back by `ReadAsString()` as the same nullable string |
| JsonTokens.NextValue | UnityGLTF/Assets/GLTFSerialization/Schema/CameraPerspective.cs:83 | the value `DefaultPropertyDeserializer` skips: succeeds exactly on a scalar or on a container whose closing token is in the stream; the value and what follows make up the input |
| JsonTokens.CloseLen | UnityGLTF/Assets/GLTFSerialization/Schema/CameraPerspective.cs:83 | the length of the span that closes `depth` open containers is at most the input, and is 0 exactly when nothing is open |
| JsonTokens.CloseLenExtend | UnityGLTF/Assets/GLTFSerialization/Schema/CameraPerspective.cs:83 | tokens after a closed span do not move where it closes |
| JsonTokens.CloseLenRestrict | UnityGLTF/Assets/GLTFSerialization/Schema/CameraPerspective.cs:83 | cutting the stream right after a closed span does not move where it closes |
| JsonTokens.CompleteValueFront | UnityGLTF/Assets/GLTFSerialization/Schema/CameraPerspective.cs:83 | a complete value is captured as itself whatever follows it |
| JsonTokens.CapturedValueComplete | UnityGLTF/Assets/GLTFSerialization/Schema/CameraPerspective.cs:83 | what is captured for an unknown property is one complete value |
| JsonStream.JsonReader.Read | UnityGLTF/Assets/GLTFSerialization/Schema/CameraPerspective.cs:64 | `reader.Read()`: true exactly when a token is left; then the current token is that token and the cursor moves by one; at the end there is no current token |
| JsonStream.JsonReader.ReadAsDouble | UnityGLTF/Assets/GLTFSerialization/Schema/CameraPerspective.cs:71 | the reader call behaves as NextDouble on the remaining tokens, result and cursor |
| JsonStream.JsonReader.ReadAsString | UnityGLTF/Assets/GLTFSerialization/Schema/Asset.cs:63 | the reader call behaves as NextString on the remaining tokens, result and cursor |
| JsonStream.JsonReader.ReadRawValue | UnityGLTF/Assets/GLTFSerialization/Schema/CameraPerspective.cs:83 | reads exactly the tokens of NextValue and leaves the reader after them; the errors are NextValue's |
| JsonStream.JsonReader.ReadToClose | UnityGLTF/Assets/GLTFSerialization/Schema/CameraPerspective.cs:83 | the depth-counting loop reads exactly the CloseLen span, or reports that the stream ended first |
| JsonStream.ReadDoubleValue | UnityGLTF/Assets/GLTFSerialization/Schema/CameraPerspective.cs:71 | `reader.ReadAsDouble().Value` behaves as NextNumber, result and cursor |
| JsonStream.JsonWriter.WriteNumberProperty | UnityGLTF/Assets/GLTFSerialization/Schema/CameraPerspective.cs:97-98 | `WritePropertyName` then `WriteValue(double)` append exactly the name token and the number token |
| JsonStream.JsonWriter.WriteStringProperty | UnityGLTF/Assets/GLTFSerialization/Schema/Asset.cs:89-90 | `WritePropertyName` then `WriteValue(string)` append the name token and the string token, a null string as a null token |
| JsonStream.JsonWriter.WriteRaw | UnityGLTF/Assets/GLTFSerialization/Schema/CameraPerspective.cs:113 | the captured tokens of a bag entry are appended unchanged and in order |
| GltfProperty.UnknownProperty | UnityGLTF/Assets/GLTFSerialization/Schema/CameraPerspective.cs:82-84 | an unknown name becomes one bag entry holding that name and exactly the tokens of the value after it, a complete value; it fails exactly when no complete value follows |
| GltfProperty.UnknownPropertyRoundTrip | UnityGLTF/Assets/GLTFSerialization/Schema/CameraPerspective.cs:82-84 | a bag entry written as name and raw tokens is read back as the same entry with the rest of the stream untouched |
| GltfProperty.DefaultPropertyDeserializer | UnityGLTF/Assets/GLTFSerialization/Schema/CameraPerspective.cs:83 | the reader call behaves as UnknownProperty for the property name the reader is on |
| GltfProperty.MembersTokensAppend | UnityGLTF/Assets/GLTFSerialization/Schema/CameraPerspective.cs:113 | writing two bags one after the other writes the tokens of their concatenation |
| GltfProperty.MembersTokensFrom | UnityGLTF/Assets/GLTFSerialization/Schema/CameraPerspective.cs:113 | the bag from entry i on is written as entry i's name and raw tokens followed by the rest |
| GltfProperty.WriteExtensions | UnityGLTF/Assets/GLTFSerialization/Schema/CameraPerspective.cs:113 | the base Serialize appends every bag entry, name then raw tokens, in insertion order and nothing else |
| Perspective.FieldNamed | UnityGLTF/Assets/GLTFSerialization/Schema/CameraPerspective.cs:70-81 | a name is dispatched to a field exactly when it is one of the four names, and then to the field of that exact name |
| Perspective.Set | UnityGLTF/Assets/GLTFSerialization/Schema/CameraPerspective.cs:70-81 | assigning a field changes that field only and keeps the bag |
| Perspective.ReadProperty | UnityGLTF/Assets/GLTFSerialization/Schema/CameraPerspective.cs:66-85 | one pass of the switch: a recognised name succeeds exactly when a number follows, sets only its own field and consumes that token; a null or the end of the stream fails as a null number; any other name succeeds exactly when one complete value follows and adds one bag entry holding exactly the skipped tokens; a valid bag stays valid |
| Perspective.ReadProperties | UnityGLTF/Assets/GLTFSerialization/Schema/CameraPerspective.cs:64-86 | the loop leaves a suffix of its input and never fails with the not-an-object error |
| Perspective.DeserializePerspective | UnityGLTF/Assets/GLTFSerialization/Schema/CameraPerspective.cs:55-89 | Deserialize fails with the not-an-object error exactly when a token is read and it is not StartObject, and otherwise leaves a suffix of the stream |
| Perspective.ReadPropertiesKeepsBagValid | UnityGLTF/Assets/GLTFSerialization/Schema/CameraPerspective.cs:64-86 | the loop only adds bag entries with unrecognised names and complete values |
| Perspective.DeserializedBagIsValid | UnityGLTF/Assets/GLTFSerialization/Schema/CameraPerspective.cs:55-89 | every bag entry Deserialize creates has an unrecognised name and one complete value |
| Perspective.ReadsAssignment | UnityGLTF/Assets/GLTFSerialization/Schema/CameraPerspective.cs:70-81 | a recognised name followed by a number is one pass of the loop that sets that field |
| Perspective.ReadsExtra | UnityGLTF/Assets/GLTFSerialization/Schema/CameraPerspective.cs:82-84 | an unrecognised name followed by a complete value is one pass of the loop that appends that bag entry |
| Perspective.ReadsProperties | UnityGLTF/Assets/GLTFSerialization/Schema/CameraPerspective.cs:64-86 | reading the tokens of any sequence of well-formed properties applies them to the object in input order |
| Perspective.ReadsObject | UnityGLTF/Assets/GLTFSerialization/Schema/CameraPerspective.cs:55-89 | an object of well-formed properties in any order, repeats allowed, is read as those properties applied in order to a new object, and the reader stops after its EndObject |
| Perspective.ApplyAllAppend | UnityGLTF/Assets/GLTFSerialization/Schema/CameraPerspective.cs:64-86 | applying properties in two batches is applying them all in order |
| Perspective.LastOneWins | UnityGLTF/Assets/GLTFSerialization/Schema/CameraPerspective.cs:64-86 | after the loop each field holds the value of the last property naming it, or its earlier value when none does; the unknown properties are in the bag in input order |
| Perspective.UnassignedKeepsDefault | UnityGLTF/Assets/GLTFSerialization/Schema/CameraPerspective.cs:64-86 | a field no property names keeps its value |
| Perspective.AbsentZfarIsInfinite | UnityGLTF/Assets/GLTFSerialization/Schema/CameraPerspective.cs:55-89 | an object without `zfar` is read with `zfar` at positive infinity, its default |
| Perspective.PropertiesTokensAppend | UnityGLTF/Assets/GLTFSerialization/Schema/CameraPerspective.cs:91-116 | the tokens of two property sequences one after the other are the tokens of their concatenation |
| Perspective.ExtraPropertiesTokens | UnityGLTF/Assets/GLTFSerialization/Schema/CameraPerspective.cs:113 | the bag written as properties is the bag as the base Serialize writes it |
| Perspective.ApplyExtraProperties | UnityGLTF/Assets/GLTFSerialization/Schema/CameraPerspective.cs:82-84 | reading the bag's properties back appends exactly those entries to the bag |
| Perspective.ExtraProperties | UnityGLTF/Assets/GLTFSerialization/Schema/CameraPerspective.cs:113 | the i-th bag entry as the i-th unrecognised property |
| Perspective.FieldPropertiesTokens | UnityGLTF/Assets/GLTFSerialization/Schema/CameraPerspective.cs:95-111 | the fields Serialize writes are the tokens of the field properties, in Serialize's order |
| Perspective.FieldPropertiesApply | UnityGLTF/Assets/GLTFSerialization/Schema/CameraPerspective.cs:95-111 | reading the written fields into a new camera gives back all four numbers, including an omitted 0 `aspectRatio` and an omitted infinite `zfar` |
| Perspective.WrittenPropertiesTokens | UnityGLTF/Assets/GLTFSerialization/Schema/CameraPerspective.cs:91-116 | Serialize's output is StartObject, the tokens of the written properties (fields, then bag), EndObject |
| Perspective.WrittenPropertiesApply | UnityGLTF/Assets/GLTFSerialization/Schema/CameraPerspective.cs:91-116 | reading the written properties into a new camera gives back the camera, bag included |
| Perspective.WrittenPropertiesWellFormed | UnityGLTF/Assets/GLTFSerialization/Schema/CameraPerspective.cs:113 | a bag as Deserialize leaves it makes what Serialize writes a sequence of well-formed properties |
| Perspective.RoundTrip | UnityGLTF/Assets/GLTFSerialization/Schema/CameraPerspective.cs:55-116 | what Serialize writes is read back by Deserialize as the same camera, whatever follows, for every bag as Deserialize leaves it |
| Perspective.SerializeIsStable | UnityGLTF/Assets/GLTFSerialization/Schema/CameraPerspective.cs:55-116 | a camera read from any stream is written and read back unchanged |
| Perspective.YfovZnearExample | UnityGLTF/Assets/GLTFSerialization/Schema/CameraPerspective.cs:55-116 | `{yfov: a, znear: b}` is read with `aspectRatio` 0 and `zfar` infinite, and written back as exactly StartObject, yfov a, znear b, EndObject |
| Perspective.EmptyStreamGivesDefault | UnityGLTF/Assets/GLTFSerialization/Schema/CameraPerspective.cs:57-62 | an exhausted stream gives the default object and no error |
| Perspective.TruncatedAfterNumberName | UnityGLTF/Assets/GLTFSerialization/Schema/CameraPerspective.cs:70-81 | a stream that ends right after a number field's name fails as a null number |
| Perspective.TruncatedInsideUnknownValue | UnityGLTF/Assets/GLTFSerialization/Schema/CameraPerspective.cs:82-84 | a stream that ends inside an unknown object or array value fails as an unexpected end |
| Perspective.CameraPerspective.constructor | UnityGLTF/Assets/GLTFSerialization/Schema/CameraPerspective.cs:19-43 | a new camera has `aspectRatio`, `yfov` and `znear` 0, `zfar` positive infinity and an empty bag |
| Perspective.CameraPerspective.Copy | UnityGLTF/Assets/GLTFSerialization/Schema/CameraPerspective.cs:45-53 | copies the four numbers and the bag; a null camera gives the defaults, `zfar` infinite |
| Perspective.CameraPerspective.Deserialize | UnityGLTF/Assets/GLTFSerialization/Schema/CameraPerspective.cs:55-89 | a new object whose fields are what DeserializePerspective reads, the reader left where it stops, and the same error when it fails |
| Perspective.CameraPerspective.ReadPropertiesFrom | UnityGLTF/Assets/GLTFSerialization/Schema/CameraPerspective.cs:64-86 | the `while (reader.Read() && TokenType == PropertyName)` loop updates the object and the reader as ReadProperties says, errors included |
| Perspective.CameraPerspective.DispatchProperty | UnityGLTF/Assets/GLTFSerialization/Schema/CameraPerspective.cs:66-85 | one pass of the switch updates the object and the reader as ReadProperty says, errors included |
| Perspective.CameraPerspective.Serialize | UnityGLTF/Assets/GLTFSerialization/Schema/CameraPerspective.cs:91-116 | appends exactly PerspectiveTokens of the object's fields and bag to the writer |
| Perspective.CameraPerspective.WriteFields | UnityGLTF/Assets/GLTFSerialization/Schema/CameraPerspective.cs:95-111 | appends `aspectRatio` only when it is not 0, `yfov` always, `zfar` only when it is not positive infinity, `znear` always, in that order |
| Orthographic.FieldNamed | UnityGLTF/Assets/GLTFSerialization/Schema/CameraOrthographic.cs:61-72 | a name is dispatched to a field exactly when it is one of the four names, and then to the field of that exact name |
| Orthographic.Set | UnityGLTF/Assets/GLTFSerialization/Schema/CameraOrthographic.cs:61-72 | assigning a field changes that field only and keeps the bag |
| Orthographic.ReadProperty | UnityGLTF/Assets/GLTFSerialization/Schema/CameraOrthographic.cs:57-76 | one pass of the switch: a recognised name succeeds exactly when a number follows, sets only its own field and consumes that token; a null or the end of the stream fails as a null number; any other name succeeds exactly when one complete value follows and adds one bag entry holding exactly the skipped tokens; a valid bag stays valid |
| Orthographic.ReadProperties | UnityGLTF/Assets/GLTFSerialization/Schema/CameraOrthographic.cs:55-77 | the loop leaves a suffix of its input and never fails with the not-an-object error |
| Orthographic.DeserializeOrthographic | UnityGLTF/Assets/GLTFSerialization/Schema/CameraOrthographic.cs:46-80 | Deserialize fails with the not-an-object error exactly when a token is read and it is not StartObject, and otherwise leaves a suffix of the stream |
| Orthographic.ReadPropertiesKeepsBagValid | UnityGLTF/Assets/GLTFSerialization/Schema/CameraOrthographic.cs:55-77 | the loop only adds bag entries with unrecognised names and complete values |
| Orthographic.DeserializedBagIsValid | UnityGLTF/Assets/GLTFSerialization/Schema/CameraOrthographic.cs:46-80 | every bag entry Deserialize creates has an unrecognised name and one complete value |
| Orthographic.ReadsAssignment | UnityGLTF/Assets/GLTFSerialization/Schema/CameraOrthographic.cs:61-72 | a recognised name followed by a number is one pass of the loop that sets that field |
| Orthographic.ReadsExtra | UnityGLTF/Assets/GLTFSerialization/Schema/CameraOrthographic.cs:73-75 | an unrecognised name followed by a complete value is one pass of the loop that appends that bag entry |
| Orthographic.ReadsProperties | UnityGLTF/Assets/GLTFSerialization/Schema/CameraOrthographic.cs:55-77 | reading the tokens of any sequence of well-formed properties applies them to the object in input order |
| Orthographic.ReadsObject | UnityGLTF/Assets/GLTFSerialization/Schema/CameraOrthographic.cs:46-80 | an object of well-formed properties in any order, repeats allowed, is read as those properties applied in order to a new object, and the reader stops after its EndObject |
| Orthographic.ApplyAllAppend | UnityGLTF/Assets/GLTFSerialization/Schema/CameraOrthographic.cs:55-77 | applying properties in two batches is applying them all in order |
| Orthographic.LastOneWins | UnityGLTF/Assets/GLTFSerialization/Schema/CameraOrthographic.cs:55-77 | after the loop each field holds the value of the last property naming it, or its earlier value when none does; the unknown properties are in the bag in input order |
| Orthographic.UnassignedKeepsDefault | UnityGLTF/Assets/GLTFSerialization/Schema/CameraOrthographic.cs:55-77 | a field no property names keeps its value |
| Orthographic.AbsentFieldIsZero | UnityGLTF/Assets/GLTFSerialization/Schema/CameraOrthographic.cs:46-80 | a number an object leaves out is read as 0 |
| Orthographic.PropertiesTokensAppend | UnityGLTF/Assets/GLTFSerialization/Schema/CameraOrthographic.cs:82-101 | the tokens of two property sequences one after the other are the tokens of their concatenation |
| Orthographic.ExtraPropertiesTokens | UnityGLTF/Assets/GLTFSerialization/Schema/CameraOrthographic.cs:98 | the bag written as properties is the bag as the base Serialize writes it |
| Orthographic.ApplyExtraProperties | UnityGLTF/Assets/GLTFSerialization/Schema/CameraOrthographic.cs:73-75 | reading the bag's properties back appends exactly those entries to the bag |
| Orthographic.ExtraProperties | UnityGLTF/Assets/GLTFSerialization/Schema/CameraOrthographic.cs:98 | the i-th bag entry as the i-th unrecognised property |
| Orthographic.FieldPropertiesTokens | UnityGLTF/Assets/GLTFSerialization/Schema/CameraOrthographic.cs:86-96 | the fields Serialize writes are the tokens of the field properties, in Serialize's order |
| Orthographic.FieldPropertiesApply | UnityGLTF/Assets/GLTFSerialization/Schema/CameraOrthographic.cs:86-96 | reading the written fields into a new camera gives back all four numbers |
| Orthographic.WrittenPropertiesTokens | UnityGLTF/Assets/GLTFSerialization/Schema/CameraOrthographic.cs:82-101 | Serialize's output is StartObject, the tokens of the written properties (fields, then bag), EndObject |
| Orthographic.WrittenPropertiesApply | UnityGLTF/Assets/GLTFSerialization/Schema/CameraOrthographic.cs:82-101 | reading the written properties into a new camera gives back the camera, bag included |
| Orthographic.WrittenPropertiesWellFormed | UnityGLTF/Assets/GLTFSerialization/Schema/CameraOrthographic.cs:98 | a bag as Deserialize leaves it makes what Serialize writes a sequence of well-formed properties |
| Orthographic.RoundTrip | UnityGLTF/Assets/GLTFSerialization/Schema/CameraOrthographic.cs:46-101 | what Serialize writes is read back by Deserialize as the same camera, whatever follows, for every bag as Deserialize leaves it |
| Orthographic.SerializeIsStable | UnityGLTF/Assets/GLTFSerialization/Schema/CameraOrthographic.cs:46-101 | a camera read from any stream is written and read back unchanged |
| Orthographic.AnyOrderExample | UnityGLTF/Assets/GLTFSerialization/Schema/CameraOrthographic.cs:46-101 | `{ymag: b, xmag: a}` is read with xmag a, ymag b and the rest 0, and written back in the fixed order xmag, ymag, zfar, znear |
| Orthographic.EmptyStreamGivesDefault | UnityGLTF/Assets/GLTFSerialization/Schema/CameraOrthographic.cs:48-53 | an exhausted stream gives the default object and no error |
| Orthographic.CameraOrthographic.constructor | UnityGLTF/Assets/GLTFSerialization/Schema/CameraOrthographic.cs:17-36 | a new camera has all four numbers 0 and an empty bag |
| Orthographic.CameraOrthographic.Copy | UnityGLTF/Assets/GLTFSerialization/Schema/CameraOrthographic.cs:38-44 | copies the four numbers and the bag of a non-null camera |
| Orthographic.CameraOrthographic.Deserialize | UnityGLTF/Assets/GLTFSerialization/Schema/CameraOrthographic.cs:46-80 | a new object whose fields are what DeserializeOrthographic reads, the reader left where it stops, and the same error when it fails |
| Orthographic.CameraOrthographic.ReadPropertiesFrom | UnityGLTF/Assets/GLTFSerialization/Schema/CameraOrthographic.cs:55-77 | the `while (reader.Read() && TokenType == PropertyName)` loop updates the object and the reader as ReadProperties says, errors included |
| Orthographic.CameraOrthographic.DispatchProperty | UnityGLTF/Assets/GLTFSerialization/Schema/CameraOrthographic.cs:57-76 | one pass of the switch updates the object and the reader as ReadProperty says, errors included |
| Orthographic.CameraOrthographic.Serialize | UnityGLTF/Assets/GLTFSerialization/Schema/CameraOrthographic.cs:82-101 | appends exactly OrthographicTokens of the object's fields and bag to the writer |
| Orthographic.CameraOrthographic.WriteFields | UnityGLTF/Assets/GLTFSerialization/Schema/CameraOrthographic.cs:86-96 | appends `xmag`, `ymag`, `zfar`, `znear`, always and in that order |
| AssetSchema.FieldNamed | UnityGLTF/Assets/GLTFSerialization/Schema/Asset.cs:62-73 | a name is dispatched to a field exactly when it is one of the four names, and then to the field of that exact name |
| AssetSchema.Set | UnityGLTF/Assets/GLTFSerialization/Schema/Asset.cs:62-73 | assigning a field changes that field only and keeps the bag |
| AssetSchema.ReadProperty | UnityGLTF/Assets/GLTFSerialization/Schema/Asset.cs:58-77 | one pass of the switch: a recognised name succeeds exactly when a string, a null or the end of the stream follows; it sets only its own field, to null at the end of the stream, and consumes the value token when there is one; any other name succeeds exactly when one complete value follows and adds one bag entry holding exactly the skipped tokens; a valid bag stays valid |
| AssetSchema.ReadProperties | UnityGLTF/Assets/GLTFSerialization/Schema/Asset.cs:56-78 | the loop leaves a suffix of its input and never fails with the not-an-object error |
| AssetSchema.DeserializeAsset | UnityGLTF/Assets/GLTFSerialization/Schema/Asset.cs:47-81 | Deserialize fails with the not-an-object error exactly when a token is read and it is not StartObject, and otherwise leaves a suffix of the stream |
| AssetSchema.ReadPropertiesKeepsBagValid | UnityGLTF/Assets/GLTFSerialization/Schema/Asset.cs:56-78 | the loop only adds bag entries with unrecognised names and complete values |
| AssetSchema.DeserializedBagIsValid | UnityGLTF/Assets/GLTFSerialization/Schema/Asset.cs:47-81 | every bag entry Deserialize creates has an unrecognised name and one complete value |
| AssetSchema.ReadsAssignment | UnityGLTF/Assets/GLTFSerialization/Schema/Asset.cs:62-73 | a recognised name followed by a string or null token is one pass of the loop that sets that field to the token's string |
| AssetSchema.ReadsExtra | UnityGLTF/Assets/GLTFSerialization/Schema/Asset.cs:74-76 | an unrecognised name followed by a complete value is one pass of the loop that appends that bag entry |
| AssetSchema.ReadsProperties | UnityGLTF/Assets/GLTFSerialization/Schema/Asset.cs:56-78 | reading the tokens of any sequence of well-formed properties applies them to the object in input order |
| AssetSchema.ReadsObject | UnityGLTF/Assets/GLTFSerialization/Schema/Asset.cs:47-81 | an object of well-formed properties in any order, repeats allowed, is read as those properties applied in order to a new object, and the reader stops after its EndObject |
| AssetSchema.ApplyAllAppend | UnityGLTF/Assets/GLTFSerialization/Schema/Asset.cs:56-78 | applying properties in two batches is applying them all in order |
| AssetSchema.LastOneWins | UnityGLTF/Assets/GLTFSerialization/Schema/Asset.cs:56-78 | after the loop each field holds the value of the last property naming it, or its earlier value when none does; the unknown properties are in the bag in input order |
| AssetSchema.UnassignedKeepsDefault | UnityGLTF/Assets/GLTFSerialization/Schema/Asset.cs:56-78 | a field no property names keeps its value |
| AssetSchema.AbsentFieldIsNull | UnityGLTF/Assets/GLTFSerialization/Schema/Asset.cs:47-81 | a string an object leaves out is read as null |
| AssetSchema.PropertiesTokensAppend | UnityGLTF/Assets/GLTFSerialization/Schema/Asset.cs:83-105 | the tokens of two property sequences one after the other are the tokens of their concatenation |
| AssetSchema.ExtraPropertiesTokens | UnityGLTF/Assets/GLTFSerialization/Schema/Asset.cs:102 | the bag written as properties is the bag as the base Serialize writes it |
| AssetSchema.ApplyExtraProperties | UnityGLTF/Assets/GLTFSerialization/Schema/Asset.cs:74-76 | reading the bag's properties back appends exactly those entries to the bag |
| AssetSchema.ExtraProperties | UnityGLTF/Assets/GLTFSerialization/Schema/Asset.cs:102 | the i-th bag entry as the i-th unrecognised property |
| AssetSchema.FieldPropertiesTokens | UnityGLTF/Assets/GLTFSerialization/Schema/Asset.cs:87-100 | the fields Serialize writes are the tokens of the field properties, in Serialize's order |
| AssetSchema.FieldPropertiesApply | UnityGLTF/Assets/GLTFSerialization/Schema/Asset.cs:87-100 | reading the written fields into a new asset gives back copyright, generator and version, with minVersion null |
| AssetSchema.WrittenPropertiesTokens | UnityGLTF/Assets/GLTFSerialization/Schema/Asset.cs:83-105 | Serialize's output is StartObject, the tokens of the written properties (fields, then bag), EndObject |
| AssetSchema.WrittenPropertiesApply | UnityGLTF/Assets/GLTFSerialization/Schema/Asset.cs:83-105 | reading the written properties into a new asset gives back the asset with minVersion null, bag included |
| AssetSchema.WrittenPropertiesWellFormed | UnityGLTF/Assets/GLTFSerialization/Schema/Asset.cs:102 | a bag as Deserialize leaves it makes what Serialize writes a sequence of well-formed properties |
| AssetSchema.RoundTrip | UnityGLTF/Assets/GLTFSerialization/Schema/Asset.cs:47-105 | what Serialize writes is read back by Deserialize as the same asset except that minVersion is null, whatever follows, for every bag as Deserialize leaves it |
| AssetSchema.SerializeIsStable | UnityGLTF/Assets/GLTFSerialization/Schema/Asset.cs:47-105 | an asset read from any stream is written and read back unchanged except for minVersion, which comes back null |
| AssetSchema.VersionOnlyExample | UnityGLTF/Assets/GLTFSerialization/Schema/Asset.cs:47-105 | `{version: "2.0"}` is read with the other three strings null, and written back as exactly StartObject, version "2.0", EndObject |
| AssetSchema.EmptyStreamGivesDefault | UnityGLTF/Assets/GLTFSerialization/Schema/Asset.cs:49-54 | an exhausted stream gives the default object and no error |
| AssetSchema.Asset.constructor | UnityGLTF/Assets/GLTFSerialization/Schema/Asset.cs:16-35 | a new asset has all four strings null and an empty bag |
| AssetSchema.Asset.Copy | UnityGLTF/Assets/GLTFSerialization/Schema/Asset.cs:37-45 | copies the four strings and the bag; a null asset gives all four null |
| AssetSchema.Asset.Deserialize | UnityGLTF/Assets/GLTFSerialization/Schema/Asset.cs:47-81 | a new object whose fields are what DeserializeAsset reads, the reader left where it stops, and the same error when it fails |
| AssetSchema.Asset.ReadPropertiesFrom | UnityGLTF/Assets/GLTFSerialization/Schema/Asset.cs:56-78 | the `while (reader.Read() && TokenType == PropertyName)` loop updates the object and the reader as ReadProperties says, errors included |
| AssetSchema.Asset.DispatchProperty | UnityGLTF/Assets/GLTFSerialization/Schema/Asset.cs:58-77 | one pass of the switch updates the object and the reader as ReadProperty says, errors included |
| AssetSchema.Asset.Serialize | UnityGLTF/Assets/GLTFSerialization/Schema/Asset.cs:83-105 | appends exactly AssetTokens of the object's fields and bag to the writer |
| AssetSchema.Asset.WriteFields | UnityGLTF/Assets/GLTFSerialization/Schema/Asset.cs:87-100 | appends `copyright` only when it is not null, `generator` only when it is not null, and `version` always, null or not, in that order |
| AssetSchema.MinVersionNotWritten | UnityGLTF/Assets/GLTFSerialization/Schema/Asset.cs:83-105 | Serialize's output does not depend on minVersion, and the fields it writes hold no `minVersion` name |
| AssetSchema.MinVersionNeverWritten | UnityGLTF/Assets/GLTFSerialization/Schema/Asset.cs:83-105 | for a bag as Deserialize leaves it, no property Serialize writes, field or bag entry, is named `minVersion` |
| AssetSchema.TruncatedAfterStringName | UnityGLTF/Assets/GLTFSerialization/Schema/Asset.cs:62-73 | a stream that ends right after a string field's name ends the loop with that field null and nothing else changed |
| Orthographic.PropertiesTokensCons | UnityGLTF/Assets/GLTFSerialization/Schema/CameraOrthographic.cs:82-101 | the tokens of a property followed by others are its tokens followed by theirs |
| Orthographic.ApplyAllCons | UnityGLTF/Assets/GLTFSerialization/Schema/CameraOrthographic.cs:55-77 | applying a property followed by others applies it first |
| Camera.ReadProperty | UnityGLTF/Assets/GLTFSerialization/Schema/GLTFCamera.cs:61-74 | one pass of the switch: leaves a suffix of the stream; an unrecognised name (`type` included) succeeds exactly when a complete value follows and adds one bag entry holding exactly the skipped tokens; no name changes `type` or `Type`; `orthographic` and `perspective` succeed exactly when their own Deserialize does and then replace only that sub-object |
| Camera.ReadProperties | UnityGLTF/Assets/GLTFSerialization/Schema/GLTFCamera.cs:59-75 | the loop leaves a suffix of its input |
| Camera.DeserializeCamera | UnityGLTF/Assets/GLTFSerialization/Schema/GLTFCamera.cs:55-78 | Deserialize, which does not consume a StartObject, leaves a suffix of the stream |
| Camera.TypeNeverRead | UnityGLTF/Assets/GLTFSerialization/Schema/GLTFCamera.cs:63-74 | the loop never changes the `type` string or the `Type` enum |
| Camera.ReadPropertyKeepsBagsValid | UnityGLTF/Assets/GLTFSerialization/Schema/GLTFCamera.cs:63-74 | one pass of the switch keeps the camera's bag and its sub-objects' bags valid: unrecognised names, one complete value each |
| Camera.ReadPropertiesKeepsBagValid | UnityGLTF/Assets/GLTFSerialization/Schema/GLTFCamera.cs:59-75 | the loop keeps every bag valid |
| Camera.DeserializedBagIsValid | UnityGLTF/Assets/GLTFSerialization/Schema/GLTFCamera.cs:55-78 | every camera Deserialize produces has valid bags, its own and its sub-objects', so RoundTrip applies to it |
| Camera.DeserializedTypeIsDefault | UnityGLTF/Assets/GLTFSerialization/Schema/GLTFCamera.cs:55-78 | a camera read from any stream has a null `type` string and `Type` perspective, whatever the stream holds |
| Camera.TruncatedAfterProjectionName | UnityGLTF/Assets/GLTFSerialization/Schema/GLTFCamera.cs:59-75 | a body that ends right after `orthographic` or `perspective` ends the loop with no error and a default sub-object under that name, nothing else changed |
| Camera.LeadingStartObjectEndsAtOnce | UnityGLTF/Assets/GLTFSerialization/Schema/GLTFCamera.cs:59 | handed a StartObject first, the loop stops at once, consuming it, and gives the default camera |
| Camera.SerializeIgnoresType | UnityGLTF/Assets/GLTFSerialization/Schema/GLTFCamera.cs:84-94 | which sub-objects are written depends on neither `type` nor `Type`, and `Type` plays no part in the output |
| Camera.ReadPropertiesOk | UnityGLTF/Assets/GLTFSerialization/Schema/GLTFCamera.cs:59-75 | a property that is read moves the loop on to what follows it, with the object it produced |
| Camera.ReadPropertiesErr | UnityGLTF/Assets/GLTFSerialization/Schema/GLTFCamera.cs:59-75 | a property that fails to read ends the loop with its error |
| Camera.ReadsOrthographic | UnityGLTF/Assets/GLTFSerialization/Schema/GLTFCamera.cs:65-67 | an `orthographic` property as Serialize writes it is one pass of the loop that sets that sub-object |
| Camera.ReadsOrthographicFrom | UnityGLTF/Assets/GLTFSerialization/Schema/GLTFCamera.cs:65-67 | `orthographic` followed by what the orthographic Deserialize reads sets that sub-object |
| Camera.ReadsPerspective | UnityGLTF/Assets/GLTFSerialization/Schema/GLTFCamera.cs:68-70 | a `perspective` property as Serialize writes it is one pass of the loop that sets that sub-object |
| Camera.ReadsPerspectiveFrom | UnityGLTF/Assets/GLTFSerialization/Schema/GLTFCamera.cs:68-70 | `perspective` followed by what the perspective Deserialize reads sets that sub-object |
| Camera.ReadsExtra | UnityGLTF/Assets/GLTFSerialization/Schema/GLTFCamera.cs:71-73 | an unrecognised name followed by a complete value is one pass of the loop that appends that bag entry |
| Camera.ReadsOne | UnityGLTF/Assets/GLTFSerialization/Schema/GLTFCamera.cs:63-74 | any one well-formed property is one pass of the loop that applies it |
| Camera.ReadsProperties | UnityGLTF/Assets/GLTFSerialization/Schema/GLTFCamera.cs:59-75 | reading the tokens of any sequence of well-formed properties applies them in input order |
| Camera.ReadsPropertiesToEnd | UnityGLTF/Assets/GLTFSerialization/Schema/GLTFCamera.cs:59-75 | well-formed properties followed by EndObject are applied in order and the loop stops after the EndObject |
| Camera.ReadsBody | UnityGLTF/Assets/GLTFSerialization/Schema/GLTFCamera.cs:55-78 | the body of an object of well-formed properties in any order, repeats allowed, is read as those properties applied to a new camera |
| Camera.ApplyAllAppend | UnityGLTF/Assets/GLTFSerialization/Schema/GLTFCamera.cs:59-75 | applying properties in two batches is applying them all in order |
| Camera.LastOneWins | UnityGLTF/Assets/GLTFSerialization/Schema/GLTFCamera.cs:63-74 | after the loop each sub-object is the last one given, or its earlier value, both kinds kept side by side; unknown properties are in the bag in input order; `type` and `Type` are untouched |
| Camera.OnlyPerspective | UnityGLTF/Assets/GLTFSerialization/Schema/GLTFCamera.cs:55-78 | a body holding only `perspective` gives that perspective and a null orthographic sub-object |
| Camera.OnlyPerspectiveTokens | UnityGLTF/Assets/GLTFSerialization/Schema/GLTFCamera.cs:80-102 | a camera with only a perspective is written as `perspective`, then `type` as null |
| Camera.BothProjectionsKept | UnityGLTF/Assets/GLTFSerialization/Schema/GLTFCamera.cs:63-70 | a body holding `orthographic` then `perspective` keeps both sub-objects |
| Camera.ExtraProperties | UnityGLTF/Assets/GLTFSerialization/Schema/GLTFCamera.cs:99 | the i-th bag entry as the i-th unrecognised property |
| Camera.PropertiesTokensAppend | UnityGLTF/Assets/GLTFSerialization/Schema/GLTFCamera.cs:80-102 | the tokens of two property sequences one after the other are the tokens of their concatenation |
| Camera.ExtrasTokens | UnityGLTF/Assets/GLTFSerialization/Schema/GLTFCamera.cs:99 | the bag written as properties is the bag as the base Serialize writes it |
| Camera.ApplyExtras | UnityGLTF/Assets/GLTFSerialization/Schema/GLTFCamera.cs:71-73 | reading the bag's properties back appends exactly those entries to the bag |
| Camera.ProjectionPropertiesTokens | UnityGLTF/Assets/GLTFSerialization/Schema/GLTFCamera.cs:84-94 | the sub-objects that are not null, as properties, are the tokens Serialize writes for them |
| Camera.WrittenPropertiesTokens | UnityGLTF/Assets/GLTFSerialization/Schema/GLTFCamera.cs:80-102 | Serialize's output is StartObject, the tokens of the written properties (sub-objects, `type`, bag), EndObject |
| Camera.WrittenPropertiesApply | UnityGLTF/Assets/GLTFSerialization/Schema/GLTFCamera.cs:80-102 | reading the written properties into a new camera gives the same sub-objects, with `type` moved to the front of the bag |
| Camera.WrittenPropertiesWellFormed | UnityGLTF/Assets/GLTFSerialization/Schema/GLTFCamera.cs:80-102 | bags as Deserialize leaves them make what Serialize writes a sequence of well-formed properties |
| Camera.ReadWriteReadAddsType | UnityGLTF/Assets/GLTFSerialization/Schema/GLTFCamera.cs:55-102 | a deserialized camera, written and read back, keeps its sub-objects and bag but gains a `type` entry holding null at the front of the bag: the cycle is not stable |
| Camera.ReadBackGrows | UnityGLTF/Assets/GLTFSerialization/Schema/GLTFCamera.cs:55-102 | what is read back from Serialize's output again has valid bags, with one bag entry more than before, the `type` entry first |
| Camera.RoundTrip | UnityGLTF/Assets/GLTFSerialization/Schema/GLTFCamera.cs:55-102 | Deserialize, given the body of what Serialize writes, reads back the same sub-objects, whatever follows, for every camera whose bags are as Deserialize leaves them; the `type` string comes back as the first bag entry and `type`/`Type` at their defaults |
| Camera.GLTFCamera.constructor | UnityGLTF/Assets/GLTFSerialization/Schema/GLTFCamera.cs:34-36 | a new camera has no sub-objects, a null `type`, `Type` perspective and an empty bag |
| Camera.GLTFCamera.Copy | UnityGLTF/Assets/GLTFSerialization/Schema/GLTFCamera.cs:38-53 | copies each non-null sub-object into a new object, leaves null ones null, copies `Type` and the bag, and leaves `type` null; a null camera gives the defaults |
| Camera.GLTFCamera.Deserialize | UnityGLTF/Assets/GLTFSerialization/Schema/GLTFCamera.cs:55-78 | a new camera whose fields are what DeserializeCamera reads, the reader left where it stops, and the same error when it fails |
| Camera.GLTFCamera.ReadPropertiesFrom | UnityGLTF/Assets/GLTFSerialization/Schema/GLTFCamera.cs:59-75 | the loop updates the camera and the reader as ReadProperties says, errors included |
| Camera.GLTFCamera.ReadOneProperty | UnityGLTF/Assets/GLTFSerialization/Schema/GLTFCamera.cs:61-74 | one pass of the loop moves ReadProperties on to the reader's new position and the camera's new value, or ends it with the pass's error |
| Camera.GLTFCamera.DispatchProperty | UnityGLTF/Assets/GLTFSerialization/Schema/GLTFCamera.cs:61-74 | one pass of the switch updates the camera and the reader as ReadProperty says, errors included |
| Camera.GLTFCamera.Serialize | UnityGLTF/Assets/GLTFSerialization/Schema/GLTFCamera.cs:80-102 | appends exactly CameraTokens of the camera: StartObject, the non-null sub-objects, `type`, the bag, EndObject |
| Camera.GLTFCamera.WriteProjections | UnityGLTF/Assets/GLTFSerialization/Schema/GLTFCamera.cs:84-94 | appends `orthographic` and its object only when it is not null, then `perspective` and its object only when it is not null |
| JsonParser.TextReader.Read | UnityGLTF/Assets/GLTFSerialization/GLTFJsonParser.cs:17 | `tr.Read()` gives the next character and moves on by one, or -1 at the end without moving |
| JsonParser.BeforeCloseShape | UnityGLTF/Assets/GLTFSerialization/GLTFJsonParser.cs:17-27 | what the scan returns is a prefix of the input without `}`, and it stops short of the end only at a `}` |
| JsonParser.BeforeCloseUnique | UnityGLTF/Assets/GLTFSerialization/GLTFJsonParser.cs:17-27 | a string is BeforeClose of the input if and only if it is a prefix without `}` that ends at the end of the input or at a `}` |
| JsonParser.BeforeCloseIsPrefixOf | UnityGLTF/Assets/GLTFSerialization/GLTFJsonParser.cs:17-27 | a prefix without `}` that ends at the end of the input or at a `}` is BeforeClose of the input |
| JsonParser.BeforeCloseLongest | UnityGLTF/Assets/GLTFSerialization/GLTFJsonParser.cs:17-27 | no prefix of the input without `}` is longer than BeforeClose |
| JsonParser.BeforeCloseStep | UnityGLTF/Assets/GLTFSerialization/GLTFJsonParser.cs:19-22 | a character that is not `}` moves from the input to the result |
| JsonParser.ReadObject | UnityGLTF/Assets/GLTFSerialization/GLTFJsonParser.cs:13-28 | `ret` is the longest prefix of the remaining text without `}`, holds no `}`; when a `}` follows it is consumed and the reader stops right after it, `|ret| + 1` characters on; otherwise the reader is at the end |
| AssetSchema.PropertiesTokensCons | UnityGLTF/Assets/GLTFSerialization/Schema/Asset.cs:83-105 | the tokens of a property followed by others are its tokens followed by theirs |
| AssetSchema.ApplyAllCons | UnityGLTF/Assets/GLTFSerialization/Schema/Asset.cs:56-78 | applying a property followed by others applies it first |
| JsonTokens.CloseLenStep | UnityGLTF/Assets/GLTFSerialization/Schema/CameraPerspective.cs:83 | one token of the depth-counting scan: the span closing the containers open before it is one longer than the span after it |
| JsonStream.JsonWriter.WriteStartObject | UnityGLTF/Assets/GLTFSerialization/Schema/CameraPerspective.cs:93 | appends one StartObject token |
| JsonStream.JsonWriter.WriteEndObject | UnityGLTF/Assets/GLTFSerialization/Schema/CameraPerspective.cs:115 | appends one EndObject token |
| JsonStream.JsonWriter.WritePropertyName | UnityGLTF/Assets/GLTFSerialization/Schema/GLTFCamera.cs:86 | appends one property-name token with that name |
| JsonStream.JsonWriter.WriteValue | UnityGLTF/Assets/GLTFSerialization/Schema/CameraPerspective.cs:98 | appends one number token with that value |
| JsonStream.JsonWriter.WriteStringValue | UnityGLTF/Assets/GLTFSerialization/Schema/GLTFCamera.cs:97 | appends one string token, or a null token for a null string |

## Left out

- Newtonsoft's `JsonReader` and `JsonWriter` are not modelled. They become a
  token sequence with a cursor, and an append-only output sequence. Number and
  string formatting are out of scope.
- JsonTokens.NextDouble: a string or boolean token where a number is expected
  fails with a conversion error. Newtonsoft would try to convert the text;
  that conversion is not modelled.
- JsonTokens.NextString: a number or boolean token where a string is expected
  fails with a conversion error. Newtonsoft would return its text; that
  conversion is not modelled.
- IEEE doubles are modelled as finite reals, positive infinity, negative
  infinity and NaN. -0.0 is not distinguished from 0, which matches the
  source's comparison `!= 0`. No arithmetic is done on these values.
- The `GLTFRoot` parameter of `Deserialize` and of the camera copy
  constructor is not modelled. It is passed on but never used in these files.
- `GLTFProperty` and `GLTFChildOfRootProperty`, the base classes, are not part
  of this model. Their assumed behaviour:
  - The base copy constructor copies the extension bag.
  - `DefaultPropertyDeserializer` captures one complete value into the bag.
  - The base `Serialize` writes the bag in order.
  - What else the bases hold (such as `name` and `extras` handling) is not
    modelled.
- Exceptions become `Err` results. Their message texts are dropped.
- Strings are Dafny `seq<char>`. C# strings are UTF-16, and `TextReader.Read()`
  returns UTF-16 code units. Surrogate pairs are not modelled.
- Orthographic.CameraOrthographic.Copy takes a non-null camera. The source
  dereferences its argument without a null check and would throw.
- The bag's captured values are modelled as values, so copies share nothing.
  Aliasing between a copied object's bag and the original's is not modelled.
- Some class methods split one source method into parts:
  - `ReadPropertiesFrom` is the loop of `Deserialize`.
  - `ReadOneProperty` is one pass of that loop.
  - `DispatchProperty` is its switch.
  - `WriteFields` and `WriteProjections` are the field writes of `Serialize`.
- Unity and .NET attributes are not modelled. The `CameraType` enum is modelled
  only as a value that is stored and copied.

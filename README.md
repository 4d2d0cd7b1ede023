# Category domain layer of a video-catalog admin service, in Dafny

This project models the domain core of a content-catalog back end:

- **`ValueObject`** (`value_object.dfy`): the base class for value objects. Its `equals` is false for `null` and `undefined`. It is false when the concrete classes differ. Otherwise it is deep structural equality. A value object is modelled as its class name plus a map from property names to property values, which may nest. Deep equality is written out as a recursive comparison, and a lemma proves it coincides with equality of the modelled values.
- **`UuidVo`** (`uuid.dfy`): the `Uuid` value object. It is built from a caller's string, or from a freshly generated identifier. Either way the string must be in the canonical 8-4-4-4-12 hexadecimal form of section 3 of RFC 4122, otherwise construction fails with `InvalidUuidError`. Every Uuid a construction path yields has the subset type `ValidatedUuid`, so the validity of an identifier holds wherever one is stored, a category's `categoryId` included. Uuids compare by their string. Generation is modelled as a version-4 generator (section 4.4 of RFC 4122): 16 random octets, with the version and variant fields set, written in canonical form. The random octets are a parameter.
- **`CategoryEntity`** (`category_entity.dfy`): the `Category` entity, a class with fields `categoryId`, `name`, `description`, `isActive` and `createdAt`. It has a constructor and the `create` factory, both of which fill in defaults. It has the in-place mutators `changeName`, `changeDescription`, `activate` and `deactivate`, and the `toJSON` snapshot.
- **`LegacyCategory`** (`legacy_category.dfy`): the earlier Category entity, whose tests exercise only construction; it applies the same defaults. It is modelled as a pure function from options to a record.

`Wrappers` (`wrappers.dfy`) holds `Option` and `Result`.

The source files of the Category entities and of the Uuid class are not part of this model. Their behaviour is taken from their unit tests, which are cited below.

An identity-aware factory would assign a fresh identifier on `create` and validate the result. The tests show that no identifier is assigned: `categoryId` is still undefined after `create` (src/category/domain/__tests__/category.entity.spec.ts:54, 67, 80, 94). They pass only valid options, so they do not show whether `create` validates. This model does not validate: its `create` builds exactly what the constructor builds.

Inputs that the source takes from its environment are parameters of the model:

- the current time (`now`), used as the default `createdAt`;
- the 16 random octets (`random`) a Uuid generation consumes.

## Model

| member | source | states |
|---|---|---|
| `ValueObject.Equals` | src/shared/domain/value-object.ts:4-14 | `equals` returns true exactly when the argument is present and is the same value (same class, same properties); it is a pure function, so neither operand changes |
| `ValueObject.ObjDeepEqualIsEquality` | src/shared/domain/value-object.ts:13 | the recursive deep comparison (same constructor, same keys, deeply equal values under every key) holds exactly when the two objects are equal |
| `ValueObject.PropDeepEqualIsEquality` | src/shared/domain/value-object.ts:13 | deep comparison of two property values, nested objects included, holds exactly when they are equal |
| `ValueObject.EqualsRejectsNull` | src/shared/domain/value-object.ts:5-7 | `equals(null)` and `equals(undefined)` are false |
| `ValueObject.EqualsRejectsOtherClass` | src/shared/domain/value-object.ts:9-11 | objects of different concrete classes are never equal, whatever their properties |
| `ValueObject.EqualsSameClass` | src/shared/domain/value-object.ts:13 | objects of the same class are equal exactly when their property maps are equal |
| `ValueObject.EqualsReflexive` | src/shared/domain/value-object.ts:9-13 | every object equals itself |
| `ValueObject.EqualsSymmetric` | src/shared/domain/value-object.ts:9-13 | `a.equals(b)` exactly when `b.equals(a)` |
| `ValueObject.EqualsTransitive` | src/shared/domain/value-object.ts:9-13 | `equals` is transitive |
| `ValueObject.DifferentPropertyNotEqual` | src/shared/domain/value-object.ts:13 | a difference under any one key, however deeply nested, makes two objects unequal |
| `UuidVo.ValidUuid` | src/shared/domain/value-objects/__tests__/uuid.vo.spect.ts:7-26 | the check `validate` makes on every construction: 36 characters, hyphens at positions 8, 13, 18 and 23, and a hexadecimal digit of either case everywhere else |
| `UuidVo.ValidUuidByPosition` | src/shared/domain/value-objects/__tests__/uuid.vo.spect.ts:7-26 | the 8-4-4-4-12 group form is exactly the character-by-character form: 36 characters, hyphens at 8, 13, 18 and 23, hex digits elsewhere |
| `UuidVo.NewUuid` | src/shared/domain/value-objects/__tests__/uuid.vo.spect.ts:7-26 | a given string yields a Uuid exactly when it is in canonical form, and that Uuid holds the string verbatim; otherwise the result is InvalidUuidError; with no string, a generated identifier; every Uuid produced is a `ValidatedUuid` |
| `UuidVo.Create` | src/shared/domain/value-objects/__tests__/uuid.vo.spect.ts:44-50 | `Uuid.create()` yields an identifier in canonical form, the one the modelled generator produces from the random octets |
| `UuidVo.GenerateV4` | src/shared/domain/value-objects/__tests__/uuid.vo.spect.ts:12-18 | a generated identifier is in canonical form; under the modelled version-4 generator it also carries version digit `4`, an RFC 4122 variant digit, and lower-case hexadecimal digits |
| `UuidVo.Uuid.Equals` | src/shared/domain/value-objects/__tests__/uuid.vo.spect.ts:28-42 | two Uuids are `equals` exactly when their strings are equal; null and undefined are never equal |
| `UuidVo.MalformedIsInvalid` | src/shared/domain/value-objects/__tests__/uuid.vo.spect.ts:7-10 | `"invalid-uuid"` is not in canonical form |
| `UuidVo.SampleIsValid` | src/shared/domain/value-objects/__tests__/uuid.vo.spect.ts:20-26 | `123e4567-e89b-12d3-a456-426614174000` is in canonical form |
| `UuidVo.OtherSampleIsValid` | src/shared/domain/value-objects/__tests__/uuid.vo.spect.ts:36-42 | `123e4567-e89b-12d3-a456-426614174001` is in canonical form |
| `UuidVo.SampleEquality` | src/shared/domain/value-objects/__tests__/uuid.vo.spect.ts:28-42 | Uuids built through the validating constructor from the same sample string are equal; Uuids built from the two different samples are not |
| `CategoryEntity.Initial` | src/category/domain/__tests__/category.entity.spec.ts:5-45 | a new category keeps the supplied identifier, name, description, flag and creation time; an omitted description is null, an omitted flag is true, an omitted time is now |
| `CategoryEntity.Category.constructor` | src/category/domain/__tests__/category.entity.spec.ts:5-45 | the constructed entity's fields are the initial fields for its options |
| `CategoryEntity.Category.Create` | src/category/domain/__tests__/category.entity.spec.ts:48-99 | `create` returns a new entity with the same fields the constructor gives; no identifier is assigned |
| `CategoryEntity.Category.ChangeName` | src/category/domain/__tests__/category.entity.spec.ts:103-111 | afterwards `name` is the new name and no other field changed |
| `CategoryEntity.Category.ChangeDescription` | src/category/domain/__tests__/category.entity.spec.ts:113-121 | afterwards `description` is the new description and no other field changed |
| `CategoryEntity.Category.Activate` | src/category/domain/__tests__/category.entity.spec.ts:123-132 | afterwards `isActive` is true, from either value, and no other field changed |
| `CategoryEntity.Category.Deactivate` | src/category/domain/__tests__/category.entity.spec.ts:134-142 | afterwards `isActive` is false, from either value, and no other field changed |
| `CategoryEntity.Category.ToJSON` | src/category/domain/__tests__/category.entity.spec.ts:144-158 | the snapshot holds exactly the five current fields, the identifier as its string |
| `CategoryEntity.NameOnlyDefaults` | src/category/domain/__tests__/category.entity.spec.ts:5-15 | `{ name }` alone gives no identifier, a null description, active, created now |
| `CategoryEntity.SuppliedValuesKept` | src/category/domain/__tests__/category.entity.spec.ts:30-45 | a supplied description, flag (`false` included) and creation time are kept unchanged |
| `CategoryEntity.InactiveKept` | src/category/domain/__tests__/category.entity.spec.ts:74-99 | a supplied `isActive: false` survives construction and `create` |
| `CategoryEntity.ToJSONOfDefault` | src/category/domain/__tests__/category.entity.spec.ts:144-158 | the snapshot of a category created from `{ name }` is `{ undefined, name, null, true, createdAt }` |
| `CategoryEntity.ToJSONDeterminesState` | src/category/domain/__tests__/category.entity.spec.ts:144-158 | two categories have the same snapshot exactly when all their fields agree |
| `CategoryEntity.CategoryIdIsValid` | src/shared/domain/value-objects/__tests__/uuid.vo.spect.ts:5-26 | a category's identifier, and the identifier string in its snapshot, is always a valid UUID, since every Uuid is validated when built |
| `CategoryEntity.ActivateTwice` | src/category/domain/__tests__/category.entity.spec.ts:123-132 | activating twice leaves the same state as activating once |
| `CategoryEntity.DeactivateTwice` | src/category/domain/__tests__/category.entity.spec.ts:134-142 | deactivating twice leaves the same state as deactivating once |
| `CategoryEntity.CreateThenRename` | src/category/domain/__tests__/category.entity.spec.ts:103-111 | creating `Movie` and renaming it to `Music` changes the name and nothing else |
| `LegacyCategory.New` | src/domain/__tests__/category.entity.spec.ts:5-45 | the earlier constructor keeps every supplied option and defaults the omitted ones (null description, active, now, no identifier) |
| `LegacyCategory.NameOnlyDefaults` | src/domain/__tests__/category.entity.spec.ts:5-15 | `{ name }` alone: identifier absent, description null, active, name as given |
| `LegacyCategory.DescriptionKept` | src/domain/__tests__/category.entity.spec.ts:17-28 | a supplied description is stored as given |
| `LegacyCategory.SuppliedValuesKept` | src/domain/__tests__/category.entity.spec.ts:30-45 | a supplied `isActive: false` and creation time are stored as given |
| `LegacyCategory.SameDefaultsAsEntity` | src/domain/__tests__/category.entity.spec.ts:5-45 | the earlier and the later constructor start from the same fields for the same options |

## Left out

- Validation of the entity (non-empty name, length limits, aggregated field messages): none of the modelled files states the rules, and no test exercises a failing validation. So no construction path and no mutator of the model can fail, and the ordering of mutation and validation does not arise.
- Identifier assignment on `create`: the model assigns none, as the tests show; an identity-aware factory that would assign a fresh identifier is not modelled.
- The clock: `new Date()` for a default `createdAt` becomes the parameter `now`. A timestamp is an opaque integer.
- Randomness: an identifier generation consumes 16 random octets, passed as `random`. Distinctness of successive identifiers is not claimed.
- UuidVo.GenerateV4 and UuidVo.Create: the generator is assumed to be the `uuid` library's version-4 generator (random octets with the version and variant fields set); the tests do not name the generator, they only check that its output validates. The version digit `4`, the variant digit and the lower-case digits these two promise rest on that assumption.
- UuidVo.ValidUuid: the canonical 8-4-4-4-12 form of section 3 of RFC 4122, in either letter case. It does not check the version and variant digits that the `uuid` library's `validate` may check. That library is not part of this model.
- UuidVo.NewUuid: an omitted argument is `None`; whether the source also treats an empty string as omitted is not stated by its tests, so a given empty string is rejected here.
- UuidVo.NewUuid: the message carried by `InvalidUuidError` is not modelled.
- The test spies that observe that `validate` ran: `NewUuid` performs the validity check on every path, so every Uuid it returns is valid.
- CategoryEntity.CategoryProps: an explicit `description: null` and an omitted description are both `None`, since the entity stores both as null.
- CategoryEntity.Category.ChangeDescription: takes a string, as its test passes one (src/category/domain/__tests__/category.entity.spec.ts:118); passing null is not modelled.
- LegacyCategory: no operation of the earlier entity other than its constructor is modelled; its tests exercise construction only.
- ValueObject.Equals: deep equality covers strings, integer numbers, booleans, null, undefined and nested objects compared by constructor name and own keys. Floating point (NaN, negative zero), arrays, dates and prototype chains beyond the class name are not modelled.
- The commented-out generic `ValueObject<T>` at the end of `value-object.ts` is dead code.

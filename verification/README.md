# NetLicensing client: entity dispatch, transaction conversion, composition values

This project models, in Dafny, the data-transformation core of the NetLicensing
Java client SDK. The licensing service answers every call with a generic
response tree. A response may hold an items container. The container holds
type-tagged items and page metadata. Each item is a list of name/value
properties. The modelled code turns that tree into typed entities.

- `EntityFactory` (`entity_factory.dfy`) models the dispatch layer. It holds
  the fixed registry from entity class to converter. It matches an item's
  type tag against a class's simple name, either exactly or with
  "Properties" appended. It finds the first matching item, filters all
  matching items, creates one entity, and assembles a page of entities.
  Missing containers or items give `WrongResponseFormat`. Unregistered
  classes give `IllegalArgument`.
- `TransactionConverter` (`transaction_converter.dfy`) models the
  item-to-`Transaction` converter. Status and source must name constants of
  their enumerations (`Enum.valueOf`). Price, discount and the two dates are
  set only when their value is non-null. Currency is copied verbatim. Every
  non-reserved property goes into the custom-property map, where the last
  occurrence of a name wins.
- `Compositions` (`composition.dfy`) models the `Composition` value object:
  an optional string plus a lazily created map of named children, with
  `put` inserting a leaf.
- `Wrappers`, `Exceptions` and `Schema` hold `Option`/`Result`, the
  exception kinds with their messages, and the response tree
  (`Property`, `Item`, `Items`, `Netlicensing`).

Java `null` is `None` of `Option`. A thrown exception is `Failure` of
`Result`. Code the modelled files call but whose source is not part of this
model becomes a function-valued parameter: `EntityFactory.Converters` and
`TransactionConverter.Collaborators`.

An unknown entity class does not always raise an argument error. In
`create`, the first-match search runs before the converter lookup, so an
unregistered class with no matching item in the response raises
`WrongResponseFormat`. Only when a matching item exists does it raise
`IllegalArgument`. `EntityFactory.CreateUnregistered` states both cases.

## Model

| member | source | states |
|---|---|---|
| `EntityFactory.RegistryKeys` | NetLicensingClient/src/main/java/com/labs64/netlicensing/domain/EntityFactory.java:55-68 | The registry has exactly ten keys, the ten entity classes the static block registers; ValidationResult is not among them |
| `EntityFactory.ConverterFor` | NetLicensingClient/src/main/java/com/labs64/netlicensing/domain/EntityFactory.java:129-134 | Succeeds iff the class is a registry key, returning its registered converter; otherwise IllegalArgumentException naming the class's canonical name |
| `EntityFactory.IsItemOfTypeIffAccepted` | NetLicensingClient/src/main/java/com/labs64/netlicensing/domain/EntityFactory.java:196-199 | An item matches a class iff its tag is among the tags the class accepts: its simple name, or the name with a trailing "Properties" stripped (and a null tag only for a class named "nullProperties", since Java prints null as "null") |
| `EntityFactory.RegisteredTags` | NetLicensingClient/src/main/java/com/labs64/netlicensing/domain/EntityFactory.java:196-199 | For the ten registered classes, the accepted tags are their simple names, plus "LicensingModel" and "LicenseType" for the two `...Properties` classes |
| `EntityFactory.RegisteredTagForms` | NetLicensingClient/src/main/java/com/labs64/netlicensing/domain/EntityFactory.java:196-199 | A tag a registered class accepts is its simple name, or one of the two suffix-stripped names of the `...Properties` classes |
| `EntityFactory.RegisteredNamesDistinct` | NetLicensingClient/src/main/java/com/labs64/netlicensing/domain/EntityFactory.java:57-68 | Registered classes have pairwise distinct simple names, none equal to a suffix-stripped name |
| `EntityFactory.RegisteredDispatchUnambiguous` | NetLicensingClient/src/main/java/com/labs64/netlicensing/domain/EntityFactory.java:196-199 | No item matches two different registered classes, and an item with a null tag matches none |
| `EntityFactory.FirstIndexOfType` | NetLicensingClient/src/main/java/com/labs64/netlicensing/domain/EntityFactory.java:158-162 | The loop stops at the first matching item: no earlier item matches, and the index is the list length when none matches |
| `EntityFactory.FindSuitableItemOfType` | NetLicensingClient/src/main/java/com/labs64/netlicensing/domain/EntityFactory.java:155-166 | Succeeds iff the container is present and some item matches; the result is a matching item with no matching item before it; otherwise WrongResponseFormat with the missing-item message |
| `EntityFactory.FilterOfType` | NetLicensingClient/src/main/java/com/labs64/netlicensing/domain/EntityFactory.java:178-184 | Element k of the result is the item at the k-th matching index, in increasing index order; only matching items appear |
| `EntityFactory.ExtractListOfType` | NetLicensingClient/src/main/java/com/labs64/netlicensing/domain/EntityFactory.java:177-185 | Returns exactly the matching items of the container, as an order-preserving subsequence; a non-matching item never appears |
| `EntityFactory.FirstMatchIsHeadOfFilter` | NetLicensingClient/src/main/java/com/labs64/netlicensing/domain/EntityFactory.java:155-185 | The search finds a match iff the filtered list is non-empty, and the item it finds is the head of the filtered list |
| `EntityFactory.ConvertAll` | NetLicensingClient/src/main/java/com/labs64/netlicensing/domain/EntityFactory.java:103-108 | Succeeds iff every item converts, giving a list of the same length whose element i is the conversion of item i; otherwise fails with the error of the first failing item |
| `EntityFactory.CreatePage` | NetLicensingClient/src/main/java/com/labs64/netlicensing/domain/EntityFactory.java:100-118 | Without a container, WrongResponseFormat; with one but an unregistered class, IllegalArgument; on success, entity i is the registered converter applied to the i-th matching item, and page number, items number, total pages, total items and hasNext are the container's |
| `EntityFactory.Create` | NetLicensingClient/src/main/java/com/labs64/netlicensing/domain/EntityFactory.java:81-88 | ValidationResult goes straight to its converter with the whole container; any other class fails with the search's error when no item matches, else with the registry's error; a success for any other class means the class is registered and the result is its converter applied to the first matching item, with no matching item before it |
| `EntityFactory.CreateUnregistered` | NetLicensingClient/src/main/java/com/labs64/netlicensing/domain/EntityFactory.java:81-88 | An unregistered class other than ValidationResult always fails, and the failure is IllegalArgument exactly when a matching item exists |
| `TransactionConverter.NewTarget` | NetLicensingClient/src/main/java/com/labs64/netlicensing/schema/converter/ItemToTransactionConverter.java:57-60 | A new target has no field set (number, active, status, source, price, discount, currency and both dates are null) and no custom property |
| `TransactionConverter.ValueOf` | NetLicensingClient/src/main/java/com/labs64/netlicensing/schema/converter/ItemToTransactionConverter.java:21-26 | Succeeds iff the name is non-null and names a constant of the enumeration, yielding that constant; a null name raises NullPointerException and an unknown one IllegalArgumentException |
| `TransactionConverter.SetIfPresent` | NetLicensingClient/src/main/java/com/labs64/netlicensing/schema/converter/ItemToTransactionConverter.java:27-34 | A null value leaves the field as it was; a non-null one sets the field to its parse, and a parse failure is the result's failure |
| `TransactionConverter.Convert` | NetLicensingClient/src/main/java/com/labs64/netlicensing/schema/converter/ItemToTransactionConverter.java:18-55 | Fails exactly when the base converter fails, status or source is null or unknown, or a present decimal or date does not parse, with the base converter's error reported first, then the status error, then the source error; on success status and source are the given names, price, discount and the dates are parsed when present and kept otherwise, currency is copied verbatim including null, and the custom map holds each non-reserved name's last value with no reserved name inserted and no other key changed |
| `TransactionConverter.LastOccurrenceWins` | NetLicensingClient/src/main/java/com/labs64/netlicensing/schema/converter/ItemToTransactionConverter.java:48-51 | A non-reserved property that is the last of its name is in the custom map with its value, so later duplicates overwrite earlier ones |
| `TransactionConverter.KeysFromMapOrProperties` | NetLicensingClient/src/main/java/com/labs64/netlicensing/schema/converter/ItemToTransactionConverter.java:48-52 | Every key after the loop was already present or names a non-reserved property: the loop never inserts a reserved name |
| `TransactionConverter.OtherKeysUnchanged` | NetLicensingClient/src/main/java/com/labs64/netlicensing/schema/converter/ItemToTransactionConverter.java:48-52 | A key that is reserved, or that no property names, keeps its earlier value |
| `TransactionConverter.CustomPropertiesSpec` | NetLicensingClient/src/main/java/com/labs64/netlicensing/schema/converter/ItemToTransactionConverter.java:47-52 | The three custom-property facts above, for all positions and keys at once |
| `Compositions.NewList` | NetLicensingClient/src/main/java/com/labs64/netlicensing/domain/vo/Composition.java:24-26 | The no-argument constructor yields a null value and, once asked for, an empty map |
| `Compositions.NewValue` | NetLicensingClient/src/main/java/com/labs64/netlicensing/domain/vo/Composition.java:28-30 | The one-argument constructor stores the given value and, once asked for, an empty map |
| `Compositions.GetProperties` | NetLicensingClient/src/main/java/com/labs64/netlicensing/domain/vo/Composition.java:32-37 | The first call creates an empty map and records it; a later call returns the recorded map and changes nothing; the value is untouched |
| `Compositions.GetPropertiesIdempotent` | NetLicensingClient/src/main/java/com/labs64/netlicensing/domain/vo/Composition.java:32-37 | Calling getProperties on the result of getProperties changes nothing and returns the same map |
| `Compositions.SetThenGet` | NetLicensingClient/src/main/java/com/labs64/netlicensing/domain/vo/Composition.java:39-45 | getValue after setValue(v) returns v, and the map, created or not, is untouched |
| `Compositions.Put` | NetLicensingClient/src/main/java/com/labs64/netlicensing/domain/vo/Composition.java:47-49 | After put(k, v), k maps to a leaf whose value is v and whose map is empty; every other key is present iff it was before, with the same child; the value is untouched |
| `Compositions.PutOverwrites` | NetLicensingClient/src/main/java/com/labs64/netlicensing/domain/vo/Composition.java:47-49 | A second put on the same key overwrites the first: the result equals the single second put |
| `Compositions.PutCommutes` | NetLicensingClient/src/main/java/com/labs64/netlicensing/domain/vo/Composition.java:47-49 | Puts on distinct keys commute |

## Left out

- Converter instantiation by reflection (`newInstance` and its `RuntimeException` paths, EntityFactory.java lines 136-142): the registry maps a class to a converter kind, and a kind is always usable.
- The per-entity converters, `ItemsToValidationResultConverter` and the inherited base `convert`: their source is not part of this model. They are function-valued parameters that may fail.
- `SchemaFunction.propertyByName(...).getValue()`: its source is not part of this model. It is a parameter giving the property value or null. The model assumes it always returns a property object, so a null return dereferenced by `.getValue()` is not modelled.
- `DatatypeConverter.parseDecimal` and `DateUtils.parseDate(...).getTime()`: parameters that may fail. A decimal is kept as unscaled value and scale, and a date as epoch milliseconds.
- TransactionConverter.NewTarget: the `Transaction()` constructor is not part of this model; it is assumed to leave every field null and the custom-property map empty.
- `Transaction.getReservedProps()` and the constants of `Transaction.Status` and `Transaction.Source`: `Transaction.java` is not part of this model, so they are parameters (a set of names and two enumerations given by their constant names).
- The property names read by the converter: `Constants.java` is not part of this model, so the wire names "status", "source", "price", "discount", "currency", "dateCreated" and "dateClosed" are assumed. No proved property depends on their values.
- `PageImpl.createInstance`: its source is not part of this model. It is assumed to store its arguments unchanged. The page metadata is modelled as unbounded integers and a boolean, so boxed nulls and Java integer widths are not modelled.
- Null property names: names are plain strings, so a null key in the custom-property map is not modelled.
- Object identity and aliasing: `getProperties` returns the same mutable `HashMap`, which callers may change afterwards. The model returns the map as a value together with the updated composition.
- `Composition.toString` (a fixed placeholder string), the XML marshalling layer, and `TransactionService` (an interface of remote calls with no logic).

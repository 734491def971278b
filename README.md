# SAML attribute definition

A model of `AttributeDefinition` from the Surfnet SAML bundle: the immutable
value object that describes one SAML attribute by its name, an optional
`urn:mace` identifier, an optional `urn:oid` identifier and a multiplicity
(1 = single-valued, 2 = multi-valued).

- `php_values.dfy` (module `PhpValues`): the PHP values a caller can pass to
  the untyped constructor — `Null`, `Str`, `Int`, and `Other` for every value
  that is not null, a string or an integer: a bool, a float, an array, an
  object or a resource. PHP's `is_string` and `is_null` are the `Str?` and
  `Null?` tests.
- `wrappers.dfy` (module `Wrappers`): `Option` for a URN that may be null, and
  `Result` for a constructor that may throw.
- `attribute_definition.dfy` (module `Attribute`): the object as a datatype.
  `New` is the constructor. It runs the source's guard chain in order. The
  first failing guard gives the error: `InvalidType` (expected type, parameter,
  actual value), `MissingUrn` (the logic fault) or `InvalidMultiplicity`.
  The definition is built only when every guard passes. `New` takes PHP's
  default arguments: both URNs default to null, and the multiplicity defaults
  to single. The getters, the two presence tests and `equals` are member
  functions of the datatype.

An independent statement of the chain follows the constructor. `Guards` lists
each guard's condition and error in source order. `FirstFailure` picks the
first guard that fails. `NewReportsFirstFailedGuard` proves that the
constructor reports exactly that error. Further lemmas prove three things.
The objects `New` can return are exactly the `Valid` definitions. The errors
it can raise are exactly the `Reportable` ones. Two constructed definitions
are `Equals` exactly when they were built from the same arguments.

`GetName` and `GetMultiplicity` return their stored fields, and `New`'s
contract makes those fields the constructor's arguments.

The code accepts any string as a name, the empty one included, and so does
the model (`AnyStringsAccepted`). The multiplicity is stored and returned as
the raw integer 1 or 2, not as an enumeration.

## Model

| member | source | states |
|---|---|---|
| `Attribute.New` | src/SAML2/Attribute/AttributeDefinition.php:55-85 | construction succeeds exactly when every guard holds; a constructed definition is valid and its getters return exactly the name, URNs and multiplicity supplied |
| `Attribute.FirstFailure` | src/SAML2/Attribute/AttributeDefinition.php:57-79 | the error reported by an ordered chain of guards is that of a guard that fails while every earlier guard holds; there is none exactly when all guards hold |
| `Attribute.NewReportsFirstFailedGuard` | src/SAML2/Attribute/AttributeDefinition.php:57-79 | the constructor fails exactly when some guard fails, and its error is the error of the first failing guard in the source's order |
| `Attribute.NonStringNameFails` | src/SAML2/Attribute/AttributeDefinition.php:57-59 | a name that is not a string fails with an invalid-type error naming `name`, whatever the other arguments are |
| `Attribute.BadUrnMaceFails` | src/SAML2/Attribute/AttributeDefinition.php:61-63 | with a string name, a urn:mace that is neither null nor a string fails with an invalid-type error naming `urnMace`, whatever urn:oid and the multiplicity are |
| `Attribute.BadUrnOidFails` | src/SAML2/Attribute/AttributeDefinition.php:65-67 | once name and urn:mace pass, a urn:oid that is neither null nor a string fails with an invalid-type error naming `urnOid` |
| `Attribute.NoUrnFails` | src/SAML2/Attribute/AttributeDefinition.php:69-71 | a string name with both URNs null fails with the missing-URN error for every multiplicity, a bad one included |
| `Attribute.BadMultiplicityFails` | src/SAML2/Attribute/AttributeDefinition.php:73-79 | with every other check passed, a multiplicity other than 1 or 2 fails with the invalid-multiplicity error carrying the value given |
| `Attribute.DefaultMultiplicityIsSingle` | src/SAML2/Attribute/AttributeDefinition.php:55 | omitting the multiplicity is the same as passing single, and a definition so built reports single |
| `Attribute.NameAloneFails` | src/SAML2/Attribute/AttributeDefinition.php:55-71 | a definition built from a name alone always fails, with the missing-URN error when the name is a string |
| `Attribute.AnyStringsAccepted` | src/SAML2/Attribute/AttributeDefinition.php:81-84 | any string name (the empty one included) and any URN strings are stored as given, without normalisation or URN syntax checks |
| `Attribute.GetNameReturnsArgument` | src/SAML2/Attribute/AttributeDefinition.php:90-93 | `getName` returns its stored field, and on a constructed definition that is exactly the string passed as the name |
| `Attribute.AttributeDefinition.GetMultiplicity` | src/SAML2/Attribute/AttributeDefinition.php:130-133 | on a valid definition the stored multiplicity returned is single (1) or multiple (2) |
| `Attribute.GetMultiplicityReturnsArgument` | src/SAML2/Attribute/AttributeDefinition.php:130-133 | on a constructed definition `getMultiplicity` returns exactly the multiplicity argument, which is 1 or 2 |
| `Attribute.ConstructedHasUrn` | src/SAML2/Attribute/AttributeDefinition.php:69-84 | every constructed definition has a urn:mace or a urn:oid |
| `Attribute.PresenceMatchesArguments` | src/SAML2/Attribute/AttributeDefinition.php:98-117 | on a constructed definition, `HasUrnMace` / `HasUrnOid` hold exactly when the matching argument was not null |
| `Attribute.AttributeDefinition.HasUrnMace` | src/SAML2/Attribute/AttributeDefinition.php:98-101 | true exactly when the urn:mace getter does not return null |
| `Attribute.AttributeDefinition.GetUrnMace` | src/SAML2/Attribute/AttributeDefinition.php:106-109 | returns null or a string, and it is the stored urn:mace (null when absent) |
| `Attribute.AttributeDefinition.HasUrnOid` | src/SAML2/Attribute/AttributeDefinition.php:114-117 | true exactly when the urn:oid getter does not return null |
| `Attribute.AttributeDefinition.GetUrnOid` | src/SAML2/Attribute/AttributeDefinition.php:122-125 | returns null or a string, and it is the stored urn:oid (null when absent) |
| `Attribute.AttributeDefinition.Equals` | src/SAML2/Attribute/AttributeDefinition.php:139-145 | the four-field strict comparison holds exactly when the two definitions are the same value |
| `Attribute.EqualsIffSameArguments` | src/SAML2/Attribute/AttributeDefinition.php:139-145 | two constructed definitions are equal exactly when they were built from identical arguments; any differing argument makes them unequal |
| `Attribute.EqualsIsEquivalence` | src/SAML2/Attribute/AttributeDefinition.php:139-145 | `Equals` is reflexive, symmetric and transitive |
| `Attribute.ValidIsImageOfNew` | src/SAML2/Attribute/AttributeDefinition.php:55-85 | a definition is valid (has a URN, and its multiplicity is 1 or 2) exactly when some constructor call returns it |
| `Attribute.ErrorsAreExactlyReportable` | src/SAML2/Attribute/AttributeDefinition.php:57-79 | the constructor raises exactly the reportable errors: each guard's error with an argument failing that guard, and every such error does occur |
| `Attribute.NullableRoundTrip` | src/SAML2/Attribute/AttributeDefinition.php:83-84 | storing a null-or-string URN argument and reading it back through the getter gives the argument back, and the other way round |
| `Attribute.ExampleCommonName` | src/SAML2/Attribute/AttributeDefinition.php:55-133 | `cn` with a urn:mace and no urn:oid is built, single-valued, with only the mace URN present |
| `Attribute.ExampleMailByOid` | src/SAML2/Attribute/AttributeDefinition.php:55-117 | `mail` with only a urn:oid and multiplicity multiple is built, with the oid URN present |
| `Attribute.ExampleBadMultiplicity` | src/SAML2/Attribute/AttributeDefinition.php:73-79 | multiplicity 99 with both URNs given fails with the invalid-multiplicity error |

## Left out

- Exception message text (the formatted multiplicity message and the fixed
  missing-URN message): only the error kind and the values a message names are
  kept.
- The exception classes and their `invalidType` factory: they live outside
  this file and are not part of this model. The error datatype stands for them.
- Attribute.New: takes the multiplicity as an integer. PHP's `in_array` at
  line 73 compares loosely, so a call such as `"1"` or `true` passes the check
  and is then stored as given. That corner is not captured, and PHP's `==` is
  not modelled.
- `PhpValue.Other` stands for every value that is not null, a string or an
  integer: a bool, a float, an array, an object or a resource. The constructor only checks "string", "null" or
  "neither", so these values need not be told apart.
- URN syntax: the code treats both URNs as opaque strings. The model adds no
  check either.
- The PHP object identity of an `AttributeDefinition` instance. The model is a
  value, as the class is immutable and `equals` compares fields only.
- Byte strings: Dafny's `string` is a sequence of Unicode characters, while a
  PHP string is a sequence of bytes, so a name or URN that is not valid UTF-8
  has no counterpart in the model. The code only stores such strings and
  compares them with `===`, so nothing it does depends on the encoding.

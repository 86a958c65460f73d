# Omniture input field descriptor, in Dafny

This project models `OmnitureInputField` from the Pentaho Data Integration
Omniture input step. The class describes one input field: its name, its value
type code, its format, length and precision, three locale symbols (currency,
decimal, group) and a trim policy. The class also holds:

- the trim-policy tables: four fixed codes `none|left|right|both` and four
  localised descriptions;
- the lookups between a trim type and those tables, in both directions;
- the `<field>` XML fragment the descriptor is written as (`getXML`) and read
  back from (the node constructor);
- `clone` and plain getters and setters.

Files:

- `wrappers.dfy`: `Option`, which stands for a Java reference that may be null,
  and `Result`, which stands for a call that may throw.
- `text.dfy`: `String.equalsIgnoreCase`, for every character that folds onto an
  ASCII letter.
- `omniture_input_field.dfy`: module `Omniture`. It holds the trim tables and
  lookups, the descriptor as a value (`Descriptor`), its XML form, and the class
  `OmnitureInputField` with the nine mutable fields.

How the model is built:

- The two searches `getTrimTypeByCode` and `getTrimTypeByDesc` are loop methods.
  Each is proved equal to the reference function `IndexIgnoringCase`, and the
  lemmas about lookups are stated over that function.
- The class methods state their whole new state through `State()`, the nine
  fields as a `Descriptor` value.
- The host engine's collaborators are fields of a `Host` value passed as a
  parameter. They are the type registry (`ValueMeta.getType` and
  `ValueMeta.getTypeDesc`), the parse inside `Const.toInt`, the rendering of one
  tag by `XMLHandler.addTagValue`, and `Const.CR`.
- The localised trim descriptions come from the host's message catalog. They are
  a `TrimDescriptions` parameter: any four strings.
- A parsed XML element is a map from tag name to text. `XMLHandler.getTagValue`
  is `TagValue`, which gives null when the tag is absent.

## Model

| member | source | states |
|---|---|---|
| `Omniture.IndexIgnoringCase` | src/org/pentaho/di/trans/steps/omniture/OmnitureInputField.java:110-134 | the string-to-trim-type lookup always gives 0 or a valid index of the table |
| `Omniture.LookupIsFirstMatch` | src/org/pentaho/di/trans/steps/omniture/OmnitureInputField.java:110-134 | null gives 0; an input that matches no entry gives 0; otherwise the result is the smallest index whose entry equals the input ignoring case, so the first match wins when entries repeat |
| `Omniture.TrimTypeByCode` | src/org/pentaho/di/trans/steps/omniture/OmnitureInputField.java:110-121 | the early-return loop over the codes computes exactly `IndexIgnoringCase` over the four codes; the result is a trim type in NONE..BOTH |
| `Omniture.TrimTypeByDesc` | src/org/pentaho/di/trans/steps/omniture/OmnitureInputField.java:123-134 | the same loop over the descriptions computes exactly `IndexIgnoringCase` over them; the result is in NONE..BOTH |
| `Omniture.ClampTrimType` | src/org/pentaho/di/trans/steps/omniture/OmnitureInputField.java:137-140 | the guard of the index lookups: an index in 0..3 stands for itself, and every other int stands for NONE |
| `Omniture.TrimTypeCode` | src/org/pentaho/di/trans/steps/omniture/OmnitureInputField.java:136-141 | the result is always one of the four codes: entry `i` for 0 <= i < 4, and "none" for any other int |
| `Omniture.TrimTypeDesc` | src/org/pentaho/di/trans/steps/omniture/OmnitureInputField.java:143-148 | the result is always one of the descriptions: entry `i` for 0 <= i < 4, and the NONE description for any other int |
| `Omniture.TrimCodesDistinct` | src/org/pentaho/di/trans/steps/omniture/OmnitureInputField.java:47 | no two trim codes are equal ignoring case |
| `Omniture.TrimTypeByCodeIgnoresCase` | src/org/pentaho/di/trans/steps/omniture/OmnitureInputField.java:110-121 | every case variant of the code of trim type `i` is looked up as `i` |
| `Omniture.TrimTypeByCodeDottedAndDotlessI` | src/org/pentaho/di/trans/steps/omniture/OmnitureInputField.java:115-118 | "r\u0131ght" (dotless i) and "R\u0130GHT" (capital I with dot) are both looked up as RIGHT, because equalsIgnoreCase matches them with "right" |
| `Omniture.TrimCodeRoundTrip` | src/org/pentaho/di/trans/steps/omniture/OmnitureInputField.java:110-141 | looking up the code of `i` gives back `i` when 0 <= i < 4, and NONE for any other int |
| `Omniture.TrimCodeLookupStable` | src/org/pentaho/di/trans/steps/omniture/OmnitureInputField.java:110-141 | take any input, look it up as a code, write the result as a code and look that up again: the second lookup gives the same trim type |
| `Omniture.TrimDescRoundTrip` | src/org/pentaho/di/trans/steps/omniture/OmnitureInputField.java:123-148 | looking up the description of `i` gives the first trim type whose description equals it ignoring case, which is at most the clamped `i`; when the four descriptions are distinct ignoring case, it gives the clamped `i` itself |
| `Omniture.Tags` | src/org/pentaho/di/trans/steps/omniture/OmnitureInputField.java:84-94 | nine tags are written in the order name, type, format, length, precision, currency, decimal, group, trim_type, and the trim_type text is always one of the four codes |
| `Omniture.DefaultsTags` | src/org/pentaho/di/trans/steps/omniture/OmnitureInputField.java:65-96 | a new descriptor is written with its name, the registry's description of the string type, the host's text for -1 as length and precision, and trim code "none" |
| `Omniture.Parse` | src/org/pentaho/di/trans/steps/omniture/OmnitureInputField.java:98-108 | reading fails exactly when the type registry cannot resolve the type text; otherwise the trim type read is always in NONE..BOTH, a missing length or precision reads as -1, and a missing trim_type reads as NONE |
| `Omniture.XmlRoundTrip` | src/org/pentaho/di/trans/steps/omniture/OmnitureInputField.java:81-108 | if the host round-trips the type description and the integer text, reading back the written tags gives the same descriptor, except that a trim type outside 0..3 comes back as NONE |
| `Omniture.OmnitureInputField.constructor` | src/org/pentaho/di/trans/steps/omniture/OmnitureInputField.java:65-75 | the named constructor sets the given name, type STRING, format "", length -1, precision -1, all three symbols "" and trim type NONE |
| `Omniture.OmnitureInputField.Empty` | src/org/pentaho/di/trans/steps/omniture/OmnitureInputField.java:77-79 | the no-argument constructor gives the same defaults with name "" |
| `Omniture.OmnitureInputField.FromNode` | src/org/pentaho/di/trans/steps/omniture/OmnitureInputField.java:98-108 | the node constructor, which works through the setters and the trim-code loop, fails exactly when `Parse` fails and with the same error; otherwise it gives a fresh object whose nine fields are what `Parse` reads |
| `Omniture.OmnitureInputField.GetXml` | src/org/pentaho/di/trans/steps/omniture/OmnitureInputField.java:81-96 | the string built by repeated appends is the `<field>` line, the tag lines of `Tags` in order with 8-space indent, and the `</field>` line |
| `Omniture.OmnitureInputField.Clone` | src/org/pentaho/di/trans/steps/omniture/OmnitureInputField.java:150-158 | the clone is a fresh object whose nine fields equal the original's |
| `Omniture.OmnitureInputField.GetTrimTypeCode` | src/org/pentaho/di/trans/steps/omniture/OmnitureInputField.java:200-202 | the instance code is always one of the four codes, namely the code of the clamped stored trim type, whatever int was stored |
| `Omniture.OmnitureInputField.GetTrimTypeDesc` | src/org/pentaho/di/trans/steps/omniture/OmnitureInputField.java:204-206 | the instance description is always one of the four descriptions, namely the description of the clamped stored trim type |
| `Omniture.OmnitureInputField.GetLength` | src/org/pentaho/di/trans/steps/omniture/OmnitureInputField.java:160-162 | the length as stored |
| `Omniture.OmnitureInputField.GetName` | src/org/pentaho/di/trans/steps/omniture/OmnitureInputField.java:168-170 | the name as stored, null included |
| `Omniture.OmnitureInputField.GetType` | src/org/pentaho/di/trans/steps/omniture/OmnitureInputField.java:176-178 | the type code as stored |
| `Omniture.OmnitureInputField.GetTypeDesc` | src/org/pentaho/di/trans/steps/omniture/OmnitureInputField.java:180-182 | the registry's description of the stored type code |
| `Omniture.OmnitureInputField.GetFormat` | src/org/pentaho/di/trans/steps/omniture/OmnitureInputField.java:188-190 | the format as stored |
| `Omniture.OmnitureInputField.GetTrimType` | src/org/pentaho/di/trans/steps/omniture/OmnitureInputField.java:196-198 | the trim type as stored, unclamped, so any int that was set |
| `Omniture.OmnitureInputField.GetGroupSymbol` | src/org/pentaho/di/trans/steps/omniture/OmnitureInputField.java:212-214 | the group symbol as stored |
| `Omniture.OmnitureInputField.GetDecimalSymbol` | src/org/pentaho/di/trans/steps/omniture/OmnitureInputField.java:220-222 | the decimal symbol as stored |
| `Omniture.OmnitureInputField.GetCurrencySymbol` | src/org/pentaho/di/trans/steps/omniture/OmnitureInputField.java:228-230 | the currency symbol as stored |
| `Omniture.OmnitureInputField.GetPrecision` | src/org/pentaho/di/trans/steps/omniture/OmnitureInputField.java:236-238 | the precision as stored |
| `Omniture.OmnitureInputField.SetLength` | src/org/pentaho/di/trans/steps/omniture/OmnitureInputField.java:160-166 | only the length changes, and `GetLength` then returns the value set |
| `Omniture.OmnitureInputField.SetName` | src/org/pentaho/di/trans/steps/omniture/OmnitureInputField.java:168-174 | only the name changes, and `GetName` then returns the value set, null included |
| `Omniture.OmnitureInputField.SetType` | src/org/pentaho/di/trans/steps/omniture/OmnitureInputField.java:176-186 | only the type code changes, and `GetType` then returns the value set |
| `Omniture.OmnitureInputField.SetFormat` | src/org/pentaho/di/trans/steps/omniture/OmnitureInputField.java:188-194 | only the format changes, and `GetFormat` then returns the value set |
| `Omniture.OmnitureInputField.SetTrimType` | src/org/pentaho/di/trans/steps/omniture/OmnitureInputField.java:196-210 | any int is stored unchecked and only the trim type changes; `GetTrimType` returns it, and `GetTrimTypeCode` is still one of the four codes |
| `Omniture.OmnitureInputField.SetGroupSymbol` | src/org/pentaho/di/trans/steps/omniture/OmnitureInputField.java:212-218 | only the group symbol changes, and `GetGroupSymbol` then returns the value set |
| `Omniture.OmnitureInputField.SetDecimalSymbol` | src/org/pentaho/di/trans/steps/omniture/OmnitureInputField.java:220-226 | only the decimal symbol changes, and `GetDecimalSymbol` then returns the value set |
| `Omniture.OmnitureInputField.SetCurrencySymbol` | src/org/pentaho/di/trans/steps/omniture/OmnitureInputField.java:228-234 | only the currency symbol changes, and `GetCurrencySymbol` then returns the value set |
| `Omniture.OmnitureInputField.SetPrecision` | src/org/pentaho/di/trans/steps/omniture/OmnitureInputField.java:236-242 | only the precision changes, and `GetPrecision` then returns the value set |

## Left out

- The trim type is not always one of the four values. `setTrimType`
  (OmnitureInputField.java:208-210) stores any int without checking it, so
  `GetTrimType` can return any int. The model follows the code. Only the
  derived code and description are always valid, and so is a trim type that is
  read from XML.
- XML escaping and the XML text layer are not modelled. `XMLHandler.addTagValue`
  is a host function. `XmlRoundTrip` assumes the XML layer reads back, for each
  tag, exactly the text that was written for it (`NodeOf`). Whatever the host's
  library does with escaped characters and with empty or null values is outside
  the model.
- `addTagValue(tag, int)` is modelled as the string overload applied to the
  host's text for the int (`Host.intText`).
- The type registry is not part of this model: `ValueMeta.getType` and
  `ValueMeta.getTypeDesc` are host functions. Failure of `getType` is the
  `None` case, which the node constructor turns into `ConfigError`. No
  round-trip is claimed for the registry. `XmlRoundTrip` takes it as a
  hypothesis.
- `ValueMeta.TYPE_STRING` is defined outside this file. The model takes the
  host's value, 2.
- `Const.toInt` is a host function. Only its default path is fixed: an absent
  tag and unparsable text both give the default.
- The i18n catalog (`BaseMessages.getString` and the `PKG` class reference) is
  replaced by an arbitrary table of four descriptions.
- `Const.CR` is an opaque string.
- EqualsIgnoreCase: Java's per-character rule is modelled only for characters
  that fold onto an ASCII letter. The rule is: equal, or equal after
  `toUpperCase`, or equal after `toUpperCase` then `toLowerCase`. The characters
  covered are A-Z, a-z, U+0131 (dotless i), U+0130 (capital I with dot), U+017F
  (long s) and U+212A (Kelvin sign). When one side of a comparison is ASCII, the
  model agrees with Java, so `TrimTypeByCode` and `TrimTypeByCodeIgnoresCase`
  cover every input. For two non-ASCII letters that are case variants of each
  other (such as U+00E9 and U+00C9), the model says unequal where Java says
  equal. `TrimTypeByDesc` can therefore miss a match that Java finds when a
  description and the input both use such letters.
- The `CloneNotSupportedException` branch of `clone` cannot be reached, because
  the class implements `Cloneable`.

# RL shelf-ready validation, modelled in Dafny

The repository checks MARC records of shelf-ready material before it is
loaded into the library catalogues. This material arrives already processed
by vendors for the NYPL Research Libraries, the NYPL Branch Libraries and
Brooklyn Public Library.

It works in two stages:

1. **Schemas.** A record, flattened into a mapping of named fields, goes
   through a pydantic schema. The schema collects every raw failure. A raw
   failure has a type, a path, an input, a message and, for enumeration and
   pattern failures, a ctx.
2. **Normalisers.** The raw failures become a report in MARC terms. Field
   names become MARC tags ("949$i"), a failure inside the n-th item gets an
   "item_n" label, known failure signatures get business messages, and the
   missing and extra fields are summarised.

The repository holds several generations of both stages, and each one is
modelled here as its own module:

| Dafny module | source | what it is |
|---|---|---|
| `RlModels` | rl_sr_validation/models.py | first schemas: order, item, invoice and bibliographic data, separately |
| `RlErrors` | rl_sr_validation/errors.py | first summary: failure count and the counts of two failure types |
| `SrcModels` | src/validate/models.py | second schema: one record with a nested item, order and invoice, and the material-type/location combination check |
| `SrcValidateErrors` | src/validate/errors.py | second message rewriter, which looks at the first failure only |
| `SrcTranslate` | src/validate/translate.py | second field-name-to-MARC-tag catalog |
| `ModelsV2` | src/validate/models_v2.py | flat monograph and other-material schemas, discriminated by material type |
| `ValidateErrors` | validate/errors.py | report builder that edits each failure dict in place |
| `SrcErrors` | src/errors.py | report builder that builds new error dicts, with per-type converters |
| `ShelfModels` | shelf_ready_validator/models.py | current schemas: items discriminated by library, and the item/order combination rule |
| `ShelfErrors` | shelf_ready_validator/errors.py | current report: buckets of missing, extra and invalid fields, notes, and the converted failures |
| `ShelfTranslate` | shelf_ready_validator/translate.py | current field-name-to-MARC-tag catalog |

Three shared modules support them:

- **`Values`** holds the data model: values, failures and Python's string helpers.
  - Values are `None`, strings, integers, lists and mappings. A mapping is an association list kept in insertion order.
  - Failures carry a path, a type, an input, a message and a ctx.
  - The string helpers are `str.title`, decimal formatting and `list.count`.
- **`Patterns`** holds the string patterns the schemas declare.
  - Each one is a hand-written predicate paired with its exact regex text, because the normalisers key their messages on that text.
  - It also builds the "'a', 'b' or 'c'" text of an enumeration.
- **`Fields`** models pydantic's field-by-field validation as the schemas use it.
  - Required and optional fields; enumerations and patterns.
  - Forbidden extra keys.
  - Nested models, and lists of variants chosen by a discriminator key.

Exceptions the Python code raises are values of a `Result` type, never preconditions. They include `KeyError` from an `Enum[name]` lookup, `IndexError` on an empty path and `AttributeError` from `.get` on a non-mapping. Each loop in the source is a `while` loop with invariants, proved against a specification function. `validate/errors.py` rewrites the failure dict it is handed, so that dict is a class (`ValidateErrors.ErrorDict`) whose methods modify it.

## Model

| member | source | states |
|---|---|---|
| Values.Get | shelf_ready_validator/models.py:152-158 | `dict.get`: an absent key reads as None; a present key gives a value stored under it |
| Values.KindCount | rl_sr_validation/errors.py:16-17 | the number of failures of one type among the first n is at most n |
| Values.NatToString | shelf_ready_validator/errors.py:25 | the decimal text of an item position is non-empty, all digits, with no leading zero |
| Values.NatToStringValue | shelf_ready_validator/errors.py:25 | reading that text back as digits gives the position (round trip) |
| Values.NatToStringInjective | shelf_ready_validator/errors.py:25 | different positions give different "item_n" labels |
| Values.CatalogTag | validate/errors.py:18-22 | `RLMarcEncoding[x].value` with a catalog parameter: a tag exactly for a listed field name, KeyError for anything else, list indexes included |
| Values.PathValue | shelf_ready_validator/errors.py:22 | a path stored as an input is a list with one entry per path element |
| Values.Title | src/errors.py:48 | `str.title`: same length, uncased characters unchanged, a cased character upper after an uncased one and lower after a cased one |
| Values.Count | rl_sr_validation/errors.py:16-17 | `list.count` is at most the list's length |
| Values.CountAppend | rl_sr_validation/errors.py:16-17 | counting over a concatenation adds the two counts |
| Values.CountDisjoint | rl_sr_validation/errors.py:16-17 | the counts of two different values add up to at most the length |
| Values.KindOf | src/errors.py:198-215 | the failure type an `error["type"]` string names: its name is that string |
| Values.TypeNameInjective | src/errors.py:198-215 | between canonical types (no custom type spelling a built-in name), equal type names mean equal types, so dispatching on the type is dispatching on its name |
| Patterns.ExpectedTextTokens | shelf_ready_validator/errors.py:142-157 | for every list of quote-free options, the enumeration text the table is keyed on reads back as exactly those options, in order |
| Patterns.ExpectedTextInjective | shelf_ready_validator/errors.py:142-157 | two lists of quote-free options render the same text if and only if they are the same list |
| Patterns.VendorTextsDiffer | shelf_ready_validator/errors.py:124-129 | the three-vendor enumeration's text is not the two-vendor one the vendor branch keys on (by injectivity) |
| Patterns.BarcodeRulesPartition | src/validate/models.py:52-54 | the three library barcode patterns exclude each other, and the combined pattern accepts exactly their union |
| Patterns.PrefixedAccepted | shelf_ready_validator/models.py:73 | a declared prefix followed by the right number of digits always matches |
| Patterns.DecimalBelowRunsIsAscii | shelf_ready_validator/models.py:126-133 | below U+0660, `\d` (any Unicode decimal digit) and `[0-9]` accept the same characters |
| Patterns.OtherScriptDigits | shelf_ready_validator/models.py:126-133 | `\d` patterns accept Arabic-Indic and fullwidth digits ("١٢٣" is a valid invoice price), while `[0-9]` patterns (copies, barcodes) reject them |
| Patterns.ResearchBarcodeOnlyUnderRL | shelf_ready_validator/models.py:23-73 | a "33433" barcode matches the research pattern and neither circulating one |
| Patterns.PriceExamples | shelf_ready_validator/models.py:126-133 | the price patterns: "1.23" passes the item price and "123" fails it; "2.00" fails the invoice and order price patterns |
| Patterns.DateExamples | shelf_ready_validator/models.py:126 | the invoice date takes exactly six digits: "2024-01-01" and seven digits fail |
| Patterns.CapsRuleChecksFirstCharOnly | shelf_ready_validator/models.py:76-77 | the unanchored message pattern accepts exactly the texts whose first character is not a lower-case letter |
| Patterns.ExpectedTextSingle | shelf_ready_validator/errors.py:136-141 | the text of a one-option enumeration, which the call-tag branch keys on |
| Patterns.ExpectedTextPair | shelf_ready_validator/errors.py:124-129 | the vendor branch's key is the text of a two-vendor enumeration |
| Patterns.ExpectedTextTriple | shelf_ready_validator/models.py:78 | the schema's three vendors give a different text from the key the vendor branch matches |
| Fields.CheckValue | shelf_ready_validator/models.py:21-34 | a value fails at most once, at its own path; it passes exactly when it is a string that is in the enumeration or matches the pattern |
| Fields.CheckField | shelf_ready_validator/models.py:21-34 | a field draws no failure exactly when it is present and valid, or optional and absent or None; otherwise exactly one, at the field's path |
| Fields.CheckFields | shelf_ready_validator/models.py:120-139 | the declared fields draw at most one failure each |
| Fields.ExtraFailures | shelf_ready_validator/models.py:286-288 | a forbidding schema reports at most one failure per input key |
| Fields.Tags | shelf_ready_validator/models.py:100-102 | the discriminator values of a union, in declaration order |
| Fields.Select | shelf_ready_validator/models.py:100-102 | a variant is selected exactly when the tag is one of the union's tags, and it is the variant carrying that tag |
| Fields.ElemFailures | shelf_ready_validator/models.py:140 | a list of variants is checked element by element |
| Fields.CheckFieldsEmpty | shelf_ready_validator/models.py:120-139 | the declared fields report nothing exactly when every field passes |
| Fields.ExtraFailuresEmpty | shelf_ready_validator/models.py:286-288 | no extra failure exactly when every input key is declared |
| Fields.ValidateEmpty | shelf_ready_validator/models.py:286-312 | a schema reports nothing exactly when it accepts the mapping |
| Fields.ExtraReported | shelf_ready_validator/models.py:286-288 | every undeclared key is reported as extra_forbidden at its own path, with its value as input |
| Fields.CheckFieldsLocs | shelf_ready_validator/models.py:120-139 | every field failure is at the path of a declared field |
| Fields.TaggedEmpty | shelf_ready_validator/models.py:100-102 | a tagged value reports nothing exactly when it is a mapping with a known tag that its variant accepts |
| Fields.CheckFieldsAt | shelf_ready_validator/models.py:120-139 | with unique field names, the failures at one field's path are exactly that field's own |
| Fields.ElemsSilent | shelf_ready_validator/models.py:140 | a list of items reports nothing exactly when every element is accepted |
| Fields.TaggedListEmpty | shelf_ready_validator/models.py:140 | a list field reports nothing exactly when it is present, is a list, and every element is accepted |
| Fields.FieldSilentIff | shelf_ready_validator/models.py:120-139 | with unique field names, nothing is reported at a field's path exactly when that field passes |
| Fields.CheckFieldsNoExtra | shelf_ready_validator/models.py:120-139 | declared fields never yield extra_forbidden |
| ShelfTranslate.Encode | shelf_ready_validator/translate.py:6-41 | `RLMarcEncoding[name].value` succeeds exactly for a member name, giving that member's tag; any other name raises KeyError |
| ShelfTranslate.MembersComplete | shelf_ready_validator/translate.py:11-41 | the catalog has exactly 31 members |
| ShelfTranslate.WithTagOfTag | shelf_ready_validator/translate.py:11-41 | looking a member up by its tag gives the member back |
| ShelfTranslate.TagInjective | shelf_ready_validator/translate.py:11-41 | no two members share a tag |
| ShelfTranslate.EncodeInjective | shelf_ready_validator/translate.py:6-41 | two names that encode to the same tag name the same member |
| ShelfTranslate.DigitFirstAbsent | shelf_ready_validator/translate.py:11-41 | no member name starts with a digit, so a position label has no tag |
| ShelfTranslate.IndexRaises | shelf_ready_validator/translate.py:6-41 | a list index in a path raises KeyError |
| ShelfTranslate.DiscriminatorRaises | shelf_ready_validator/translate.py:6-41 | "material_type" is not in the catalog and raises KeyError |
| ShelfTranslate.ItemTags | shelf_ready_validator/translate.py:30-41 | barcode is 949$i, item price 949$p, items 949 |
| ShelfTranslate.ItemComboTags | shelf_ready_validator/translate.py:36-37 | item location is 949$l, item type 949$t |
| ShelfTranslate.InvoiceTagsInOrder | shelf_ready_validator/translate.py:16-22 | the seven invoice members are declared in order with tags 980$a to 980$g |
| ShelfTranslate.OrderTags | shelf_ready_validator/translate.py:23-25 | order price, location and fund are 960$s, 960$t, 960$u |
| ShelfTranslate.CallNumberTags | shelf_ready_validator/translate.py:11-13 | the call number is 852 and its indicators 852_ind1 and 852_ind2 |
| ShelfTranslate.IndicatorAndLibraryTags | shelf_ready_validator/translate.py:26-40 | the order and item indicator tags, and library as 910$a |
| SrcTranslate.Encode | src/validate/translate.py:9-32 | a name encodes exactly when it is in the catalog, giving its member's tag; otherwise KeyError |
| SrcTranslate.MembersComplete | src/validate/translate.py:10-32 | 23 names make 22 members, because order_fund is an alias |
| SrcTranslate.WithTagOfTag | src/validate/translate.py:10-32 | looking a member up by its tag gives the member back |
| SrcTranslate.TagInjective | src/validate/translate.py:10-32 | distinct members have distinct tags |
| SrcTranslate.FundIsAlias | src/validate/translate.py:20-22 | order_fund repeats order_price's value, so it resolves to order_price and encodes as 960$s |
| SrcTranslate.OrderLocationTag | src/validate/translate.py:21 | order location is 960$t |
| SrcTranslate.CallNumberTags | src/validate/translate.py:10-24 | bib call number 852$h, item call tag 949z, item call number 949$a |
| SrcTranslate.ItemTags | src/validate/translate.py:25-30 | barcode 949$i, location 949$l, type 949$t |
| SrcTranslate.ItemTagsShape | src/validate/translate.py:23-30 | item members are named "item_…" and tagged "949$x", except the call tag "949z" |
| SrcTranslate.InvoiceTagsInOrder | src/validate/translate.py:13-19 | the invoice members are declared in order with tags 980$a to 980$g |
| SrcTranslate.LibraryAndItemsTags | src/validate/translate.py:31-32 | library is 910$a and items 949 |
| RlModels.AcceptedIff | rl_sr_validation/models.py:5-91 | a model accepts exactly when every declared field passes, and undeclared keys are never reported |
| RlModels.RuleAt | rl_sr_validation/models.py:5-91 | with unique names, a model is silent at a field's path exactly when that field passes |
| RlModels.ItemShapes | rl_sr_validation/models.py:41-43 | item price needs two decimals; call number is "ReCAP 23-" and five digits; barcode is exactly fourteen decimal digits (`\d`, any script) |
| RlModels.ItemLiterals | rl_sr_validation/models.py:40-48 | call tag only "8528", initials only "EV" or "AUXAM", agency only "43" |
| RlModels.ItemOptionalFields | rl_sr_validation/models.py:44-46 | volume and both messages may be absent or None |
| RlModels.ItemExamples | rl_sr_validation/models.py:40-43 | concrete values the item rules accept and reject, including a sixth digit and another year |
| RlModels.InvoiceShapes | rl_sr_validation/models.py:66-72 | invoice price and shipping are exactly three decimal digits, copies one or more decimal digits (`\d`, any script), the date any string |
| RlModels.InvoiceTaxAndNet | rl_sr_validation/models.py:69-70 | tax and net price are exactly three decimal digits |
| RlModels.OrderShapes | rl_sr_validation/models.py:17-19 | order price is three or more decimal digits; location and fund are any strings |
| RlModels.BibDataShapes | rl_sr_validation/models.py:88-90 | call number as for the item; vendor "AUXAM" or "EV"; identifier only "RL" |
| RlErrors.TypesOf | rl_sr_validation/errors.py:11-14 | the collected types are the failures' types, position by position |
| RlErrors.LocsOf | rl_sr_validation/errors.py:11-15 | the collected locations are the failures' paths, position by position |
| RlErrors.ParseErrors | rl_sr_validation/errors.py:6-20 | failures are returned unchanged, with their number and the counts of "missing" and "string_pattern_mismatch" among the collected types |
| RlErrors.TypeCount | rl_sr_validation/errors.py:16-17 | counting a built-in type name counts that type and the custom type spelled the same |
| RlErrors.CountsMeaning | rl_sr_validation/errors.py:16-17 | the two counts are the numbers of missing fields and of pattern mismatches (exactly, for built-in types), and together are at most the failure count |
| SrcModels.GetAttr | src/validate/models.py:148-151 | `.get` succeeds exactly on a mapping; anything else raises AttributeError |
| SrcModels.ComboCheck | src/validate/models.py:152-257 | the combination check yields at most one failure |
| SrcModels.ListedIff | src/validate/models.py:152-199 | for a monograph with all three values present, the check is silent exactly for the ten listed combinations |
| SrcModels.RcmbNeedsType2 | src/validate/models.py:153-178 | rcmb2 passes with type "2" under MAB and MAS, but not with "55"; rcmf2 is not valid under PAD |
| SrcModels.MissingLocationReported | src/validate/models.py:200-210 | a monograph without item location gets the "item_location is missing" failure with the item as input |
| SrcModels.MissingTypeReportedAtLocation | src/validate/models.py:211-221 | a missing item type is reported at the item-location path |
| SrcModels.MissingOrderLocationReported | src/validate/models.py:222-232 | a missing order location is reported at the order's path with the order as input |
| SrcModels.UnlistedRejected | src/validate/models.py:243-257 | an unlisted monograph combination gets the "combination is not valid" failure with the three values |
| SrcModels.CatalogueSpellingRejected | src/validate/models.py:233-257 | "catalogue_raissonne" (the schema's spelling) is not let through by the check and is rejected whatever its locations |
| SrcModels.CatalogSpellingNoSchema | src/validate/models.py:83-90 | "catalog_raissonne" (the check's spelling) selects no item schema |
| SrcModels.CatalogNotListed | src/validate/models.py:83-90 | the check's spelling is neither the monograph tag nor one of the no-item types |
| SrcModels.ItemTags | src/validate/models.py:132-134 | the item union's tags are the monograph tag and then the six no-item material types |
| SrcModels.NoItemSchema | src/validate/models.py:76-90 | each no-item material type selects the schema that forbids every other item key |
| SrcModels.PamphletSchema | src/validate/models.py:82-90 | a pamphlet selects that schema, which does not declare item_call_tag |
| SrcModels.PamphletItemExtra | src/validate/models.py:76-90 | a pamphlet item carrying item_call_tag is reported as extra_forbidden at item.pamphlet.item_call_tag |
| SrcModels.ItemFailureInRecord | src/validate/models.py:132-134 | every failure of the item union appears among the record's failures |
| SrcModels.CallNoFindings | src/validate/models.py:279-330 | the call number check collects at most one failure |
| SrcModels.CallNoCheckAsWritten | src/validate/models.py:270-331 | the check as written raises exactly for a monograph without call number; otherwise it collects CallNoFindings |
| SrcModels.CheckRequiredCallNo | src/validate/models.py:276-330 | the list the validator builds is exactly CallNoFindings |
| SrcModels.MatchLocations | src/validate/models.py:138-268 | the wrap validator's outcome is the combination failure followed by the handler's failures, and `.get` on a non-mapping escapes |
| SrcModels.AcceptedIff | src/validate/models.py:258-268 | a record is accepted exactly when both the combination check and the schema are silent |
| SrcModels.ComboFirst | src/validate/models.py:258-266 | a combination failure comes before every schema failure |
| SrcModels.MonographWithoutCallNoRaises | src/validate/models.py:280-290 | as written, a monograph record that match_locations accepts but that has no call number raises AttributeError instead of being accepted |
| SrcModels.CallNoNeverRejects | src/validate/models.py:270-331 | in every other case the outcome as written is match_locations' own: the call number check rejects nothing, as its list is dropped |
| SrcModels.RejectedUnaffected | src/validate/models.py:258-268 | a record match_locations rejects is reported unchanged: the after validator never runs on it |
| SrcModels.MonographWithCallNoFlagged | src/validate/models.py:320-330 | a monograph with a call number falls to the last case and collects "something is wrong" |
| SrcValidateErrors.ConvertAsWritten | src/validate/errors.py:4-127 | as written: IndexError exactly on an empty path, KeyError exactly on a failure without ctx |
| SrcValidateErrors.Convert | src/validate/errors.py:4-127 | the corrected conversion raises only on an empty path |
| SrcValidateErrors.ConvertErrorMessages | src/validate/errors.py:4-127 | corrected: no failures give None; otherwise the first failure is converted by Convert, raising exactly when its path is empty |
| SrcValidateErrors.ConvertErrorMessagesAsWritten | src/validate/errors.py:4-127 | as written: no failures give None; otherwise IndexError exactly on an empty first path and KeyError exactly when the first failure has no ctx |
| SrcValidateErrors.MessagesCorrectionAgrees | src/validate/errors.py:4-127 | the corrected and as-written loops agree when the first failure has a ctx and is not an item-location failure |
| SrcValidateErrors.FirstWithoutCtxRaises | src/validate/errors.py:9-14 | as written, a first failure without ctx makes the loop raise KeyError; corrected, it converts |
| SrcValidateErrors.OnlyFirstConverted | src/validate/errors.py:5-127 | two failure lists with the same first failure give the same result |
| SrcValidateErrors.RewrittenKeepsFailure | src/validate/errors.py:7-14 | a rewritten error keeps type, input and ctx, and reports the last path element |
| SrcValidateErrors.UnmatchedUnchanged | src/validate/errors.py:126-127 | a failure no case matches is returned as it came |
| SrcValidateErrors.BarcodeMessage | src/validate/errors.py:16-24 | the item barcode pattern failure gets the barcode explanation |
| SrcValidateErrors.ReCAPMessage | src/validate/errors.py:25-44 | the call number pattern failures (item or bib) get the ReCAP explanation, reported at that field |
| SrcValidateErrors.InvoicePriceMessage | src/validate/errors.py:45-53 | an invoice digit-pattern failure gets "Invoice prices should not include decimal points." |
| SrcValidateErrors.InvoiceTitle | src/validate/errors.py:52 | "invoice".title() is "Invoice" |
| SrcValidateErrors.VendorMessage | src/validate/errors.py:75-81 | a vendor enumeration failure at any path gets "Invalid vendor code." |
| SrcValidateErrors.NoCtxRaises | src/validate/errors.py:9-14 | as written, a failure without ctx raises KeyError |
| SrcValidateErrors.ItemLocationReturnsCtx | src/validate/errors.py:96-105 | as written, the item-location branch returns the popped ctx instead of the error |
| SrcValidateErrors.ItemLocationNotVendor | src/validate/errors.py:75-105 | the item-location key differs from the vendor key, so the vendor branch does not shadow it |
| SrcValidateErrors.ExtraForbiddenMessage | src/validate/errors.py:116-125 | corrected: an extra key gets the "should not contain an item record" message |
| SrcValidateErrors.ItemLocationMessage | src/validate/errors.py:96-105 | corrected: the item-location failure gets its message and no ctx |
| SrcValidateErrors.CorrectionAgrees | src/validate/errors.py:15-127 | on every failure with ctx outside the item-location branch, the correction agrees with the code as written |
| SrcValidateErrors.ItemPriceFallsThrough | src/validate/errors.py:61-67 | the item-price case takes a two-element path, so the real three-element item path falls through unchanged |
| ModelsV2.MonographAcceptedIff | src/validate/models_v2.py:90-119 | a monograph is accepted exactly when its fields, every item (selected by library) and its library pass |
| ModelsV2.RecordAcceptedIff | src/validate/models_v2.py:153-156 | a record is accepted exactly when it is a mapping whose material type selects a schema that accepts it |
| ModelsV2.MaterialTypeDispatch | src/validate/models_v2.py:153-156 | "monograph_record" selects the monograph schema and the five other types the other-material schema; any other tag gives one union_tag_invalid |
| ModelsV2.LibraryDispatch | src/validate/models_v2.py:114-118 | an item's library selects the research, branch or Brooklyn schema; any other value gives one union_tag_invalid at the item |
| ModelsV2.ItemNoExtra | src/validate/models_v2.py:13-87 | item schemas ignore undeclared keys |
| ModelsV2.ItemsNoExtra | src/validate/models_v2.py:114-118 | the items list never reports an extra key |
| ModelsV2.MonographIgnoresExtras | src/validate/models_v2.py:96 | a monograph never reports an extra key |
| ModelsV2.OtherMaterialRejectsItems | src/validate/models_v2.py:128 | an other-material record with items or a call number reports that key as extra_forbidden |
| ModelsV2.OtherMaterialLibrary | src/validate/models_v2.py:150 | an accepted other-material record has library "BPL", "RL" or "BL" |
| ModelsV2.MonographLibraryAndItems | src/validate/models_v2.py:114-119 | an accepted monograph has a valid library and a list of items, each a mapping with a valid library |
| ModelsV2.BarcodeDependsOnLibrary | src/validate/models_v2.py:13-87 | a "33433" barcode passes under the research schema and fails under both circulating ones |
| ModelsV2.CirculatingBarcodeRule | src/validate/models_v2.py:13-54 | a circulating item's barcode passes exactly when it matches that library's pattern |
| ModelsV2.CallNoRule | src/validate/models_v2.py:13-87 | research call numbers must match the ReCAP pattern; circulating ones are any string |
| ModelsV2.VendorRule | src/validate/models_v2.py:13-87 | the research vendor must be "EVP" or "AUXAM"; circulating vendors are any string |
| ModelsV2.LocationRule | src/validate/models_v2.py:13-87 | research locations are required and limited to the nine codes; circulating locations are any string |
| ModelsV2.MessageRule | src/validate/models_v2.py:13-87 | research messages are optional and must not start lower-case; circulating messages are any string |
| ValidateErrors.Relocate | validate/errors.py:15-23 | a successful relocation replaces only loc; a failed one leaves the dict and raises |
| ValidateErrors.KeyLocs | validate/errors.py:41-44 | completes exactly when every key is in the catalog, giving key i as (item_n, its tag) at position i; KeyError otherwise |
| ValidateErrors.ErrorDict.constructor | validate/errors.py:192 | the dict holds the failure as handed over |
| ValidateErrors.ErrorDict.MissingErrors | validate/errors.py:6-23 | the dict's new contents and exception are those of MissingStep |
| ValidateErrors.ErrorDict.ExtraErrors | validate/errors.py:26-47 | the dict's new contents and exception are those of ExtraStep |
| ValidateErrors.ErrorDict.ItemOrderErrors | validate/errors.py:50-67 | the dict's new contents and exception are those of ItemOrderStep |
| ValidateErrors.ErrorDict.MatchErrors | validate/errors.py:70-173 | the dict's new contents and exception are those of MatchStep |
| ValidateErrors.ItemKeyLocs | validate/errors.py:41-44 | the inner loop yields KeyLocs |
| ValidateErrors.ExtraItemLocs | validate/errors.py:38-46 | the outer loop yields ExtraLocs over all items |
| ValidateErrors.Dispatch | validate/errors.py:193-208 | the helper chosen by type leaves the dict as Step says |
| ValidateErrors.AppendEach | validate/errors.py:201-202 | the extra locations are appended in order |
| ValidateErrors.Absorb | validate/errors.py:193-208 | a converted dict goes to the missing list, the extra list or the error list by its type |
| ValidateErrors.ConvertOne | validate/errors.py:192-208 | one iteration keeps the lists in step with Gather, or raises as Gather says |
| ValidateErrors.ConvertAll | validate/errors.py:192-208 | the loop succeeds exactly when Gather does, and its dicts and lists are Gather's |
| ValidateErrors.AppendSummary | validate/errors.py:211-226 | one summary dict is appended to the list |
| ValidateErrors.AppendSummaries | validate/errors.py:211-226 | the final list is Report: the errors, then the missing summary, then the extra summary |
| ValidateErrors.FormatErrorMessages | validate/errors.py:176-227 | succeeds exactly when FormatSpec does, with the dicts' contents equal to FormatSpec's report |
| ValidateErrors.StepKeepsKind | validate/errors.py:6-173 | no helper changes a failure's type |
| ValidateErrors.GatherBuckets | validate/errors.py:192-208 | the missing list holds one entry per missing failure; every failure that is neither missing nor extra is kept as an error |
| ValidateErrors.ReportLength | validate/errors.py:209-227 | the report's length is the kept errors plus one per non-empty summary |
| ValidateErrors.SummariesAfterErrors | validate/errors.py:211-226 | with both lists non-empty, the two summaries come last, missing before extra |
| ValidateErrors.NoFailuresEmptyReport | validate/errors.py:189-227 | no failures give an empty report |
| ValidateErrors.ExtraLocsCount | validate/errors.py:38-46 | an extra item list yields one location per key over all items |
| ValidateErrors.ExtraLocsOkIff | validate/errors.py:38-46 | the item loop completes exactly when every extra item is a dict whose keys are all in the catalog; otherwise AttributeError or KeyError |
| ValidateErrors.ExtraLocsAt | validate/errors.py:38-46 | key i of extra item j is reported as (item_j, its tag) at position KeyTotal(j) + i: items in order, keys in order |
| ValidateErrors.ExtraLocsMember | validate/errors.py:38-46 | conversely, every reported location is key i of some extra item j, at that position |
| ValidateErrors.ExtraInputShapes | validate/errors.py:34-47 | a string input is reported as the tag of the path's first element (IndexError on an empty path, KeyError if unlisted); a list as its items' located keys; an empty dict as an empty list, a non-empty one raises AttributeError; anything else TypeError |
| ValidateErrors.MissingLocCases | validate/errors.py:15-23 | an empty path raises IndexError; an item field becomes (item_n, tag of the field); any other path the tag of its first element; an unlisted name raises KeyError |
| ValidateErrors.MatchLocCases | validate/errors.py:85-96 | an empty path raises IndexError; an item field becomes (item_n, tag of the field); ("items", n) becomes (item_n, tag of "items"); any other path the tag of its first element; an unlisted name raises KeyError |
| ValidateErrors.MissingInputIsOldPath | validate/errors.py:14 | a missing field's input becomes its old path and its message is kept |
| ValidateErrors.MissingItemField | validate/errors.py:15-20 | a missing item field reports as (item_n, tag) |
| ValidateErrors.ItemOrderNested | validate/errors.py:59-66 | a combination failure reports the item label and the three tags |
| ValidateErrors.ItemsPathTagged | validate/errors.py:90-94 | a failure on the item itself reports as (item_n, 949 tag) |
| ValidateErrors.AgencyMessage | validate/errors.py:132-134 | the "'43'" enumeration failure gets "Invalid item agency code" |
| ValidateErrors.UnmatchedKeepsMessage | validate/errors.py:171-173 | an unlisted signature keeps its message and is only relocated |
| ValidateErrors.NoCtxRaisesAfterRelocating | validate/errors.py:85-97 | a failure without ctx is relocated and then raises KeyError |
| ValidateErrors.StringTypeFailureRaises | validate/errors.py:97-208 | a string-type failure (no ctx) makes the whole report raise KeyError |
| SrcErrors.FieldLoc | src/errors.py:17-20 | the location succeeds exactly when the last element is a listed name; under "items" it is (item_label, tag), otherwise the tag |
| SrcErrors.ItemZeroLoc | src/errors.py:149-168 | IndexError on an empty path, KeyError exactly when the last element is unlisted; inside an item ("item_0", tag), otherwise the tag |
| SrcErrors.StringErrors | src/errors.py:6-74 | FieldLoc's exception is raised first, then a missing ctx raises KeyError; a pattern failure is converted exactly when PatternMessage gives its pattern a message (keeping type and input, at FieldLoc's location, with that message), raises PatternMessage's AttributeError, and is None otherwise |
| SrcErrors.LiteralErrors | src/errors.py:77-132 | as StringErrors: FieldLoc's exception, then KeyError without ctx; an enumeration failure is converted exactly when LiteralMessage lists its expected text, with that message, and is None otherwise |
| SrcErrors.ComboLoc | src/errors.py:169-175 | succeeds exactly for four elements whose last three are listed, giving the item label of loc[0] and the three one-tag sets; KeyError exactly when an unlisted name comes before the path runs out, IndexError otherwise |
| SrcErrors.OtherErrors | src/errors.py:135-178 | type and input kept, no message; missing and extra failures at ItemZeroLoc's location, combination failures at ComboLoc's, every other failure at the tag of its last element; IndexError on an empty path, KeyError on an unlisted name |
| SrcErrors.Convert | src/errors.py:197-215 | pattern failures go to StringErrors, enumeration failures to LiteralErrors, every other type to OtherErrors (its error or its exception); the type is kept |
| SrcErrors.AppendError | src/errors.py:198-215 | one iteration converts the failure and places it by type |
| SrcErrors.CollectLists | src/errors.py:197-215 | the loop yields Gather over all failures, stopping at the first exception |
| SrcErrors.FormatErrorMessages | src/errors.py:181-238 | the method yields FormatSpec |
| SrcErrors.GatherBuckets | src/errors.py:197-215 | one missing entry per missing failure, one extra entry per extra failure, every other failure kept |
| SrcErrors.ReportLength | src/errors.py:216-238 | the report's length is the kept errors plus one per non-empty summary |
| SrcErrors.MissingSummaryAfterErrors | src/errors.py:218-225 | the missing summary follows the kept errors and counts the missing fields |
| SrcErrors.ExtraSummaryLast | src/errors.py:228-235 | the extra summary is the last entry |
| SrcErrors.NoFailuresEmptyReport | src/errors.py:193-238 | no failures give an empty report |
| SrcErrors.ItemFieldsLabelledZero | src/errors.py:149-166 | missing and extra item fields are always labelled item_0, whatever the item's position |
| SrcErrors.ItemFieldsLabelledByIndex | src/errors.py:17-18 | pattern and enumeration failures in an item are labelled by the item's position |
| SrcErrors.UnlistedFieldRaises | src/errors.py:159-168 | a missing field the catalog does not list raises KeyError |
| SrcErrors.ComboSets | src/errors.py:169-175 | a combination failure reports the item label and three one-tag sets |
| SrcErrors.ShortComboRaises | src/errors.py:169-175 | a three-element combination path raises IndexError |
| SrcErrors.PriceMessageTitled | src/errors.py:41-49 | the price message names the path's first element in title case |
| SrcErrors.UnlistedPatternKeptAsNone | src/errors.py:73-74 | an unlisted pattern signature yields None in the report |
| SrcErrors.PriceMessageDistinct | src/errors.py:41-49 | the price message never equals one of the fixed messages |
| SrcErrors.PatternMessageTable | src/errors.py:26-74 | for every path and pattern: each fixed message (barcode, ReCAP, date, item price, caps) arises exactly under its case's pattern and path condition; a digit-only price pattern names the title-cased first element, or raises AttributeError on an index; nothing else has a message |
| ShelfModels.Iterated | shelf_ready_validator/models.py:153-156 | a list is visited element by element and None skips the loop; only a list element or a string's character can be visited without being a mapping |
| ShelfModels.CheckCombinations | shelf_ready_validator/models.py:154-261 | the loop's result is ComboFailures over all items |
| ShelfModels.CheckItem | shelf_ready_validator/models.py:157-261 | one iteration extends ComboFailures by one item |
| ShelfModels.MatchLocations | shelf_ready_validator/models.py:142-272 | the wrap validator's outcome is MonographOutcome: the combination failures, then the schema's |
| ShelfModels.RaisedPersists | shelf_ready_validator/models.py:156-158 | once an item raises, the later items do not change the outcome |
| ShelfModels.ComboVisitedMappings | shelf_ready_validator/models.py:156-158 | a loop that completes has seen only mappings |
| ShelfModels.ComboReportsOffending | shelf_ready_validator/models.py:240-260 | every item whose group the rule rejects has its failure reported |
| ShelfModels.ComboOnlyOffending | shelf_ready_validator/models.py:240-260 | every reported failure belongs to an item the rule rejects |
| ShelfModels.ComboLocsDistinct | shelf_ready_validator/models.py:252-257 | failures of different items have different paths |
| ShelfModels.TablePasses | shelf_ready_validator/models.py:241-242 | a listed group is never reported |
| ShelfModels.OmittedFieldPasses | shelf_ready_validator/models.py:240-244 | an item without location or type draws no combination failure |
| ShelfModels.NoItemsNoCombination | shelf_ready_validator/models.py:153-154 | a record without items gets only the schema's failures |
| ShelfModels.AcceptedIff | shelf_ready_validator/models.py:142-272 | a monograph with an item list is accepted exactly when every item is a mapping whose group passes and the schema reports nothing |
| ShelfModels.FirstNonMapping | shelf_ready_validator/models.py:156-157 | when the loop raises, some item it reached is not a mapping |
| ShelfModels.ResearchItemMayOmitLocation | shelf_ready_validator/models.py:80-94 | a research item may leave out location and type |
| ShelfModels.ResearchFieldRule | shelf_ready_validator/models.py:69-97 | for barcode, message, location and type, nothing is reported at the field exactly when its rule passes |
| ShelfModels.BarcodeDependsOnLibrary | shelf_ready_validator/models.py:23-73 | a "33433" barcode passes under RL and fails under BL and BPL |
| ShelfModels.ResearchBarcodeAccepted | shelf_ready_validator/models.py:73 | a barcode matching the research pattern draws nothing at the research item |
| ShelfModels.CirculatingBarcodeRejected | shelf_ready_validator/models.py:23-47 | a circulating barcode that misses its pattern is reported |
| ShelfModels.ResearchMessageRule | shelf_ready_validator/models.py:76 | a research item message is accepted exactly when its first character is not lower-case |
| ShelfModels.CirculatingMessageFree | shelf_ready_validator/models.py:26-50 | circulating item messages are any string |
| ShelfModels.MonographPriceAndDate | shelf_ready_validator/models.py:126-133 | invoice and order prices need three or more decimal digits (`\d`, any script); the invoice date exactly six |
| ShelfModels.MonographRuleAt | shelf_ready_validator/models.py:120-139 | a pattern field of the monograph is silent exactly when its value matches |
| ShelfModels.OtherMaterialRejectsItems | shelf_ready_validator/models.py:286-288 | an other-material record with items or a call number reports that key as extra_forbidden |
| ShelfModels.OtherMaterialLibrary | shelf_ready_validator/models.py:312 | an accepted other-material record has library "RL", "BPL" or "BL" |
| ShelfModels.LibraryDispatch | shelf_ready_validator/models.py:100-102 | an item's library selects its schema; an unknown library gives one union_tag_invalid |
| ShelfErrors.ItemTagAt | shelf_ready_validator/errors.py:24-27 | succeeds exactly when loc[k] has a tag, giving ("item_" + loc[1], that tag); KeyError otherwise |
| ShelfErrors.TagAt | shelf_ready_validator/errors.py:30 | succeeds exactly when loc[0] has a tag, giving that tag; KeyError otherwise |
| ShelfErrors.MissingErrors | shelf_ready_validator/errors.py:7-31 | the input becomes the old path; an item field ("items", n, _, field) reports ("item_n", tag of field), anything else the tag of path[0]; IndexError on an empty path, KeyError exactly when that name has no tag |
| ShelfErrors.Numbered | shelf_ready_validator/errors.py:52-55 | k labels "tag_0" to "tag_{k-1}" |
| ShelfErrors.ExtraErrors | shelf_ready_validator/errors.py:34-56 | the failure is copied with a new location: a string input gives the tag of path[0]; another input of length k gives tag_0 … tag_{k-1} (none for k = 0, without a lookup); TypeError for an input without a length, IndexError on an empty path, KeyError for an untagged name |
| ShelfErrors.ItemOrderErrors | shelf_ready_validator/errors.py:59-80 | succeeds exactly for four or more elements whose loc[1..3] have tags, giving ("item_" + loc[0], the three tags); KeyError exactly when an untagged name comes before the path runs out, IndexError otherwise |
| ShelfErrors.MatchErrors | shelf_ready_validator/errors.py:83-201 | the location: ("item_n", tag of field) for ("items", n, _, field), ("item_n", tag of "items") for ("items", n), else the tag of path[0]; KeyError for an untagged name or a missing ctx; type, input and ctx kept; the message is the table's for (type, ctx), or the original one |
| ShelfErrors.ItemsPathTagged | shelf_ready_validator/errors.py:104-108 | for every position n, a failure at ("items", n) reports ("item_n", "949") |
| ShelfErrors.MissingItemField | shelf_ready_validator/errors.py:20-28 | for every position and every tagged field, a missing item field reports ("item_n", the field's tag) with the old path as input |
| ShelfErrors.Convert | shelf_ready_validator/errors.py:234-259 | every converter keeps the failure's type |
| ShelfErrors.DropIndicatorLocs | shelf_ready_validator/errors.py:260-264 | the filter never lengthens the list |
| ShelfErrors.DropIndicators | shelf_ready_validator/errors.py:265-269 | the filter never lengthens the list |
| ShelfErrors.Summarize | shelf_ready_validator/errors.py:270-281 | the error count is missing plus extra plus errors; each count is its list's length; the lists are the filtered ones |
| ShelfErrors.AppendFailure | shelf_ready_validator/errors.py:235-259 | one iteration converts the failure and places it by type |
| ShelfErrors.CollectLists | shelf_ready_validator/errors.py:234-259 | the loop yields Gather over all conversions, stopping at the first exception |
| ShelfErrors.FormatErrors | shelf_ready_validator/errors.py:204-282 | the method yields FormatErrorsSpec |
| ShelfErrors.ErrorSummary | shelf_ready_validator/errors.py:260-282 | the filters and the summary dict give Summarize |
| ShelfErrors.KeepNonIndicatorLocs | shelf_ready_validator/errors.py:260-264 | the loop yields DropIndicatorLocs |
| ShelfErrors.KeepNonIndicators | shelf_ready_validator/errors.py:265-269 | the loop yields DropIndicators |
| ShelfErrors.GatherBuckets | shelf_ready_validator/errors.py:234-259 | each failure lands in one bucket by type; combination and tag failures add one note each, the rest an invalid field |
| ShelfErrors.PlaceGrowth | shelf_ready_validator/errors.py:235-259 | placing one failure grows exactly the lists its type names |
| ShelfErrors.FormatErrorsBuckets | shelf_ready_validator/errors.py:228-282 | the report's counts follow from the failure types: errors, notes, invalid fields and the total |
| ShelfErrors.DropIndicatorsIff | shelf_ready_validator/errors.py:265-269 | a tag survives exactly when it was there and is not an indicator tag |
| ShelfErrors.DropIndicatorsAppend | shelf_ready_validator/errors.py:265-269 | the filter distributes over concatenation |
| ShelfErrors.DropIndicatorLocsIff | shelf_ready_validator/errors.py:260-264 | a location survives exactly when it is not an indicator tag; item locations are never removed |
| ShelfErrors.ComboFailureConverts | shelf_ready_validator/errors.py:74-79 | the combination failure of item n reports item_n, 949$l, 949$t, 960$t |
| ShelfErrors.ExtraItemsNumbered | shelf_ready_validator/errors.py:52-55 | an extra items list of k entries reports 949_0 to 949_{k-1} |
| ShelfErrors.MaterialTypeRaises | shelf_ready_validator/errors.py:99-110 | a failure at material_type raises KeyError, since it has no tag |
| ShelfErrors.UnlistedKeepsMessage | shelf_ready_validator/errors.py:199-201 | a failure whose type and ctx the table does not list keeps its message |
| ShelfErrors.BarcodesUnlisted | shelf_ready_validator/errors.py:161-166 | the per-library barcode patterns are not in the table, only the combined one |
| ShelfErrors.VendorsUnlisted | shelf_ready_validator/errors.py:124-129 | the three-vendor text is not in the table |
| ShelfErrors.AgencyUnlisted | shelf_ready_validator/errors.py:158-160 | the "'43'" text is not in the table, which lists "'043'" |
| ShelfErrors.LibraryBarcodeKeepsMessage | shelf_ready_validator/errors.py:161-166 | an item's barcode failure under a library schema is reported at (item_n, 949$i) and keeps pydantic's message |
| ShelfErrors.VendorKeepsMessage | shelf_ready_validator/errors.py:124-129 | a research item's vendor failure is reported at (item_n, 949$v) and keeps pydantic's message, not the vendor message |
| ShelfErrors.AgencyKeepsMessage | shelf_ready_validator/errors.py:158-160 | a research item's agency failure is reported at (item_n, 949$h) and keeps pydantic's message, not the agency message |
| ShelfErrors.DateMessage | shelf_ready_validator/errors.py:179-184 | an invoice date failure is reported at 980$a with the YYMMDD message |
| ShelfErrors.DateListed | shelf_ready_validator/errors.py:179-184 | the six-digit pattern is in the table |

## Left out

- Reading MARC files, mapping records to field dicts, the command line, terminal printing and sheet output (the `read_marc_records`/`get_*` helpers, `shelf_ready_validator/__init__.py`, `connect.py`, `sheet.py`, `utils.py`, `src/commands.py`, `run.py`): these are I/O.
- `rl_sr_validation/errors.py` `validate_records` prints one line per record and is left out. Its file imports `Record` from `rl_sr_validation/models.py` (line 1), which defines no `Record`; so the module as written fails to import. `parse_errors` is modelled on its own, with `e.error_count()` taken as the number of failures.
- `validate/translate.py` and `src/translate.py` are not part of this model. Their catalogs are a parameter of `ValidateErrors` and `SrcErrors`; a name outside the catalog raises KeyError.
- pydantic is modelled only as far as these schemas use it (`Fields`).
  - Not modelled: type coercion, defaults other than None, `revalidate_instances`, validation of model instances, the `url` key of a failure.
  - The exact wording of messages the normalisers never key on is simplified.
  - Failures are reported in declaration order, with undeclared keys after the declared fields.
- Regular expressions are hand-written predicates, one per pattern the schemas declare (`Patterns`), not a regex engine.
- Patterns.IsDecimal: `\d` is any decimal digit (general category Nd) of Unicode 15.0, as both the default pydantic matcher and Python's `re` read it on text. A matcher built on another Unicode version differs by the few scripts added or removed between versions.
- The proof that the nine-location enumeration text equals the key in the message tables is left out. Only the one-, two- and three-option texts are computed; for every option list, ExpectedTextTokens shows that the text reads back as its options.
- The v2 `items` field is written `Annotated[List, Union[...], Field(discriminator="library")]`. Read literally, pydantic keeps the union only as metadata, so the discriminator lands on a bare `List`. Not executed: pydantic v2 most likely refuses that when it builds the class (a discriminator needs a union of models), so `MonographRecord` as written would probably never be built. The model is a reconstruction of the evident intent: a list of items discriminated by `library`. The v2 tests wrap a record as `{"data": ...}`, which the model does not.
- ValidateErrors.FormatErrorMessages: when a helper raises, the method returns the exception but does not state the contents of the dicts already converted.
- ValidateErrors.ErrorDict keys other than type, loc, input, msg and ctx, and Python's key order inside a dict, are not modelled.
- ShelfModels.Iterated: its contract states the list and None cases; iterating a string or a mapping is in its body only. Such values fail the schema anyway.
- ShelfErrors.Convert: its contract states only that the type is kept. Each converter's own contract, and the lemmas after them, state the per-type behaviour.
- SrcErrors.LiteralErrors: its contract ties the message to LiteralMessage, but no lemma states which enumeration texts are pairwise distinct keys.
- Failure types are dispatched on by constructor, while the source compares `error["type"]` strings. The two agree for canonical types (Values.TypeNameInjective); a custom type spelling a built-in name is not modelled.
- SrcModels.ComboCheck: its contract only bounds the number of failures. Which failure arises is stated by ListedIff and the lemmas after it.
- SrcModels.CallNoFindings: its contract only bounds the number of failures. The validator discards the list in any case (CallNoNeverRejects).

## Findings

| source | as written | input that shows it | evidently intended | confidence | as-written member | corrected member |
|---|---|---|---|---|---|---|
| src/validate/models.py:280-290 | the "after" validator builds the monograph's failure with `self.get("item")`, but `self` is the validated model, which has no `get` | a monograph record that match_locations accepts and whose `bib_call_no` is None | collect the call_no_missing failure without raising | high (not executed) | SrcModels.MonographWithoutCallNoRaises | SrcModels.CheckRequiredCallNo |
| src/validate/errors.py:9-14 | the converted error reads `error["ctx"]` before the match, and missing, extra and combination failures have no ctx | a failure of type extra_forbidden at ("item", "pamphlet", "item_call_tag") | reach the extra_forbidden case at lines 116-125 and attach its message | high (not executed) | SrcValidateErrors.NoCtxRaises | SrcValidateErrors.ExtraForbiddenMessage |
| src/validate/errors.py:104 | `new_error = new_error.pop("ctx")` rebinds the result to the popped ctx | an item_location enumeration failure at ("item", "monograph_record", "item_location") | drop ctx and return the error with its message | high (not executed) | SrcValidateErrors.ItemLocationReturnsCtx | SrcValidateErrors.ItemLocationMessage |

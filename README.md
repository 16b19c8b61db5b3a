# PrestaShop node: a verified model of its core

This project models the core of an n8n node for the PrestaShop
webservice. It also proves properties of that model.

- **Query compiler (`GenericFunctions`).** `getFilterQuery` turns filter
  conditions, sort directives and a limit into a query string. `limit` and
  `sort` go through `URLSearchParams`, with `%5B`/`%5D` turned back into
  brackets. The filter clauses are appended unescaped.
- **Smaller helpers in the same file.** The `like` wildcard translation, the
  multi-language XML fragment, the option-name comparator, the request URL,
  and the rule that an empty body is not sent.
- **Write operations of the action node (`PrestashopNode`).** These cover
  customer create and update, product create, update and stock, and the
  order status, shipping number and note changes. They also cover specific
  price create and update.
  - Each builds its attribute map in place, as an instance of the `Payload`
    class. It seeds the map (from the blank template, or with the
    identifier), writes the caller's fields and overlays the additional
    fields. It then removes the server-managed keys and runs the
    normalisation loop: booleans become `"1"`/`"0"` and ISO date-times get a
    space for their `T`.
  - Every write method is proved equal to a specification function of its
    inputs. The properties the source promises are then proved about those
    functions and about the normaliser: every key is sent with the value of
    the last source that writes it, server keys are dropped, the normaliser
    is idempotent, dates keep their shop form, and the stock lookup does
    what it is meant to.
- **Polling trigger (`PrestashopTrigger`).** A class holds the persistent
  cursor `lastCheckedId`. Each poll asks for `sort=[id_ASC]&filter[id]=>[cursor]`
  and moves the cursor to the highest identifier returned.

Helper modules:
- `Wrappers` holds `Option` and `Result`.
- `Strings` holds the JavaScript string operations the code uses: `split`,
  `join`, `replace` of a first occurrence, global replace, integer
  `toString`, and `<` on strings.
- `FormUrlencoded` holds the application/x-www-form-urlencoded serializer
  and parser of the WHATWG URL Standard (sections 5.1 and 5.2). The parser
  is there so that the serializer has an inverse.

Two behaviours of the code are easy to miss:
- A query with filters but no limit or sort starts with `&`, as in
  `&filter[a]=[1]`.
- Filter values are never escaped, so a value holding `]&filter[` injects a
  second condition (`GenericFunctions.FilterValuesNotEscaped`).

## Model

| member | source | states |
|---|---|---|
| GenericFunctions.Operator | nodes/PrestaShop/GenericFunctions.ts:277-291 | the operator is `=!` exactly for `neq`/`nin`, `=>` exactly for `gt`, `=<` exactly for `lt`, and `=` for every other condition type |
| GenericFunctions.LikePatternShape | nodes/PrestaShop/GenericFunctions.ts:310-324 | for every value but a lone `%`, the translation is the value with `[`/`]` inserted, inside an optional leading and trailing `%`, and it reads back into exactly those parts |
| GenericFunctions.LikePatternLonePercent | nodes/PrestaShop/GenericFunctions.ts:311-313 | a lone `%` counts as both starting and ending with `%`, so it becomes `%[]%`, the same as `%%` |
| GenericFunctions.LikePatternInjective | nodes/PrestaShop/GenericFunctions.ts:310-324 | two values translate alike only when they are equal or are `%` and `%%` |
| GenericFunctions.UnwrapWrap | nodes/PrestaShop/GenericFunctions.ts:313-323 | a bracketed pattern reads back into its wildcards and inner text, whatever the inner text holds |
| GenericFunctions.ClauseRoundTrip | nodes/PrestaShop/GenericFunctions.ts:293-297 | a clause `filter[field]OPvalue` can be read back into its field, operator and value when the field has no `]` |
| GenericFunctions.FilterValueStart | nodes/PrestaShop/GenericFunctions.ts:293-295 | every filter value starts with `[` or with the `%` wildcard |
| GenericFunctions.Clauses | nodes/PrestaShop/GenericFunctions.ts:274-299 | one clause per condition, in input order |
| GenericFunctions.GetFilterQuery | nodes/PrestaShop/GenericFunctions.ts:253-308 | the loop builds the limit, sort and filter parts, and its result is the compiled query: the serialized limit/sort record keeping only `[`/`]` unescaped, then `&` and the clauses |
| GenericFunctions.EmptyQuery | nodes/PrestaShop/GenericFunctions.ts:262-305 | no conditions, no sort and no positive limit give the empty query |
| GenericFunctions.FilterOnlyQuery | nodes/PrestaShop/GenericFunctions.ts:301-305 | with no limit and no sort, the query is `&` plus the joined clauses, so it starts with `&` |
| GenericFunctions.LimitSortShape | nodes/PrestaShop/GenericFunctions.ts:261-304 | with plain field names, limit and sort come out as `limit=N&sort=[f_DIR%2C…]`; either part is absent when not asked for, and the comma stays escaped |
| GenericFunctions.TwoSortEntries | nodes/PrestaShop/GenericFunctions.ts:267-270 | two sort directives are separated by `%2C`, not by a literal comma |
| GenericFunctions.LimitSortFilterQuery | nodes/PrestaShop/GenericFunctions.ts:253-308 | a limit, one sort and one `gt` filter give `limit=N&sort=[f_DIR]&filter[g]=>[v]` |
| GenericFunctions.SortFilterQuery | nodes/PrestaShop/GenericFunctions.ts:253-308 | one sort and one `gt` filter without a limit give `sort=[f_DIR]&filter[g]=>[v]` |
| GenericFunctions.FilterValuesNotEscaped | nodes/PrestaShop/GenericFunctions.ts:295-305 | an equality value containing `]&filter[b]=[` compiles to the same query as two separate equality conditions |
| GenericFunctions.LanguageElements | nodes/PrestaShop/GenericFunctions.ts:907-908 | one `<language id=…>` element per entry, in entry order |
| GenericFunctions.LanguageElementRoundTrip | nodes/PrestaShop/GenericFunctions.ts:908 | a language element reads back into its id and value when the id has no `"` |
| GenericFunctions.MultilangRoundTrip | nodes/PrestaShop/GenericFunctions.ts:905-911 | the multi-language fragment reads back into its entries, in order and verbatim, when ids have no `"` or newline and values have no newline |
| GenericFunctions.Sort | nodes/PrestaShop/GenericFunctions.ts:914-922 | the comparator answers only -1, 0 or 1 |
| GenericFunctions.SortZero | nodes/PrestaShop/GenericFunctions.ts:914-922 | it answers 0 exactly for equal names |
| GenericFunctions.SortAntisymmetric | nodes/PrestaShop/GenericFunctions.ts:914-922 | swapping the arguments negates the answer |
| GenericFunctions.SortTransitive | nodes/PrestaShop/GenericFunctions.ts:914-922 | the order it induces is transitive, so it sorts consistently |
| GenericFunctions.RequestUrlShape | nodes/PrestaShop/GenericFunctions.ts:38 | a non-empty `uri` wins; without one the URL is `resource?output_format=F`, or `resource?query&output_format=F` for a non-empty query |
| GenericFunctions.RequestUrlInjective | nodes/PrestaShop/GenericFunctions.ts:38 | without a `uri`, different query strings give different URLs |
| GenericFunctions.SentBody | nodes/PrestaShop/GenericFunctions.ts:44-46 | the body is dropped exactly when it has no keys or characters, and is otherwise sent unchanged |
| FormUrlencoded.RestoreBrackets | nodes/PrestaShop/GenericFunctions.ts:301-304 | replacing `%5B` by `[` and then `%5D` by `]` in the standard serialization gives the serialization that keeps just those two characters |
| FormUrlencoded.ParseSerialize | nodes/PrestaShop/GenericFunctions.ts:301-302 | the form parser reads back exactly the pairs the serializer wrote |
| FormUrlencoded.DecodeEncoded | nodes/PrestaShop/GenericFunctions.ts:301-302 | one serialized name or value decodes back to the original text |
| FormUrlencoded.EncodedAlphabet | nodes/PrestaShop/GenericFunctions.ts:301-302 | the serializer writes only unreserved characters, `+` and `%` |
| FormUrlencoded.Utf8 | nodes/PrestaShop/GenericFunctions.ts:301-302 | a character takes one to four UTF-8 bytes, and one exactly when it is ASCII |
| FormUrlencoded.EncodeExceptAppend | nodes/PrestaShop/GenericFunctions.ts:301-302 | the serializer works character by character |
| Strings.JoinSplit | nodes/PrestaShop/PrestashopTrigger.node.ts:152 | joining the pieces of `split(c)` with `c` gives back the string |
| Strings.SplitJoin | nodes/PrestaShop/PrestashopTrigger.node.ts:152 | splitting a join gives back the pieces when none contains the separator |
| Strings.SplitHead | nodes/PrestaShop/Prestashop.node.ts:501 | the first piece of `split('T')` is the longest prefix free of `T` |
| Strings.ReplaceFirst | nodes/PrestaShop/Prestashop.node.ts:418 | `replace` keeps the length, and keeps the string when the character is absent |
| Strings.ReplaceFirstAt | nodes/PrestaShop/Prestashop.node.ts:418 | `replace` changes the first occurrence and no other position |
| Strings.ReplaceFirstWrites | nodes/PrestaShop/Prestashop.node.ts:1030-1031 | when the character occurs, its replacement appears in the result |
| Strings.IntToStringRoundTrip | nodes/PrestaShop/PrestashopTrigger.node.ts:161 | the decimal rendering of an integer reads back as that integer |
| Strings.IntToStringInjective | nodes/PrestaShop/Prestashop.node.ts:842 | different integers have different renderings |
| Strings.LexLessTotal | nodes/PrestaShop/GenericFunctions.ts:915-918 | of two different strings one is less than the other |
| Strings.LexLessTransitive | nodes/PrestaShop/GenericFunctions.ts:915-918 | string `<` is transitive |
| PrestashopNode.NormalizeValue | nodes/PrestaShop/Prestashop.node.ts:496-506 | a normalised value is never a boolean and never an ISO date-time; non-string values other than booleans are unchanged; strings stay strings and never grow |
| PrestashopNode.NormalizeDateTime | nodes/PrestaShop/Prestashop.node.ts:417-418 | an ISO date-time gets a space at position 10 in place of its `T`, and nothing else changes |
| PrestashopNode.NormalizeBool | nodes/PrestaShop/Prestashop.node.ts:415-416 | booleans become `"1"` and `"0"` |
| PrestashopNode.BirthdayTruncated | nodes/PrestaShop/Prestashop.node.ts:500-501 | on customer update the birthday keeps exactly the text before its first `T` |
| PrestashopNode.OtherStringsKept | nodes/PrestaShop/Prestashop.node.ts:417 | on the other paths a string that is not an ISO date-time is left alone, even a birthday |
| PrestashopNode.NormalizeValueIdempotent | nodes/PrestaShop/Prestashop.node.ts:496-506 | normalising a normalised value changes nothing |
| PrestashopNode.Normalized | nodes/PrestaShop/Prestashop.node.ts:414-420 | the loop keeps the set of keys and leaves no boolean |
| PrestashopNode.NormalizedIdempotent | nodes/PrestaShop/Prestashop.node.ts:414-420 | running the normalisation loop twice is the same as running it once |
| PrestashopNode.AssembledPrecedence | nodes/PrestaShop/Prestashop.node.ts:404-420 | a key is sent exactly when some source writes it and it is not removed, with the normalised value of the last source that writes it |
| PrestashopNode.OverlayLatest | nodes/PrestaShop/Prestashop.node.ts:410 | after successive assignments a key holds the value of the last source that has it, and only keys of some source are present |
| PrestashopNode.Payload.constructor | nodes/PrestaShop/Prestashop.node.ts:404 | a payload starts as its seed |
| PrestashopNode.Payload.Set | nodes/PrestaShop/Prestashop.node.ts:901 | `data[key] = value` changes that key and no other |
| PrestashopNode.Payload.SetIfNonEmpty | nodes/PrestaShop/Prestashop.node.ts:406-409 | a string field is written only when non-empty |
| PrestashopNode.Payload.SetIfTranslations | nodes/PrestaShop/Prestashop.node.ts:750-751 | a multi-language field is written only when its parameter holds a `translations` array |
| PrestashopNode.Payload.SetIfPositive | nodes/PrestaShop/Prestashop.node.ts:752 | the price is written only when positive |
| PrestashopNode.Payload.SetIfNonZero | nodes/PrestaShop/Prestashop.node.ts:1007-1012 | a numeric field is written only when non-zero |
| PrestashopNode.Payload.Assign | nodes/PrestaShop/Prestashop.node.ts:410 | `Object.assign` overlays the source, whose keys win |
| PrestashopNode.Payload.DeleteKeys | nodes/PrestaShop/Prestashop.node.ts:412 | the loop removes exactly the listed keys |
| PrestashopNode.Payload.SetTranslations | nodes/PrestaShop/Prestashop.node.ts:651-661 | the loop writes `{ language: … }` for exactly the translatable fields whose parameter holds a `translations` array |
| PrestashopNode.Payload.Normalize | nodes/PrestaShop/Prestashop.node.ts:414-420 | the in-place loop leaves the map equal to the normalised map of its old contents |
| PrestashopNode.XmlBody | nodes/PrestaShop/Prestashop.node.ts:422-424 | the body is the XML declaration followed by the builder's output for `{ prestashop: { entity: data } }` |
| PrestashopNode.WriteBodySent | nodes/PrestaShop/GenericFunctions.ts:44-46 | a write body is never empty, so it is always sent |
| PrestashopNode.CustomerCreate | nodes/PrestaShop/Prestashop.node.ts:390-431 | POST to `customers` with the template overlaid by the non-empty caller fields and the additional fields, less three server keys, normalised |
| PrestashopNode.CustomerCallerFieldsExact | nodes/PrestaShop/Prestashop.node.ts:406-409 | a caller field is present exactly when its parameter is non-empty, and holds that parameter |
| PrestashopNode.CustomerCreateDropsServerKeys | nodes/PrestaShop/Prestashop.node.ts:412 | `associations`, `date_add` and `date_upd` are never sent, even when the additional fields supply them |
| PrestashopNode.CustomerCreatePrecedence | nodes/PrestaShop/Prestashop.node.ts:404-420 | every other key takes the additional field, else the caller field, else the template value, normalised |
| PrestashopNode.CustomerUpdate | nodes/PrestaShop/Prestashop.node.ts:480-517 | PATCH to `customers/<id>` with the identifier, then the caller and additional fields, nothing removed, normalised with the birthday rule |
| PrestashopNode.CustomerUpdatePrecedence | nodes/PrestaShop/Prestashop.node.ts:488-506 | exactly the identifier, the non-empty caller fields and the additional fields are sent, later ones winning |
| PrestashopNode.CustomerUpdateBirthday | nodes/PrestaShop/Prestashop.node.ts:494-501 | a birthday among the additional fields is sent as the text before its first `T` |
| PrestashopNode.ProductCreate | nodes/PrestaShop/Prestashop.node.ts:645-691 | POST to `products` with the template, then name, link rewrite, price and state 1, then the translatable and additional fields, less seven server keys, normalised |
| PrestashopNode.ProductCreateDropsServerKeys | nodes/PrestaShop/Prestashop.node.ts:664-672 | the seven server-managed keys are never sent |
| PrestashopNode.ProductCreateFixedFields | nodes/PrestaShop/Prestashop.node.ts:647-650 | name, link rewrite, price and state are always sent and, unless overridden, hold the parameters and state 1 |
| PrestashopNode.ProductUpdate | nodes/PrestaShop/Prestashop.node.ts:748-783 | PATCH to `products/<id>` with the identifier and the given fields, then the translatable and additional fields, normalised |
| PrestashopNode.ProductUpdatePrice | nodes/PrestaShop/Prestashop.node.ts:752 | a price is sent exactly when the parameter is positive or another source supplies one |
| PrestashopNode.ProductUpdateName | nodes/PrestaShop/Prestashop.node.ts:750 | the name is sent exactly when its parameter holds a `translations` array or another source supplies one |
| PrestashopNode.OrderFieldChange | nodes/PrestaShop/Prestashop.node.ts:568-625 | an order change is a PATCH to `orders/<id>` whose payload has exactly two keys, the identifier and the one changed field, holding the given values |
| PrestashopNode.OrderChangeStatus | nodes/PrestaShop/Prestashop.node.ts:568-586 | PATCH to `orders/<id>` with exactly the identifier and the new state |
| PrestashopNode.OrderShippingNumber | nodes/PrestaShop/Prestashop.node.ts:588-605 | PATCH to `orders/<id>` with exactly the identifier and the shipping number |
| PrestashopNode.OrderNote | nodes/PrestaShop/Prestashop.node.ts:608-625 | PATCH to `orders/<id>` with exactly the identifier and the note |
| PrestashopNode.StockQueryCompiled | nodes/PrestaShop/Prestashop.node.ts:800-806 | the hand-written lookup query equals the query compiler's output for the same equality conditions, less its leading `&` |
| PrestashopNode.StockUpdate | nodes/PrestaShop/Prestashop.node.ts:786-845 | a lookup by combination that finds nothing, and an identifier that is missing, NaN or zero, are errors with the source's messages; otherwise PATCH `stock_availables/<id>` with exactly the identifier and the quantity |
| PrestashopNode.StockUpdatePath | nodes/PrestaShop/Prestashop.node.ts:842 | the path names the written identifier and no other |
| PrestashopNode.ComputeCreateImpact | nodes/PrestaShop/Prestashop.node.ts:868-887 | the impact block's variables are the discount values (a hundredth for a percentage, price -1), the fixed price with no reduction, or the defaults |
| PrestashopNode.SpecificPriceCreate | nodes/PrestaShop/Prestashop.node.ts:849-940 | POST to `specific_prices` with the template overlaid by the target, period, impact and `id_cart` 0, then the shop fields in multishop mode, normalised |
| PrestashopNode.SpecificPriceCreateSends | nodes/PrestaShop/Prestashop.node.ts:901-914 | every field the create writes over the template is sent, normalised |
| PrestashopNode.SpecificPriceCreateUnlimited | nodes/PrestaShop/Prestashop.node.ts:859-861 | an unlimited price runs from the zero date to the zero date, which the normaliser keeps, and `id_cart` is 0 |
| PrestashopNode.SpecificPriceCreateDates | nodes/PrestaShop/Prestashop.node.ts:863-866 | ISO dates of a limited price are sent with a space for their `T` |
| PrestashopNode.SpecificPriceCreateImpact | nodes/PrestaShop/Prestashop.node.ts:868-913 | the price is the fixed price only in the `fixedPrice` mode, else -1; the reduction is the discount's (a hundredth for a percentage) only in the `discount` mode, else 0; the tax flag is 1 outside the `discount` mode; the reduction type is the parameter in the `discount` mode (when it is not an ISO date-time, which the normaliser would rewrite) and `amount` otherwise |
| PrestashopNode.ZeroDateKept | nodes/PrestaShop/Prestashop.node.ts:860 | the zero date is not an ISO date-time, so the normaliser keeps it |
| PrestashopNode.ReplacedDateKept | nodes/PrestaShop/Prestashop.node.ts:1030-1047 | a date whose first `T` was already replaced is not changed again by the normaliser |
| PrestashopNode.SpecificPriceUpdate | nodes/PrestaShop/Prestashop.node.ts:989-1058 | PATCH to `specific_prices/<id>` with the identifier and non-zero target fields, then the impact, period and shop blocks, normalised |
| PrestashopNode.SpecificPriceUpdateTarget | nodes/PrestaShop/Prestashop.node.ts:1005-1012 | the target block writes only the identifier and the seven target keys |
| PrestashopNode.UpdateImpactFields | nodes/PrestaShop/Prestashop.node.ts:1014-1024 | the impact block writes only the reduction, its tax flag, its type and the price |
| PrestashopNode.UpdatePeriodFields | nodes/PrestaShop/Prestashop.node.ts:1026-1032 | the period block writes only `from` and `to` |
| PrestashopNode.UpdateShopFields | nodes/PrestaShop/Prestashop.node.ts:1034-1039 | the shop block writes only `id_shop` and `id_shop_group` |
| PrestashopNode.SpecificPriceUpdateSources | nodes/PrestaShop/Prestashop.node.ts:1004-1047 | a key is sent exactly when one of the four blocks writes it, with the normalised value of the last one |
| PrestashopNode.SpecificPriceUpdateFrom | nodes/PrestaShop/Prestashop.node.ts:1026-1030 | `from` is sent exactly when unlimited or given: the zero date, or the given date with its first `T` replaced |
| PrestashopNode.SpecificPriceUpdateTo | nodes/PrestaShop/Prestashop.node.ts:1026-1031 | the same for `to` |
| PrestashopNode.SpecificPriceUpdateCustomer | nodes/PrestaShop/Prestashop.node.ts:1012 | the customer is sent exactly when non-zero |
| PrestashopNode.SpecificPriceUpdateReduction | nodes/PrestaShop/Prestashop.node.ts:1014-1018 | a discount update always sends the reduction, a hundredth of it for a percentage |
| PrestashopNode.SpecificPriceUpdateReductionTax | nodes/PrestaShop/Prestashop.node.ts:1019 | a discount update sends the tax flag as `"1"` or `"0"` |
| PrestashopNode.SpecificPriceUpdatePrice | nodes/PrestaShop/Prestashop.node.ts:1021-1023 | a price is sent exactly in the `fixedPrice` mode with a price given, and it is that price |
| PrestashopNode.FixedModeIgnoredOnCreate | nodes/PrestaShop/Prestashop.node.ts:882 | as written, the `fixed` mode the parameter offers sends price -1 whatever price is given |
| PrestashopNode.CorrectedFixedModeOnCreate | nodes/PrestaShop/Prestashop.node.ts:874-887 | with `fixed` read as the fixed-price mode, `fixed` sends the given price and no reduction, and `discount` is unchanged |
| PrestashopNode.FixedModeIgnoredOnUpdate | nodes/PrestaShop/Prestashop.node.ts:1021 | as written, the `fixed` mode sends no price on update |
| PrestashopNode.CorrectedFixedModeOnUpdate | nodes/PrestaShop/Prestashop.node.ts:1021-1023 | with the correction, an update in the `fixed` mode sends the given price |
| PrestashopTrigger.StartCursor | nodes/PrestaShop/PrestashopTrigger.node.ts:150 | the cursor is the stored one or the starting id, and it is the stored one exactly when that is present and non-zero |
| PrestashopTrigger.EventSplit | nodes/PrestaShop/PrestashopTrigger.node.ts:152 | an event `entity.action` splits back into its entity and its action |
| PrestashopTrigger.EventWithoutAction | nodes/PrestaShop/PrestashopTrigger.node.ts:152 | an event without a `.` is all entity and has no action |
| PrestashopTrigger.CreatedQueryShape | nodes/PrestaShop/PrestashopTrigger.node.ts:155-165 | the `created` query is exactly `sort=[id_ASC]&filter[id]=>[<cursor>]`, with no limit |
| PrestashopTrigger.OtherActionNoQuery | nodes/PrestaShop/PrestashopTrigger.node.ts:154-174 | any other action sends no query, so the URL is `entity?output_format=JSON` |
| PrestashopTrigger.ResponseItems | nodes/PrestaShop/PrestashopTrigger.node.ts:176 | the items are the response's list for the entity, or none when it has no list |
| PrestashopTrigger.MaxId | nodes/PrestaShop/PrestashopTrigger.node.ts:182 | the maximum is one of the identifiers and no smaller than any |
| PrestashopTrigger.Wrapped | nodes/PrestaShop/PrestashopTrigger.node.ts:185 | one output element per item, in response order, holding the item |
| PrestashopTrigger.PollState.constructor | nodes/PrestaShop/PrestashopTrigger.node.ts:149 | fresh node data has no cursor |
| PrestashopTrigger.PollState.Poll | nodes/PrestaShop/PrestashopTrigger.node.ts:148-186 | the request URL carries the query for the event's action from the chosen cursor; an empty list returns nothing and keeps the cursor; otherwise the cursor becomes the highest identifier and the items are returned wrapped |
| PrestashopTrigger.NextPollSkipsReturned | nodes/PrestaShop/PrestashopTrigger.node.ts:150-183 | after a non-empty poll with a non-zero maximum, the next poll's filter `id > cursor` admits none of the items already returned |
| PrestashopTrigger.CursorAdvances | nodes/PrestaShop/PrestashopTrigger.node.ts:161-183 | when the webservice honours the filter, every non-empty poll moves the cursor strictly forward |

## Left out

- HTTP transport, credentials, the `/api/` base URL, header and option merging, and wrapping errors in a node error are not modelled (nodes/PrestaShop/GenericFunctions.ts:31-67). Responses are parameters of the operations that read them: the blank template, the stock lookup's ids and the trigger's list.
- The XML builder is a parameter of `XmlBody`. Its escaping and its handling of the `__cdata` option are not modelled.
- `buildMultilangField` lives outside the core. A multi-language value records only the translations it was built from.
- GenericFunctions.FormatMultilangField: the input is a sequence of (id, value) pairs standing for the result of `Object.entries` on the record. The model does not capture that ids are unique, nor that JavaScript lists integer-like keys first in ascending order whatever the insertion order.
- Payload maps are Dafny maps, so the insertion order of object keys, which the XML builder follows, is not modelled.
- Numbers are mathematical integers. Fractional prices, NaN and floating-point rounding are not modelled. A percentage reduction is `Hundredths(n)`, meaning n / 100.
- `parseInt` of a stock record's id is given as `Option<int>`, with `None` for NaN. The trigger's item ids are integers, so a NaN id, which makes `Math.max` NaN, is not modelled.
- `getNodeParameter` is not modelled: each operation takes the values the code reads as arguments. The names the code reads differ from the names the parameter description declares, and the model follows the code:
  - `combinationId` against `productAttributeId`;
  - `fromDate`/`toDate` and `dateFrom`/`dateTo` against `from`/`to`.
- SpecificPriceUpdateTarget: the product id is modelled as a number tested for non-zero. The source reads it as a string and tests it for non-emptiness, so a product id given as the text `0` is sent by the source but not by the model.
- The `get`, `getAll` and `delete` operations of every resource have no payload and only pass a path or a compiled query to the request helper. Only that query compiler is modelled. The load-option methods are not modelled either.
- The item loop of `execute` is not modelled: `continueOnFail`, execution metadata and returned data.
- TemplateFields models an array template as an object keyed by index on every create path. The code spreads it that way only for specific prices. For customers and products it writes into the array itself, which differs only in how the XML builder renders it.
- Strings.LexLess compares Unicode scalar values. JavaScript compares UTF-16 code units, which orders characters above U+FFFF differently from some characters between U+E000 and U+FFFF.
- FormUrlencoded.Utf8 covers Unicode scalar values only. Lone surrogates cannot occur in Dafny strings, and the serializer would replace them with U+FFFD.
- SpecificPriceCreate and SpecificPriceUpdate follow the code as written. The corrected reading of the `fixed` mode is stated and proved beside them (see Findings).

## Findings

| source | as written | input that shows it | evidently intended | confidence | as-written member | corrected member |
|---|---|---|---|---|---|---|
| nodes/PrestaShop/Prestashop.node.ts:882 | the create tests for the impact mode `fixedPrice`, but the parameter offers only `discount` and `fixed` (nodes/PrestaShop/SpecificPriceDescription.ts:254) | impact mode `fixed` with a fixed price of 10: the price sent is -1 | `fixed` sends the given fixed price | not executed | PrestashopNode.FixedModeIgnoredOnCreate | PrestashopNode.CorrectedFixedModeOnCreate |
| nodes/PrestaShop/Prestashop.node.ts:1021 | the update tests for `fixedPrice` in the same way | impact mode `fixed` with a fixed price of 10: no price is sent | `fixed` sends the given fixed price | not executed | PrestashopNode.FixedModeIgnoredOnUpdate | PrestashopNode.CorrectedFixedModeOnUpdate |

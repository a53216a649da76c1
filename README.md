# AVM metadata fields over an XMP packet, in Dafny

This project models the core of the Python AVM library (Astronomy
Visualization Metadata). It covers two parts.

- **The field-type descriptors** (`trunk/libavm/libavm/datatypes.py`). Each
  descriptor validates and normalises a dynamically typed value
  (`check_data`), writes it into an XMP packet (`set_data`), reads it back
  (`get_data`) and removes it (`delete_data`).
- **The `AVMMeta` façade** (`libavm/libavm/core.py`). It maps field names to
  descriptors, keeps a `data` cache refreshed after each successful write, and
  always reads live from the packet. Its constructor writes today's date as
  `MetadataDate`, optionally adopts an existing packet and fills the cache from
  it, and then assigns a dictionary of values, dropping every per-field error.

## Layout

| file | module | what it holds |
|---|---|---|
| `values.dfy` | `Values` | The Python values a descriptor sees: `Str` (byte string), `Unicode`, `Int`, an opaque `Float`, `List`, `Set`, `DateValue`, `Null`. Also the five exceptions and `datetime.date` as a subset type. |
| `text.dfy` | `Text` | ASCII `str.upper`, `str.lower` and `str.capitalize`, plus decimal digits. |
| `iso_date.dfy` | `IsoDate` | `str(date)` (the extended calendar date `YYYY-MM-DD` of section 4.1.2.2 of ISO 8601:2004) and `time.strptime(s, "%Y-%m-%d")`. |
| `patterns.dfy` | `Patterns` | URL_RE and EMAIL_RE as recognisers over the whole string. The dot-atom branch is related to section 3.2.3 of RFC 5322. |
| `packet.dfy` | `Xmp` | The packet as a class with a `props` map. Simple properties, arrays (ordered or not) and alternative-text arrays live in it. |
| `datatypes.dfy` | `Datatypes` | One `Kind` datatype replaces the class hierarchy. Holds the specification functions `Check`, `Write` and `Read`, and the lemmas about them. |
| `descriptors.dfy` | `Descriptors` | The loops of the original (list checks, the append loop, list reads), each proved equal to its specification function. |
| `core.dfy` | `Core` | The `AvmMeta` class, the state-level specification `Assign` / `ApplyAllSpec`, and the façade lemmas. |

The class hierarchy maps onto `Kind` as follows. The method resolution order
of `AVMOrderedStringListCV` takes `format_data` from `AVMStringCVCapitalize`,
`check_cv` from `AVMStringCV`, `check_length` and `set_data` from the list
bases, and `get_data` from `AVMOrderedStringList`.

| class | kind |
|---|---|
| `AVMString` | `StringKind` |
| `AVMStringCV` | `StringCV(Plain, cv)` |
| `AVMStringCVCapitalize` | `StringCV(Capitalized, cv)` |
| `AVMStringCVUpper` | `StringCV(UpperCased, cv)` |
| `AVMURL` | `Url` |
| `AVMEmail` | `Email` |
| `AVMLocalizedString` | `LocalizedString(generic, specific)` |
| `AVMFloat` | `FloatKind` |
| `AVMDate` | `DateKind` |
| `AVMUnorderedStringList` | `UnorderedStringList(rule)` |
| `AVMOrderedStringList` | `OrderedList(StrElem, rule)` |
| `AVMOrderedStringListCV` | `OrderedList(CVElem(cv), rule)` |
| `AVMOrderedFloatList` | `OrderedList(FloatElem, rule)` |

The packet is an abstract store. The model assumes that a write fails only
when the property already exists in a shape the write cannot use:
- `set_property` fails on an existing array or alternative-text array;
- `append_array_item` fails on an existing simple property, an
  alternative-text array, or an array of the other form;
- `set_localized_text` fails on anything but an alternative-text array.

This rule is the model's assumption, not taken from the XMP toolkit.

### Behaviour the model follows

- Writing `None` raises TypeError. It does not delete the property.
- `__delitem__` on an unknown key does nothing and raises nothing.
  `__delitem__` never touches the `data` cache, so after a delete the cache
  can disagree with the packet.
- A list write deletes the old array only when `strict_length` is set.
  Otherwise it appends to the items already there.
- An empty string written to a string field reads back as None. The reason is
  that `get_data` tests the text for truth.
- A refused store write is not an error. `set_data` returns False or None,
  and `__setitem__` then leaves the cache alone without raising.
- String fields accept only byte strings (`str`). A `unicode` value is a
  TypeError.

## Model

| member | source | states |
|---|---|---|
| Text.CapitalizeIdempotent | trunk/libavm/libavm/datatypes.py:173-180 | Capitalizing a capitalized string changes nothing. |
| Text.UpperIdempotent | trunk/libavm/libavm/datatypes.py:182-189 | Upper-casing an upper-cased string changes nothing. |
| IsoDate.RoundTrip | trunk/libavm/libavm/datatypes.py:662-670 | `strptime` of the `YYYY-MM-DD` text that `str(date)` writes yields the same year, month and day, for every valid date. |
| IsoDate.AcceptsUnpadded | trunk/libavm/libavm/datatypes.py:668 | The `%m` and `%d` directives also take one-digit months and days, so `"2009-5-7"` reads as 7 May 2009. |
| Patterns.UrlHasSeparator | trunk/libavm/libavm/datatypes.py:209-217 | Every text URL_RE accepts contains `://`. |
| Patterns.DotAtomIsRfc | trunk/libavm/libavm/datatypes.py:251 | The dot-atom branch of EMAIL_RE accepts exactly the dot-atom-text of RFC 5322. That is: non-empty, only atext and dots, no dot at either end, no two dots together. |
| Patterns.EscapedLineFeedAccepted | trunk/libavm/libavm/datatypes.py:252 | With the escape class as written, the address `"a\<LF>b"@eso.org` is accepted. |
| Patterns.EscapedLineFeedRefused | trunk/libavm/libavm/datatypes.py:252 | With the intended escape class, the same address is refused. |
| Patterns.NoLineBreaks | trunk/libavm/libavm/datatypes.py:250-256 | With the intended class, no accepted address contains a line feed or a carriage return. |
| Datatypes.FormatIdempotent | trunk/libavm/libavm/datatypes.py:139-189 | Each `format_data` (keep, capitalize, upper) gives the same result when applied twice. |
| Datatypes.LengthOk | trunk/libavm/libavm/datatypes.py:368-385 | `check_length` accepts exactly when one of these holds: strict and the length equals `length`; not strict and `length` is unset or 0; not strict and the length is at most `length`. |
| Datatypes.CheckString | trunk/libavm/libavm/datatypes.py:111-120 | Accepts exactly byte strings and returns them unchanged. Anything else is a TypeError. |
| Datatypes.CheckCV | trunk/libavm/libavm/datatypes.py:157-171 | A non-string is a TypeError. A byte string whose formatted text is in the vocabulary is accepted as that formatted text. A formatted text outside the vocabulary raises AVMItemNotInControlledVocabularyError. |
| Datatypes.CVIdempotent | trunk/libavm/libavm/datatypes.py:145-171 | A value the vocabulary check returned passes the check again, unchanged. |
| Datatypes.CheckUrl | trunk/libavm/libavm/datatypes.py:195-220 | A non-string is a TypeError. A non-empty text without `://` gets `http://` in front. The URL is accepted exactly when that text matches URL_RE, and the result is that text. Otherwise the error is a ValueError. |
| Datatypes.UrlIdempotent | trunk/libavm/libavm/datatypes.py:195-220 | Checking a URL the check returned returns it again, unchanged. |
| Datatypes.CheckEmail | trunk/libavm/libavm/datatypes.py:240-259 | Accepts exactly the byte strings that EMAIL_RE matches with the corrected quoted-pair class (see Findings), and returns them unchanged. A non-string is a TypeError; a mismatch is a ValueError. |
| Datatypes.CheckFloat | trunk/libavm/libavm/datatypes.py:306-318 | An `int` becomes a float and a float is kept. Everything else is a TypeError, including integers too wide for `int`. |
| Datatypes.CheckDate | trunk/libavm/libavm/datatypes.py:653-660 | Accepts exactly date values and returns them unchanged. Anything else is a TypeError. |
| Datatypes.CheckElement | trunk/libavm/libavm/datatypes.py:578-587 | An element that passes is of the list's element type. An element of a CV list is also in the vocabulary. |
| Datatypes.CheckElements | trunk/libavm/libavm/datatypes.py:510-519 | The element loop succeeds exactly when every element passes. Its output has the input's length, and element i is the check of input element i. |
| Datatypes.FirstElementError | trunk/libavm/libavm/datatypes.py:512-517 | A failing element loop reports the error of the first failing element; every element before it passes. |
| Datatypes.Check | trunk/libavm/libavm/datatypes.py:436-459 | What `check_data` returns is a value of the field's type. For an unordered list that is a set of byte strings; for an ordered list, a list of valid elements. |
| Datatypes.UnorderedCheck | trunk/libavm/libavm/datatypes.py:436-459 | A non-set is a TypeError. Then a set over the length limit is AVMListLengthError. Then the set is accepted exactly when every member is a byte string, and it comes back unchanged. Otherwise the error is a TypeError. |
| Datatypes.OrderedCheck | trunk/libavm/libavm/datatypes.py:496-519 | The checks run in this order: a non-list is a TypeError; then a length violation is AVMListLengthError, whatever the elements are; then the elements are checked. A list that passes keeps its length and order. A list that fails raises the first failing element's error. |
| Datatypes.FloatListElements | trunk/libavm/libavm/datatypes.py:612-622 | In an accepted float list, each float element is kept and each int element becomes `float(int)`. |
| Datatypes.AppendAllClosedForm | trunk/libavm/libavm/datatypes.py:403-409 | The append loop either appends every text after the existing items and returns True, or changes nothing and returns False. It returns False only when the first append is refused. |
| Datatypes.WriteFrame | trunk/libavm/libavm/datatypes.py:393-397 | A `set_data` that does not return True leaves the packet unchanged. It raises exactly the `check_data` error, and it never touches another property. |
| Datatypes.WriteSucceeds | trunk/libavm/libavm/datatypes.py:76-87 | `set_data` returns True exactly when the check passes and the packet takes the value. A strict list is always taken, and so is a non-strict list with no items. |
| Datatypes.Read | trunk/libavm/libavm/datatypes.py:89-97 | `get_data` raises only ValueError, and only for a date field. |
| Datatypes.ReadLocal | trunk/libavm/libavm/datatypes.py:96-97 | What a field reads depends on its own property alone. |
| Datatypes.ReadAfterDelete | trunk/libavm/libavm/datatypes.py:99-103 | After `delete_data` the field reads as None. |
| Datatypes.StringRoundTrip | trunk/libavm/libavm/datatypes.py:122-130 | After a successful write, a string, CV, URL or email field reads back the checked value. The exception is the empty string, which reads as None. |
| Datatypes.VocabularyTermStored | trunk/libavm/libavm/datatypes.py:122-171 | A non-empty vocabulary term, already in the field's format, is stored whenever the property is not an array. It then reads back as itself. |
| Datatypes.LocalizedRoundTrip | trunk/libavm/libavm/datatypes.py:282-298 | After a successful write, a localized string reads back exactly the written string. |
| Datatypes.FloatRoundTrip | trunk/libavm/libavm/datatypes.py:320-330 | After a successful write, a float field reads back the float written, given that its text is not empty. An int reads back as its float. |
| Datatypes.DateRoundTrip | trunk/libavm/libavm/datatypes.py:662-670 | After a successful write, a date field reads back the date written. |
| Datatypes.ListStored | trunk/libavm/libavm/datatypes.py:466-489 | After a successful list write, the array holds the written texts alone when strict. When not strict, it holds the old items followed by the written texts. |
| Datatypes.OrderedListRoundTrip | trunk/libavm/libavm/datatypes.py:521-539 | An ordered list reads back in store order. With `strict_length` that is the checked values; otherwise the old items plus the checked values. An empty result reads as None. |
| Datatypes.UnorderedRoundTrip | trunk/libavm/libavm/datatypes.py:411-429 | An unordered list reads back as a set. With `strict_length` that is the checked set; otherwise the old strings joined with it. An empty result reads as None. |
| Datatypes.WriteThenReadOk | trunk/libavm/libavm/datatypes.py:662-670 | A read right after a successful write never raises. |
| Descriptors.PrefixError | trunk/libavm/libavm/datatypes.py:512-517 | An element error within a prefix of the list is the error of the whole list. |
| Descriptors.CheckData | trunk/libavm/libavm/datatypes.py:496-519 | The loop that builds `checked_data` computes `Check`, for every kind. |
| Descriptors.GetData | trunk/libavm/libavm/datatypes.py:521-539 | The loop over items 1..count computes `Read`, for every kind. |
| Descriptors.DeleteData | trunk/libavm/libavm/datatypes.py:99-103 | Removes the field's property and nothing else. |
| Descriptors.AppendItems | trunk/libavm/libavm/datatypes.py:483-489 | The append loop leaves the packet and the result `AppendAll` specifies. |
| Descriptors.SetOrder | trunk/libavm/libavm/datatypes.py:403 | The loop over a set visits each of its strings exactly once. |
| Descriptors.SetData | trunk/libavm/libavm/datatypes.py:387-409 | `set_data` leaves the result and packet that `Write` specifies. For an unordered list, the order used is a visit order of the checked set. |
| Core.AssignOutcome | libavm/libavm/core.py:92-99 | After a successful write, `data[key]` equals what reading the key returns. After a failed or refused write, neither `data` nor the packet changed. Exactly the validation errors are raised. No other field's cache entry or property is touched. |
| Core.AssignFrame | libavm/libavm/core.py:94-97 | Assigning one field does not change another field's cache entry or what reading it returns. This needs the registry to give distinct fields distinct properties. |
| Core.ApplyAllFrame | libavm/libavm/core.py:84-90 | Fields the bulk assignment does not name keep their cache entry and their read value. |
| Core.ApplyAllReadable | libavm/libavm/core.py:84-90 | Every pair the bulk assignment accepted is in the cache afterwards, equal to what reading it returns. |
| Core.SyncData | libavm/libavm/core.py:79-81 | The synchronized cache has exactly the registry's keys, each holding what reading that field returns. |
| Core.FreshMetadataDate | libavm/libavm/core.py:72 | Built without a packet, the `MetadataDate` write succeeds. Afterwards the packet and the cache both hold today's date, unless the bulk assignment names that field. |
| Core.AvmMeta.constructor | libavm/libavm/core.py:59-61 | Starts with an empty cache and a fresh, empty packet. |
| Core.AvmMeta.SetItem | libavm/libavm/core.py:92-99 | Unknown key: KeyError, with nothing changed. Otherwise the new cache, packet and result are those of `Assign`. |
| Core.AvmMeta.GetItem | libavm/libavm/core.py:101-107 | Unknown key: KeyError. Otherwise the result is the descriptor's read of the packet; the cache is never consulted. |
| Core.AvmMeta.DelItem | libavm/libavm/core.py:109-113 | A known key's property is removed, so the field then reads as None. An unknown key changes nothing. The cache is never updated. |
| Core.AvmMeta.Synchronize | libavm/libavm/core.py:75-81 | Succeeds exactly when every registered field reads without error. The cache then equals `SyncData`; otherwise the error is ValueError. |
| Core.AvmMeta.ApplyAll | libavm/libavm/core.py:84-90 | Never raises. The final state is that of assigning the pairs in turn, each one's errors dropped. |
| Core.AvmMeta.Create | libavm/libavm/core.py:57-90 | Construction succeeds exactly when the `MetadataDate` write succeeds and, if a packet was given, every field of it reads. A failed construction leaves the given packet untouched. A given packet becomes `xmp`, with the fresh one discarded. The cache then starts from that packet, and the pairs are assigned last. |

## Left out

- libxmp itself: RDF serialisation, `register_namespace` (core.py:68-69) and
  the dictionaries `get_array_item` returns. The packet is an in-memory map.
  Its failure rule (a write fails when the property exists in a shape the
  write cannot use) is an assumption of the model.
- Localized text: the model stores and looks up the exact
  (generic, specific) pair. The XMP language fallbacks (generic prefix,
  `x-default`, first item) are not modelled.
- An array or alternative-text property reads as no text through
  `get_property`, and counts no items unless it is an array.
- `version` values other than "1.1" (core.py:64-65). The registry
  (`SPECS_1_1`) and the controlled vocabularies are parameters.
- `datetime.date.today()` (core.py:72) is the `today` parameter.
- Float arithmetic and float text. A float is known by the text `str()`
  gives for it. Reading a float field or a float-list item yields
  `Float(text)` for the stored text. So the ValueError of `float(text)` on
  unparsable text, the raw-string fallback of the float list
  (datatypes.py:638-641) and the normalisation of the text are not modelled.
- Datatypes.CheckEmail: the model uses the corrected quoted-pair class
  (see Findings). So it refuses an address with a backslash before a line
  feed or carriage return in a quoted local part, which EMAIL_RE as written
  (datatypes.py:250-257) accepts. The as-written pattern is kept as
  `Patterns.EmailMatchWith(s, AsWritten)`.
- Datatypes.FloatOfInt: the text is always the decimal digits followed by
  `.0`. Python 2 prints only 12 significant digits, so integers of magnitude
  10^12 or more would print rounded, in exponent form.
- Datatypes.CheckFloat: an `int` is a 64-bit machine word. On a 32-bit
  build the boundary to `long` is 2^31.
- Datatypes.LengthOk: `len(values) is self.length` is modelled as equality.
  CPython caches small integers only, so a strict length above 256 would
  never match.
- `bool` (an `int` subclass) and `datetime.datetime` (a `date` subclass) are
  not in the value domain.
- The base classes `AVMData`, `AVMUnorderedList` and `AVMOrderedList` as
  field kinds of their own. They need `str()` of arbitrary values. Their
  `set_data`, `get_data`, `check_length` and `delete_data` are modelled
  through the subclasses that inherit them.
- Python's `$` also matching before a trailing newline, in URL_RE and
  EMAIL_RE.
- `str()` of a non-ASCII `unicode` item read from the packet, which would
  raise UnicodeEncodeError. Items are byte strings here.
- `if xmp:` is read as "a packet was given". Any packet object is true.
- Dictionary iteration order. The registry loop picks keys in an arbitrary
  order. The bulk dictionary is a sequence of pairs with distinct keys.
  The visit order of a set is a ghost output of the methods that loop over
  one.
- A `Synchronize` that fails part-way leaves a partly refilled cache, which
  the failed construction then discards.

## Findings

| source | as written | input that shows it | evidently intended | confidence | as-written member | corrected member |
|---|---|---|---|---|---|---|
| trunk/libavm/libavm/datatypes.py:252 | The quoted-pair class `[\001-011\013\014\016-\177]` reads `\001-0` as a range up to the digit zero. A backslash may then escape any character from 1 to 127, including line feed and carriage return. | `"a\<LF>b"@eso.org` (a quoted local part with a backslash before a line feed) is accepted | `[\001-\011\013\014\016-\177]`, which excludes line feed and carriage return as the quoted-text class does | not executed | Patterns.EscapedLineFeedAccepted | Patterns.NoLineBreaks |

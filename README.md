# godm core in Dafny

A model of the decoder of `godm`, a Go library that reads CCSDS Orbit Data
Messages (ODM, CCSDS 502.0-B) written in the Keyword = Value Notation (KVN).
The model covers:

- the KVN lexer: line-ending detection, splitting into lines, trimming, the
  `KEY = value [unit]` and `COMMENT text` line forms (`utils.go`);
- `parseTime`: the ordinal `YYYY-DDDThh:mm:ss[.f]` form and the RFC 3339
  calendar form with an optional trailing `Z`;
- the reflection schema: `parseOdmTag` and `getODMFields`, which flatten the
  tagged message structs into an ordered list of field descriptors;
- `populateODMFields`, the ordered single-cursor decoder that fills the
  descriptors from the tokens, including the repeated-record groups;
- `ParseOMM` with its struct tables and the `USER_DEFINED_` collection loop;
- the shared tables (`SpacecraftParameters`, `CovarianceMatrix`) and the OEM
  header and metadata tables;
- the hand-written `ParseOPM`: four consecutive loops over one line index
  (header, metadata, state vector, osculating Keplerian elements) and the
  anomaly check.

Modules, one per file:

- `Wrappers`: Option and Result.
- `GoStrings`: `strings.TrimSpace`, `Index`, `Contains`, `Split` and `Join`, with the `unicode.IsSpace` set.
- `GoStrconv`: `strconv.Atoi` on 64 bits, with `Itoa` as its inverse.
- `Kvn`: the lexer.
- `Timestamps`: `parseTime`.
- `Schema`: tags and flattening.
- `Decoder`: `populateODMFields`.
- `SharedTypes`, `Omm`, `Oem`: the message tables.
- `Opm`: `ParseOPM`.

Every loop of the Go code is a `method` with a `while` loop. Each one is
proved equal to a recursive specification function (`ParseIntoKVs` to
`Tokenize`, `PopulateFields` to `Decode`, `ReadHeader` to `HeaderFrom`, and
so on). The properties are lemmas about those functions.

Go's run-time panics are explicit results of the model:

- `Decoder.DecodeError.Panic` for an index past the last token or a `reflect.Append` of a string to a slice of structs;
- `Opm.OpmError.OutOfLines` for `lines[i]` past the last line;
- `Timestamps.TimeFault.Panic` for the `[:3]` and `[1]` slices of `parseTime`. Go slices strings by byte, so `[:3]` panics only when the text after the '-' has fewer than three bytes of UTF-8 (`GoStrings.ByteLength`).

A repeated group whose instance consumes no token would loop forever in Go; the model returns `Diverges` there.

Float parsing (`strconv.ParseFloat`) is not modelled. Every decoder takes it as a parameter `pr: string -> Option<real>`.

Strings are sequences of Unicode characters. Go measures them in UTF-8 bytes; the one place where the byte count shows, the `[:3]` slice of `parseTime`, uses the byte length.

## Model

| member | source | states |
|---|---|---|
| Kvn.DetectLineEnding | utils.go:20-31 | CRLF is chosen iff the text holds "\r\n"; "\n\r" iff it holds that and no "\r\n"; "\r" iff it holds a lone CR and neither pair; "\n" otherwise |
| Kvn.NoCarriageReturnMeansLF | utils.go:20-31 | a text without any carriage return is split on "\n" |
| Kvn.StripUnit | utils.go:79-87 | the value is shortened by its unit exactly when it ends in "]" and contains "[" |
| Kvn.StripUnitAtLastBracket | utils.go:80-84 | a value ending in "]" becomes the trimmed text before its last "[" |
| Kvn.StripUnitOnce | utils.go:80-84 | one unit is stripped, once: `v [unit]` gives back the trimmed value `v` even when `v` carries a unit of its own |
| Kvn.ParseLine | utils.go:62-88 | parseLine: the empty-line error is returned exactly for a line that is blank after trimming (its other properties are the ParseLine* lemmas below) |
| Kvn.ParseLineFails | utils.go:62-78 | a line is rejected iff it is blank after trimming, or is not a comment and has no '='; the error says which |
| Kvn.ParseLineKey | utils.go:62-88 | an accepted line's key is COMMENT or contains no '=' (the key ends at the first '=') |
| Kvn.ParseCommentLine | utils.go:66-69 | a trimmed line starting with COMMENT yields key COMMENT and the trimmed rest as value |
| Kvn.ParseKeyValueLine | utils.go:71-87 | a trimmed non-comment line splits at its first '=' into the trimmed key and the trimmed value without its unit |
| Kvn.ParseWrittenComment | utils.go:66-69 | a line written `COMMENT text` with trimmed text is read as a comment token carrying that text |
| Kvn.ParseWrittenKeyValue | utils.go:71-87 | a line written `KEY = value` with a trimmed key free of '=' and not starting with COMMENT is read as that key and the value without its unit |
| Kvn.ParseFormatLine | utils.go:62-88 | a token written as `KEY = value` is read back as the same token (inverse of writing) |
| Kvn.ParseFormatLineWithUnit | utils.go:79-87 | appending ` [unit]` to a written token does not change what is read |
| Kvn.NonEmpty | utils.go:46-50 | a line is kept iff it is non-empty; no more lines than given come out |
| Kvn.NonEmptyAppend | utils.go:46-50 | empty lines are dropped line by line: the kept lines of two runs of lines are those of the first followed by those of the second, so order is kept |
| Kvn.TokenizeWith | utils.go:46-59 | the loop's specification over lines: on success, one token per non-empty line |
| Kvn.Tokenize | utils.go:38-60 | parseIntoKVs: split the trimmed text on the ending detected in the raw text and tokenize; on success one token per non-empty line |
| Kvn.ParseIntoKVs | utils.go:38-60 | the lexer loop returns exactly `Tokenize` of the text |
| Kvn.TokenizeLines | utils.go:46-59 | the per-line loop skips empty lines, stops at the first line that does not parse, and otherwise returns one token per line: exactly `TokenizeWith` of the lines |
| Kvn.TokenizeShape | utils.go:38-60 | tokenizing succeeds iff every non-empty line parses, and then yields one token per non-empty line, in order |
| Kvn.TokenizeFirstError | utils.go:51-54 | a failure is the error of the first non-empty line that does not parse |
| Kvn.TokenizeFormatLines | utils.go:38-60 | writing tokens one per line joined by "\n" and tokenizing gives the tokens back |
| Kvn.LinesOfJoin | utils.go:41-45 | splitting a "\n"-joined text of plain lines on its detected ending gives the lines back |
| GoStrings.TrimSpaceTrimmed | utils.go:41 | the trimmed text neither starts nor ends with a Unicode space |
| GoStrings.TrimSpaceIdempotent | utils.go:63 | trimming twice is trimming once |
| GoStrings.SplitJoin | utils.go:45 | the pieces joined by the separator give back the text |
| GoStrings.SplitPiecesAvoidSeparator | utils.go:45 | no piece contains the separator |
| GoStrings.JoinSplit | utils.go:45 | splitting a join of separator-free pieces gives back the pieces |
| GoStrings.SplitCharCount | utils.go:98 | splitting on one character yields one more piece than there are occurrences of it |
| GoStrconv.Atoi | utils.go:99-106 | an accepted number is in the int64 range and is digits with an optional sign |
| GoStrconv.AtoiItoa | utils.go:269-276 | every int64 written in decimal is read back by Atoi |
| GoStrconv.AtoiNegative | utils.go:99-106 | a minus sign followed by digits is read as the negated decimal value |
| GoStrconv.AtoiZeroPadded | utils_test.go:149-154 | "0000123" is read as 123 and "0925" as 925 (leading zeros accepted) |
| GoStrings.ByteLength | utils.go:99 | Go's `len` of a string, its UTF-8 byte count: at least the number of characters and at most four times it |
| GoStrings.ByteLengthAscii | utils.go:99 | the byte count equals the number of characters iff every character is ASCII |
| Timestamps.OrdinalDateRange | utils.go:98-117 | a day of the year is accepted iff it is between 1 and 365, or 366 in a leap year |
| Timestamps.OrdinalDateSound | utils.go:98-117 | an accepted day of the year names a real month and day whose day of the year it is |
| Timestamps.OrdinalDateOfDayOfYear | utils.go:98-117 | the day of the year of any real date is converted back to that date |
| Timestamps.ParseTime | utils.go:96-123 | parseTime: only the ordinal branch (exactly one '-') can panic |
| Timestamps.ParseOrdinal | utils.go:98-117 | the ordinal branch: fewer than three UTF-8 bytes after the '-' panic; an accepted text has a year of at most four digits and a real month |
| Timestamps.AtoiFirstThreeBytesOfDigits | utils.go:99 | three characters that Atoi accepts are ASCII, so Atoi of the first three bytes reads exactly them |
| Timestamps.ParseTimeMultibyteDay | utils.go:98-102 | "2020-\u20AC" (a euro sign, three bytes) does not panic: Atoi refuses its bytes and parseTime returns an ordinary error |
| Timestamps.ParseTimeShortDay | utils.go:98-99 | "2020-06" has two bytes after the '-', so the `[:3]` slice panics |
| Timestamps.ParseRFC3339 | utils.go:119-122 | time.Parse with the RFC 3339 layout on a text ending in Z: an accepted text ends in Z and names a real month and day |
| Timestamps.ParseTimeValid | utils.go:96-123 | every instant parseTime returns has a real date and a clock below 24:00:00 with nanoseconds below one second |
| Timestamps.ParseClockFormat | utils.go:108-112 | a clock written `hh:mm:ss[.nnnnnnnnn]` is read back as itself |
| Timestamps.ParseFormatCalendar | utils.go:119-122 | an instant written in RFC 3339 with `Z` is read back as itself |
| Timestamps.ParseFormatCalendarWithoutZone | utils.go:119-121 | the same text without its `Z` is read as the same UTC instant |
| Timestamps.ParseTimeZoneOptional | utils.go:119-121 | for a calendar text without `Z`, parsing it equals parsing it with `Z` appended |
| Timestamps.ParseFormatOrdinal | utils.go:98-117 | an instant written as year, day of year and clock is read back as itself |
| Timestamps.ParseTimeCalendarExample | utils_test.go:130-134 | "2021-06-03T05:33:00.000" is 3 June 2021 05:33:00 UTC |
| Timestamps.ParseTimeOrdinalExample | utils_test.go:136-140 | "2020-065T16:00:00" is 5 March 2020 16:00:00 (2020 is a leap year) |
| Timestamps.ParseTimeFractionExample | utils_test.go:142-146 | "2020-064T10:34:41.4264" is 4 March 2020 10:34:41.4264 |
| Schema.OdmTagPlain | utils.go:309-326 | a tag without a comma is the name and the field is optional |
| Schema.OdmTagOption | utils.go:309-326 | in `name,opt...` the name is before the first comma and the field is required iff the option is `required` |
| Schema.ParseOdmTag | utils.go:309-326 | parseOdmTag: the name is never longer than the tag (its cases are OdmTagPlain and OdmTagOption) |
| Schema.GetOdmFields | utils.go:132-184 | the reflection walk returns exactly the flattening of the struct tree |
| Schema.Flatten | utils.go:131-184 | the specification of getODMFields: the fields' descriptors in declaration order, recursing into nested structs (properties in FlattenAppend, RepeatedOptional, TaggedLeaves) |
| Schema.FieldOdmFields | utils.go:138-179 | one field contributes: a time leaf or scalar its tag's descriptor (none if untagged), a nested struct its flattened fields, a slice of structs one optional group named after the field |
| Schema.FlattenAppend | utils.go:132-184 | flattening is per field and in declaration order |
| Schema.RepeatedOptional | utils.go:160-168 | no repeated group is ever a required descriptor |
| Schema.UntaggedLeaf | utils.go:170-174 | a field without an `odm` tag yields no descriptor |
| Schema.TaggedLeaves | utils.go:170-179 | a struct of tagged leaves flattens to one descriptor per field, with its tag's name and requiredness |
| Decoder.ReadComments | utils.go:287-291 | the comment loop returns `CommentRun`: it collects the values of the consecutive tokens with the name, and panics if they reach the end |
| Decoder.CommentRunSpec | utils.go:287-291 | the run panics iff every remaining token has the name; otherwise it stops at the first other key with exactly the skipped values |
| Decoder.ReadValue | utils.go:267-303 | reading one token for a scalar or comment descriptor returns `ReadField` |
| Decoder.ReadFieldFits | utils.go:267-303 | a value read has the descriptor's kind, and a scalar consumes exactly one token |
| Decoder.ReadInstance | utils.go:211-261 | one instance of a repeated group returns `DecodeInstance` |
| Decoder.ReadGroup | utils.go:202-265 | the repeated-group loop returns `RepeatGroup` |
| Decoder.PopulateFields | utils.go:187-307 | the decoder loop returns exactly `Decode` of the descriptors and tokens |
| Decoder.DecodeFrom | utils.go:187-307 | the main loop from descriptor i and cursor c: on success the cursor only moves forward and stays within the tokens |
| Decoder.Decode | utils.go:187-307 | populateODMFields from the first descriptor and token; on success the cursor stays within the tokens (its other properties are the Decode* lemmas) |
| Decoder.DecodeSound | utils.go:187-307 | every value written is at a descriptor index and has its kind, and every required scalar descriptor is written |
| Decoder.DecodeFindsRequired | utils.go:190-200 | a successful decode saw every required key, in descriptor order, among the token keys |
| Decoder.RequiredAbsentFails | utils.go:190-200 | if a required key is absent from the tokens, decoding fails |
| Decoder.DecodeMismatchAt | utils.go:196-199 | at any point of the pass, a required descriptor facing a token with another key fails with a mismatch naming both keys |
| Decoder.DecodeMissingAt | utils.go:189-194 | at any point of the pass, a required descriptor reached once the tokens are used up fails with the error naming its key |
| Decoder.SkipAbsentOptional | utils.go:196-200 | optional scalar descriptors whose key is not under the cursor are skipped without consuming a token |
| Decoder.OptionalAtEnd | utils.go:190-194 | with the tokens used up, trailing optional descriptors leave the result unchanged |
| Decoder.DecodeFromErrorNames | utils.go:190-200 | a missing-key or mismatch error names a required descriptor, and a mismatch names a different key that occurs among the remaining tokens |
| Decoder.RepeatGroupNotStructural | utils.go:211-224 | a repeated group never fails with a missing key or a mismatch: a key that does not fit ends it |
| Decoder.DecodeIgnoresTrailing | utils.go:187-307 | tokens after the point where decoding stopped do not change the result |
| Decoder.DecodeIntExample | utils.go:269-276 | an integer field "0925" decodes to 925 |
| Decoder.DecodeInstanceComplete | utils.go:211-224 | an instance completes only when every template field other than COMMENT was read; a field that does not match breaks out instead |
| Decoder.RepeatGroupComplete | utils.go:202-265 | only complete instances are appended; the group ends where the instance that broke out stopped, so the tokens that instance read stay consumed while its fields are dropped |
| Decoder.RepeatGroupExample | utils.go:202-265 | on the tokens A B COMMENT A B A X for the template (COMMENT, A, B): two instances, the second with its comment, and the cursor after the third A, whose value is dropped |
| SharedTypes.SpacecraftParametersSchema | shared_types.go:3-10 | the SpacecraftParameters struct flattens to its table of optional descriptors |
| SharedTypes.CovarianceMatrixSchema | shared_types.go:12-36 | the CovarianceMatrix struct flattens to its table of 23 descriptors: COMMENT, COV_REF_FRAME and the 21 entries of the lower triangle |
| SharedTypes.SharedBlocksOptional | shared_types.go:3-36 | no field of either shared block is required |
| Oem.OemHeaderSchema | oem.go:13-20 | the OEM header flattens to its table |
| Oem.OemMetaDataSchema | oem.go:22-36 | the OEM metadata flattens to its table |
| Oem.OemSchema | oem.go:5-11 | an OEM is decoded header then metadata; the data block and Raw give nothing |
| Oem.OemHeaderRequired | oem.go:13-20 | the required header keys are the version, creation date and originator |
| Oem.OemMetaDataRequired | oem.go:22-36 | the required metadata keys are object name and id, centre, frame, time system, start and stop time |
| Oem.OemRequired | oem.go:13-36 | the required OEM keys are the version, creation date and originator, then object name and id, centre, frame, time system, start and stop time |
| Omm.OmmHeaderSchema | omm.go:55-62 | the OMM header flattens to its table |
| Omm.OmmMetaDataSchema | omm.go:64-73 | the OMM metadata flattens to its table |
| Omm.MeanKeplerianElementsSchema | omm.go:84-95 | the mean elements flatten to their table |
| Omm.TleRelatedParametersSchema | omm.go:98-110 | the TLE parameters flatten to their table |
| Omm.OmmDataSchema | omm.go:76-82 | the data blocks come in declaration order, and the user-defined map contributes nothing |
| Omm.OmmSchema | omm.go:47-53 | an OMM is decoded as header, metadata, mean elements, spacecraft, TLE, covariance |
| Omm.OmmHeaderRequired | omm.go:55-62 | the required header keys are the version, creation date and originator |
| Omm.OmmMetaDataRequired | omm.go:64-73 | the required metadata keys are object name and id, centre, frame and time system |
| Omm.MeanKeplerianElementsRequired | omm.go:84-95 | the required mean elements are the epoch, eccentricity, inclination, right ascension, argument of pericentre and mean anomaly; the semi-major axis, mean motion and GM are optional |
| Omm.OmmOptionalBlocks | omm.go:98-110 | the spacecraft, TLE and covariance blocks require nothing |
| Omm.OmmRequired | omm.go:55-95 | the required descriptors are exactly the fourteen mandatory OMM keys, in order |
| Omm.CollectUserDefined | omm.go:20-27 | the user-defined loop returns `UserDefined` of the tokens |
| Omm.UserDefined | omm.go:20-27 | the specification of the user-defined loop: every key of the map starts with USER_DEFINED_ (the full content is stated by UserDefinedSpec) |
| Omm.UserDefinedSpec | omm.go:20-27 | the map exists iff some key starts with USER_DEFINED_; it holds exactly such keys of the tokens, each with the value of its last occurrence |
| Omm.ParseOmm | omm.go:8-44 | ParseOMM returns `OmmParse`: lex, collect user-defined keys, decode the OMM descriptors |
| Omm.OmmParse | omm.go:8-44 | ParseOMM as a function: lex, collect the user-defined keys, decode the OMM descriptors (its properties are the Omm* lemmas) |
| Omm.OmmCarriesRequired | omm.go:8-44 | an accepted OMM has all fourteen mandatory keys among its tokens, in order |
| Omm.OmmMissingRequired | omm.go:8-44 | an OMM text lacking any mandatory key is rejected |
| Omm.OmmValuesTyped | omm.go:29-38 | every decoded OMM value has its field's kind, and every required scalar field is set |
| Omm.OmmUserDefinedFirst | omm.go:20-38 | a message that starts with a USER_DEFINED_ token is rejected: the decoder expects CCSDS_OMM_VERS first |
| Omm.OmmUserDefinedAtRequired | omm.go:20-38 | a USER_DEFINED_ token under the cursor where any mandatory OMM key is due makes the decode fail with a mismatch naming both keys |
| Opm.RemoveEmptyLines | opm.go:17-22 | the in-place removal loop returns the non-empty lines in order |
| Opm.OpmLines | opm.go:12-22 | the lines of an OPM: the trimmed text split on its detected ending; none of them is empty |
| Opm.ParseZulu | opm.go:52-55 | a time value gets a Z appended when it holds none and is read as RFC 3339; what it accepts is a real date |
| Kvn.NonEmptyAll | opm.go:17-22 | removing empty lines from lines that have none changes nothing, so the OPM loops' own empty-line test never fires |
| Opm.HeaderFrom | opm.go:30-74 | the header loop only moves the line index forward and stays within the lines |
| Opm.ReadHeader | opm.go:30-74 | the header loop returns `HeaderFrom` |
| Opm.HeaderStops | opm.go:64-70 | the header ends on a line with MESSAGE_ID (if the text mentions it) or else ORIGINATOR with a non-empty value, which the header keeps |
| Opm.HeaderComments | opm.go:46-47 | the header comments are those of the lines it read, in order |
| Opm.HeaderNeedsStop | opm.go:32-33 | without such a stop line the header fails (runs off the lines or hits an error) |
| Opm.LastReadAbsent | opm.go:44-63 | a field whose key no line read carries keeps the value it had |
| Opm.LastReadIsLast | opm.go:44-63 | otherwise the field holds the reading of the last line with its key: a repeated key overwrites the earlier value |
| Opm.HeaderFieldSets | opm.go:44-63 | the header switch stores CCSDS_OPM_VERS, CLASSIFICATION, ORIGINATOR and MESSAGE_ID as they are and CREATION_DATE parsed, each in its own field; any other key except COMMENT leaves the header unchanged |
| Opm.HeaderLast | opm.go:32-71 | each of those header fields ends up with the value of the last line with its key that the header loop read, or its earlier value when there was none |
| Opm.ReadMetaData | opm.go:77-117 | the metadata loop returns `MetaDataFrom` |
| Opm.MetaDataStops | opm.go:110-116 | the metadata ends on the first TIME_SYSTEM line with a value, which it keeps |
| Opm.MetaDataComments | opm.go:92-93 | the metadata comments are those of the lines it read, in order |
| Opm.MetaDataNeedsStop | opm.go:78-80 | without a filled TIME_SYSTEM line the metadata fails |
| Opm.MetaDataFieldSets | opm.go:91-112 | the metadata switch stores OBJECT_NAME, OBJECT_ID, CENTER_NAME, REF_FRAME and TIME_SYSTEM as they are and REF_FRAME_EPOCH parsed; any other key except COMMENT leaves the metadata unchanged |
| Opm.MetaDataLast | opm.go:78-117 | each of those metadata fields ends up with the value of the last line with its key that the metadata loop read, or its earlier value |
| Opm.ReadStateVector | opm.go:123-186 | the state-vector loop returns `StateVectorFrom` |
| Opm.StateVectorStops | opm.go:175-185 | the state vector ends on the first Z_DOT line, whose parsed value is its Z_DOT |
| Opm.StateVectorComments | opm.go:123-186 | the state-vector comments are those of the lines it read, in order |
| Opm.StateVectorNeedsStop | opm.go:124-126 | without a Z_DOT line the state vector fails |
| Opm.StateVectorFieldSets | opm.go:137-181 | the state-vector switch stores the parsed X, Y, Z, X_DOT, Y_DOT, Z_DOT and EPOCH in their own fields; any other key except COMMENT leaves the state vector unchanged |
| Opm.StateVectorLast | opm.go:123-185 | each component and the epoch end up with the parsed value of the last line with their key that the state-vector loop read, or their earlier value |
| Opm.ReadKeplerian | opm.go:191-255 | the osculating-elements loop returns `KeplerianFrom` |
| Opm.KeplerianStops | opm.go:244-254 | the elements end on the first GM line, whose parsed value is their GM |
| Opm.KeplerianComments | opm.go:191-255 | the elements' comments are those of the lines read, in order |
| Opm.KeplerianNeedsStop | opm.go:193-195 | without a GM line the elements fail |
| Opm.KeplerianFieldSets | opm.go:206-250 | the Keplerian switch stores each of the eight parsed elements in its own field; any other key except COMMENT leaves the elements unchanged |
| Opm.KeplerianLast | opm.go:193-255 | each element ends up with the parsed value of the last line with its key that the Keplerian loop read, or its earlier value |
| Opm.KeplerianSectionRule | opm.go:189-262 | the elements are empty when the text never mentions SEMI_MAJOR_AXIS; otherwise they are refused iff both anomalies are non-zero |
| Opm.ParseOpm | opm.go:10-265 | ParseOPM returns `OpmParse` |
| Opm.OpmParse | opm.go:10-265 | ParseOPM as a function: header, metadata, state vector and Keplerian section in turn over one line index (its properties are OpmAccepted and OpmSectionOrder) |
| Opm.OpmAccepted | opm.go:10-265 | an accepted OPM has Raw equal to the trimmed text, a filled header stop key, a TIME_SYSTEM, at most one non-zero anomaly, and empty elements unless SEMI_MAJOR_AXIS appears |
| Opm.OpmSectionOrder | opm.go:30-186 | the header stop line, the TIME_SYSTEM line and the Z_DOT line occur in that order among the non-empty lines |

## Left out

- Go reflection is not modelled as such. A struct is a tree of `Schema.GoField` values, and the decoder writes a `map<nat, Value>` from descriptor index to value. An absent index stands for Go's zero value.
- `strconv.ParseFloat` (utils.go:91-93, opm.go:267-269) is a parameter `pr` of every decoder. The model does not capture the float grammar or rounding. Its results are `real` numbers, so the NaN and infinite values that ParseFloat returns without error for "NaN", "Inf" or "+Infinity" have no counterpart: a field written `INCLINATION = NaN`, which Go stores, is outside what `pr` can return.
- `time.Time` is a calendar record (`Timestamps.Instant`), always in UTC. Time zones, offsets in RFC 3339 text, and monotonic readings are left out. An offset can never be reached here anyway: `parseTime` appends a `Z` only when the text has none.
- Error messages (`errors.Wrapf` text) are reduced to the error kinds of the model. The diagnostic `println` calls are left out.
- The `json` and `xml` struct tags, and the struct fields `ParseOMM` and `ParseOPM` never fill (OPM spacecraft parameters, covariance and maneuvers, and OEM ephemeris data lines), appear only as descriptors or are left out. The OEM has no parser in the repository; only its tables are modelled.
- The second copies of `SpacecraftParameters` and `CovarianceMatrix` in opm.go:394-483 are left out. `ParseOPM` never reads them, and the tables in shared_types.go are modelled.
- `Omm.ParseOmm` leaves `Raw` empty, as `ParseOMM` does.
- The OPM loop methods take the line parser as a parameter, and `ParseOpm` passes `Kvn.ParseLine`. This keeps their proofs small; the behaviour is the same.
- `Decoder.DecodeError.Diverges` stands for the infinite loop of a repeated group whose instance consumes no token. The model returns an error where Go would hang.
- utils.go has no rule that re-attaches comments to the following repeated record: a COMMENT token is read only where a comment descriptor is visited, and the model does the same.
- The example messages in omm_test.go and opm_test.go are not reproduced. Only the integer and timestamp cases of utils_test.go are stated as lemmas.

# Sett details: validation and upsert of one badger-sett record

This project models the sett-details form handler of the standard-forestry-operations
licensing application, `src/controllers/sett-details.js`.
A surveyor submits one sett, a badger burrow, with four fields:
- an id;
- a grid reference;
- a type from 1 to 4;
- a count of entrances.

The handler runs four validators over these fields and records one error flag per field, plus their OR, in the user's session.

- **Any field invalid.** The handler echoes the input back into the session for the form to show again: the id and the grid reference trimmed (the grid reference not normalised), the type parsed and the entrance count as sent. It returns `Error`.
- **All fields valid.** The handler builds the sett from the parsed and normalised values. With `currentSettIndex == -1` it appends the sett to `session.setts`, creating the list if needed, and clears `settCountError`. Otherwise it overwrites the sett being edited. It returns `Positive`.

There are three files:
- `wrappers.dfy` defines `Option`. `None` stands for an undefined form field and for the NaN of `Number.parseInt`.
- `js_text.dfy` (module `JsText`) models the JavaScript built-ins the handler relies on:
  - `String.prototype.trim`, with the full ECMAScript WhiteSpace and LineTerminator set;
  - `toUpperCase`, restricted to ASCII letters;
  - `Number.parseInt(s, 10)`: leading whitespace, an optional sign, the longest run of digits, trailing text ignored;
  - `String(v)` for integers, which the controller does not call; it is there to state that `parseInt` reads back every decimal integer.
- `sett_details.dfy` (module `SettDetails`) holds the rest:
  - the validators and `formatGridReference`, as functions with lemmas;
  - the regular expression `/^[A-Z]{2}\d{8,}$/`, as a predicate connected to a declarative definition of a grid reference;
  - the session, as a class whose methods assign its fields.

The handler method `SubmitSettDetails` is tied to two specification functions of the old state and the body: `ParsedSett` and `Upserted`. Lemmas about those functions state the properties of the list: length, position and untouched neighbours, and preservation of well-formedness.

## Model

| member | source | states |
|---|---|---|
| JsText.Trim | src/controllers/sett-details.js:8 | `s.trim()`, as the text between its leading and its trailing whitespace; it has no ensures of its own and is specified by TrimStripsWhiteSpace, TrimKeepsMiddle and TrimIdempotent |
| JsText.TrimStripsWhiteSpace | src/controllers/sett-details.js:8 | `trim` gives the empty string exactly when the text is blank; otherwise the result starts and ends with a non-whitespace character |
| JsText.TrimKeepsMiddle | src/controllers/sett-details.js:8 | the trimmed text is a contiguous part of the input whose surroundings on both sides are all whitespace |
| JsText.TrimSplitEnds | src/controllers/sett-details.js:8 | what `trim` removes at either end is whitespace |
| JsText.TrimSplitBlank | src/controllers/sett-details.js:8 | nothing is left between the removed ends exactly when the text is blank |
| JsText.TrimIdempotent | src/controllers/sett-details.js:8 | trimming twice is trimming once |
| JsText.ToUpper | src/controllers/sett-details.js:24 | `toUpperCase` on one character, ASCII letters only; no ensures of its own, its effect on the normaliser is stated by FormatGridReferenceOfChar |
| JsText.ToUpperCase | src/controllers/sett-details.js:24 | upper-casing keeps the length of the text |
| JsText.ParseInt | src/controllers/sett-details.js:58 | `Number.parseInt(v, 10)`, with an absent value read as the text "undefined" and NaN as `None`; no ensures of its own, specified by ParseIntReadsLeadingInteger, ParseIntFindsNoInteger, ParseIntOfUndefinedText and ParseIntInvertsIntToString |
| JsText.ParseSigned | src/controllers/sett-details.js:83 | the part of `parseInt` after the leading whitespace: an optional sign, then at least one digit; no ensures of its own, specified by ParseSignedReadsDigits and the ParseInt lemmas |
| JsText.ParseSignedReadsDigits | src/controllers/sett-details.js:83 | after the whitespace, an optional sign followed by a run of digits yields the value of that run, negated after a minus sign |
| JsText.ParseIntReadsLeadingInteger | src/controllers/sett-details.js:58 | whatever whitespace, sign and trailing text surround it, `parseInt(s, 10)` yields exactly the value of the first run of digits, negated after a minus sign |
| JsText.ParseIntFindsNoInteger | src/controllers/sett-details.js:58-59 | when no digit follows the leading whitespace and optional sign, `parseInt` yields NaN |
| JsText.ParseIntOfUndefinedText | src/controllers/sett-details.js:58 | `parseInt(undefined)` reads the text "undefined" and yields NaN, the same as an absent value |
| JsText.ParseIntOfBlank | src/controllers/sett-details.js:79-84 | blank text has no leading integer |
| JsText.ParseIntInvertsIntToString | src/controllers/sett-details.js:83 | `parseInt` reads back every integer written in decimal, negatives included |
| JsText.DecimalValueOfDecimalString | src/controllers/sett-details.js:83 | the decimal digits of `n` denote `n` |
| SettDetails.ValidSettId | src/controllers/sett-details.js:3-13 | `validSettId`: absent gives false, blank after trimming gives false, otherwise true; no ensures of its own, specified by ValidSettIdMeansNotBlank |
| SettDetails.ValidSettIdMeansNotBlank | src/controllers/sett-details.js:3-13 | the id check passes exactly when the id was sent and holds a non-whitespace character |
| SettDetails.KeepGridChars | src/controllers/sett-details.js:24 | `replace(/[^A-Z\d]/g, '')`; no ensures of its own, specified by KeepGridCharsIsClean, KeepGridCharsOfClean, KeepGridCharsOfNoise and KeepGridCharsConcat |
| SettDetails.FormatGridReference | src/controllers/sett-details.js:23-25 | `formatGridReference`: upper-case, then filter; no ensures of its own, specified by FormatGridReferenceIsClean, FormatGridReferenceIdempotent, FormatGridReferenceOfChar and FormatGridReferenceExample |
| SettDetails.KeepGridCharsIsClean | src/controllers/sett-details.js:24 | what `replace(/[^A-Z\d]/g, '')` leaves holds only `A-Z` and `0-9` and is no longer than its input |
| SettDetails.FormatGridReferenceIsClean | src/controllers/sett-details.js:23-25 | a normalised grid reference holds only `A-Z` and `0-9` and is no longer than the input |
| SettDetails.KeepGridCharsConcat | src/controllers/sett-details.js:24 | the filter distributes over concatenation |
| SettDetails.FormatGridReferenceConcat | src/controllers/sett-details.js:23-25 | normalising distributes over concatenation |
| SettDetails.FormatGridReferenceOfChar | src/controllers/sett-details.js:23-25 | upper-case letters and digits are kept, lower-case ASCII letters are upper-cased, and every other character is dropped |
| SettDetails.KeepGridCharsOfClean | src/controllers/sett-details.js:24 | the filter leaves text made only of grid characters unchanged |
| SettDetails.KeepGridCharsOfNoise | src/controllers/sett-details.js:24 | the filter removes text without grid characters entirely |
| SettDetails.FormatGridReferenceOfCapitals | src/controllers/sett-details.js:23-25 | on text without lower-case letters, normalising is only the filter |
| SettDetails.FormatGridReferenceIdempotent | src/controllers/sett-details.js:23-25 | normalising twice is normalising once |
| SettDetails.KeepGridCharsExample | src/controllers/sett-details.js:18 | the filter maps `-NH_6400 4800__` to `NH64004800` |
| SettDetails.FormatGridReferenceExample | src/controllers/sett-details.js:15-25 | `formatGridReference('-NH_6400 4800__')` is `'NH64004800'`, the example in the function's comment |
| SettDetails.MatchesGridPattern | src/controllers/sett-details.js:54 | `/^[A-Z]{2}\d{8,}$/.test(f)`; no ensures of its own, connected to the declarative IsGridReference by ValidGridReferenceMeansWellFormed |
| SettDetails.ValidGridReference | src/controllers/sett-details.js:36-55 | `validGridReference`: absent gives false, odd normalised length gives false, otherwise the pattern decides; no ensures of its own, specified by ValidGridReferenceMeansWellFormed and the ValidGridReference lemmas below |
| SettDetails.ValidGridReferenceMeansWellFormed | src/controllers/sett-details.js:36-55 | the reference check passes exactly when the reference was sent and its normalised form is two letters followed by an even number, at least eight, of digits (the length test and the pattern together) |
| SettDetails.ValidGridReferenceRejectsOddLength | src/controllers/sett-details.js:48-50 | an odd-length normalised form is always rejected |
| SettDetails.ValidGridReferenceDigitCount | src/controllers/sett-details.js:45-54 | an accepted reference normalises to at least ten characters: two letters, then only digits, and an even count of them |
| SettDetails.ValidGridReferenceOfFormatted | src/controllers/sett-details.js:43 | normalising before the check does not change the verdict |
| SettDetails.ValidGridReferenceOfClean | src/controllers/sett-details.js:36-55 | text already in normalised form is accepted exactly when it is two letters and an even number, at least eight, of digits |
| SettDetails.ValidGridReferenceAcceptsExample | src/controllers/sett-details.js:36-55 | `-NH_6400 4800__` is accepted |
| SettDetails.ValidGridReferenceRejectsTooShort | src/controllers/sett-details.js:45-54 | whatever normalises to fewer than ten characters is rejected |
| SettDetails.ValidGridReferenceRejectsShortExamples | src/controllers/sett-details.js:54 | `NH640480` (six digits) and `AB1234` (four digits) are rejected |
| SettDetails.ValidGridReferenceRejectsOddExample | src/controllers/sett-details.js:38-50 | an absent reference and `NH6404801` (odd count of digits) are rejected |
| SettDetails.ValidSettType | src/controllers/sett-details.js:57-72 | `validSettType`: NaN gives false, below 1 or above 4 gives false, otherwise true; no ensures of its own, specified by ValidSettTypeOfLeadingInteger and ValidSettTypeRejectsNoInteger |
| SettDetails.ValidSettTypeRejectsNoInteger | src/controllers/sett-details.js:57-62 | an absent type, and every text with no digit after its leading whitespace and optional sign, are rejected; with ValidSettTypeOfLeadingInteger this decides every text |
| SettDetails.ValidSettTypeOfLeadingInteger | src/controllers/sett-details.js:57-72 | with the leading integer written out, the type is accepted exactly when there is no minus sign and the digits denote 1 to 4; whitespace before and text after do not matter |
| SettDetails.ValidSettTypeOfDigit | src/controllers/sett-details.js:57-72 | a one-digit type is accepted exactly when the digit is 1, 2, 3 or 4, so "0" and "5" are rejected and "3" accepted |
| SettDetails.ValidEntrances | src/controllers/sett-details.js:74-89 | `validEntrances`: absent gives false, blank after trimming gives false, otherwise whether `parseInt` finds an integer; no ensures of its own, specified by ValidEntrancesMeansInteger and the ValidEntrances lemmas below |
| SettDetails.ValidEntrancesMeansInteger | src/controllers/sett-details.js:74-89 | the entrance check passes exactly when `parseInt` finds an integer; the blank test rejects nothing more |
| SettDetails.ValidEntrancesRejects | src/controllers/sett-details.js:75-81 | absent and blank counts are rejected |
| SettDetails.ValidEntrancesRejectsNonNumeric | src/controllers/sett-details.js:83-86 | a count starting with something other than whitespace, a sign or a digit is rejected |
| SettDetails.ValidEntrancesAcceptsEveryInteger | src/controllers/sett-details.js:83-88 | every integer written in decimal is accepted, including 0 and negatives: there is no range check |
| SettDetails.ValidSubmission | src/controllers/sett-details.js:97-101 | the negation of the OR of the four error flags: all four validators accept; no ensures of its own, SubmitSettDetails states `settDetailsError == !ValidSubmission(body)` |
| SettDetails.ParsedSett | src/controllers/sett-details.js:114-119 | the sett the handler builds: trimmed id, parsed type, normalised grid reference, parsed entrance count; no ensures of its own, specified by ParsedSettIsWellFormed |
| SettDetails.ParsedSettIsWellFormed | src/controllers/sett-details.js:114-119 | the sett built from a valid submission has a trimmed non-empty id, a type in 1..4 and a normalised grid reference in two-letters-plus-even-digits form; its type and entrance count are what `parseInt` reads from the fields |
| SettDetails.StoredSetts | src/controllers/sett-details.js:121-123 | the stored list, with a missing one read as empty; no ensures of its own, used by Upserted and UpsertedAppends |
| SettDetails.Upserted | src/controllers/sett-details.js:113-137 | the list after recording a sett: appended on index -1, written at the index otherwise; no ensures of its own, specified by UpsertedAppends, UpsertedOverwrites and UpsertedKeepsWellFormed |
| SettDetails.UpsertedAppends | src/controllers/sett-details.js:121-125 | appending (index -1) to a list, missing or not, grows it by one; the new sett is last and the earlier ones are unchanged |
| SettDetails.UpsertedOverwrites | src/controllers/sett-details.js:128-136 | overwriting at an existing index keeps the length, puts the new sett at that index and changes no other element |
| SettDetails.UpsertedKeepsWellFormed | src/controllers/sett-details.js:113-137 | recording a well-formed sett keeps every stored sett well formed |
| SettDetails.SubmissionKeepsWellFormed | src/controllers/sett-details.js:113-137 | an accepted submission leaves only well-formed setts in a session that held only well-formed ones |
| SettDetails.Session.constructor | src/controllers/sett-details.js:91-140 | the `Session` class holds the session fields the handler reads and writes (the four echo fields, the five error flags, `settCountError`, `currentSettIndex`, `setts`); the constructor starts with the given edit index and list, every flag cleared and nothing echoed |
| SettDetails.Session.SubmitSettDetails | src/controllers/sett-details.js:91-140 | each error flag is the negation of its validator, and the aggregate flag is their OR, set exactly when the submission is invalid. An invalid submission returns `Error` and leaves the list and `settCountError` unchanged. It stores the trimmed id, the parsed type, the trimmed but not normalised grid reference and the raw entrance count. A valid submission returns `Positive` and leaves those four echo fields untouched. It makes the list `Upserted(old list, index, ParsedSett(body))` and clears `settCountError` exactly when it appends. The edit index never changes |
| SettDetails.Session.RecordVerdicts | src/controllers/sett-details.js:92-101 | the four per-field flags are the negated validators and the aggregate flag is their OR; no other field changes |
| SettDetails.Session.Respond | src/controllers/sett-details.js:103-139 | on the error flag: echo and `Error`; otherwise: upsert and `Positive` |
| SettDetails.Session.EchoInput | src/controllers/sett-details.js:104-108 | the echo fields receive the trimmed id, the parsed type, the trimmed grid reference and the raw entrance count |
| SettDetails.Session.AppendSett | src/controllers/sett-details.js:113-126 | a missing list becomes empty, then the parsed sett is appended and `settCountError` is cleared |
| SettDetails.Session.OverwriteSett | src/controllers/sett-details.js:127-137 | the four fields of the edited sett are overwritten with the parsed values, so that element becomes the parsed sett |

## Left out

- The HTTP framework, the request object and the session middleware are not modelled. The session is a class, and the body is a record of optional strings. Form values that are not strings, such as arrays from repeated keys, are not modelled.
- `ReturnState` from `./_base.js` is not part of this model. It is modelled as the datatype `Error | Positive`.
- JsText.ToUpperCase: only `a`-`z` are mapped. Full Unicode case mapping can change the length of the text (`ß` becomes `SS`). The few non-ASCII characters whose upper case is an ASCII letter are dropped by the model, while the source keeps that letter: dotless `ı` becomes `I`, long `ſ` becomes `S`, and ligatures such as `ﬁ` become `FI`.
- Text is a sequence of Unicode scalar values, not UTF-16 code units, so lone surrogates are not represented.
- JsText.ParseInt: values are mathematical integers. JavaScript `Number` precision is not modelled: digit runs beyond 2^53 round, and very long runs become `Infinity`. `-0` is read as 0.
- SettDetails.Session.SubmitSettDetails: the crash paths of the source are preconditions, not exceptions.
  - The error branch calls `.trim()` on the id and the grid reference. A missing one of either makes the submission invalid, so the handler throws a `TypeError` whenever one is absent. The method therefore requires both.
  - The update branch writes to `setts[currentSettIndex]` without a check. The method requires the list to exist and the index to lie inside it whenever a valid submission reaches that branch.
- The `Array.isArray` test on `session.setts` is modelled as the `None` case. A stored value that is something other than an array is not modelled.
- Stored setts are values. Overwriting the four properties of the edited sett replaces that element. Other properties the stored object may carry, and other references to it, are not modelled.
- The `g` flag of the regular expression carries no state here: the literal is created afresh on every call, so `lastIndex` always starts at 0 and the pattern is a pure predicate.

# J1939-Utils identifier core in Dafny

This project models the core of J1939-Utils, a set of Python tools for SAE J1939 traffic
recorded by `candump`:

- `messages/j1939id.py`, the class `J1939ID`. It holds a CAN arbitration identifier as a bit
  array, most significant bit first. A classical base frame (CBFF) has 11 bits and an
  extended frame (CEFF) has 29. The class reads and writes the J1939-21 fields of the
  identifier (priority, edp, dp, pf, ps, sa), derives the destination address, the PDU type
  and the parameter group number (pgn), and renders the identifier as hex, as binary text
  and as a dict.
- `graph_log.py`:
  - `seperate_by_address` files every record's `HEX#data` line under
    `str(sa)` → `str(da)` → `str(pgn)`.
  - `get_names` collects the address-claim (NAME, pgn 60928) lines by `str(sa)`.
- `get_pgns.py`: `PGN_Filter` yields the lines of the records whose `str(pgn)` is in a list
  of interest.

Layout:

- `wrappers.dfy`: `Option`, `Result` and `Outcome`.
- `bits.dfy`: bit sequences and their values: `int2ba`, `ba2int`, slice reads and writes,
  `fill`, `to01`.
- `text.dfy`: `int(s, 16)`, `ba2hex` plus `upper()`, and `str(n)`.
- `j1939id.dfy`:
  - The getters, `hex`, `bin` and `dict` are functions of the state `IdState(canId, cbff)`.
  - The class `J1939ID` has the two attributes as fields, and its setters are methods that
    write slices of the bit array in place.
  - Every exception of the source is an `Error` value: `MalformedHex`, `OutOfRange`,
    `TooLong` or `Overflow`.
- `messages.dfy`:
  - The log record, its `HEX#data` line and its three string keys.
  - `Select`: keep the records a test accepts, in input order. All three loops share this
    shape.
- `graph_log.dfy`:
  - The two loops are methods, proved equal to declarative descriptions of their results.
    `Grouped` is a nested map comprehension; `NamesBySrc` is a grouping of the NAME records.
  - Lemmas about those descriptions.
- `get_pgns.dfy`: `PGN_Filter` as a value (its constructor only stores its two arguments),
  with iteration as a function of it.

## Model

| member | source | states |
|---|---|---|
| J1939Id.Init | messages/j1939id.py:17-37 | Always gives an identifier whose bit array has the width of its format. An empty text gives all zeros at the width of the `cbff` argument. Text `int(s, 16)` rejects is `MalformedHex`. A value over 0x1FFFFFFF is `OutOfRange`. Otherwise the bits hold the value, and the identifier is CBFF exactly when the text has at most 4 characters and a value of at most 0x7FF. This is the corrected flag; see Findings. |
| J1939Id.InitAsWritten | messages/j1939id.py:17-37 | The constructor as written: a non-empty text that does not select CBFF gets 29 bits but keeps the `cbff` flag it was given |
| J1939Id.FormatClash | messages/j1939id.py:18-37 | `J1939ID("18EEFF00", cbff=True)` as written is a 29-bit array flagged CBFF, so not well formed; the corrected constructor gives a well-formed CEFF identifier |
| J1939Id.InitAgreesAsWritten | messages/j1939id.py:17-37 | Outside that clash the corrected and the as-written constructor agree on every input |
| J1939Id.FormatSelectionExamples | messages/j1939id.py:27-37 | `"7FF"` is CBFF; `"000007FF"` and `"0x7FF"` are CEFF (too long for the CBFF test); `"20000000"` is out of range; `"18EEFF0G"` is malformed |
| J1939Id.NamePgnExample | messages/j1939id.py:225-246 | `"18EEFF00"` has priority 6, pgn 60928, PDU type 1, destination 0xFF and source 0 |
| J1939Id.Priority | messages/j1939id.py:70-77 | The first three bits, a value below 8, in either format |
| J1939Id.Edp | messages/j1939id.py:88-96 | `None` exactly for CBFF; otherwise a single bit |
| J1939Id.Dp | messages/j1939id.py:108-116 | `None` exactly for CBFF; otherwise a single bit |
| J1939Id.Pf | messages/j1939id.py:128-136 | `None` exactly for CBFF; otherwise a byte |
| J1939Id.Ps | messages/j1939id.py:148-156 | `None` exactly for CBFF; otherwise a byte |
| J1939Id.Sa | messages/j1939id.py:168-179 | A byte in both formats |
| J1939Id.Type | messages/j1939id.py:325-336 | `None` exactly for CBFF; type 1 exactly when pf < 240, type 2 exactly when pf >= 240 |
| J1939Id.Da | messages/j1939id.py:192-205 | `None` exactly for CBFF; ps for PDU type 1; the global address 255 for type 2 |
| J1939Id.PgnOf | messages/j1939id.py:225-246 | The J1939-21 pgn is below 2^18. Its high part is edp·512 + dp·256 + pf. Its low byte is zero when pf < 240. |
| J1939Id.Pgn | messages/j1939id.py:225-246 | `None` exactly for CBFF; otherwise the 24-bit assembly of edp, dp, pf and (type 2 only) ps is `PgnOf` of the fields |
| J1939Id.PgnOfDigits | messages/j1939id.py:225-246 | edp, dp and pf can be read back from the pgn, and so can ps when pf >= 240; the low byte is 0 otherwise |
| J1939Id.CeffFields | messages/j1939id.py:70-190 | On a CEFF identifier the getters read 3 bits of priority, edp, dp, and the pf, ps and sa bytes of the raw value |
| J1939Id.CbffFields | messages/j1939id.py:168-190 | On a CBFF identifier, priority is the top 3 bits and sa the low byte; pgn, da and type are `None` |
| J1939Id.Hex | messages/j1939id.py:298-312 | 4 characters for CBFF and 8 for CEFF, upper-case hex digits only, and `int(hex, 16)` is the identifier's value |
| J1939Id.HexRoundTrip | messages/j1939id.py:298-312 | `J1939ID(x.hex)` rebuilds x, bits and format both |
| J1939Id.HexInjective | messages/j1939id.py:298-312 | Two identifiers have the same `hex` exactly when they are equal |
| J1939Id.Bin | messages/j1939id.py:289-296 | Length 11 or 29 by format, only '0' and '1', and `int(bin, 2)` is the identifier's value |
| J1939Id.DictEntry | messages/j1939id.py:265-287 | The seven CEFF-only keys are `None` exactly for CBFF; `can_id`, `priority`, `sa` and `id_type` never are |
| J1939Id.Dict | messages/j1939id.py:265-287 | The ten getter keys, plus `id_type` exactly for CBFF, each holding its getter's value |
| J1939Id.AssignCanId | messages/j1939id.py:48-68 | A leading `0x` is dropped. More than 8 characters left is `TooLong`; non-hex is `MalformedHex`; a value too wide for the current format is `Overflow`. Otherwise the bits hold the value and the format is kept. |
| J1939Id.CanIdSetterRoundTrip | messages/j1939id.py:48-68 | `x.can_id = x.hex` leaves x unchanged |
| J1939Id.WritePgnBits | messages/j1939id.py:248-261 | The pgn setter keeps 29 bits and leaves priority (bits 0..3) and sa (bits 21..29) alone |
| J1939Id.PgnSliceWrites | messages/j1939id.py:256-261 | The four slice writes together put bits 6..24 of `int2ba(value, 24)` over bits 3..21 |
| J1939Id.PgnWriteFields | messages/j1939id.py:248-261 | After `pgn = value`, edp, dp, pf and ps are bits 17, 16, 8..16 and 0..8 of the value; priority and sa are unchanged |
| J1939Id.PgnReadBack | messages/j1939id.py:225-261 | What the pgn getter gives after `pgn = value` is below 2^18 |
| J1939Id.PgnSetGet | messages/j1939id.py:225-261 | Reading the pgn after `pgn = value` gives `PgnReadBack(value)` |
| J1939Id.PgnDigits | messages/j1939id.py:225-261 | `PgnOf` of the value's bits 17, 16, 8..16 and 0..8 is `PgnReadBack(value)` |
| J1939Id.ReadBackIdentity | messages/j1939id.py:225-261 | `PgnReadBack(v) == v` exactly when v < 2^18 and, if v's pf byte is below 240, v's low byte is 0 |
| J1939Id.PgnRoundTrip | messages/j1939id.py:225-261 | The pgn reads back as written exactly on those values |
| J1939Id.PgnSelfAssign | messages/j1939id.py:225-261 | `x.pgn = x.pgn` keeps every field of a type 2 identifier, but zeroes ps (the destination) of a type 1 identifier |
| J1939Id.DaWrite | messages/j1939id.py:207-223 | Writing ps through `da` keeps the PDU type. For type 1 it sets da and keeps the pgn. For type 2 da stays 255 and the pgn moves by new ps minus old ps. |
| J1939Id.J1939ID.New | messages/j1939id.py:17-37 | The object holds `Init`'s state, or the call returns `Init`'s error |
| J1939Id.J1939ID.SetCanId | messages/j1939id.py:48-68 | The new state is `AssignCanId`'s. On an error the bits are unchanged. The format never changes. |
| J1939Id.J1939ID.SetPriority | messages/j1939id.py:79-86 | A value ≥ 8 is `Overflow` with nothing changed. Otherwise priority reads back as the value, and bits 3.. and sa are unchanged. |
| J1939Id.J1939ID.SetEdp | messages/j1939id.py:98-106 | No-op for CBFF. `Overflow` with nothing changed for a value ≥ 2. Otherwise edp reads back as the value, and only bit 3 changes. |
| J1939Id.J1939ID.SetDp | messages/j1939id.py:118-126 | No-op for CBFF. `Overflow` with nothing changed for a value ≥ 2. Otherwise dp reads back as the value, and only bit 4 changes. |
| J1939Id.J1939ID.SetPf | messages/j1939id.py:138-146 | No-op for CBFF. `Overflow` with nothing changed for a value ≥ 256. Otherwise pf reads back as the value, and only bits 5..13 change. |
| J1939Id.J1939ID.SetPs | messages/j1939id.py:158-166 | No-op for CBFF. `Overflow` with nothing changed for a value ≥ 256. Otherwise ps reads back as the value, and only bits 13..21 change. |
| J1939Id.J1939ID.SetSa | messages/j1939id.py:181-190 | A value ≥ 256 is `Overflow` with nothing changed. Otherwise sa reads back as the value in either format, and priority and the other bits are unchanged. |
| J1939Id.J1939ID.SetDa | messages/j1939id.py:207-223 | Warns exactly for a PDU type 2 identifier. No-op for CBFF. `Overflow` for a value ≥ 256. Otherwise ps is the value and the type is unchanged; da reads back as the value (type 1) or stays 255 (type 2); a type 1 pgn is unchanged; only bits 13..21 change. |
| J1939Id.J1939ID.SetPgn | messages/j1939id.py:248-261 | No-op for CBFF. `Overflow` with nothing changed for a value ≥ 2^24. Otherwise the bits are `WritePgnBits` of the old ones, the pgn reads back as `PgnReadBack(value)`, and priority and sa bits are unchanged. |
| Text.ParseHex | messages/j1939id.py:28 | A value exactly for an optional `0x`/`0X` followed by one or more hex digits, and then it is the digits' value |
| Text.NatToDecimal | graph_log.py:51 | `str(n)`: decimal digits whose value is n, with a leading '0' only for 0 |
| Messages.OptionKey | graph_log.py:51-58 | `str(x)` of a getter value: `"None"` exactly for `None`, otherwise decimal digits of the value |
| Messages.OptionKeyInjective | graph_log.py:51-58 | Two getter values have the same key text exactly when they are equal |
| Messages.CbffKeys | graph_log.py:54-58 | A CBFF record's da and pgn keys are `"None"`, and it is never a NAME record |
| Messages.LeadingZeroIsNoKey | get_pgns.py:139 | A text of two or more characters that starts with '0' is no value's key |
| Messages.Select | graph_log.py:78-85 | The kept records are accepted records of the input, and no more of them than the input has |
| Messages.SelectMembership | get_pgns.py:136-140 | A record is kept exactly when it is in the input and accepted |
| Messages.SelectAppend | get_pgns.py:136-140 | Selection from a + b is selection from a followed by selection from b (order kept) |
| GraphLog.Place | graph_log.py:51-61 | One loop pass adds the record's sa key to the top level and makes its da and pgn keys present below it |
| GraphLog.AddLine | graph_log.py:51-61 | The three `not in` inserts and the append give `Place` of the dict |
| GraphLog.SeparateByAddress | graph_log.py:31-63 | The loop's result is `Grouped(messages)`: one entry per key triple some record has, each holding its records' lines in log order |
| GraphLog.GroupedSnoc | graph_log.py:48-61 | Grouping one more record is one more loop pass on the grouping |
| GraphLog.GroupedKeys | graph_log.py:31-63 | An sa, an (sa, da) or an (sa, da, pgn) key is present exactly when some record has it |
| GraphLog.LookupGrouped | graph_log.py:31-63 | The list under any key triple is the lines of exactly the records with that triple, in log order |
| GraphLog.Placement | graph_log.py:51-61 | Every record's line is stored under its own `str(sa)`, `str(da)`, `str(pgn)` |
| GraphLog.GroupedAppend | graph_log.py:48-61 | For two logs one after the other, under every key triple the first log's lines come first |
| GraphLog.EachOnce | graph_log.py:48-61 | The key triples present are exactly those of the records. Summed over them, the lists hold exactly as many lines as there are records. |
| GraphLog.CbffUnderNone | graph_log.py:54-58 | A CBFF record's line is filed under `"None"` for both da and pgn |
| GraphLog.GetNames | graph_log.py:66-87 | The loop's result is `NamesBySrc(messages)`, the NAME records grouped by `str(sa)` |
| GraphLog.AddName | graph_log.py:82-85 | The `not in` insert and the append give `AddTo` of the dict |
| GraphLog.ByKeySelectSnoc | graph_log.py:78-85 | One more record adds its line under its key exactly when it is selected |
| GraphLog.NamesKeys | graph_log.py:78-85 | A source address is a key exactly when some record with pgn 60928 comes from it |
| GraphLog.NamesContents | graph_log.py:78-85 | Under a source address lie the lines of exactly the pgn-60928 records from it, in log order |
| GraphLog.NamesAppend | graph_log.py:78-85 | For two logs one after the other, the first log's NAME lines come first |
| GraphLog.NamesIgnoreCbff | graph_log.py:81 | A CBFF record never changes the result |
| GetPgns.Iter | get_pgns.py:126-140 | Yields no more lines than there are records |
| GetPgns.MatchesExactly | get_pgns.py:136-140 | A record is matched exactly when it is in the log and its `str(pgn)` is listed |
| GetPgns.IterLines | get_pgns.py:126-140 | A line is yielded exactly when some record with a listed `str(pgn)` has it |
| GetPgns.IterNoInterest | get_pgns.py:136-139 | An empty list of interest yields nothing |
| GetPgns.IterEverything | get_pgns.py:126-140 | When every record's pgn text is listed, every line is yielded, in log order |
| GetPgns.IterAppend | get_pgns.py:136-140 | Filtering a + b yields a's lines and then b's |
| GetPgns.CeffMatch | get_pgns.py:139 | A CEFF record matches exactly when the decimal text of its pgn is listed |
| GetPgns.CbffMatch | get_pgns.py:139 | A CBFF record matches exactly when `"None"` is listed |
| GetPgns.LeadingZeroMatchesNothing | get_pgns.py:139 | A listed text with a leading zero, such as `"060928"`, matches no record |
| GetPgns.NameFilterExample | get_pgns.py:139 | For a pgn-60928 record, `["60928"]` yields its line and `["060928"]` yields nothing |

## Left out

- `get_msgs` (graph_log.py:7-28): file reading and parsing of candump lines is I/O. The model
  takes the parsed records. Its records keep only the identifier and the data; time and
  channel are read by none of the modelled loops.
- The command-line parts: `get_args`, `validate_path`, `main` in both scripts, JSON output,
  printing, and `stream_msgs.py`.
- The `bitarray` property: it hands out the mutable bit array itself. The model has no
  aliasing of the array; `J1939ID.canId` is a value field.
- `cbff` property: it is the field `cbff` of the class and of `IdState`.
- `__repr__` and `__str__`: formatted text for display. `__repr__` is `hex`.
- J1939Id.J1939ID.SetDa: the printed warning is the boolean `warned`, not output.
- J1939Id.Dict: a dict's insertion order is not modelled; keys are the `DictKey` datatype,
  with `KeyName` for their strings.
- Text.ParseHex: accepts exactly an optional `0x`/`0X` prefix and hex digits.
  Python's `int(s, 16)` also accepts surrounding whitespace, a sign and `_` separators.
  Those texts are `MalformedHex` here.
- J1939Id.J1939ID.SetPriority: setter values are `nat`. A negative value, which `int2ba`
  rejects, cannot be passed. The same holds for the other setters.
- GetPgns.Iter: the list of interest is a list of strings. Non-string entries never equal
  `str(pgn)` in the source, so they are left out.
- A CBFF record's da and pgn keys are `"None"`, as the code's `str(None)` gives. Prose that
  describes CBFF records as skipped does not match the code.
- The constructor's absent `can_id` (`None`) and empty string are both the empty text; the
  source treats both as falsy.

## Findings

| source | as written | input that shows it | evidently intended | confidence | as-written member | corrected member |
|---|---|---|---|---|---|---|
| messages/j1939id.py:18-37 | `_cbff` is set from the argument and only ever set to True later, so a text that needs 29 bits keeps `cbff=True` | `J1939ID("18EEFF00", cbff=True)`: 29 bits, `cbff` True; the getters then read a CEFF array with CBFF offsets (sa from bits 3..11), and `hex` pads to 32 bits while `bin` is 29 long | the flag follows the width chosen: a 29-bit array is CEFF | not executed | J1939Id.InitAsWritten (shown by J1939Id.FormatClash) | J1939Id.Init (well-formedness and `cbff <==> SelectsCbff` proved; agreement elsewhere by J1939Id.InitAgreesAsWritten) |

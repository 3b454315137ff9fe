# sniff, modelled in Dafny

`sniff` runs on a Teltonika/OpenWrt router. It collects a Wi-Fi scan and a BLE scan
through `ubus`, plus the router's firmware, host name, serial number, MAC address and
timezone. It then posts them to an HTTP endpoint. The endpoint comes from the command line
or from the router's "Data to Server" configuration file (UCI text). This project models the
logic between those inputs and outputs:

- **`Reader`** (`reader.dfy`): the UCI parser and the field lookup of `DataSenderReader`.
  - `parse` is modelled twice. `Run` is a per-line fold over the file's lines. The class
    method `Parse` is an imperative loop that mutates the two-level mapping, and its result
    is proved equal to that fold.
  - `search` parses lazily, caches the mapping, and keeps the last match, or `""` when there
    is none.
- **`DeviceParser`** (`parser.dfy`): the device and scan parsers. They turn decoded `ubus`
  output (`JsonData.Json`) into `{rssi, host, mac}` records.
- **`Ubus`** (`ubus.dfy`):
  - The `Ubus` session, a class whose fields `result`, `start_s`, `end_s` and `elapsed_s`
    are updated by `Results`.
  - The BLE session, which adds `_scan_s` with its `-1` sentinel and the polling wait.
  - The `fw` / `hostname` / `mac_serial` lookups with their `"unknown"` defaults.
  - The clock is a `Clock` object whose readings never go back. Each command is given by its
    outcome: exit status 0 with its standard output, or another exit status.
- **`Sender`** (`sender.dfy`): `get_timezone` and its fallback chain.
- **`CliConfig`** (`cli_config.dfy`): `str2bool`.
- **`CliSniff`** (`cli_sniff.dfy`):
  - How `main` resolves the API URL and headers, from arguments first and the configuration
    file second.
  - The header string turned into a dict.
  - The scan window reported in the posted body.
- **Support modules:**
  - `Text` (`text.dfy`): Python's `strip`, `split()`, `split(sep)`, `join`, `in` and `lower`
    on strings.
  - `Dicts` (`dicts.dfy`): a Python dict. It keeps its keys in insertion order and lists a
    key once. A new key goes last, and an existing key keeps its place.
  - `Wrappers` (`wrappers.dfy`): `Option` and `Result`.

Python exceptions become the `Err` side of a `Result`:

- `Reader.ParseError` covers the parser's IndexError and AttributeError.
- `DeviceParser.Failure` covers KeyError, AttributeError and TypeError.
- `CliSniff.Stop` covers the exits and errors of `main`.

## Model

| member | source | states |
|---|---|---|
| Reader.Declare | sniff/reader.py:110-116 | a `config` line leaves every block with `__type__` and `__name__` and the open block present |
| Reader.SetOption | sniff/reader.py:117-122 | setting an option keeps every block's synthetic fields and the open block |
| Reader.AddItem | sniff/reader.py:123-130 | appending a list item, when it succeeds, keeps every block's synthetic fields and the open block |
| Reader.Step | sniff/reader.py:108-130 | any line that does not raise keeps the parser's invariant (synthetic fields everywhere, open block present) |
| Reader.Run | sniff/reader.py:107-130 | the state after any prefix of the file that did not raise satisfies the invariant |
| Reader.ErrorIsFinal | sniff/reader.py:107-130 | once a line raises, later lines change nothing: the exception is the outcome of the whole file |
| Reader.StepValid | sniff/reader.py:115-130 | no line makes a block or a field listed twice |
| Reader.ParsedIsNestedDict | sniff/reader.py:102-136 | the parsed mapping and every block in it are dictionaries (each key once, in insertion order) |
| Reader.ParsedBlocksKeepSyntheticFields | sniff/reader.py:115-116 | every block of a parsed file holds `__type__` and `__name__` |
| Reader.ConfigLineOpensBlock | sniff/reader.py:110-116 | `config <type> <name>` registers "<type> <name>" with only the two synthetic fields; the name has no `'` at either end; a re-declared block is replaced and keeps its position, a new one goes last; the block becomes the open one |
| Reader.ShortConfigLineFails | sniff/reader.py:110-113 | a `config` line with fewer than three tokens raises IndexError |
| Reader.OptionLineSetsField | sniff/reader.py:117-122 | inside a block, `option k v...` sets `k` to the joined, unquoted value, overwriting it; nothing else changes |
| Reader.ListLineAppendsItem | sniff/reader.py:123-130 | inside a block, `list k v...` appends the value to `k`'s items, creating them on first use; nothing else changes |
| Reader.ListLineOntoTextFails | sniff/reader.py:128-130 | `list k ...` onto a field that holds `option` text raises AttributeError |
| Reader.ListLineIsAddItem | sniff/reader.py:123-130 | a `list` line inside a block is exactly an append to the open block |
| Reader.ShortEntryLineFails | sniff/reader.py:117-126 | inside a block, an `option` or `list` line with fewer than two tokens raises IndexError |
| Reader.IgnoredLineChangesNothing | sniff/reader.py:108-130 | lines starting with none of the three words, and `option`/`list` lines before any `config`, leave the state unchanged |
| Reader.MatchesEmpty | sniff/reader.py:162 | `**/<field>` matches nothing exactly when no block has the field |
| Reader.LastMatchInIsLastBlock | sniff/reader.py:162-167 | the last match is the field of the last block, in key order, that has it |
| Reader.LastMatchIsLastBlock | sniff/reader.py:156-173 | `search` yields the field of the last block that has it, and `""` when none has it |
| Reader.ParseConfig | sniff/reader.py:102-136 | every block of a parsed mapping holds `__type__` and `__name__` |
| Reader.DataSenderReader.constructor | sniff/reader.py:14-27 | a new reader holds the file's lines and no cached mapping |
| Reader.DataSenderReader.Parse | sniff/reader.py:102-136 | the loop returns the fold `ParseConfig` of the lines (or its exception) and stores a successful result in the cache |
| Reader.DataSenderReader.Search | sniff/reader.py:156-173 | with a non-empty cache it does not parse and returns the cached last match; otherwise it parses once and returns the last match of the new mapping, or the parse exception |
| DeviceParser.ParseDevice | sniff/parser.py:8-31 | `mac` is the `bssid`/`address` field verbatim and required (KeyError otherwise); `rssi` and `host` fall back to -99 and ""; keys are `rssi, host, mac` in that order; a non-dict raises AttributeError |
| DeviceParser.ParseAll | sniff/parser.py:84 | the comprehension succeeds iff every element parses; then it has the same length and element i is the parse of input i; a failure is the first failing element's |
| DeviceParser.Elements | sniff/parser.py:62 | iterating yields a list's items, a dict's keys, a string's characters; other values are not iterable |
| DeviceParser.Scan | sniff/parser.py:4-88 | the default parser is the identity; `fw` gives `{"fw": value or None}`; a device scan of a non-dict raises, a missing list key gives `[]`, and a success is a list |
| DeviceParser.ScanMapsEachDevice | sniff/parser.py:62-84 | a device scan succeeds iff every device parses, and gives one record per device in the same order |
| DeviceParser.OneBadDeviceFailsScan | sniff/parser.py:65-84 | one device without its address makes the whole scan fail with KeyError |
| DeviceParser.SampleBleScanParses | sniff/parser.py:72-82 | the documented BLE example gives the two documented records |
| Ubus.ReadStdout | sniff/ubus.py:50-60 | output that decodes gives the decoded document, anything else the raw text |
| Ubus.Session.constructor | sniff/ubus.py:20-32 | a new session has result `{}` and zero start, end and elapsed times |
| Ubus.Clock.Now | sniff/ubus.py:63-65 | `time.time()`: each call gives the next reading of the clock's sequence and moves past it |
| Ubus.Session.Results | sniff/ubus.py:62-79 | a failed collect returns `{}` and keeps result, end and elapsed (the start it took when none was pending stays); a successful one sets end to a reading after the start, elapsed to end minus the kept start (or now), stores the decoded output and clears the start, so the window the body reports (`end_s - elapsed_s`, `end_s`) is (that start, that end); elapsed stays non-negative |
| Ubus.Session.Filtered | sniff/ubus.py:81-88 | each parser falls back to the session's own separately: given ones are used, absent ones replaced, in all four combinations |
| Ubus.Session.Fw | sniff/ubus.py:152-153 | the firmware field of the decoded output, "unknown" when missing or when the collect failed; the session's new state is the collect's (as for `Results`) |
| Ubus.Session.Hostname | sniff/ubus.py:162-163 | the host name field, "unknown" when missing or when the collect failed; the session's new state is the collect's (as for `Results`) |
| Ubus.Session.MacSerial | sniff/ubus.py:172-176 | the result of `MacSerialOf` on the decoded output, both fields "unknown" when the collect failed; the session's new state is the collect's (as for `Results`) |
| Ubus.LookupOr | sniff/ubus.py:153 | `.get(key, default)` gives the field when present and the default otherwise; a non-dict raises AttributeError |
| Ubus.MacSerialOf | sniff/ubus.py:173-176 | with `mnfinfo` a dict, `serial` and `mac` are its fields, each "unknown" when missing; a missing `mnfinfo` gives both "unknown"; an output or `mnfinfo` that is not a dict raises AttributeError |
| Ubus.UnknownAfterFailedCollect | sniff/ubus.py:152-176 | after a collect that returned `{}`, all three lookups give "unknown" |
| Ubus.AsWrittenToleratesTooSoon | sniff/ubus.py:129-131 | the message test does tolerate exit status 6 |
| Ubus.AsWrittenToleratesSixty | sniff/ubus.py:130 | the message test also tolerates exit status 60, which is not the "too soon" status |
| Ubus.AsWrittenToleratesLeadingSix | sniff/ubus.py:130 | the message test tolerates every exit status whose decimal form begins with 6, whatever the command |
| Ubus.BleSession.constructor | sniff/ubus.py:112-122 | a new BLE session has no pending scan (`-1`), the BLE commands and parsers, and a fresh session state |
| Ubus.BleSession.Scan | sniff/ubus.py:124-133 | the start is taken before the command; only exit status 6 is swallowed; any other failure escapes and leaves `_scan_s` alone; otherwise `_scan_s` is the reading after the command, not before the start |
| Ubus.BleSession.Wait | sniff/ubus.py:138-140 | the poll loop ends, at a reading at least `wait_s` after the scan finished |
| Ubus.BleSession.Results | sniff/ubus.py:135-143 | scans exactly when no scan is pending (one scan per call), and then the scan finished at the reading after the scan command; a scan failure escapes with the session's result and times kept; the collect comes at least `wait_s` after the scan finished; `_scan_s` is back to `-1`; a failed collect keeps result, end and elapsed; a completed one reports a window from the start taken before the scan command (implicit scan) or the pending start (explicit scan) to the end |
| Sender.GetTimezone | sniff/sender.py:11-20 | without the marker in the file, the result is `date`'s output with its whole leading and trailing whitespace removed (a slice with only whitespace outside it and none at its ends), or "" when `date` fails too |
| Sender.TimezoneFromConfig | sniff/sender.py:14 | with the marker, the result is the text right after its first occurrence up to the end, the next `'` or the next marker, and never holds a `'` |
| CliConfig.Str2Bool | sniff/cli/config.py:12-20 | a string in the true words (any case) gives True, in the false words False; non-strings and other strings are returned unchanged |
| CliConfig.Str2BoolIdempotent | sniff/cli/config.py:12-20 | converting twice is converting once |
| CliConfig.Str2BoolIgnoresCase | sniff/cli/config.py:15-18 | spellings that differ only in letter case convert alike |
| CliConfig.Str2BoolSamples | sniff/cli/config.py:15-18 | "TRUE" gives True and "No" gives False |
| CliSniff.HeaderMap | sniff/cli/sniff.py:148-149 | the header dict is built exactly when every comma-separated segment holds a ':' |
| CliSniff.CollectOk | sniff/cli/sniff.py:148-149 | the header comprehension succeeds iff every segment holds a ':' |
| CliSniff.CollectSplitsAll | sniff/cli/sniff.py:149 | a successful comprehension split every segment into at least two pieces |
| CliSniff.CollectKeepsUnnamed | sniff/cli/sniff.py:149 | a key no segment names keeps its value |
| CliSniff.CollectLastWins | sniff/cli/sniff.py:149 | a key gets the value of the last segment that names it |
| CliSniff.SegmentPieces | sniff/cli/sniff.py:149 | the key is the text before the first ':'; the value is the text after it up to the next ':' or the end, leading spaces kept |
| CliSniff.SingleSegment | sniff/cli/sniff.py:148 | a header text without ',' is one segment |
| CliSniff.SampleHeaderParses | sniff/params.py:33 | the default header text gives a header map |
| CliSniff.FirstHeaderAsWritten | sniff/cli/sniff.py:140 | as written, indexing fails exactly when nothing was found; otherwise it gives a text's first character or a list's first item |
| CliSniff.FirstHeader | sniff/cli/sniff.py:138-144 | the headers a search result stands for: an option's whole text, a list's first item, "" when nothing was found |
| CliSniff.HeaderFirstCharacterOnly | sniff/cli/sniff.py:140 | indexing the searched text keeps its first character, for which the header map fails, while the whole text parses |
| CliSniff.HeaderNotFoundRaises | sniff/cli/sniff.py:140-144 | with no match, indexing raises instead of reaching the exit, which the corrected rule reaches |
| CliSniff.ResolveEndpoint | sniff/cli/sniff.py:125-149 | non-empty arguments are used as given and the file is not read; otherwise the file is parsed, a missing URL or header stops the run, and the headers become a dict |
| CliSniff.BleScanWindow | sniff/cli/sniff.py:165-190 | with an explicit scan then `results()`, a scan failure other than status 6 escapes; after a completed collect the body's BLE window starts at the reading before the scan command and spans at least `wait_s`; after a failed one it is the session's earlier window |

## Left out

- Running commands (`subprocess.run`, `shlex.split`) and the `which ubus` check are not
  modelled. Each command is a parameter holding its outcome, exit status 0 with stdout or
  another status.
- A missing `ubus` binary makes `run_cmd` raise FileNotFoundError, which `results` does not
  catch. The model has no such outcome.
- `json.loads` is a parameter `decode` of each session. JSON floats are not modelled:
  `JsonData.Json` numbers are integers.
- `Ubus.Clock`: `time.time()` gives float seconds; the model uses integer readings that
  never go back. The model assumes the clock eventually passes any time, and the poll loop's
  termination depends on that. `time.sleep(0.25)` is not modelled; every loop test reads the
  clock.
- `Ubus.Outcome`: a failure may carry exit status 0, which `run_cmd` (it checks the status)
  never raises; `BleSession.Scan` would then report `Err(0)`. Such an outcome does not
  arise from the program.
- `Ubus.BleSession.Results`: a second `scan()` that fails while a scan is pending moves the
  start past the pending scan. `Window().0 <= scanned` is therefore promised only when the
  start precedes the pending scan. It always does on `main`'s path (`CliSniff.BleScanWindow`).
- `CliSniff.BleScanWindow`: the other sessions and commands `main` runs between the BLE scan
  and its results only advance the clock. They are not modelled there.
- `Ubus.Session.Window`: the body applies `int()` to float times; with integer times the
  truncation is the identity and is not modelled.
- `Ubus.ErrorText`: the wording of a death-by-signal message is abbreviated. It never holds
  the text `scan` looks for, which is all that matters here.
- `DeviceParser.ParseDevice`: the Wi-Fi record's `quality` field is not modelled. It is a
  float division and rounding, which also raises ZeroDivisionError when `quality_max` is 0.
- `Reader.DataSenderReader.Search`: `dpath`'s glob engine is a library whose code is not
  part of this model. Only the query form `**/<field>` is modelled, as the field of every
  block in block order.
- `Reader.DataSenderReader.constructor`: the reader takes the file's lines. The check that
  the file opens, and the file reading itself, are the caller's. `parse`'s optional `path`
  argument is not modelled.
- `CliSniff.ResolveEndpoint`: `None` and `""` arguments are both modelled as "". A file that
  cannot be opened is `None` lines.
- The rest of `main` is not modelled: argument parsing, the scan flags, the body assembly and
  posting.
- `get_or_write_config` and `create_parser` are not modelled: configparser and file writing.
- `post_data` (HTTP), `sniff/logger.py`, and the environment-variable defaults of
  `sniff/params.py` are not modelled.
- All logging and warnings are not modelled, including `search`'s multiple-match warning.
- `Text.Lower`: only ASCII letters are lowered. For the eight `str2bool` words this gives
  the same answer as Python's Unicode `lower()`.

## Findings

| source | as written | input that shows it | evidently intended | confidence | as-written member | corrected member |
|---|---|---|---|---|---|---|
| sniff/ubus.py:130 | a failed BLE scan is swallowed when "returned non-zero exit status 6" occurs in the error message | a scan command failing with exit status 60: its message "... returned non-zero exit status 60." contains the text | only the "too soon" exit status 6 is swallowed; 60 escapes | not executed | Ubus.AsWrittenToleratesSixty | Ubus.BleSession.Scan |
| sniff/cli/sniff.py:140 | the header setting is `dsr.search(query)[0]` | an `option http_header 'content-type: text/plain; charset=utf-8'` line gives "c", and the header map then raises on a segment without ':'; no match gives "" and `""[0]` raises IndexError before the exit message | an option's whole text, a list's first item, and the "specify --api-header" exit when nothing is found | not executed | CliSniff.HeaderFirstCharacterOnly | CliSniff.ResolveEndpoint |

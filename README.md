# pfxsigner core, modelled in Dafny

pfxsigner signs PDF documents with certificates loaded from PKCS#12 (`.pfx`) archives. It runs
either as an HTTP service or as a batch job that reads `cert|in.pdf|out.pdf` lines from standard
input. This project models the part of it that does the work. That core is:

- **Processor** (`processor.dfy`). The processor keeps a registry of named certificates and job
  counters. Its signing pipeline resolves the certificate and opens the document. When a password
  is given, it locks the document and re-opens and decrypts it. It then places one signature per
  coordinate block and page, and serialises the result. The batch worker loop counts a job as
  failed before trying it, then turns that into a success if the job completes.
- **Config** (`config.dfy`). This is the validation of the signature style's three hex colours
  (`#rgb` / `#rrggbb`).
- **Cli** (`cli.dfy`). This is the batch front end's line reader.
- **ProcessorProperties** (`processor_props.dfy`) and **Batch** (`batch.dfy`). These hold the
  properties: of the pipeline, and of the reader and worker taken together.

The PDF engine (unipdf), the PKCS#12 decoder and the file system are foreign code. Each of their
calls is an oracle, a field of the `Engine` or `Host` records. An oracle answers either success
with a value or failure with an error string. Every pipeline method also returns the sequence of
engine calls it made. Each method is proved equal to a specification function (`LockSpec`,
`SignSpec`, `ProcessDocSpec`, `Tally`, `JobsOf`), and the properties are lemmas about those
functions.

Two details of the code that the model keeps:

- Listen counts a job as failed (processor.go:115-117) and turns that into a success
  (processor.go:140-144) under two separate acquisitions of the mutex. A GetStats call between
  the two sees the job counted as failed.
- Listen opens the input file (processor.go:120) before ProcessDoc looks up the certificate. Only
  ProcessDoc itself makes no engine call for an unknown certificate name.

## Model

| member | source | states |
|---|---|---|
| Processor.Processor.constructor | internal/processor/processor.go:97-107 | a new processor holds the given default properties, no certificates and zero counters |
| Processor.Processor.LoadPfx | internal/processor/processor.go:213-233 | a name already loaded is refused with "the name '…' is already loaded"; a read error is returned; a decode error ends the process; a non-RSA key panics; otherwise exactly that name is bound to the decoded key and certificate, and no other entry changes |
| Processor.Processor.LockPdf | internal/processor/processor.go:236-282 | the result and the engine calls are those of LockSpec: an encrypted document is refused, the writer is locked with the password as user and owner password and all eight permissions, pages 1..n are copied in order stopping at the first error, and only then is it written |
| Processor.Processor.AnnotationLines | internal/processor/processor.go:310-315 | the lines list every entry of every annotation map, maps in order, each map's entries in some order, each once |
| Processor.Processor.EntryLines | internal/processor/processor.go:312-314 | the lines of one map list each of its entries, key and value, exactly once, in some order |
| Processor.Processor.SignPdf | internal/processor/processor.go:285-339 | the result and calls are those of SignSpec: appender, handler and signature set-up errors are returned in that order; then the Sign calls stop at the first failure; the annotation lines are computed once set-up succeeds |
| Processor.Processor.SignBlocks | internal/processor/processor.go:318-336 | blocks in order, pages in order within a block: the Sign calls made are exactly the targets up to and including the first failing one, and its error is returned; with no failure every target is signed |
| Processor.Processor.SignBlock | internal/processor/processor.go:331-335 | one block's pages are signed in order after the earlier blocks' targets, stopping at the first failure |
| Processor.FirstSignFailure | internal/processor/processor.go:331-334 | the index of the first Sign call that fails, every earlier call having succeeded, or the number of targets when none fails |
| Processor.Processor.ProcessDoc | internal/processor/processor.go:154-198 | the result and calls are those of ProcessDocSpec, and they meet StageErrors: an unknown certificate fails with "unknown certificate '…'" and no engine call; a reader error gives "error opening PDF" after one call; with a password, a lock, re-open or decrypt failure (error or false) gives its own fixed message after the calls up to the failing one, with no signing call; a sign failure gives "error signing PDF after locking"; no failure serialises, and no other error string is returned |
| Processor.ProcessDocFailures | internal/processor/processor.go:154-192 | every ProcessDoc run meets StageErrors: each stage's failure condition yields that stage's fixed error and trace, later stages are not entered, and a failure writes no output |
| Processor.LockStageFailures | internal/processor/processor.go:166-183 | a failed lock stage reports "error locking PDF with password", "error re-opening PDF after locking" or "error re-reading PDF after locking" by the call that failed, with the calls up to that one and no signing call |
| Processor.LockSpecSignsNothing | internal/processor/processor.go:236-282 | lockPDF makes no appender, handler, signature, Sign or Serialize call, whether or not it succeeds |
| Processor.LockStageSignsNothing | internal/processor/processor.go:166-185 | the lock, re-open and decrypt stage makes no signing call, whether or not it succeeds |
| Processor.CopyPagesSignsNothing | internal/processor/processor.go:266-275 | copying pages makes no signing call, whether or not it succeeds |
| Processor.SignSpecNoSerialize | internal/processor/processor.go:285-339 | signPDF never serialises; only ProcessDoc writes the signed output |
| Processor.Processor.Listen | internal/processor/processor.go:111-151 | the counters end as Tally of the start counters over the jobs' outcomes, where a job succeeds exactly when open, ProcessDoc and WriteFile all succeed |
| Processor.Processor.GetStats | internal/processor/processor.go:201-205 | returns the current counters |
| Processor.Processor.GetProps | internal/processor/processor.go:208-210 | returns the default signature properties |
| ProcessorProperties.PermissionFlagIsBit | internal/processor/processor.go:247-254 | each permission's flag is 2 to the power of its bit position minus one: bits 3-6 and 9-12 of the PDF permission word |
| ProcessorProperties.LockGrantsEverything | internal/processor/processor.go:247-254 | the lock grants every user permission, each once, and the flags or-ed together are 3900 |
| ProcessorProperties.CopiedLength | internal/processor/processor.go:266-275 | a successful copy keeps the earlier pages first and adds exactly one page per page number from..n |
| ProcessorProperties.CopiedPage | internal/processor/processor.go:266-275 | page from + i of a successful copy is the one GetPage returned for it, and AddPage accepted it after the pages before it |
| ProcessorProperties.CopyPagesSucceeds | internal/processor/processor.go:266-275 | after a successful copy the writer holds the earlier pages, then pages from..n exactly as GetPage returned them, and every AddPage succeeded |
| ProcessorProperties.CopyPagesCalls | internal/processor/processor.go:266-275 | a successful copy fetched and then added each page, in page order, and made no other call |
| ProcessorProperties.CopyPagesStops | internal/processor/processor.go:266-275 | a failed copy stops at the first failing call in page order: some k < n - from + 1 pages were each fetched and added after the ones before, then the fetch of page from + k failed, or the addition of the page it returned failed; that call's error is returned and it is the last call |
| ProcessorProperties.CopyPagesFails | internal/processor/processor.go:266-275 | a failed copy stops at the first failing GetPage or AddPage in page order, after copying every earlier page, and returns that call's error; it makes only GetPage calls on this reader and AddPage calls, at most two per page |
| ProcessorProperties.StoppedCalls | internal/processor/processor.go:266-275 | the calls of a stopped copy are two per copied page plus the failing one or two, only GetPage on this reader and AddPage, ending with the failing fetch when it is a fetch |
| ProcessorProperties.LockSucceeds | internal/processor/processor.go:239-281 | a successful lock means the document was unencrypted with n pages; the writer, locked with the password twice and every permission, received exactly pages 1..n before being written |
| ProcessorProperties.LockWritesOnlyWhenComplete | internal/processor/processor.go:239-280 | an already encrypted document is refused after one call; once it is known to be unencrypted, the lock is applied with the password as both passwords; the encrypted copy is written if and only if every page was copied |
| ProcessorProperties.TargetsShape | internal/processor/processor.go:318-336 | there is one Sign target per listed page; blocks come in order, and each target names a page its own block lists |
| ProcessorProperties.SignSucceeds | internal/processor/processor.go:285-339 | a successful sign stage made the three set-up calls, then one successful Sign call per listed page in order, and nothing else |
| ProcessorProperties.SignStopsAtFirstFailure | internal/processor/processor.go:331-334 | a failing sign stage ends with the first failing Sign call and returns its error; all Sign calls before it succeeded |
| ProcessorProperties.LinesOfLength | internal/processor/processor.go:310-315 | the annotation lines are as many as the entries of all maps together |
| ProcessorProperties.EntryShown | internal/processor/processor.go:310-315 | entry key of map k appears among the annotation lines |
| ProcessorProperties.LinesOfShowsEveryEntry | internal/processor/processor.go:310-315 | every entry of every annotation map appears among the lines |
| ProcessorProperties.LineIsEntry | internal/processor/processor.go:310-315 | line i of the annotation lines is an entry, key and value, of one of the maps |
| ProcessorProperties.LinesOfShowsOnlyEntries | internal/processor/processor.go:310-315 | the annotation lines show nothing but entries of the maps |
| ProcessorProperties.DescsOf | internal/processor/processor.go:312-314 | a key is among the lines' keys exactly when some line has it; lines with distinct keys have as many keys as lines |
| ProcessorProperties.EnumeratesCovers | internal/processor/processor.go:312-314 | the lines of one map show every entry of that map |
| ProcessorProperties.SignSpecCalls | internal/processor/processor.go:285-339 | signing makes no lock-stage call and starts by creating the appender on the reader it is given |
| ProcessorProperties.EmptyPasswordSkipsLock | internal/processor/processor.go:166-188 | without a password no encryption check, lock, decryption or encrypted write happens; the document is signed as opened, and the job succeeds exactly when signing does |
| ProcessorProperties.LockedJobSignsReopened | internal/processor/processor.go:166-188 | a password-protected job that succeeds was locked, re-opened and decrypted with its password (the decryption returned true), and signing starts right after the lock stage's Decrypt, with NewAppender of the re-opened, decrypted document |
| ProcessorProperties.ProcessDocSucceeds | internal/processor/processor.go:187-197 | a successful job's output is the appender's serialisation after every listed page was signed, and Serialize is the last call |
| ProcessorProperties.TallyCounts | internal/processor/processor.go:113-142 | every job is counted exactly once: successes as done, every other job as failed |
| ProcessorProperties.OutcomesAppend | internal/processor/processor.go:112-137 | the outcomes of two queues one after the other are the outcomes of the first, then those of the second |
| ProcessorProperties.TallyAppend | internal/processor/processor.go:112-149 | counting two runs of jobs one after the other equals counting them together |
| ProcessorProperties.ProvisionalFailure | internal/processor/processor.go:111-144 | while job k runs, between its two locked updates, the counters are the tally of the earlier jobs with job k counted as failed: done is the earlier successes, failed the earlier failures plus one; confirming job k, or not, gives the tally that includes it |
| Config.ParseHexColorAsWritten | init.go:71-95 | the Sscanf-based parser as written: the length error exactly for UTF-8 byte lengths other than 4 and 7; an accepted string starts with '#'; an accepted four-byte string gives channels that are multiples of 17 |
| Config.ParseHexColor | init.go:71-95 | (corrected) a colour is accepted exactly when it is '#' followed by three or six hex digits; the length error is reported exactly for UTF-8 byte lengths other than 4 and 7 |
| Config.Utf8Length | init.go:77 | the byte length of a string's UTF-8 encoding is at least its number of characters, and equal exactly when every character is ASCII |
| Config.WellFormedLength | init.go:77 | a well-formed colour is ASCII, so its byte length is its length |
| Config.NonAsciiLongLength | init.go:73-79 | "#12345é" has seven characters but eight bytes, so both parsers give the length error |
| Config.NonAsciiShortForm | init.go:73-85 | "#fé" has three characters but four bytes, so the Sscanf-based parser takes the short branch and fails at 'é', and the strict one reports a syntax error |
| Config.LongRedExample | init.go:77-79 | the parser reads "#ff0000" as red |
| Config.UpperRedExample | init.go:77-79 | the parser reads "#FF0000", in upper case, as red |
| Config.ShortRedExample | init.go:80-85 | the parser reads "#f00" as red |
| Config.BadLengthExample | init.go:73-90 | "#ff00" is a length error for both parsers |
| Config.FormatThenParse | init.go:79 | spelling a colour as #rrggbb and parsing it back gives the colour |
| Config.ParseThenFormat | init.go:79 | parsing a long-form colour and spelling it back gives the string in lower case |
| Config.ShortFormIsDoubledLongForm | init.go:81-85 | "#rgb" means "#rrggbb" with every digit doubled, so each channel is a multiple of 17 |
| Config.ScanPair | init.go:79 | a %02x verb over two hex digits reads the channel they spell and stops after them |
| Config.LongFormAgrees | init.go:79 | on a well-formed "#rrggbb" the Sscanf-based parser and the strict one agree |
| Config.ShortFormAgrees | init.go:81-85 | on a well-formed "#rgb" the Sscanf-based parser and the strict one agree |
| Config.AsWrittenAgreesOnWellFormed | init.go:77-85 | on every well-formed colour, the Sscanf-based parser and the strict one agree |
| Config.AsWrittenShortFormIsStrict | init.go:80-85 | for strings of four UTF-8 bytes, the Sscanf-based parser accepts exactly the well-formed ones |
| Config.AsWrittenSkipsNoBreakSpace | init.go:79 | the Sscanf-based parser skips a no-break space before a verb, reading "#1\u00a0234" (seven bytes) as (0x01, 0x23, 0x04); the strict parser rejects it |
| Config.AsWrittenAcceptsTrailingGarbage | init.go:78-79 | the Sscanf-based parser accepts "#12345z" as (0x12, 0x34, 0x05); the strict parser rejects it |
| Config.ParsePropsWith | init.go:51-66 | over any colour parser: the properties are accepted exactly when all three colours parse; otherwise the first failing field in the order fontColor, bgColor, borderColor is reported with that parser's error; on success the three channel fields are the parsed colours and nothing else changes |
| Config.ParsePropsAsWritten | init.go:51-66 | parseProps as written, on the Sscanf-based parser: accepted exactly when that parser accepts all three colours |
| Config.PropsAgreeOnWellFormed | init.go:51-66 | on well-formed colours, parseProps as written and on the strict parser give the same result |
| Config.PropsAcceptTrailingGarbage | init.go:53-56 | a fontColor of "#12345z" passes parseProps as written with the channels (0x12, 0x34, 0x05), while the strict parser rejects that field for its syntax |
| Config.ParseProps | init.go:51-66 | (corrected) the properties are accepted exactly when all three colours are well-formed; otherwise the first bad field in the order fontColor, bgColor, borderColor is reported with its cause; on success the three channel fields are set and nothing else changes |
| Cli.TrimSpace | cli.go:59 | the trimmed line is the part of the line between a white-space prefix and a white-space suffix, and neither starts nor ends with white space |
| Cli.ParseLine | cli.go:59-76 | an accepted line gives a job whose three fields are non-empty and hold no bar, which spells the trimmed line back and carries no password |
| Cli.Split | cli.go:64 | the pieces hold no separator, number one more than the separators, and joined back give the line |
| Cli.SplitJoin | cli.go:64 | splitting undoes joining pieces that hold no separator |
| Cli.ReadJobsFromStdin | cli.go:56-79 | sends, in order, the job of every accepted line with no password, and returns the scanner's error |
| Cli.AcceptedHasThreeFields | cli.go:59-71 | an accepted line's trimmed form is three non-empty bar-free fields joined by bars |
| Cli.ThreeFieldsAccepted | cli.go:59-71 | a line whose trimmed form is three non-empty bar-free fields joined by bars is accepted |
| Cli.AcceptedLines | cli.go:59-71 | a line is accepted exactly when its trimmed form is three non-empty fields without a bar, joined by bars |
| Cli.FormattedLineParses | cli.go:59-76 | a job whose fields are non-empty and hold no bar, with no white space at the line's ends, is read back from its line |
| Cli.TrimExample | cli.go:59 | trimming a line of three fields with a blank at each end removes those two blanks and nothing else |
| Cli.SplitExample | cli.go:64 | splitting at the bars keeps the blanks on either side of each bar in the pieces |
| Cli.UntrimmedFields | cli.go:59-76 | the line of fields " a ", " b ", " c " (spaces around each bar and at both ends) gives the job ("a ", " b ", " c"): only the ends of the line are trimmed |
| Cli.BlankLineSkipped | cli.go:59-62 | a blank line gives no job |
| Cli.JobsOfAppend | cli.go:58-78 | reading lines in two parts gives the jobs of the first part, then those of the second |
| Cli.JobsOfOne | cli.go:58-78 | one line gives its own job, or nothing |
| Cli.JobsOfBounds | cli.go:58-78 | there are never more jobs than lines; every job's fields are non-empty and hold no bar, and the job has no password |
| Batch.BatchJobsSkipLock | cli.go:73-76 | jobs read from standard input have no password, so processing them never touches the lock stage |
| Batch.BatchAccounting | cli.go:58-78 | a batch adds exactly one to the counters per accepted line; a job naming an unloaded certificate is counted as failed |
| Batch.BatchesCompose | cli.go:58-78 | batches read one after the other are counted as one batch of all their lines |

## Left out

- Concurrency: the worker pool, the WaitGroup, channel capacity and the mutex are not modelled.
  The Listen loop is modelled as one worker draining a finite queue. The two separately locked
  updates around a job are modelled as sequential steps; an interleaved GetStats snapshot is not
  modelled.
- Time, logging and floating point are not modelled. This covers the start time, the signing date,
  font sizes, line heights, border sizes and the rectangle coordinates. The colour channels are
  kept as bytes, not as the float64 values the source passes on.
- JSON decoding of the properties file is not modelled. ParseProps starts from the decoded
  properties.
- initApp, server.go and main.go (command-line flags, the HTTP handlers, start-up) are not part
  of this model.
- PKCS#12 decoding, the RSA key and the signature cryptography are foreign code: they are oracles.
- LoadPfx: log.Fatalf and the failed type assertion end the process. They are modelled as the
  outcomes `DecodeFatal` and `KeyNotRsa`, which leave the registry unchanged.
- SignPdf: the error of annotator.NewSignatureField is discarded by the source. The model treats
  field creation as infallible, so the nil field that a failure would leave, and the panic on
  `field.T`, are not modelled. The signature field's appearance (lines, style colours) is not
  passed to the Sign and Serialize oracles.
- LockPdf: the source ignores the result of wr.Encrypt, and ProcessDoc ignores that of ap.Write.
  The model gives them no failure outcome.
- ReadJobsFromStdin: bufio.Scanner's line splitting, and its token-too-long error, are not
  modelled. The input is the scanned lines plus the scanner's final error.
- ReadJobsFromStdin: the source's second `len(line) == 0` test after splitting can never hold and
  is not modelled.
- Cli.TrimSpace: only ASCII white space is modelled; Unicode white space is not.
- Cli.ParseLine: the source's length tests (cli.go:60, cli.go:68) count bytes and the model
  counts characters. Both tests compare with zero, and a string has zero characters exactly when
  it has zero bytes, so the tests are unaffected.
- Config.ParseHexColorAsWritten: lengths are the byte lengths of the string's UTF-8 encoding
  (Utf8Length). A Go string that is not valid UTF-8 has no Dafny string counterpart and is not
  modelled. The same holds for Config.ParseHexColor.
- Config.ParseProps: it is built on the corrected colour parser Config.ParseHexColor. The source's
  own behaviour is Config.ParsePropsAsWritten. The two agree on well-formed colours and differ on
  "#12345z".
- Config.ParsePropsWith: on an error the source also returns the properties, with the channels up
  to and including the failing field set (the failing field's channel holds its partial colour,
  or (0, 0, 0) after the length error). The model returns only the error.
- Config.ParseHexColorAsWritten: when Sscanf fails part-way, the channels scanned so far stay in
  the returned colour. The model returns only the error.
- Listen: `defer f.Close()` inside the loop keeps every input file open until Listen returns.
  File handles are not modelled.

## Findings

| source | as written | input that shows it | evidently intended | confidence | as-written member | corrected member |
|---|---|---|---|---|---|---|
| init.go:79 | `fmt.Sscanf(s, "#%02x%02x%02x", …)` reads at most two hex digits per verb, stops early at a non-hex character, skips leading blanks before each verb, and ignores input left after the last verb, so a seven-character string that is not a hex colour can be accepted with a nil error | "#12345z" gives (0x12, 0x34, 0x05) and no error | accept only '#' followed by exactly six (or three) hex digits | not executed | Config.AsWrittenAcceptsTrailingGarbage | Config.ParseHexColor |
| init.go:79 | every verb first skips the white space of fmt's table, so a no-break space between the digits of a seven-byte string splits the verbs differently and the string is accepted with a nil error | "#1\u00a0234" gives (0x01, 0x23, 0x04) and no error | accept only '#' followed by exactly six (or three) hex digits | not executed | Config.AsWrittenSkipsNoBreakSpace | Config.ParseHexColor |

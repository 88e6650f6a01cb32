# A verified model of the ABC-notation tokenizer

The repository tokenizes text in ABC music notation in two pull-based stages.

1. The **line tokenizer** (`LineTokenizer`) walks the physical lines of a document with a cursor (line, column). It gives every line one kind: ABC declaration, typeset text (with a sub-kind), information field, style sheet directive, comment, blank line, or music code / free text. It also tracks a text-block mode opened by `%%begintext`. A trailing `%` comment is split off a music or field line and returned by the next call.
2. The **file tokenizer** (`FileTokenizer`) pulls line tokens and tracks the section of the document it is in: initial, file header, between tunes, free text, typeset text, tune header, tune body. It surrounds the file header, each tune header and each tune body with synthesised start and end tokens. It can put one incoming token back for another round (`savedInToken`) and queue tokens for later calls (`outQueue`). There are two versions:
   - `old/FileTokenizer.ts`, the later one. It reports errors through an optional callback registered with `setErrorCB`.
   - `src/FileTokenizer.ts`, an earlier one with a different policy. It only prints its errors.

The line tokenizer and the later file tokenizer report errors through `BaseTokenizer.error`. This builds an Error-kind copy of the offending token and hands it to the registered callback, if there is one. The earlier file tokenizer has its own `error` (src/FileTokenizer.ts:40-42), which only prints.

## How the model is built

Each stage has a pure specification of one call and a class that keeps the source's fields:
- `Lines.Scan` specifies one call of `LineTokenizer.getToken`.
- `FileTokens.Step` (and `EarlyFileTokens.Step`) specifies one call of `getTokenInternal`.
- `NextToken` specifies one call of `getToken`, that is, the retry loop.

The classes `Lines.LineTokenizer`, `FileTokens.FileTokenizer` and `EarlyFileTokens.FileTokenizer` update their fields step by step as the TypeScript does. Their methods are proved to return what the specification functions say and to leave the fields where they say. The Node `assert` calls are proved, as `assert` statements. The retry loop of `getToken` is proved to terminate. In the later file tokenizer the measure is twice the line tokenizer's measure, plus one when no token is waiting in the slot (`FileTokens.FileModel.Measure`). In the earlier one it is the line tokenizer's measure alone, because only a blank line is ever swallowed.

Modules and files:
- `Tokens` (tokens.dfy): the token record and the enumerations of src/Token.ts.
- `Errors` (errors.dfy): the error sink. A registered callback is represented by an identity, and every invocation is recorded in a ghost log `delivered`.
- `Lines` (lines.dfy) with `LineFacts` (line_facts.dfy): the line tokenizer and its properties.
- `Sections` (sections.dfy): what both file tokenizers share.
- `FileTokens` with `FileFacts` (file_tokens.dfy, file_facts.dfy): old/FileTokenizer.ts.
- `EarlyFileTokens` with `EarlyFileFacts` (early_file_tokens.dfy, early_file_facts.dfy): src/FileTokenizer.ts. `StyleSheetDirective` there is `TokenType.StyleSheet`, the only style sheet kind that src/Token.ts defines.

Behaviour of the code that the model keeps as written:
- **A deferred comment that is empty** (a music or field line ending in `%`) is falsy, so it is never returned. The same line is then read again for ever: `LineFacts.EmptyCommentStalls`, `LineFacts.StallExample`.
- **Line-stage errors never reach a callback in the later file tokenizer.** The line tokenizer inside it has its own error sink, which is private and never gets a callback: invariant `FileTokenizer.Valid`.
- **At the end of a document whose file header is still open**, the later file tokenizer alternates a file header end and EOF for ever, because the flag is never cleared: `FileFacts.EofRepeats`.
- **A tune header closed by a blank line keeps the `K:` flag**, so every non-`K:` field of the next tune header is reported: `FileFacts.GotKSurvivesBlank`.

Three consequences of the code that a reader might not expect:
- **A declaration followed directly by `X:1`, header fields and music.** In old/FileTokenizer.ts the `X:1` line opens the *file* header, not a tune header (`FileFacts.FieldOpensHeader`). The music line, read outside a tune, is then free text in the file header (`FileFacts.ProseEndsHeader`).
- **Sections still open at EOF.** Only the file header is closed at EOF, and only in old/FileTokenizer.ts (`FileFacts.EofClosesHeader`). An open tune header or tune body gets no end token (`FileFacts.EofPasses`), and src/FileTokenizer.ts closes nothing at EOF (`EarlyFileFacts.CommentAndEofPass`).
- **The empty document.** Its one empty line is a blank line with no declaration before it. In old/FileTokenizer.ts that is reported as an error and the line is swallowed (`FileFacts.BlankWithoutDeclaration`). In src/FileTokenizer.ts it gives a file header start and then a file header end, with no diagnostic (`EarlyFileFacts.HeaderStartFirst`).

## Model

| member | source | states |
|---|---|---|
| Tokens.StartsWith | src/LineTokenizer.ts:47 | `startsWith` holds only when the prefix is no longer than the string |
| Tokens.StartsWithIsPrefix | src/LineTokenizer.ts:47 | `startsWith` is exactly the prefix relation on character sequences |
| Tokens.After | src/LineTokenizer.ts:49 | `substr(n)` after an `n`-character prefix is `n` characters shorter |
| Tokens.AfterSplits | src/LineTokenizer.ts:49 | the prefix followed by `substr(n)` gives back the string |
| Errors.ErrorToken | src/BaseTokenizer.ts:19-22 | the reported token has kind Error, no sub-kind, the message as value, and the offender's line and column |
| Errors.DeliveriesMatch | src/BaseTokenizer.ts:15-24 | without a callback nothing is delivered; with one, exactly one call per reported error, in order, with that error's token |
| Errors.DeliveriesAppend | src/BaseTokenizer.ts:12-25 | errors reported one after another are delivered in the order they were reported |
| Errors.DeliveredInTurn | src/BaseTokenizer.ts:12-25 | deliveries of two successive batches of errors are those of both batches in order |
| Errors.BaseTokenizer.constructor | src/BaseTokenizer.ts:5-6 | a new sink has no callback and has delivered nothing |
| Errors.BaseTokenizer.SetErrorCB | src/BaseTokenizer.ts:8-10 | registering a callback replaces the previous one and delivers nothing |
| Errors.BaseTokenizer.Error | src/BaseTokenizer.ts:12-25 | reporting an error invokes the registered callback once with the Error copy, and does nothing without a callback |
| Lines.IndexOf | src/LineTokenizer.ts:117 | `indexOf` returns -1 or a position holding the character (first-ness in `LineFacts.IndexOfIsFirst`) |
| Lines.IsBlank | src/LineTokenizer.ts:104 | `/^\s*$/.test`: its meaning is stated by `LineFacts.BlankIsAllWhitespace` |
| Lines.HasFieldPattern | src/LineTokenizer.ts:71 | `/[A-Za-z]:/.test`, scanned from the left: its meaning is stated by `LineFacts.FieldPatternAnywhere` |
| Lines.IsCommentLine | src/LineTokenizer.ts:100 | `/^\s*%/.test`: its meaning is stated by `LineFacts.CommentLineIff` |
| Lines.CommentStart | src/LineTokenizer.ts:117-119 | the split point, when there is one, holds a `%` with no backslash before it (first-ness and the meaning of -1 in `LineFacts.CommentStartIsFirst`) |
| Lines.Classify | src/LineTokenizer.ts:47-110 | the chain gives a line kind; declaration exactly on line 1 starting `%abc`; music code only in a tune, free text only outside; no value exactly for a blank line; a sub-kind exactly for text; errors only for text |
| Lines.ClassifyInTextBlock | src/LineTokenizer.ts:51-69 | inside a text block every line is text with a sub-kind and a value |
| Lines.ClassifyDirective | src/LineTokenizer.ts:75-98 | a `%%` line is text with a sub-kind or a style sheet directive, always with a value; only text warns |
| Lines.ClassifyOther | src/LineTokenizer.ts:100-110 | any other line is a comment, a blank line (the only one without a value), music code in a tune or free text outside one |
| Lines.Start | src/LineTokenizer.ts:12-20 | a new tokenizer starts in a valid state: cursor on the document, no declaration already read |
| Lines.Scan | src/LineTokenizer.ts:22-129 | one `getToken` keeps the cursor within the document and the lines unchanged |
| Lines.ScanLine | src/LineTokenizer.ts:45-128 | reading a line keeps the cursor valid and the lines unchanged |
| Lines.Finish | src/LineTokenizer.ts:116-128 | finishing the token after classification keeps the cursor valid |
| Lines.CommentSplit | src/LineTokenizer.ts:116-126 | the split keeps the cursor valid and reports nothing |
| Lines.LineTokenizer.constructor | src/LineTokenizer.ts:17-20 | the fields start as `Start` says, with a sink that has no callback |
| Lines.LineTokenizer.GetToken | src/LineTokenizer.ts:22-129 | returns `Scan`'s token, moves the fields to `Scan`'s state, delivers `Scan`'s errors |
| Lines.LineTokenizer.ReadLine | src/LineTokenizer.ts:45-128 | the line-reading part of `getToken` does what `ScanLine` says |
| Lines.LineTokenizer.SplitComment | src/LineTokenizer.ts:116-126 | the comment split does what `CommentSplit` says |
| LineFacts.TrimStartFacts | src/LineTokenizer.ts:100 | trimming removes exactly the leading white space, and leaves nothing exactly for a blank line |
| LineFacts.BlankIsAllWhitespace | src/LineTokenizer.ts:104 | `/^\s*$/` holds exactly when every character is white space |
| LineFacts.FieldPatternAnywhere | src/LineTokenizer.ts:71 | `/[A-Za-z]:/` holds exactly when a letter directly followed by `:` occurs anywhere in the line |
| LineFacts.IndexOfIsFirst | src/LineTokenizer.ts:117 | `indexOf` finds the first occurrence; -1 means the character does not occur |
| LineFacts.CommentStartIsFirst | src/LineTokenizer.ts:117-119 | the split point is the first `%` of the line; there is none exactly when the line has no `%` or its first `%` follows a backslash |
| LineFacts.StartsWithShorter | src/LineTokenizer.ts:53-54 | a line starting `%%endtext` also starts `%%` |
| LineFacts.ClassifyDeclaration | src/LineTokenizer.ts:47-49 | declaration iff line 1 starts `%abc`; its value is the rest after `%abc-`, else the whole line |
| LineFacts.TextBlockLines | src/LineTokenizer.ts:51-69 | in a text block: `%%endtext` gives EndText and leaves the block, warning iff more than one character remains after trimming; another `%%` line gives Text with what follows `%%`; any other line gives Text with the whole line and an error |
| LineFacts.ClassifyOrder | src/LineTokenizer.ts:47-110 | precedence: text block, then a field mark anywhere (before `%%` and comment tests), then `%%` lines, then the rest |
| LineFacts.DirectiveLines | src/LineTokenizer.ts:75-98 | `%%text`, `%%center`, `%%begintext` in that order give sub-kinds Text, Center, BeginText, else style sheet with no sub-kind; value is the rest after the directive; only `%%begintext` opens a block and it warns iff non-blank text follows |
| LineFacts.OtherLines | src/LineTokenizer.ts:100-110 | comment iff the first `%` has only white space before it, with the text after that `%`; blank iff all white space; otherwise music code iff in a tune, free text iff not, with the whole line |
| LineFacts.CommentLineIff | src/LineTokenizer.ts:100-102 | `/^\s*%/` holds exactly when the first `%` has only white space before it |
| LineFacts.SkipsWhitespace | src/LineTokenizer.ts:100 | trimming skips exactly a leading run of white space |
| LineFacts.ScanKinds | src/LineTokenizer.ts:22-129 | every call: line kind or EOF at the cursor, at most one error, music code only in a tune, free text only outside, declaration exactly when line 1 is read and starts `%abc` and never after, a value on every line token but a blank line |
| LineFacts.ScanPendingComment | src/LineTokenizer.ts:31-38 | a non-empty deferred comment comes first, as a Comment at the stored position; the slot clears, the line advances, the column resets to 1 |
| LineFacts.ScanAtEnd | src/LineTokenizer.ts:40-43 | past the last line every call returns EOF at the cursor and changes nothing |
| LineFacts.ScanLineShape | src/LineTokenizer.ts:45-126 | a read line takes the classification; a music or field line with an unescaped `%` keeps the text before it, defers the rest, and moves the column to the `%` without advancing the line; any other line advances to the next line at column 1 |
| LineFacts.ScanKeepsLine | src/LineTokenizer.ts:123-126 | a line with nothing to split gives exactly the classified token and moves to the next line |
| LineFacts.FinishKeeps | src/LineTokenizer.ts:123-126 | the same, for any classification |
| LineFacts.SplitRoundTrip | src/LineTokenizer.ts:117-122 | kept text + `%` + deferred comment is the line; the next call returns that comment at the `%` column, then moves to the next line |
| LineFacts.ScanProgress | src/LineTokenizer.ts:22-129 | every call uses up input, except EOF (nothing changes) and a split whose deferred comment is empty |
| LineFacts.ScanSplitsLine | src/LineTokenizer.ts:116-122 | a music or field line with a comment gives exactly the text before the `%`, the column at the `%`, and the deferred rest |
| LineFacts.FinishSplits | src/LineTokenizer.ts:116-122 | the same, for any classification |
| LineFacts.EmptyCommentStalls | src/LineTokenizer.ts:31-38 | an empty deferred comment is falsy, so the same line is read again for ever |
| LineFacts.StallExample | src/LineTokenizer.ts:31-38 | the document `K:C%` stays on line 1 for good |
| Sections.PulledAdmissible | old/FileTokenizer.ts:83-85 | a pulled token never trips the three asserts (a declaration only initially, music code only in a tune, free text never in one), and no second declaration can follow |
| Sections.FileState.IsInTune | old/FileTokenizer.ts:18-26 | `isInTune` holds in the tune header and the tune body only; the line tokenizer is asked for music code there (`Sections.PulledAdmissible`) |
| FileTokens.Begin | old/FileTokenizer.ts:34-44 | a new file tokenizer satisfies the invariant |
| FileTokens.IncomingAdmissible | old/FileTokenizer.ts:83-85 | the token a step takes, saved or pulled, never trips the asserts |
| FileTokens.Step | old/FileTokenizer.ts:54-358 | one call of `getTokenInternal`: queue, then slot, then a pulled token through the switch (`FileFacts.StepOrder`); keeps the invariant (`FileTokens.StepKeepsValid`) |
| FileTokens.Dispatch | old/FileTokenizer.ts:70-87 | comments pass, EOF passes or closes an open header, then the section switch (`FileFacts.CommentPasses`, `FileFacts.EofClosesHeader`); keeps the invariant (`FileTokens.DispatchKeepsValid`) |
| FileTokens.InInitial | old/FileTokenizer.ts:88-127 | the initial section; its behaviour per line kind is stated by `FileFacts.DeclarationOpensHeader`, `FieldWithoutDeclaration`, `BlankWithoutDeclaration`, `ProseWithoutDeclaration` |
| FileTokens.InFileHeader | old/FileTokenizer.ts:129-183 | the file header; stated by `FileFacts.FieldOpensHeader`, `FieldInOpenHeader`, `BlankClosesHeader`, `ProseEndsHeader` |
| FileTokens.InInterTune | old/FileTokenizer.ts:185-221 | between tunes; stated by `FileFacts.FieldOpensTune`, `BetweenTunes` |
| FileTokens.InFreeText | old/FileTokenizer.ts:223-256 | free text; stated by `FileFacts.ProseSections` and `FileFacts.FieldLeavesProse` |
| FileTokens.InTypesetText | old/FileTokenizer.ts:258-291 | typeset text; stated by `FileFacts.ProseSections` and `FileFacts.FieldLeavesProse` |
| FileTokens.InTuneHeader | old/FileTokenizer.ts:293-336 | the tune header; stated by `FileFacts.FieldInTuneHeader`, `PassesInTuneHeader`, `MusicOpensBody`, `GotKSurvivesBlank` |
| FileTokens.InTuneBody | old/FileTokenizer.ts:338-354 | the tune body; stated by `FileFacts.BlankEndsBody` |
| FileTokens.NextToken | old/FileTokenizer.ts:46-52 | the retry loop ends and keeps the invariant |
| FileTokens.NextTokenUnfold | old/FileTokenizer.ts:46-52 | `getToken` returns the first token a step returns, with the errors of all steps so far |
| FileTokens.StepKeepsValid | old/FileTokenizer.ts:54-358 | every step keeps at most one queued token, a saved token the next step emits, both in use only around a tune body start, the declaration only initially, the open-header flag only in the file header |
| FileTokens.DispatchKeepsValid | old/FileTokenizer.ts:87-355 | each section's handling, started with an empty queue and slot, leaves a valid state |
| FileTokens.SavedIsEmitted | old/FileTokenizer.ts:62-68 | a saved token is returned by the next step that does not dequeue |
| FileTokens.DispatchSilent | old/FileTokenizer.ts:87-355 | a step that returns nothing leaves the line tokenizer alone, never drops EOF, and saves a field or music code |
| FileTokens.StepProgress | old/FileTokenizer.ts:46-52 | a step that returns nothing lowers the measure, so the loop terminates |
| FileTokens.FileTokenizer.constructor | old/FileTokenizer.ts:41-44 | fields start in the initial section with empty queue and slot and no callback |
| FileTokens.FileTokenizer.SetErrorCB | src/BaseTokenizer.ts:8-10 | registering a callback keeps the invariant and replaces the previous one |
| FileTokens.FileTokenizer.GetToken | old/FileTokenizer.ts:46-52 | returns `NextToken`'s token, moves the fields to its state, delivers its errors in order |
| FileTokens.FileTokenizer.Attempt | old/FileTokenizer.ts:48-50 | one loop round: progress towards `NextToken`, lowering the measure when it returns nothing |
| FileTokens.FileTokenizer.GetTokenInternal | old/FileTokenizer.ts:54-358 | returns `Step`'s output, moves the fields to its state, delivers its errors |
| FileTokens.FileTokenizer.Take | old/FileTokenizer.ts:62-68 | takes the saved token and clears the slot, else pulls with `inTune` from the section |
| FileTokens.FileTokenizer.Handle | old/FileTokenizer.ts:70-87 | comments pass, EOF passes or closes an open header; the asserts hold; the section switch follows |
| FileTokens.FileTokenizer.HandleInitial | old/FileTokenizer.ts:88-127 | returns `InInitial`'s token, moves the fields to its state, delivers its errors to the callback |
| FileTokens.FileTokenizer.HandleFileHeader | old/FileTokenizer.ts:129-183 | returns `InFileHeader`'s token, moves the fields to its state, delivers its errors to the callback |
| FileTokens.FileTokenizer.HandleInterTune | old/FileTokenizer.ts:185-221 | returns `InInterTune`'s token, moves the fields to its state, delivers its errors to the callback |
| FileTokens.FileTokenizer.HandleFreeText | old/FileTokenizer.ts:223-256 | returns `InFreeText`'s token, moves the fields to its state, delivers its errors to the callback |
| FileTokens.FileTokenizer.HandleTypesetText | old/FileTokenizer.ts:258-291 | returns `InTypesetText`'s token, moves the fields to its state, delivers its errors to the callback |
| FileTokens.FileTokenizer.HandleTuneHeader | old/FileTokenizer.ts:293-336 | returns `InTuneHeader`'s token, moves the fields to its state, delivers its errors to the callback |
| FileTokens.FileTokenizer.HandleTuneBody | old/FileTokenizer.ts:338-354 | returns `InTuneBody`'s token, moves the fields to its state, delivers its errors to the callback |
| FileFacts.Pulled | old/FileTokenizer.ts:62-87 | with nothing queued, the switch sees an emptied slot and queue and an admissible token |
| FileFacts.StepOrder | old/FileTokenizer.ts:57-68 | sources in order: queue (nothing else touched, nothing reported), then the saved token, then the line tokenizer with `inTune` for the two tune sections |
| FileFacts.CommentPasses | old/FileTokenizer.ts:70-72 | a comment is returned unchanged; only the line tokenizer moves |
| FileFacts.EofPasses | old/FileTokenizer.ts:73-81 | EOF is returned unchanged when no file header is open |
| FileFacts.EofClosesHeader | old/FileTokenizer.ts:73-81 | EOF in an open header gives a file header end at its position with no value, then the EOF |
| FileFacts.EofRepeats | old/FileTokenizer.ts:73-81 | at the end with the header open, the file header end and EOF alternate for ever |
| FileFacts.DeclarationOpensHeader | old/FileTokenizer.ts:90-97 | the declaration passes and the file header begins; an error iff the version is not 2.1 |
| FileFacts.FieldWithoutDeclaration | old/FileTokenizer.ts:99-106 | a field or style sheet first: error, then a file header start, then the line |
| FileFacts.BlankWithoutDeclaration | old/FileTokenizer.ts:108-113 | a blank line first: error, swallowed, between tunes |
| FileFacts.ProseWithoutDeclaration | old/FileTokenizer.ts:115-125 | free or typeset text first: error, passes, opens its section |
| FileFacts.FieldOpensHeader | old/FileTokenizer.ts:131-141 | the first field or style sheet line gives a file header start at its position with no value, then the line, and sets the flag |
| FileFacts.FieldInOpenHeader | old/FileTokenizer.ts:131-141 | later header lines pass unchanged |
| FileFacts.BlankClosesHeader | old/FileTokenizer.ts:143-155 | a blank line moves between tunes; it becomes the file header end iff the header was opened, else it is swallowed; the flag clears |
| FileFacts.ProseEndsHeader | old/FileTokenizer.ts:157-181 | free or typeset text in the header: error; an opened header gives the header end first and the line next, in its new section |
| FileFacts.FieldOpensTune | old/FileTokenizer.ts:187-198 | a field between tunes gives a tune header start (error iff not `X:`), then the field itself |
| FileFacts.FieldBetweenTunesStep | old/FileTokenizer.ts:187-198 | the step that starts a tune saves the field and enters the tune header |
| FileFacts.BetweenTunes | old/FileTokenizer.ts:200-219 | between tunes: style sheet passes with an error, blank swallowed, free or typeset text passes and opens its section |
| FileFacts.FieldLeavesProse | old/FileTokenizer.ts:223-291 | a field in free or typeset text: error, then a tune header start, then the field |
| FileFacts.FieldInProseStep | old/FileTokenizer.ts:223-291 | the step that reports such a field saves it and moves between tunes |
| FileFacts.ProseSections | old/FileTokenizer.ts:223-291 | in free or typeset text: the section's own kind passes; a blank is swallowed and moves between tunes; a style sheet is reported (its section's message), passes and moves between tunes; the other prose kind is reported, passes and switches section |
| FileFacts.FieldInTuneHeader | old/FileTokenizer.ts:295-302 | a header field passes; `K:` sets the flag; an error iff a non-`K:` field follows a `K:` |
| FileFacts.PassesInTuneHeader | old/FileTokenizer.ts:304-307 | typeset text and style sheet lines pass through the tune header and change nothing |
| FileFacts.MusicOpensBody | old/FileTokenizer.ts:317-334 | music code gives a tune header end, a tune body start, then the music code; error iff no `K:`; the flag clears |
| FileFacts.GotKSurvivesBlank | old/FileTokenizer.ts:309-315 | a blank line gives the tune header end and leaves the `K:` flag as it was |
| FileFacts.BlankEndsBody | old/FileTokenizer.ts:338-354 | in a tune body a blank line becomes the tune body end; anything else passes |
| EarlyFileTokens.Begin | src/FileTokenizer.ts:29-38 | a new tokenizer satisfies the invariant |
| EarlyFileTokens.IncomingAdmissible | src/FileTokenizer.ts:72-74 | the token a step takes never trips the asserts |
| EarlyFileTokens.Step | src/FileTokenizer.ts:52-250 | one call of `getTokenInternal`: queue, then slot, then a pulled token through the switch (`EarlyFileFacts.StepOrder`); keeps the invariant (`EarlyFileTokens.StepKeepsValid`) |
| EarlyFileTokens.Dispatch | src/FileTokenizer.ts:68-76 | comments and EOF pass, then the section switch (`EarlyFileFacts.CommentAndEofPass`); keeps the invariant (`EarlyFileTokens.DispatchKeepsValid`) |
| EarlyFileTokens.InInitial | src/FileTokenizer.ts:77-101 | the initial section; stated by `EarlyFileFacts.DeclarationThenHeaderStart`, `HeaderStartFirst` |
| EarlyFileTokens.InFileHeader | src/FileTokenizer.ts:103-126 | the file header; stated by `EarlyFileFacts.InHeader` |
| EarlyFileTokens.InInterTune | src/FileTokenizer.ts:128-156 | between tunes; stated by `EarlyFileFacts.FieldOpensTune`, `BetweenTunes` |
| EarlyFileTokens.InFreeText | src/FileTokenizer.ts:158-175 | free text; stated by `EarlyFileFacts.InFreeTextSection` |
| EarlyFileTokens.InTuneHeader | src/FileTokenizer.ts:187-229 | the tune header; stated by `EarlyFileFacts.FieldInTuneHeader`, `PassesInTuneHeader`, `MusicOpensBody`, `BlankEndsTune` |
| EarlyFileTokens.InTuneBody | src/FileTokenizer.ts:231-246 | the tune body; stated by `EarlyFileFacts.PassesInTuneBody`, `BlankEndsTune` |
| EarlyFileTokens.NextToken | src/FileTokenizer.ts:44-50 | the retry loop ends and keeps the invariant |
| EarlyFileTokens.NextTokenUnfold | src/FileTokenizer.ts:44-50 | `getToken` returns the first token a step returns, with all diagnostics so far |
| EarlyFileTokens.StepKeepsValid | src/FileTokenizer.ts:52-250 | every step keeps the buffer bounds and never enters the typeset text section, which nothing assigns |
| EarlyFileTokens.DispatchKeepsValid | src/FileTokenizer.ts:76-247 | each section's handling leaves a valid state |
| EarlyFileTokens.DispatchSilent | src/FileTokenizer.ts:76-247 | only a blank line between tunes or in free text is swallowed |
| EarlyFileTokens.StepProgress | src/FileTokenizer.ts:44-50 | a step that returns nothing consumed a line, so the loop terminates |
| EarlyFileTokens.FileTokenizer.constructor | src/FileTokenizer.ts:36-38 | fields start in the initial section with empty queue, slot and log |
| EarlyFileTokens.FileTokenizer.Error | src/FileTokenizer.ts:40-42 | a diagnostic at the token's position is written; nothing else changes |
| EarlyFileTokens.FileTokenizer.GetToken | src/FileTokenizer.ts:44-50 | returns `NextToken`'s token, moves the fields to its state, writes its diagnostics |
| EarlyFileTokens.FileTokenizer.Attempt | src/FileTokenizer.ts:46-48 | one loop round, lowering the measure when it returns nothing |
| EarlyFileTokens.FileTokenizer.GetTokenInternal | src/FileTokenizer.ts:52-250 | returns `Step`'s output and moves the fields to its state |
| EarlyFileTokens.FileTokenizer.Take | src/FileTokenizer.ts:60-66 | takes the saved token, else pulls with `inTune` from the section |
| EarlyFileTokens.FileTokenizer.Handle | src/FileTokenizer.ts:68-76 | comments and EOF pass; the asserts hold; the typeset text case is unreachable |
| EarlyFileTokens.FileTokenizer.HandleInitial | src/FileTokenizer.ts:77-101 | returns `InInitial`'s token, moves the fields to its state, writes its diagnostics |
| EarlyFileTokens.FileTokenizer.HandleFileHeader | src/FileTokenizer.ts:103-126 | returns `InFileHeader`'s token, moves the fields to its state, writes its diagnostics; the music-code failure is proved unreachable |
| EarlyFileTokens.FileTokenizer.HandleInterTune | src/FileTokenizer.ts:128-156 | returns `InInterTune`'s token, moves the fields to its state, writes its diagnostics |
| EarlyFileTokens.FileTokenizer.HandleFreeText | src/FileTokenizer.ts:158-175 | returns `InFreeText`'s token, moves the fields to its state, writes its diagnostics |
| EarlyFileTokens.FileTokenizer.HandleTuneHeader | src/FileTokenizer.ts:187-229 | returns `InTuneHeader`'s token, moves the fields to its state, writes its diagnostics |
| EarlyFileTokens.FileTokenizer.HandleTuneBody | src/FileTokenizer.ts:231-246 | returns `InTuneBody`'s token, moves the fields to its state, writes its diagnostics |
| EarlyFileFacts.Pulled | src/FileTokenizer.ts:60-76 | with nothing queued, the switch sees an emptied slot and queue and an admissible token |
| EarlyFileFacts.StepOrder | src/FileTokenizer.ts:55-66 | sources in order: queue, saved token, line tokenizer |
| EarlyFileFacts.CommentAndEofPass | src/FileTokenizer.ts:68-70 | comments and EOF pass unchanged in every section; no file header end at EOF |
| EarlyFileFacts.DeclarationThenHeaderStart | src/FileTokenizer.ts:79-91 | the declaration comes first, then a file header start at its position; a diagnostic iff the version is not 2.1 |
| EarlyFileFacts.OpeningStep | src/FileTokenizer.ts:93-99 | any other first line is saved and a file header start returned |
| EarlyFileFacts.HeaderStartFirst | src/FileTokenizer.ts:93-99 | any other first line: file header start, then the line reprocessed in the header (a blank line at once becomes the header end) |
| EarlyFileFacts.InHeader | src/FileTokenizer.ts:103-126 | in the header a blank line becomes the header end and moves between tunes; free text is reported but passes and stays; the rest passes |
| EarlyFileFacts.FieldBetweenTunesStep | src/FileTokenizer.ts:130-141 | the step that starts a tune saves the field and enters the tune header |
| EarlyFileFacts.FieldOpensTune | src/FileTokenizer.ts:130-141 | a field between tunes gives a tune header start (diagnostic iff not `X:`), then the field |
| EarlyFileFacts.BetweenTunes | src/FileTokenizer.ts:143-155 | between tunes a blank is swallowed, free text opens its section, the rest passes |
| EarlyFileFacts.InFreeTextSection | src/FileTokenizer.ts:158-175 | in free text a blank is swallowed and ends it; a field or style sheet is reported, passes and stays |
| EarlyFileFacts.FieldInTuneHeader | src/FileTokenizer.ts:189-196 | a header field passes; `K:` sets the flag; a diagnostic iff a non-`K:` field follows a `K:` |
| EarlyFileFacts.PassesInTuneHeader | src/FileTokenizer.ts:198-200 | typeset text and style sheet lines pass through the tune header and change nothing |
| EarlyFileFacts.MusicOpensBody | src/FileTokenizer.ts:210-227 | music code gives a tune header end, a tune body start, then the music code; diagnostic iff no `K:`; the flag clears |
| EarlyFileFacts.MusicStep | src/FileTokenizer.ts:210-227 | the step that ends the header saves the music code and queues the body start |
| EarlyFileFacts.MusicInBody | src/FileTokenizer.ts:231-237 | music code in a tune body passes |
| EarlyFileFacts.PassesInTuneBody | src/FileTokenizer.ts:231-246 | in the tune body every line but a blank one passes through and changes nothing |
| EarlyFileFacts.BlankEndsTune | src/FileTokenizer.ts:202-244 | a blank line ends a tune header or body as its end token and moves between tunes |

## Left out

- Splitting the input with `os.EOL` (src/LineTokenizer.ts:19) depends on the host platform. The constructors take the document already split into lines.
- The console line printed by `error` (src/BaseTokenizer.ts:13) is output only. The earlier file tokenizer's errors (src/FileTokenizer.ts:40-42) are console output too, recorded here in the ghost log `diagnostics`.
- The callback is foreign code. It is represented by an identity, and its invocations are recorded in a ghost log. What it does with the token is not modelled.
- Lengths and positions are counted in Unicode characters, while JavaScript's `length`, `indexOf` and `substr` count UTF-16 code units. For a line with a character outside the Basic Multilingual Plane the model can differ: `%%endtext 𝄞` warns in the source (length 2 after trimming) but not in the model, and the column of a split comment after such a character is one less in the model.
- `Lines.IsWs` recognises only ASCII white space. JavaScript's `\s` and `trim()` also accept Unicode spaces such as U+00A0 and U+FEFF.
- The call `token.value.replace(...)` at src/LineTokenizer.ts:112-114 discards its result, so it changes nothing and is left out.
- The Queue of `typescript-collections` is a `seq<Token>`.
- Tokens are values: the copies made with `Object.assign` and the in-place retyping become record updates. No token object is shared after it is retyped, so nothing observable is lost.
- The Node asserts are proved, so no run-time failure path is modelled.
- The escape-cleaning pass, src/index.ts (a command-line driver reading files) and the test files are not part of this model.

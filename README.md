# atlasprint in Dafny

A model of the logic of the QGIS Server plug-in *atlasprint* (3Liz). The plug-in prints one feature of a
layout's atlas to PDF on request. The model proves properties of that logic.

It covers these parts of the plug-in:

- **Expression rewriting.** `optimize_expression` turns `$id` into the quoted name of the layer's key
  field (`atlasprint/core.py`). The older `$id` rewrite keeps the first number of the filter and builds
  `"pk" IN (n)` (`filters/core.py`, `filters/atlasprintFilter.py`). Both live in module `Expression`.
- **Scale lists.** `global_scales` and `project_scales` read `"1:500,1:1000"` lists and skip malformed
  entries (module `Scales`, loops proved against the function `ScaleValues`).
- **`print_atlas` of the newer core.** Module `AtlasCore` covers `atlasprint/core.py`:
  - the layout checks, in order, with their messages;
  - Fixed or Predefined scale mode;
  - which scale list wins: the request's, the project's or the global one;
  - the extra request arguments written into label items;
  - the expression checks;
  - the export check.
  Layouts are objects of class `Layout`, whose fields `print_atlas` updates in place. `PrintAtlas`
  is proved against the step functions `ScaleStep`, `FilterStep` and `FinishStep`.
- **`print_atlas` of the older core.** Module `LegacyCore` covers `filters/core.py`: one scale given as
  text, the `$id` rewrite, the same scale fallback and the same export check.
- **Request handling.**
  - The ATLAS service (`atlasprintServer/atlasprintService.py`) is module `Service`.
  - Its check chain on TEMPLATE, EXP_FILTER, the expression, SCALE and SCALES is module `Validation`.
    The newer WMS filter (`atlasprintServer/filters/atlasprintFilter.py`, module `ServerFilter`)
    shares that chain.
  - The older WMS filter (`filters/atlasprintFilter.py`, module `LegacyFilter`) has its own key check.
    It looks the layout up in the project's XML and has its own `print_atlas`.
  - Responses are objects of class `Http.ServerResponse`: a status code, headers and a body.
- **Usage statistics.** `atlasprint/plausible.py` (module `Stats`):
  - the one-field throttle of `request_stat_event`;
  - the URL, domain and version strings of `_send_stat_event`.

QGIS is an input throughout:

- the expression parser and evaluator are functions from the filter text to an optional error text;
- the project's layouts are `Layout` objects;
- the QGIS version is a number;
- the export result and the file's existence are booleans;
- the temporary directory and the uuid are strings;
- the clock is a number of seconds.

The service and the newer WMS filter call the `print_atlas` of `atlasprintServer/core.py`. That file is
not part of this model, so its outcome is an input function of the checked request.

Python's string operations are written out on `seq<char>` in module `Text`: `find`, `in`, `split`,
`join`, `replace`, ASCII `lower`, `int()` (an optional sign and at least one ASCII digit) and the first
match of `\d+`.

Notes on the code:

- `optimize_expression` checks `primaryKeyAttributes()` but then reads `fields().at(0)`, and rewrites
  only when that field is an Int (atlasprint/core.py:214-220).
- `print_atlas` raises only when the export is not Success AND the file is missing
  (atlasprint/core.py:200-201, filters/core.py:177). The older filter gives up when either goes wrong
  (filters/atlasprintFilter.py:283-289).
- The service and the filters always answer with a PDF. FORMAT is never read, except as a required key
  of the older filter (filters/atlasprintFilter.py:107).
- The newer filter's 500 message carries the exception's text
  (atlasprintServer/filters/atlasprintFilter.py:141-147).

Where the code and the plug-in's tests disagree, the model follows the code:

- tests/test_getprintatlas.py:179-190 expects a report layout without EXP_FILTER to print, but the
  check chain refuses a missing EXP_FILTER.
- tests/test_getprintatlas.py:36-38 expects 'EXP_FILTER is mandatory to print an atlas layout'; the
  code says 'EXP_FILTER is required'.
- tests/test_tools.py:50-53 expects `$id=3` to become `"primary"=3` on a layer with one key whose
  field 0 is a double. atlasprint/core.py:218-220 only rewrites when field 0 is an Int, so the model
  returns `$id=3` unchanged there (`Expression.OptimizeNonIntExamples`).

## Model

| member | source | states |
|---|---|---|
| Text.Find | atlasprint/core.py:211 | `str.find`: the index of the leftmost occurrence, or -1 exactly when there is none. |
| Text.Contains | atlasprint/plausible.py:77 | `p in s`: `find` is not -1; `Find` states when that is. |
| Text.Split | atlasprint/core.py:48 | `str.split(p)`: at least one piece. `SplitPieces` fixes the first piece as the text before the leftmost occurrence and `SplitJoin` the join of them all. |
| Text.SplitPieces | atlasprint/plausible.py:93-95 | No piece of `split(p)` contains `p`. The first piece is the prefix of the string up to `find(p)` when `p` occurs; otherwise the string is the only piece. |
| Text.Join | atlasprint/plausible.py:95 | `sep.join(parts)`; `JoinAppend` and `SplitJoin` relate it to `split`. |
| Text.ReplaceAll | atlasprint/core.py:222 | `s.replace(p, r)`; `ReplaceIsSplitJoin` and `ReplaceAbsent` state what it does. |
| Text.SplitJoin | atlasprint/core.py:48 | Joining the pieces of `split(p)` with `p` gives the string back. |
| Text.SplitAbsent | atlasprint/core.py:51-53 | A string without the separator splits into itself alone. |
| Text.SplitAtChar | atlasprint/plausible.py:93-95 | Splitting on a character distributes over an occurrence of that character. |
| Text.JoinAppend | atlasprint/plausible.py:95 | `join` of a concatenation is the two joins around one separator. |
| Text.SplitPrefixJoin | atlasprint/plausible.py:95-100 | Joining the first k pieces of a split gives a prefix of the string. |
| Text.ReplaceIsSplitJoin | atlasprint/core.py:222 | `s.replace(p, r)` equals `r.join(s.split(p))`. |
| Text.ReplaceAbsent | atlasprint/core.py:222 | Replacing a text that does not occur changes nothing. |
| Text.Lower | atlasprintServer/atlasprintService.py:113 | Same length; each character is its ASCII lower case. |
| Text.NatToDecimal | filters/core.py:146 | At least one digit, only digits, and no leading zero except for 0. |
| Text.DecimalRoundTrip | filters/core.py:133-146 | Reading back the decimal text of n gives n. |
| Text.ParseInt | atlasprintServer/atlasprintService.py:166-176 | `int()`: Some exactly for one or more ASCII digits, optionally after a single `+` or `-`. The value is the decimal value of the digits, negated after `-`. |
| Text.IntRoundTrip | atlasprintServer/atlasprintService.py:168 | `int(str(i)) == i` for every integer. |
| Text.IntToDecimal | atlasprintServer/atlasprintService.py:168 | `str(i)`: a `-` before the decimal digits of a negative number; `IntRoundTrip` reads it back. |
| Text.DigitsEnd | filters/core.py:133 | The end of the run of digits from i: every character before it is a digit and the one at it is not. |
| Text.FirstDigitRun | filters/core.py:133 | The first match of `\d+`: None iff there is no digit; otherwise a maximal run of digits with no digit before it. |
| Text.FirstDigitRunIs | filters/core.py:133-135 | The first match of `\d+` is unique: a maximal run of digits with no digit before it is exactly that match. |
| Expression.OptimizeExpression | atlasprint/core.py:206-226 | Unchanged when `$id` does not occur, when the layer has 0 or 2+ primary keys, or when field 0 is not an Int. Otherwise the result is the `$id`-split of the input joined with `"name"` of field 0: every occurrence is replaced and all other text is kept. |
| Expression.OptimizeUnchangedExamples | atlasprint/core.py:211-216 | `abc` is unchanged; `$id=3` is unchanged with no key and with two keys. |
| Expression.OptimizeNonIntExamples | atlasprint/core.py:218-220 | `$id=3` is unchanged when field 0 is a string or a double, even with one key. |
| Expression.OptimizeLeadingId | atlasprint/core.py:222 | A filter that starts with `$id` and has no other `$` becomes the quoted field name followed by the same tail. |
| Expression.OptimizeEqualityExample | atlasprint/core.py:222 | `$id=3` becomes `"primary"=3`. |
| Expression.OptimizeInListExample | atlasprint/core.py:222 | `$id in ('1','2')` becomes `"primary" in ('1','2')`. |
| Expression.UseFid | filters/core.py:131-135 | Set exactly when `$id` occurs and the filter has a digit. Its value is that of the first maximal run of digits. |
| Expression.FidFilter | filters/core.py:142-150 | The filter is rewritten only when the fid is set and non-zero and there is exactly one key. The rewrite is `"<field at the key's index>" IN (<fid in decimal>)`; otherwise the filter is unchanged. |
| Expression.FidFilterListExample | filters/core.py:144-146 | `$id IN (1,2)` becomes `"gid" IN (1)`: only the first number survives. |
| Expression.FidFilterLeadingZerosExample | filters/core.py:133-146 | `$id = 007` becomes `"gid" IN (7)`: leading zeros are dropped. |
| Expression.FidFilterZeroExample | filters/core.py:144 | `$id = 0` is unchanged, because a zero fid is false. |
| Scales.ParseScaleEntries | atlasprint/core.py:48-55 | The append loop computes `ScaleValues` of its entries. |
| Scales.ScaleValues | atlasprint/core.py:48-55 | The values of the two-part entries, in order, or None when one does not read; the `Scales.ScaleValues…` lemmas state its properties. |
| Scales.GlobalScales | atlasprint/core.py:35-55 | The scales of the `Map/scales` setting, or of the default string when the setting is unset. The default gives the eleven default scales. |
| Scales.ProjectScales | atlasprint/core.py:58-83 | An empty list when project scales are off; otherwise `ScaleValues` of the project's list. |
| Scales.ScaleValuesNonePersists | atlasprint/core.py:50-54 | Once an entry's number does not parse, the whole read fails, whatever follows. |
| Scales.ScaleValuesSuffixNone | atlasprint/core.py:50-54 | A bad number later in the list fails the read, whatever comes before it. |
| Scales.ScaleValuesAppend | atlasprint/core.py:50-54 | Reading a concatenation gives the two readings concatenated: input order is kept. |
| Scales.ScaleValuesInit | atlasprint/core.py:50-54 | A list that reads has a prefix that reads. |
| Scales.ScaleValuesBound | atlasprint/core.py:50-54 | There are never more scales than entries. |
| Scales.ScaleValuesSkip | atlasprint/core.py:51-53 | An entry without exactly two `:`-parts is skipped, wherever it stands. |
| Scales.EntryValue | atlasprint/core.py:51-54 | `1:n` splits into `1` and `n`, and `n` reads back as n. |
| Scales.ScaleValuesOfEntries | atlasprint/core.py:50-54 | The entries `1:n` of a list of numbers read back as that list. |
| Text.SplitJoinedPieces | atlasprint/core.py:42-48 | Splitting a comma-joined list of comma-free pieces gives the pieces back. |
| Scales.DefaultEntriesFor | atlasprint/core.py:42-44 | The eleven default entries are `1:n` of the default scales. |
| Scales.EntriesFor | atlasprint/core.py:42-44 | One entry `1:<n>` per scale, in order. |
| Scales.DefaultScalesValues | atlasprint/core.py:42-55 | The default string reads as [1000000, 500000, …, 1000, 500]. |
| AtlasCore.FirstNamed | atlasprint/core.py:116 | `layoutByName`: None iff no layout has the name; otherwise a layout with the name and none before it. |
| AtlasCore.Layout.constructor | atlasprint/core.py:115-134 | A project layout with its name, type, atlas flag, reference map and coverage layer; Auto mode, no filter and the given label texts. |
| AtlasCore.Layout.State | atlasprint/core.py:138-174 | The part of a layout `print_atlas` changes: scaling mode, scale, report scales, label texts and the atlas filter. |
| AtlasCore.PrintLayouts | atlasprint/core.py:124 | `printLayouts()`: exactly the print layouts of the project. |
| AtlasCore.PrintLayoutsAppend | atlasprint/core.py:124 | `printLayouts()` keeps the project's order: adding a layout at the end adds it at the end iff it is a print layout. |
| AtlasCore.CheckLayout | atlasprint/core.py:115-134 | 'Layout not found' iff no layout has the name. 'The layout is not a print layout' when the first layout with the name is not a print layout. 'The layout is not enabled for an atlas' when it is a print layout without an atlas. Success iff it is a print layout with its atlas enabled; the value is that layout. |
| AtlasCore.FirstPrintLayoutIsMaster | atlasprint/core.py:116-129 | When the named layout is a print layout, the print-layout loop finds that same layout. |
| AtlasCore.LayoutNotFoundUnreachable | atlasprint/core.py:124-129 | 'The layout is not found' is never the result. |
| AtlasCore.LayoutCheckFirstWins | atlasprint/core.py:116-119 | Adding a layout after a named one does not change the outcome. |
| AtlasCore.FirstNamedAppend | atlasprint/core.py:116 | Adding a layout after a named one does not change the lookup. |
| AtlasCore.FindPrintLayout | atlasprint/core.py:124-129 | The `for … break` loop returns the first print layout with the name. |
| AtlasCore.ResolveLayout | atlasprint/core.py:115-134 | The checks, in order, give exactly the result of `CheckLayout`, so the same four outcomes and messages; the loop's 'The layout is not found' never comes out. |
| AtlasCore.LabelTexts | atlasprint/core.py:149-153 | Writing the extra arguments never adds or removes items. |
| AtlasCore.LabelTextsUntouched | atlasprint/core.py:149-153 | An item whose id no lower-cased key matches keeps its text. |
| AtlasCore.LabelTextsLastWins | atlasprint/core.py:149-153 | An item gets the value of the last argument whose lower-cased key is its id. |
| AtlasCore.FallbackNewApi | atlasprint/core.py:176-186 | From QGIS 3.9: the project's scales when enabled and non-empty, otherwise the global scales. |
| AtlasCore.FallbackOldApiAlwaysGlobal | atlasprint/core.py:180-186 | Before QGIS 3.9, `use_project = len == 0` makes the global scales the choice every time. |
| AtlasCore.FallbackScales | atlasprint/core.py:176-186 | The scales used when none are requested; `FallbackNewApi` and `FallbackOldApiAlwaysGlobal` state which list wins. |
| AtlasCore.NoReferenceMap | atlasprint/core.py:139 | The AttributeError message of a call on the missing reference map. |
| AtlasCore.PathJoin | atlasprint/core.py:193-196 | `os.path.join`: ends with the file name and starts with the directory, unless the name is absolute. |
| AtlasCore.ExportPath | atlasprint/core.py:193-196 | The path ends in `.pdf`. |
| AtlasCore.ExportPathFile | atlasprint/core.py:193-196 | The path ends in the file name `<layout>_<uuid>.pdf`, and starts with the temporary directory unless that name is absolute. |
| AtlasCore.Export | atlasprint/core.py:197-203 | Raises 'export not generated <path>' iff the export failed AND the file is missing; otherwise returns the path. |
| AtlasCore.ApplyScales | atlasprint/core.py:138-147 | Updates the layout exactly as `ScaleStep` says: Fixed mode at `scale`; Predefined mode with `scales` in the export settings (QGIS ≥ 3.9) or the report context. |
| AtlasCore.ApplyFilter | atlasprint/core.py:149-174 | Updates the layout as `FilterStep` says: label texts, the rewritten filter, the parser and eval checks, then filtering on. |
| AtlasCore.ChooseFallbackScales | atlasprint/core.py:176-186 | Computes `FallbackScales`. |
| AtlasCore.Finish | atlasprint/core.py:176-203 | Applies the fallback scales in Predefined mode when no scales were requested, then the export check, as `FinishStep` says. |
| AtlasCore.ScaleStep | atlasprint/core.py:138-147 | The scale part of `print_atlas`; `ApplyScales` computes it and `FixedScaleRequest`, `PredefinedScalesRequest` state what it does. |
| AtlasCore.FilterStep | atlasprint/core.py:149-174 | The label, rewrite and expression part; `ApplyFilter` computes it and `ParserErrorStopsBeforeFilter`, `ExportOutcome` state what it does. |
| AtlasCore.FinishStep | atlasprint/core.py:176-203 | The fallback and export part; `Finish` computes it and `FallbackScalesUsed`, `ExportOutcome` state what it does. |
| AtlasCore.Configure | atlasprint/core.py:136-203 | The three steps in order, stopping at the first failure; `PrintAtlas` ends in its state. |
| AtlasCore.PrintAtlas | atlasprint/core.py:86-203 | A failed layout check changes nothing and raises its message. Otherwise the resolved layout ends in the state `Configure` gives, with its result and export settings; every other layout is unchanged. |
| AtlasCore.FixedScaleRequest | atlasprint/core.py:138-140 | A scale without scales gives Fixed mode at that scale, with no predefined scales set. |
| AtlasCore.PredefinedScalesRequest | atlasprint/core.py:142-147 | Scales give Predefined mode: in the export settings from QGIS 3.9, in the report context before. |
| AtlasCore.FallbackScalesUsed | atlasprint/core.py:176-191 | With no scales and Predefined mode, the fallback scales go where the QGIS version says. |
| AtlasCore.ParserErrorStopsBeforeFilter | atlasprint/core.py:155-160 | A parser error raises 'Expression is invalid, parser error: …' after the label texts and before the atlas filter is set. |
| AtlasCore.ExportOutcome | atlasprint/core.py:173-203 | Past the checks, filtering is on with the rewritten filter. The run fails iff the export failed and left no file; otherwise it returns the path. |
| AtlasCore.FinishKeepsFilter | atlasprint/core.py:176-203 | With a reference map and a fallback list that reads, the fallback and export step leaves the atlas filter and filtering flag as they were. It fails iff the export failed and left no file, and otherwise returns the export path. `ExportOutcome` and `LegacyCore.LegacyFilterAndExport` rest on it. |
| LegacyCore.ApplyLegacyScale | filters/core.py:122-124 | Updates the layout as `LegacyScaleStep` says. Fixed mode is set before `int(scale)`, so a bad scale raises with the mode already Fixed. |
| LegacyCore.IntValueError | filters/core.py:124 | The message of `int()` on a text that is not a number. |
| LegacyCore.LegacyScaleStep | filters/core.py:122-124 | The scale part of the older `print_atlas`; `LegacyFixedScale` and `LegacyBadScale` state what it does. |
| LegacyCore.LegacyConfigure | filters/core.py:122-178 | The scale step, the fid rewrite and the shared finish; `LegacyFilterAndExport` states its outcome. |
| LegacyCore.LegacyPrintAtlas | filters/core.py:74-180 | A failed layout check changes nothing. Otherwise the layout ends in the state `LegacyConfigure` gives, and the other layouts are unchanged. |
| LegacyCore.LegacyFixedScale | filters/core.py:122-124 | A scale that reads as an integer gives Fixed mode at that scale. |
| LegacyCore.LegacyBadScale | filters/core.py:122-124 | A scale that is not an integer raises the `int()` ValueError, leaving only the Fixed mode set. |
| LegacyCore.LegacyFilterAndExport | filters/core.py:131-178 | The atlas filter is the fid rewrite of the request's filter, and filtering is not switched on. The run fails iff the export failed and left no file. |
| LegacyCore.LegacyFallbackOldApi | filters/core.py:153-168 | Before QGIS 3.9, Predefined mode always gets the global scales. |
| Validation.ParseInts | atlasprintServer/atlasprintService.py:172-176 | Some iff every piece is an integer; then one value per piece, in order. |
| Validation.ValidatePrint | atlasprintServer/atlasprintService.py:147-176 | Success iff every check passes: non-empty TEMPLATE and EXP_FILTER, a filter that parses, not both SCALE and SCALES, a SCALE that reads as an integer and a SCALES whose every piece does. On success SCALE is set iff given, SCALES iff given, with the values read, and the filter and template are those of the request. |
| Validation.ValidationOrder | atlasprintServer/atlasprintService.py:153-176 | TEMPLATE is checked first, then EXP_FILTER, then the parser, then SCALE with SCALES, then the number in SCALE, then the numbers in SCALES; the first failure gives the message, 'Invalid number in SCALE.' and 'Invalid number in SCALES.' included. |
| Validation.ScaleConflictBeforeNumbers | atlasprintServer/atlasprintService.py:163-164 | SCALE with SCALES is refused before either is read as a number. |
| Validation.EmptyScalesPieceRejected | atlasprintServer/atlasprintService.py:172-176 | An empty piece in SCALES gives 'Invalid number in SCALES.'. |
| Validation.ScaleConflictExample | atlasprintServer/atlasprintService.py:163-164 | SCALE=5000 with SCALES=10000,5000 is the conflict. |
| Validation.InvalidScaleExample | atlasprintServer/atlasprintService.py:166-170 | SCALE=5000n gives 'Invalid number in SCALE.'. |
| Validation.ValidateReadsItsKeys | atlasprintServer/atlasprintService.py:147-150 | The checks read only TEMPLATE, EXP_FILTER, SCALE and SCALES. |
| Service.MetadataOf | atlasprintServer/atlasprintService.py:75-84 | Name and version from metadata.txt when it exists; empty otherwise. |
| Service.WriteJsonResponse | atlasprintServer/atlasprintService.py:39-44 | Sets the code and `Content-Type: application/json`, and appends the document. |
| Service.FormatResponse | atlasprintServer/atlasprintService.py:56-61 | Clears, then writes the fail document with the error's code. |
| Http.ServerResponse.constructor | atlasprintServer/atlasprintService.py:104-109 | A fresh response: code 200, no headers, an empty body, and the request's parameters. |
| Http.ServerResponse.Clear | atlasprintServer/atlasprintService.py:60 | Empties the headers and the body and keeps the code. |
| Http.ServerResponse.SetHeader | atlasprintServer/atlasprintService.py:43 | Sets one header and changes nothing else. |
| Http.ServerResponse.SetStatusCode | atlasprintServer/atlasprintService.py:42 | Sets the code and changes nothing else. |
| Http.ServerResponse.Write | atlasprintServer/atlasprintService.py:44 | Appends one chunk to the body and changes nothing else. |
| Service.AtlasPrintService.constructor | atlasprintServer/atlasprintService.py:66-72 | The metadata is read once, at construction. |
| Service.AtlasPrintService.GetCapabilities | atlasprintServer/atlasprintService.py:133-141 | Writes the success document with the metadata, code 200. |
| Service.AtlasPrintService.GetPrint | atlasprintServer/atlasprintService.py:143-203 | Raises the error of `PrintReply` when there is one; otherwise writes the PDF with code 200. |
| Service.AtlasPrintService.ExecuteRequest | atlasprintServer/atlasprintService.py:104-129 | The response ends as the reply to the request makes it: an error replaces it, a capabilities or PDF reply is added to it. |
| Service.RequestName | atlasprintServer/atlasprintService.py:113 | `params.get('REQUEST', '').lower()`; `RequestCaseInsensitive` and `MissingRequest` use it. |
| Service.ServiceReply | atlasprintServer/atlasprintService.py:104-129 | The reply to a request; `StatusCodes`, `RequestCaseInsensitive` and `UnknownRequestExample` state its properties. |
| Service.PrintReply | atlasprintServer/atlasprintService.py:143-203 | The reply to GetPrint; `PrintReplyCodes` states its codes and messages. |
| Service.Respond | atlasprintServer/atlasprintService.py:56-61 | The response after a reply; `ErrorReplyIsWholeResponse` states what an error leaves. |
| Service.ErrorReplyIsWholeResponse | atlasprintServer/atlasprintService.py:56-61 | An error response has the error's code, only `Content-Type: application/json`, and the fail document as its whole body. |
| Service.RequestCaseInsensitive | atlasprintServer/atlasprintService.py:113-118 | Two REQUEST values equal up to case get the same reply. |
| Service.PrintReplyReadsItsKeys | atlasprintServer/atlasprintService.py:143-176 | GetPrint's reply depends only on TEMPLATE, EXP_FILTER, SCALE and SCALES; `RequestCaseInsensitive` rests on it. |
| Service.MissingRequest | atlasprintServer/atlasprintService.py:113-122 | A missing REQUEST is read as '' and gives 400 'Invalid REQUEST parameter: … found '''. |
| Service.UnknownRequestExample | atlasprintServer/atlasprintService.py:119-122 | REQUEST=Get gives 400 with the lower-cased `get` in the message. |
| Service.PrintReplyCodes | atlasprintServer/atlasprintService.py:185-203 | A refused parameter or user error gives 400 with the 'Error from the user' prefix; any other exception gives 500 with the internal message. A missing file gives 404 'ATLAS PDF not found'. The PDF is sent iff the file exists and can be read and removed. |
| Service.StatusCodes | atlasprintServer/atlasprintService.py:104-129 | Every response code is 200, 400, 404 or 500. |
| Service.NoTemplateExample | atlasprintServer/atlasprintService.py:153-154 | GetPrint without TEMPLATE gives 400 '… TEMPLATE is required'. |
| ServerFilter.AtlasPrintFilter.constructor | atlasprintServer/filters/atlasprintFilter.py:40-54 | No handler yet; the metadata is read once. |
| ServerFilter.AtlasPrintFilter.SetJsonResponse | atlasprintServer/filters/atlasprintFilter.py:56-63 | Clears, then sets `Content-type: text/json` and the status, and appends the document. |
| ServerFilter.AtlasPrintFilter.ResponseComplete | atlasprintServer/filters/atlasprintFilter.py:66-168 | Records the handler. The handler ends as `FilterReplyOf` makes it: untouched, a JSON document, or the PDF. |
| ServerFilter.IsAtlasRequest | atlasprintServer/filters/atlasprintFilter.py:75-84 | SERVICE non-empty and WMS in any case, REQUEST one of the two atlas requests; `UntouchedIffNotAtlas` uses it. |
| ServerFilter.FilterReplyOf | atlasprintServer/filters/atlasprintFilter.py:66-168 | The reply to a request; `UntouchedIffNotAtlas`, `CapabilitiesAtlas`, `SameChecksAsService` and `PrintAtlasCodes` state its properties. |
| ServerFilter.ApplyFilterReply | atlasprintServer/filters/atlasprintFilter.py:56-63 | The handler after a reply; `JsonReplyIsWholeBody` states what a JSON reply leaves. |
| ServerFilter.UntouchedIffNotAtlas | atlasprintServer/filters/atlasprintFilter.py:75-84 | The response is left alone iff SERVICE is missing, empty or not WMS, or REQUEST is not one of the two atlas requests. |
| ServerFilter.CapabilitiesAtlas | atlasprintServer/filters/atlasprintFilter.py:87-93 | GetCapabilitiesAtlas gives 200 with the success document. |
| ServerFilter.SameChecksAsService | atlasprintServer/filters/atlasprintFilter.py:100-124 | A refused GetPrintAtlas gets the same 400 message as the service's GetPrint with the same parameters. |
| ServerFilter.PrintAtlasCodes | atlasprintServer/filters/atlasprintFilter.py:133-166 | A user error gives 400. Any other exception gives 500 'ATLAS - Error while generating the PDF: ' plus its text. An unreadable PDF gives 500 'Error occurred while reading PDF file'; otherwise the PDF is sent. |
| ServerFilter.JsonReplyIsWholeBody | atlasprintServer/filters/atlasprintFilter.py:56-63 | After a JSON reply, the body is exactly that document. |
| LegacyFilter.LastMatch | filters/atlasprintFilter.py:190-195 | None iff no element is selected; otherwise a selected element with none selected after it. |
| LegacyFilter.FindComposerXml | filters/atlasprintFilter.py:187-202 | The two overwrite loops give `ComposerXml`: the last Composer with the title, or else the last Layout with the name. |
| LegacyFilter.ComposerXml | filters/atlasprintFilter.py:187-206 | The layout element `print_atlas` loads; `ComposerBeforeLayout` and `ComposerLastWins` state which. |
| LegacyFilter.ComposerBeforeLayout | filters/atlasprintFilter.py:190-202 | A matching Composer always wins over any matching Layout. |
| LegacyFilter.ComposerLastWins | filters/atlasprintFilter.py:187-206 | Nothing is loaded iff nothing matches; otherwise the loaded element is a match with no match of its kind after it. |
| LegacyFilter.XmlPrintAtlas | filters/atlasprintFilter.py:177-292 | The result is `XmlPrintResult`. A new layout exists iff the filter is non-empty and the XML has the layout. With a reference map, that layout is in Predefined mode with the filter's predefined scales, filtering on, and the fid rewrite as its filter. |
| LegacyFilter.XmlLayoutState | filters/atlasprintFilter.py:230-266 | The loaded layout after configuration: Predefined mode, the filter's scales, filtering on, the fid rewrite. |
| LegacyFilter.XmlPrintResult | filters/atlasprintFilter.py:177-292 | The result of `print_atlas`; `EmptyFilterPrintsNothing` and `ExportCheckStricter` state its properties. |
| LegacyFilter.EmptyFilterPrintsNothing | filters/atlasprintFilter.py:178-180 | An empty filter returns None. |
| LegacyFilter.ExportCheckStricter | filters/atlasprintFilter.py:283-289 | A path is returned iff the export succeeded AND the file exists. A path here is a path for the newer check; a failed export whose file exists is a path there and None here. |
| LegacyFilter.XmlPrintFilterExample | filters/atlasprintFilter.py:247-266 | `$id IN (1,2)` on a layer keyed by `gid` becomes the atlas filter `"gid" IN (1)`. |
| LegacyFilter.LegacyAtlasPrintFilter.constructor | filters/atlasprintFilter.py:38-55 | No handler, project path, layout name or filter yet; the metadata is read once. |
| LegacyFilter.LegacyAtlasPrintFilter.SetJsonResponse | filters/atlasprintFilter.py:72-79 | Clears, then sets `Content-type: text/json` and a `Status` header, and appends the document; the status code is not touched. |
| LegacyFilter.LegacyAtlasPrintFilter.ResponseComplete | filters/atlasprintFilter.py:81-172 | Raises KeyError iff SERVICE is missing. The handler ends as `LegacyReplyOf` makes it. The project path, layout name and filter are recorded iff the request gets past the key check. |
| LegacyFilter.LegacyAtlasPrintFilter.AnswerPrint | filters/atlasprintFilter.py:120-168 | The parse check, `print_atlas`, then the PDF or the read error, as `PrintAnswer` says. |
| LegacyFilter.HasPrintKeys | filters/atlasprintFilter.py:107 | The five keys are present, empty or not; `MissingKeysIsPresenceTest` uses it. |
| LegacyFilter.PrintAnswer | filters/atlasprintFilter.py:120-170 | The reply once the keys are there; `LegacyPrintReplies` states it. |
| LegacyFilter.LegacyReplyOf | filters/atlasprintFilter.py:81-172 | The reply to a request; `LegacyRouting`, `MissingKeysIsPresenceTest` and `LegacyPrintReplies` state its properties. |
| LegacyFilter.ApplyLegacyReply | filters/atlasprintFilter.py:72-79 | The handler after a reply; `AlwaysStatus200` states that the status code is kept. |
| LegacyFilter.AlwaysStatus200 | filters/atlasprintFilter.py:98-168 | Every answer, failures included, carries `Status: 200`, and the status code is never changed. |
| LegacyFilter.LegacyRouting | filters/atlasprintFilter.py:90-104 | KeyError iff SERVICE is missing. Untouched iff SERVICE is not WMS or REQUEST is not an atlas request. Capabilities gives the success document. |
| LegacyFilter.MissingKeysIsPresenceTest | filters/atlasprintFilter.py:107-113 | 'Missing parameters: …' is the answer iff one of TEMPLATE, FORMAT, DPI, MAP, EXP_FILTER is absent; empty values pass. |
| LegacyFilter.LegacyPrintReplies | filters/atlasprintFilter.py:120-168 | A parser error gives its text. A None or an exception from `print_atlas` gives 'ATLAS - Error while generating the PDF'. The PDF is sent iff a path came back and the file can be read. |
| Stats.EventDomain | atlasprint/plausible.py:77-81 | The lizcloud domain iff the app is lizcloud. |
| Stats.EventUrl | atlasprint/plausible.py:75 | The test URL in debug, the prod URL otherwise. |
| Stats.IsLizcloud | atlasprint/plausible.py:77 | The lower-cased application name contains `lizcloud`. |
| Stats.VersionFull | atlasprint/plausible.py:93 | `version.split('-')[0]`; `VersionFullParts` states what it is. |
| Stats.VersionBranch | atlasprint/plausible.py:95 | `'.'.join(full.split('.')[0:2])`; `VersionBranchParts` states what it is. |
| Stats.FirstTwo | atlasprint/plausible.py:95 | `xs[0:2]`: at most two elements, each the one at the same index. |
| Stats.VersionFullParts | atlasprint/plausible.py:93 | The full version has no `-`, and it is the whole version or is followed by `-` in it. |
| Stats.VersionBranchParts | atlasprint/plausible.py:95-100 | Splitting the branch on `.` gives the first two components of the full version; the branch is the full version or is followed by `.` in it. |
| Stats.EventOf | atlasprint/plausible.py:70-119 | The test URL iff the plugin version is `master` or `dev`, and the prod URL otherwise. The lizcloud domain iff the lower-cased app name contains `lizcloud`, and the prod domain otherwise (the test domain is the prod one). The plugin and Python versions are passed on as they are. The full QGIS version is the text before the first `-`. Each branch is the first two `.`-components of its full version, and is that full version or a prefix of it followed by `.`. |
| Stats.SendStatEventAsWritten | atlasprint/plausible.py:122-134 | Returns True on every path that returns. |
| Stats.SendStatEvent | atlasprint/plausible.py:122-134 | Always returns True. |
| Stats.AsWrittenRaisesOnLizcloudError | atlasprint/plausible.py:129-132 | On lizcloud with an error reply, the function as written raises and the corrected one returns True. |
| Stats.LizcloudErrorExample | atlasprint/plausible.py:129-132 | App name `Lizcloud` with an error reply raises. |
| Stats.StatStep | atlasprint/plausible.py:41-61 | True iff neither flag is set, the send succeeds, and no previous send or at least 3600 s since it. A False answer leaves `previous_date` unchanged; True sets it to now. |
| Stats.Plausible.constructor | atlasprint/plausible.py:37-39 | No previous send. |
| Stats.Plausible.RequestStatEvent | atlasprint/plausible.py:41-61 | The answer and the new `previous_date` are those of `StatStep`. |
| Stats.Replay | atlasprint/plausible.py:41-61 | One answer per call of a run; `SentAfterPrevious` and `SentAtMostHourly` state the throttle over it. |
| Stats.SentAfterPrevious | atlasprint/plausible.py:51-59 | Every send in a run is at least 3600 s after the send before the run. |
| Stats.SentAtMostHourly | atlasprint/plausible.py:51-59 | Any two True answers of a run are at least 3600 s apart, whatever the clock does. |
| Stats.RequestSendsWhenDue | atlasprint/plausible.py:51-61 | With the flags unset and the hour elapsed, a call sends and records the time. |
| Stats.VersionPrefixes | atlasprint/plausible.py:93-96 | The full QGIS version is a prefix of the version, and the branch is a prefix of the full version. |
| Stats.BranchPrefix | atlasprint/plausible.py:95-101 | The branch is a prefix of the version it comes from. |
| Stats.VersionOfParts | atlasprint/plausible.py:93-96 | `a.b.rest-name` has full version `a.b.rest` and branch `a.b`. |
| Stats.QgisVersionExample | atlasprint/plausible.py:91-96 | '3.34.6-Prizren' has full version '3.34.6' and branch '3.34'. |

## Left out

- Everything QGIS does is an input: rendering, layout loading, atlas iteration, the exporter, the project
  file and the expression grammar. `print_atlas` of atlasprintServer/core.py is not part of this model.
- File and system effects: reading and deleting the PDF, metadata.txt, `os.getenv`, the temporary
  directory and `uuid4`. A file that can or cannot be read or removed is an input. A failing
  `os.remove` in the filters' `finally` is not modelled.
- JSON text: documents stay values of `JsonBody`, and the PDF is a byte sequence.
- Logging (`QgsMessageLog`, `syslog`, the plausible logger) and the network POST in plausible.py. The POST's
  reply is only "an error or not".
- `float()` in the scale readers: the number after `:` is read with the model's `int()`. This covers the
  default lists and the project lists with whole scales.
- Python `int()` accepts surrounding whitespace, `_` separators and non-ASCII decimal digits (`'５０００'`),
  and `\d` in `re.findall` matches non-ASCII digits too; the model's `int()` and `FirstDigitRun` take
  ASCII digits only. `lower()` is ASCII only.
- AtlasCore.ScaleValueError: the ValueError of `float()` ends with `: '<text>'`; the model's message is
  only its start, because `FallbackScales` does not carry the text that failed.
- `Http.ServerResponse.Clear` keeps the status code and empties the headers and the body. This is an
  assumption about QGIS's `clear()`.
- Layout items other than labels are not modelled: `setText` on them would raise.
- An atlas without a coverage layer is not modelled.
- A layout name containing `"` breaks the XPath of the older filter; that case is not modelled.
- The bootstrap and registration code, the Qt dialog and the test harness are not modelled.
- LegacyFilter.XmlPrintAtlas: the project file is a flat list of elements in document order, and the page name is
  an input of the loaded layout. The loaded layout's own map scale and label texts come from the template
  and are not modelled: `XmlLayoutState` gives them the fixed values 0 and no labels, which `print_atlas`
  does not set.
- Stats.SendStatEvent: the warning text that would be logged is not modelled, only that the corrected function
  returns True.

## Findings

| source | as written | input that shows it | evidently intended | confidence | as-written member | corrected member |
|---|---|---|---|---|---|---|
| atlasprint/plausible.py:129-132 | `message + r.error()` adds a `QNetworkReply.NetworkError` value to a `str`, which raises TypeError. `_send_stat_event` then raises instead of returning True. | `QGIS_SERVER_APPLICATION_NAME=Lizcloud` and a reply whose `error()` is not `NoError` when it is read. | Log the error as text and return True. | medium, not executed (the reply may not report its error this early) | Stats.SendStatEventAsWritten (shown by Stats.LizcloudErrorExample) | Stats.SendStatEvent (used by Stats.Plausible.RequestStatEvent; Stats.AsWrittenRaisesOnLizcloudError) |

# MEMEFinder core, modelled in Dafny

MEMEFinder is a desktop tool that scans folders of meme images, runs OCR
on them (PaddleOCR or RapidOCR), cleans the recognised text, labels its
sentiment, and stores and searches the results. This project models the
deterministic logic around the OCR engines. The engines, the operating
system, the database and the GUI appear only as inputs.

The model covers:

- **`ResultNormalizer`**: the PaddleOCR result normaliser
  (`_parse_ocr_result`). It handles the depth-first layer search, the three
  legacy list shapes and the dict-alias scan. Python values are the
  datatype `PyValue.Val`, with ordered dicts and explicit truthiness.
- **`OcrProcessor`**: the PaddleOCR pipeline. This covers the
  predict/ocr fallbacks, the padded OCR that always releases its
  temporary directory, `_extract_text`, the Senta verdict and
  `process_image`'s downgrade of every failure to the 未分类 defaults.
- **`OcrProcessorRefactored`**: the RapidOCR pipeline, with its GPU
  resolution, call counter and garbage-collection cadence.
- **`OcrEngine`**: the RapidOCR wrapper. This covers the model-file
  lookup, the GPU-to-CPU fallback state machine, the device report, the
  conversion of RapidOCR's answer, and recognition with padding.
- **`Geometry`**: the padding arithmetic and the remapping of boxes to the
  original image. The processor, the engine and the command-line tool
  share one copy of it here. Pad-then-remap is proved to be the identity
  on in-bounds points.
- **`TextFilter`**, **`EmotionAnalyzer`** and **`Scanner`**: text clean-up,
  the keyword and library sentiment rules, and hash deduplication. The
  caller's hash set is a class whose contents the search updates.
- **`GpuDetector`** and **`ProcessTab`**: the two GPU decisions and the
  processing tab's flag and counting loop.
- **`SearchTab`** and **`SourceTab`**: the search tab's pager and grid, and
  the source tab's folder-containment check, toggle and scan.
- **`OcrCli`**: the command-line tool's `_parse_color` and its main loop.
- **`DetectCudaVersion`**, **`RecommendVersion`** and **`VersionText`**:
  the two CUDA diagnostic scripts.
- **`PyText`**, **`PyValue`** and **`Wrappers`**: the Python built-ins the
  core relies on (strip, replace, split, int(), float(), round(), len(),
  indexing, `or`), plus Option and Result.

Parts of the source that update state in place are classes whose methods
are proved against specification functions. Examples are `OCREngine`,
`ProcessTab`, `SearchTab`, `VersionRecommender`, the temporary-directory
token `Geometry.TempSpace` and the scanner's hash set. The pure parts are
functions, each with lemmas about it.

## Model

| member | source | states |
|---|---|---|
| Scanner.LastIndex | src/core/scanner.py:25 | the index found holds the character and none follows it; None exactly when the character is absent |
| Scanner.Suffix | src/core/scanner.py:25 | Path.suffix is empty or a dot-led tail of the name, not the whole name, with no further dot |
| Scanner.ExtensionAccepted | src/core/scanner.py:17-25 | a non-empty stem followed by any of the seven extensions has that extension as its suffix |
| Scanner.LastIndexIsLastDot | src/core/scanner.py:25 | a dot with no dot after it is the one rfind reports |
| Scanner.SuffixOfLower | src/core/scanner.py:25 | lower-casing a name lower-cases its suffix and nothing else |
| Scanner.LastIndexOfLower | src/core/scanner.py:25 | lower-casing does not move the last dot |
| Scanner.DotFileNotImage | src/core/scanner.py:23-25 | a file named ".png" is not an image |
| Scanner.IsImageFile | src/core/scanner.py:23-25 | an image is a regular file whose name has a stem and a four- or five-character extension, so at least five characters |
| Scanner.ImageFileIgnoresCase | src/core/scanner.py:23-25 | the image test answers the same for a name and its lower-cased form |
| PyText.LowerTwice | src/core/scanner.py:25 | lower-casing is idempotent |
| Scanner.StrLessIrreflexive | src/core/scanner.py:41 | string order is irreflexive |
| Scanner.StrLessTransitive | src/core/scanner.py:41 | string order is transitive |
| Scanner.PathLessIrreflexive | src/core/scanner.py:41 | path order is irreflexive |
| Scanner.PathLessTransitive | src/core/scanner.py:41 | path order is transitive |
| Scanner.Insert | src/core/scanner.py:41 | inserting adds exactly that entry (multiset) |
| Scanner.SortPaths | src/core/scanner.py:41 | sorted() is a permutation of its input |
| Scanner.InsertSorted | src/core/scanner.py:41 | inserting into a sorted list keeps it sorted |
| Scanner.SortPathsSorted | src/core/scanner.py:41 | sorted() gives a sorted list |
| Scanner.ImagesIn | src/core/scanner.py:35-39 | the walk keeps exactly the walked entries that are image files |
| Scanner.ScanFolderSortedImages | src/core/scanner.py:28-41 | a missing folder gives []; the result is sorted, a permutation of the walked images, and holds exactly the walked image files |
| Scanner.ScanFolder | src/core/scanner.py:28-41 | the loop-built list equals the scan specification |
| Scanner.ScanFolderSpec | src/core/scanner.py:28-41 | a missing folder gives nothing; everything listed is a walked image file |
| Scanner.FileHash | src/core/scanner.py:44-53 | the digest of a readable file, "error_" + its name otherwise |
| Scanner.HashSet.Add | src/core/scanner.py:65 | adds exactly the one hash |
| Scanner.HashesOfAppend | src/core/scanner.py:64-65 | the hashes of a concatenation are the union |
| Scanner.NewFromFresh | src/core/scanner.py:63-64 | no reported hash was known before the search |
| Scanner.NewFromDistinct | src/core/scanner.py:63-65 | each hash is reported at most once |
| Scanner.NewFromCovers | src/core/scanner.py:61-65 | afterwards the known hashes are the old ones plus every scanned hash |
| Scanner.NewFromInScanOrder | src/core/scanner.py:61-64 | the reported pairs are (path, hash) pairs of the scan, in scan order |
| Scanner.NewFromSkip | src/core/scanner.py:63 | a file whose hash is known is skipped |
| Scanner.NewFromKeep | src/core/scanner.py:63-65 | a file whose hash is new is appended and its hash becomes known |
| Scanner.RecordNew | src/core/scanner.py:61-67 | the loop returns the specified new pairs and adds exactly their hashes to the caller's set |
| Scanner.FindNewImages | src/core/scanner.py:56-67 | the new images of the sorted scan; the caller's set grows by exactly their hashes |
| Scanner.NewFrom | src/core/scanner.py:56-67 | at most one pair per scanned file |
| Scanner.SameErrorNameReportedOnce | src/core/scanner.py:53-65 | two unreadable files with one name: only the first is reported |
| TextFilter.NonSpaceRun | src/core/text_filter.py:17-19 | the longest whitespace-free prefix: all non-space and followed by a space or the end |
| TextFilter.LabelRun | src/core/text_filter.py:19 | the longest [a-zA-Z0-9-] prefix: all label characters and followed by a non-label or the end |
| TextFilter.TldAt | src/core/text_filter.py:19 | a matched top-level domain fits inside the text |
| TextFilter.MatchLen | src/core/text_filter.py:17-19 | a pattern's match at the start never runs past the text |
| TextFilter.HttpLen | src/core/text_filter.py:17 | the https?:// match never runs past the text |
| TextFilter.SchemeLen | src/core/text_filter.py:17 | the scheme is absent or four or five characters long ("http" or "https") |
| TextFilter.WwwLen | src/core/text_filter.py:18 | the www. match never runs past the text |
| TextFilter.DomainLen | src/core/text_filter.py:19 | the domain match never runs past the text |
| TextFilter.SubAll | src/core/text_filter.py:52 | re.sub never lengthens the text or adds a character |
| TextFilter.RemoveUrls | src/core/text_filter.py:51-52 | the URL pass never lengthens the text or adds a character |
| TextFilter.RemoveKeywords | src/core/text_filter.py:55-56 | the keyword pass never lengthens the text or adds a character |
| TextFilter.SpaceRun | src/core/text_filter.py:59 | a text that starts with whitespace starts a non-empty run |
| TextFilter.CollapseSpaces | src/core/text_filter.py:59 | never lengthens, adds only spaces, and leaves no whitespace other than ' ' |
| TextFilter.SepRun | src/core/text_filter.py:60 | the longest run of '_', '-', '\|' at the start |
| TextFilter.DropSepRuns | src/core/text_filter.py:60 | never lengthens the text or adds a character |
| TextFilter.TextFilter.constructor | src/core/text_filter.py:13-30 | the three URL patterns and the sixteen keywords, in order |
| TextFilter.TextFilter.Filter | src/core/text_filter.py:32-65 | the loop-built result equals the filter specification |
| TextFilter.FilterSpec | src/core/text_filter.py:32-65 | the output adds no character other than a plain space |
| TextFilter.SubEach | src/core/text_filter.py:51-52 | the pattern loop applies each pattern in order |
| TextFilter.RemoveEach | src/core/text_filter.py:55-56 | the keyword loop removes each keyword in order |
| TextFilter.FilterEmpty | src/core/text_filter.py:47-48 | falsy input gives '' |
| TextFilter.FilterShortens | src/core/text_filter.py:32-65 | the output is never longer than the input |
| TextFilter.FilterStripped | src/core/text_filter.py:63 | the output has no whitespace at either end |
| TextFilter.FilterDropsAtAndHash | src/core/text_filter.py:29 | the output holds neither '@' nor '#' |
| TextFilter.FilterSpacesArePlain | src/core/text_filter.py:59 | every whitespace character left is a plain space |
| TextFilter.DropSepRunsNoTriple | src/core/text_filter.py:60 | no three separators in a row remain after the separator pass |
| TextFilter.DropSepRunsHead | src/core/text_filter.py:60 | text that does not start with a separator still does not after the pass |
| TextFilter.DropSepRunsPrefix | src/core/text_filter.py:60 | a run of fewer than two separators at the start is kept |
| TextFilter.StripIsSlice | src/core/text_filter.py:63 | strip returns a contiguous slice of its input |
| TextFilter.StripKeepsNoTriple | src/core/text_filter.py:63 | strip cannot create a run of three separators |
| TextFilter.FilterNoSeparatorRuns | src/core/text_filter.py:32-65 | no run of three or more '_', '-', '\|' survives the filter |
| TextFilter.HttpUrlExample | src/core/text_filter.py:17 | "HTTPS://x b" loses its URL, ignoring case |
| TextFilter.DomainUrlExample | src/core/text_filter.py:19 | "a.COM b" loses its domain, ignoring case |
| TextFilter.NonSpaceRunIgnoresCase | src/core/text_filter.py:17-19 | lower-casing does not change how much [^\s] consumes |
| TextFilter.LabelRunIgnoresCase | src/core/text_filter.py:19 | lower-casing does not change how much [a-zA-Z0-9-]+ consumes |
| TextFilter.StartsWithNoCaseIgnoresCase | src/core/text_filter.py:17-19 | a text and its lower-cased form start with a lower-case word alike |
| TextFilter.TldAtIgnoresCase | src/core/text_filter.py:19 | the top-level domain alternation matches a text and its lower-cased form alike |
| TextFilter.SchemeIgnoresCase | src/core/text_filter.py:17 | "http" or "https" is found alike in a text and its lower-cased form |
| TextFilter.SeparatorIgnoresCase | src/core/text_filter.py:17 | "://" is found alike in a text and its lower-cased form |
| TextFilter.HttpIgnoresCase | src/core/text_filter.py:17 | https?://[^\s]+ matches a text and its lower-cased form with the same length |
| TextFilter.WwwIgnoresCase | src/core/text_filter.py:18 | www\.[^\s]+ matches a text and its lower-cased form with the same length |
| TextFilter.DomainIgnoresCase | src/core/text_filter.py:19 | the domain pattern matches a text and its lower-cased form with the same length |
| TextFilter.MatchLenIgnoresCase | src/core/text_filter.py:17-19 | every URL pattern (re.IGNORECASE) matches a text and its lower-cased form with the same length |
| TextFilter.SubAllIgnoresCase | src/core/text_filter.py:17-19 | re.sub of a URL pattern on the lower-cased text is the lower-cased result on the text: the same stretches go |
| ResultNormalizer.Children | src/core/ocr_processor.py:246-254 | every value the search descends into is smaller than its container |
| ResultNormalizer.FindInnerRes | src/core/ocr_processor.py:235-255 | what the search returns is a layer (rec_texts with rec_polys or dt_polys) |
| ResultNormalizer.FindInChildren | src/core/ocr_processor.py:246-254 | the child loop returns only layers |
| ResultNormalizer.FindInnerResIsFirstLayer | src/core/ocr_processor.py:235-255 | the search returns the first layer of the depth-first order (d["res"] before d), and None exactly when there is none |
| ResultNormalizer.FindInChildrenIsFirstLayer | src/core/ocr_processor.py:246-254 | the child loop returns the first layer among the remaining children |
| ResultNormalizer.LayersAreLayers | src/core/ocr_processor.py:235-255 | every value of the depth-first order is a layer |
| ResultNormalizer.LayersFromAreLayers | src/core/ocr_processor.py:246-254 | the same for the remaining children |
| ResultNormalizer.ReadLayer | src/core/ocr_processor.py:259-261 | the polys read are rec_polys or, when falsy, dt_polys |
| ResultNormalizer.KeptIndices | src/core/ocr_processor.py:263-271 | the kept indices are below the bound and strictly increasing |
| ResultNormalizer.LayerRaisesIff | src/core/ocr_processor.py:263-271 | the layer loop raises exactly when some turn raises (float() on a score, len() or indexing on the polys) |
| ResultNormalizer.LayerItemsAreKept | src/core/ocr_processor.py:263-271 | the detections are, in order, those of the indices whose poly is a four-point box, with str(text) and float(score) or 0.0 |
| ResultNormalizer.KeptIndicesExact | src/core/ocr_processor.py:266-271 | an index is kept exactly when its poly exists and is a list of four two-element lists or tuples |
| ResultNormalizer.BoxOf | src/core/ocr_processor.py:281-287 | _box returns its argument, and only a four-point box |
| ResultNormalizer.LinesItems | src/core/ocr_processor.py:293-300 | at most one detection per line |
| ResultNormalizer.PairItems | src/core/ocr_processor.py:317-327 | at most one detection per zipped position |
| ResultNormalizer.DictItems | src/core/ocr_processor.py:331-344 | at most one detection per element |
| ResultNormalizer.LinesBoxes | src/core/ocr_processor.py:293-300 | every line detection has a box of four numeric points |
| ResultNormalizer.PairBoxes | src/core/ocr_processor.py:317-327 | every zipped detection has a box of four numeric points |
| ResultNormalizer.DictBoxes | src/core/ocr_processor.py:331-344 | every dict detection has a box of four numeric points |
| ResultNormalizer.LayerBoxes | src/core/ocr_processor.py:266-271 | every layer detection has a four-point box |
| ResultNormalizer.NormalizeBoxes | src/core/ocr_processor.py:223-348 | every detection the normaliser returns has a four-point box, with numeric points outside the layer path |
| ResultNormalizer.LegacyBoxes | src/core/ocr_processor.py:289-329 | every detection of the legacy list shapes has a box of four numeric points |
| ResultNormalizer.DictRaisesOnlyAtEntry | src/core/ocr_processor.py:331-344 | the dict scan raises only at a dict whose float(score or 0.0) raises |
| ResultNormalizer.Normalize | src/core/ocr_processor.py:223-348 | the shapes in order: the first layer, else the first legacy list shape that yields detections, else the dict scan; it raises only on the layer path or at a dict entry's float() |
| ResultNormalizer.NormalizeScalar | src/core/ocr_processor.py:331-348 | a bare scalar normalises to no detections |
| ResultNormalizer.DictRecOverrides | src/core/ocr_processor.py:336-343 | a truthy, well-formed "rec" pair supplies both text and score |
| ResultNormalizer.DictDefaults | src/core/ocr_processor.py:336-344 | with no score key the score is 0.0; a text that is not a str skips the element |
| ResultNormalizer.ExampleLayerReads | src/core/ocr_processor.py:258-261 | a concrete layer reads as its texts, scores and polys |
| ResultNormalizer.GetAt | src/core/ocr_processor.py:258-261 | dict.get finds the first entry under its key |
| ResultNormalizer.ListsMakeLayer | src/core/ocr_processor.py:258-261 | non-empty rec_texts and rec_scores lists are read as they are |
| ResultNormalizer.SquareIsQuad | src/core/ocr_processor.py:266-268 | a four-point square passes the box test |
| ResultNormalizer.ExampleLayerItems | src/core/ocr_processor.py:262-272 | the concrete layer yields its two detections, in order |
| ResultNormalizer.NormalizeExample | src/core/ocr_processor.py:235-272 | a {"res": layer} result yields the layer's two detections |
| ResultNormalizer.CollectLayer | src/core/ocr_processor.py:257-272 | the loop returns the specified detections or the first exception |
| ResultNormalizer.LayerFailsAt | src/core/ocr_processor.py:264-265 | a turn that raises decides the loop's outcome |
| ResultNormalizer.LayerAdvances | src/core/ocr_processor.py:264-271 | a turn that does not raise appends its detection, if any |
| ResultNormalizer.LayerErrorSticks | src/core/ocr_processor.py:262-271 | once a turn raises, later turns do not change the outcome |
| ResultNormalizer.CollectLines | src/core/ocr_processor.py:293-300 | the line loop returns the specified detections |
| ResultNormalizer.CollectPairs | src/core/ocr_processor.py:317-327 | the zip loop runs over the shorter list and returns the specified detections |
| ResultNormalizer.CollectDicts | src/core/ocr_processor.py:331-344 | the dict loop returns the specified detections or the first exception |
| ResultNormalizer.DictErrorSticks | src/core/ocr_processor.py:331-344 | once an element raises, the rest do not change the outcome |
| ResultNormalizer.ParseOcrResult | src/core/ocr_processor.py:223-348 | the shapes are tried in order and the result equals the normaliser specification |
| ResultNormalizer.CollectLegacy | src/core/ocr_processor.py:291-329 | the three list shapes, in order, give the first non-empty detections |
| ResultNormalizer.CollectWrapped | src/core/ocr_processor.py:291-303 | the wrapped shape reads the lines of res[0] |
| OcrProcessor.PredictResult | src/core/ocr_processor.py:197-205 | an answer from predict(path) is used as is; an exception other than TypeError gives None |
| OcrProcessor.RawResult | src/core/ocr_processor.py:197-211 | a truthy predict result is kept; otherwise ocr()'s answer is used |
| OcrProcessor.OcrSingle | src/core/ocr_processor.py:190-221 | the image path is echoed; a falsy raw result gives no items; a truthy one gives the normaliser's items or its exception; `ocr_single` at ocr_cli.py lines 76-104 is the same code |
| OcrProcessor.NothingRecognised | src/core/ocr_processor.py:197-215 | when predict and ocr both raise or answer falsy, the image has no items; the same holds for `ocr_single` at ocr_cli.py lines 82-103 |
| OcrProcessor.PredictWins | src/core/ocr_processor.py:207-208 | a truthy predict answer makes ocr() irrelevant |
| OcrProcessor.Texts | src/core/ocr_processor.py:350-353 | only truthy texts are kept, at most one per item |
| OcrProcessor.JoinSpace | src/core/ocr_processor.py:353 | joining nothing gives '' |
| OcrProcessor.ExtractText | src/core/ocr_processor.py:350-353 | no items give '' |
| OcrProcessor.WordLen | src/core/ocr_processor.py:353 | the longest space-free prefix |
| OcrProcessor.WordLenOfWord | src/core/ocr_processor.py:353 | a space-free word followed by a space or the end is read whole |
| OcrProcessor.WordsOfJoin | src/core/ocr_processor.py:353 | splitting space-joined non-empty space-free words gives them back |
| OcrProcessor.ExtractTextSplits | src/core/ocr_processor.py:350-353 | when no text holds a space, the extracted text splits back into exactly the truthy texts, in order |
| OcrProcessor.TextsWithoutSpaces | src/core/ocr_processor.py:352 | kept texts hold no space when no item text does |
| OcrProcessor.SentaStrength | src/core/ocr_processor.py:451-456 | min(0.99, max(0.5, score)) lies in [0.5, 0.99] and is the score when that is already inside |
| OcrProcessor.SentaVerdict | src/core/ocr_processor.py:423-475 | blank text is 未分类; an exception gives None; a positive verdict needs a label with "pos" or "1" and a clamped score, a negative one "neg" or "0" |
| OcrProcessor.AnswerVerdict | src/core/ocr_processor.py:437-472 | the verdict for an answer is never 未分类; positive and negative verdicts carry the label test and clamped scores |
| OcrProcessor.LabelVerdict | src/core/ocr_processor.py:446-463 | positive exactly for "pos"/"1" labels, negative only for "neg"/"0" labels, scores rounded from [0.5, 0.99] |
| OcrProcessor.AnalyzeEmotion | src/core/ocr_processor.py:477-494 | with Senta enabled, Senta's verdict comes first whenever it gives one, and blank text is 未分类; without Senta, or when Senta raises on non-blank text, the keyword verdict is used |
| OcrProcessor.ProcessItems | src/core/ocr_processor.py:101-108 | the OCR text is the extracted text, the filtered text is the filter of it and is no longer |
| OcrProcessor.ProcessImageDowngrades | src/core/ocr_processor.py:98-131 | a failing OCR step or an unreadable image gives the 未分类 defaults; no recognised text leaves the image 未分类 |
| OcrProcessor.OCRProcessor.constructor | src/core/ocr_processor.py:401-421 | Senta (`_init_senta`, called from the constructor at lines 66-69) is used exactly when asked for and its Taskflow loads |
| OcrProcessor.OCRProcessor.OcrWithPadding | src/core/ocr_processor.py:133-156 | the temporary directory count is unchanged on every path; the result is the padded OCR moved back |
| OcrProcessor.OcrWithPaddingSpec | src/core/ocr_processor.py:133-156 | an unopenable image fails; a success is the padded OCR's detections, one for one, with their texts and scores |
| OcrProcessor.OCRProcessor.ProcessImage | src/core/ocr_processor.py:84-131 | the temporary directory count is unchanged; the result is the specified pipeline, defaults on failure |
| OcrProcessor.ProcessImageSpec | src/core/ocr_processor.py:84-131 | the filtered text is always the filter of the OCR text and never longer |
| EmotionAnalyzer.CountPresent | src/core/emotion_analyzer.py:219-220 | the count never exceeds the lexicon size |
| EmotionAnalyzer.CountIsEntriesPresent | src/core/emotion_analyzer.py:219-220 | the count is the number of lexicon entries that occur, however often each occurs |
| EmotionAnalyzer.Strength | src/core/emotion_analyzer.py:223-227 | min(0.9, 0.5 + 0.1 n) lies in [0.5, 0.9], is at least 0.6 for a match and is exact up to four matches |
| EmotionAnalyzer.KeywordVerdict | src/core/emotion_analyzer.py:208-232 | short text is 未分类; 正向 iff more positive entries, 负向 iff more negative, 中性 iff a tie; the scores add up to one and the winning one lies in [0.6, 0.9] |
| EmotionAnalyzer.RepeatedWordCountsOnce | src/core/emotion_analyzer.py:219 | "哈哈哈哈" counts one positive entry |
| EmotionAnalyzer.NotContainsOther | src/core/emotion_analyzer.py:219 | a word whose first character is absent from the text does not occur in it |
| EmotionAnalyzer.Round4 | src/core/emotion_analyzer.py:168-187 | round(x, 4) is within 0.00005 of x |
| EmotionAnalyzer.ModelVerdict | src/core/emotion_analyzer.py:147-206 | blank text is 未分类; None iff the library raised; thresholds 0.6/0.4 (SnowNLP) and ±0.2 (TextBlob) decide the class; the scores are the rounded normalised score and its complement |
| EmotionAnalyzer.EmotionAnalyzer.constructor | src/core/emotion_analyzer.py:20-44 | the two lexicons; the first library that loads is selected when asked for, none otherwise |
| EmotionAnalyzer.EmotionAnalyzer.InitSenta | src/core/emotion_analyzer.py:46-66 | SnowNLP first, then TextBlob, else the keyword method |
| EmotionAnalyzer.EmotionAnalyzer.TryInit | src/core/emotion_analyzer.py:68-123 | on success the library is selected; on failure nothing changes |
| EmotionAnalyzer.EmotionAnalyzer.Analyze | src/core/emotion_analyzer.py:125-145 | a selected library's verdict comes first whenever it answers; without a library, or when it raises on non-blank text, the keyword verdict; blank text with a library is 未分类 |
| EmotionAnalyzer.ShortTextNeverPolar | src/core/emotion_analyzer.py:125-209 | a text shorter than two characters once stripped is never positive unless a library answered, and blank text is 未分类 |
| Geometry.PadPlan | src/core/ocr_processor.py:158-175 | a ratio ≤ 0 gives no padding; otherwise px, py are at least 1 and round(w·ratio), round(h·ratio) to within a half, and the original size is kept; the copies at ocr_cli.py lines 225-242 and src/core/ocr_engine.py lines 292-315 pad the same way |
| Geometry.PastedOnCanvas | src/core/ocr_processor.py:168-169 | every original pixel lands on the canvas, at least px and py from each edge |
| Geometry.Sub | src/core/ocr_processor.py:182 | p[k] - d succeeds exactly on numbers and subtracts the offset |
| Geometry.ShiftPoint | src/core/ocr_processor.py:182 | a moved point is a list of two numbers |
| Geometry.Clamp | src/core/ocr_processor.py:184 | max(0, min(hi, v)) lies in [0, hi] and leaves a value already there alone |
| Geometry.ShiftPoints | src/core/ocr_processor.py:182 | the comprehension keeps the number of points and moves each |
| Geometry.ShiftedBox | src/core/ocr_processor.py:181-184 | a new box is a list of numeric pairs |
| Geometry.ShiftItemsToOriginal | src/core/ocr_processor.py:177-188 | the remapping loop returns the specified detections or the first exception; the copies at ocr_cli.py lines 244-253 and src/core/ocr_engine.py lines 317-330 remap the same way |
| Geometry.ShiftErrorSticks | src/core/ocr_processor.py:181-186 | once a detection raises, the rest do not change the outcome |
| Geometry.ShiftKeepsDetections | src/core/ocr_processor.py:181-186 | remapping keeps the number, order, text and score of the detections; only the boxes change |
| Geometry.ShiftedBoxInBounds | src/core/ocr_processor.py:183-184 | with the original size given every coordinate lies in [0, W-1] × [0, H-1] |
| Geometry.ShiftedBoxTranslates | src/core/ocr_processor.py:182 | without the original size remapping is a translation by (-dx, -dy) |
| Geometry.ShiftIntPoint | src/core/ocr_processor.py:182 | moving [x + px, y + py] back by (px, py) gives [x, y] |
| Geometry.RoundTripPoint | src/core/ocr_processor.py:168-184 | a point of the original comes back to itself after padding and remapping, and clamping leaves it alone |
| Geometry.OffsetCorners | src/core/ocr_processor.py:169 | each corner is offset by (px, py) |
| Geometry.RoundTripBox | src/core/ocr_processor.py:158-188 | a box inside the original, reported on the canvas, is mapped back exactly |
| Geometry.ShiftPointsBack | src/core/ocr_processor.py:182 | moving the offset corners back gives the corners |
| Geometry.TempSpace.Acquire | src/core/ocr_processor.py:171 | one more live temporary directory |
| Geometry.TempSpace.Cleanup | src/core/ocr_processor.py:154-156 | one fewer live temporary directory |
| OcrEngine.GetModelPaths | src/core/ocr_engine.py:165-187 | no directory is a ValueError; det and rec are fixed names in the directory; the older classifier name is used exactly when only it exists |
| OcrEngine.MissingModels | src/core/ocr_engine.py:45-51 | nothing is missing exactly when all three files exist; at most three paths, in det, rec, cls order |
| OcrEngine.MissingModelsBuildNothing | src/core/ocr_engine.py:53-65 | a missing model file raises FileNotFoundError before any construction |
| OcrEngine.ProbeDowngrade | src/core/ocr_engine.py:77-91 | a provider list without CUDAExecutionProvider turns every CUDA switch and the GPU flag off; a probe that raises leaves them on |
| OcrEngine.GpuFailureRetriesOnCpu | src/core/ocr_engine.py:102-143 | a failed GPU construction is retried once on CPU; the retry's engine, or both messages, is the outcome |
| OcrEngine.CpuFailureIsFinal | src/core/ocr_engine.py:112-147 | a failed construction without GPU is re-raised after one call |
| OcrEngine.GpuOnlyWhenFirstBuildSucceeds | src/core/ocr_engine.py:67-150 | GPU is in use only when asked for, kept by the probe and the first construction succeeded; at most two calls, all three switches alike, the second on CPU |
| OcrEngine.ActualDevice | src/core/ocr_engine.py:189-203 | CUDA provider → "GPU (CUDA)", DirectML → "GPU (DirectML)", else "CPU"; unreadable providers → the configured flag |
| OcrEngine.ConvertAll | src/core/ocr_engine.py:235-245 | at most one detection per entry |
| OcrEngine.ConvertWellFormed | src/core/ocr_engine.py:235-245 | well-formed entries convert one for one, in order |
| OcrEngine.RecognizeWellFormed | src/core/ocr_engine.py:205-258 | an (entries, elapse) answer of well-formed entries gives one detection per entry, in order |
| OcrEngine.ShortEntrySkipped | src/core/ocr_engine.py:236 | an entry with fewer than two fields contributes nothing |
| OcrEngine.Recognize | src/core/ocr_engine.py:205-258 | the loop returns the specified detections; None or an exception gives none |
| OcrEngine.RecognizeSpec | src/core/ocr_engine.py:205-258 | `recognize` as a function of the engine's answer: detections only from an answer that is not None and did not raise |
| OcrEngine.ConvertErrorSticks | src/core/ocr_engine.py:235-245 | once an entry raises, the whole call yields the exception |
| OcrEngine.OCREngine.constructor | src/core/ocr_engine.py:24-36 | the fields are those of the initialisation specification |
| OcrEngine.OCREngine.InitializeOcr | src/core/ocr_engine.py:38-163 | the step-by-step initialisation reaches the specified outcome, calls and GPU flag |
| OcrEngine.InitSpec | src/core/ocr_engine.py:38-163 | `_initialize_ocr` as a function of its inputs: at most two constructor calls, at least one before an engine exists, and GPU in use only when asked for |
| OcrEngine.OCREngine.RecognizeWithPadding | src/core/ocr_engine.py:260-290 | the temporary copy is released on every exit; the result is the padded recognition moved back |
| OcrProcessorRefactored.ResolveGpu | src/core/ocr_processor_refactored.py:71-89 | an explicit choice stands; None defers to should_use_gpu: the variable switches on or off, otherwise the detection decides |
| OcrProcessorRefactored.ProcessSpec | src/core/ocr_processor_refactored.py:120-188 | an unreadable image gives the 未分类 defaults; otherwise the filtered text is the filter of the OCR text |
| OcrProcessorRefactored.Processor.constructor | src/core/ocr_processor_refactored.py:53-115 | a fresh processor has counted nothing and holds the given components |
| OcrProcessorRefactored.Processor.ProcessImage | src/core/ocr_processor_refactored.py:136-188 | the call count grows by one; garbage collection runs on every tenth call and the memory check on every fifth; the temporary copy is released; the result is the specified pipeline |
| OcrProcessorRefactored.Describe | src/core/ocr_processor_refactored.py:158-179 | the OCR text is the extracted text of the detections and the filtered text is the filter of it |
| OcrProcessorRefactored.Processor.DescribeItems | src/core/ocr_processor_refactored.py:158-179 | the extract, filter and classify steps run with the processor's own filter give the specified result |
| OcrProcessorRefactored.Create | src/core/ocr_processor_refactored.py:36-118 | the models folder defaults; an engine failure is re-raised as "OCR 引擎初始化失败"; otherwise a fresh, valid processor |
| OcrProcessorRefactored.GcOnEverySecondCheck | src/core/ocr_processor_refactored.py:139-147 | a call collects garbage exactly when it also checks memory and that check is an even-numbered one |
| OcrProcessorRefactored.GcRunsHalfChecks | src/core/ocr_processor_refactored.py:139-147 | in every reachable state garbage has been collected once for every two memory checks |
| GpuDetector.FirstLine | src/utils/gpu_detector.py:44 | the first line is a newline-free prefix |
| GpuDetector.ProviderDetection | src/utils/gpu_detector.py:33-58 | a detection exactly when CUDA, TensorRT or DirectML is offered, always with device information |
| GpuDetector.DetectGpu | src/utils/gpu_detector.py:11-88 | a GPU iff an accelerator provider is offered or the variable switches it on; without one, the driver message exactly when nvidia-smi runs |
| GpuDetector.DetectGpuAsWritten | src/utils/gpu_detector.py:22-86 | `detect_gpu` as written: a GPU iff an accelerator provider is offered or the variable switches it on; without one, the driver message appears only when the provider query ran |
| GpuDetector.DriverMessageLost | src/utils/gpu_detector.py:22-86 | without onnxruntime, an unset variable and a working nvidia-smi, the code as written answers (False, None) where the driver message was meant |
| GpuDetector.DetectGpuAnswerUnchanged | src/utils/gpu_detector.py:11-88 | the as-written and the corrected detection agree on has_gpu and differ only in that message |
| GpuDetector.CudaFirst | src/utils/gpu_detector.py:33-50 | a CUDA provider wins, with "CUDA GPU" information |
| GpuDetector.ShouldUseGpu | src/utils/gpu_detector.py:91-111 | the variable switches on or off; otherwise the detection decides |
| GpuDetector.UnsetDefersToProviders | src/utils/gpu_detector.py:91-111 | with the variable unset, only an accelerator provider turns the GPU on |
| ProcessTab.TabShouldUseGpu | src/gui/process_tab.py:37-56 | the tab uses the GPU exactly when the variable switches it on |
| ProcessTab.TabIgnoresDetection | src/gui/process_tab.py:37-56 | with the variable unset and a CUDA provider, should_use_gpu says yes but the tab says no |
| ProcessTab.Step | src/gui/process_tab.py:162-204 | each image is counted once, as processed or as an error; a missing file sends no update |
| ProcessTab.Visited | src/gui/process_tab.py:157-160 | the loop takes up all images, or stops at the one before which the flag was cleared |
| ProcessTab.RunBatchAccounts | src/gui/process_tab.py:154-204 | every visited image is counted once; each processed image gives one update of its own id and result, for an existing file |
| ProcessTab.RunBatch | src/gui/process_tab.py:154-204 | a batch whose files are all gone sends no update and counts every image as an error |
| ProcessTab.ProcessTab.constructor | src/gui/process_tab.py:21-35 | not processing, no worker, nothing stored |
| ProcessTab.ProcessTab.SetAppState | src/gui/process_tab.py:104-107 | a state write that raises is ignored |
| ProcessTab.ProcessTab.StartProcessing | src/gui/process_tab.py:90-116 | nothing happens while a run is on or with no unprocessed image; otherwise the state is "running", the flag is raised and one worker starts |
| ProcessTab.ProcessTab.PauseProcessing | src/gui/process_tab.py:118-126 | the flag is lowered; only a running run is marked "paused" |
| ProcessTab.ProcessTab.StopProcessing | src/gui/process_tab.py:128-136 | the flag is lowered; only a running run is marked "idle" |
| ProcessTab.ProcessTab.ProcessImagesThread | src/gui/process_tab.py:138-226 | the flag ends lowered; an empty batch changes nothing else; otherwise the visited images' updates are stored in order, the state is "idle" and the counts are returned |
| ProcessTab.ProcessTab.RunLoop | src/gui/process_tab.py:154-204 | the loop's tally is that of the visited images, and exactly its updates reach the database |
| ProcessTab.Take | src/gui/process_tab.py:142 | LIMIT keeps a prefix of at most n rows |
| ProcessTab.BatchBounded | src/gui/process_tab.py:142-204 | a run never counts more than the 1000 images it asked for |
| SearchTab.FloorDiv | src/gui/search_tab.py:162-175 | Python's // is the floor of the quotient for either sign of the divisor |
| SearchTab.TotalPages | src/gui/search_tab.py:161-162 | at least one page; one page for no match; otherwise the fewest pages that hold every match |
| SearchTab.PagesCoverRows | src/gui/search_tab.py:161-167 | reading pages 1 to the last gives every matching image once and in order |
| SearchTab.PagesPrefix | src/gui/search_tab.py:167 | the first n pages are the first n·size rows |
| SearchTab.PageBounds | src/gui/search_tab.py:161-167 | every page up to the last holds at most a page's worth, and at least one row when anything matches |
| SearchTab.Columns | src/gui/search_tab.py:170-178 | at least one column; max(1, max(200, width) // (side + 20)); 4 when the division raises |
| SearchTab.Caption | src/gui/search_tab.py:207 | no text gives (无文本); a long text is cut to 40 characters and '...'; a short one is kept |
| SearchTab.GridCells | src/gui/search_tab.py:181-216 | one cell per record |
| SearchTab.GridPlacesDistinct | src/gui/search_tab.py:181-216 | every column is below the column count and no two records share a cell |
| SearchTab.SearchTab.constructor | src/gui/search_tab.py:21-129 | page 1 of 20 rows, thumbnails of 120, one load, the first page laid out |
| SearchTab.SearchTab.LoadPage | src/gui/search_tab.py:136-220 | the page count is recomputed, the page clamped to it, and the page's records laid out in the computed columns |
| SearchTab.SearchTab.PrevPage | src/gui/search_tab.py:222-226 | one page back, never before the first; when the page moved, the reload's page count, columns and grid of that page, with page size and thumbnail side kept; otherwise nothing changes |
| SearchTab.SearchTab.NextPage | src/gui/search_tab.py:228-232 | one page on, never past the last; when the page moved, the reload's page count, columns and grid of that page, with page size and thumbnail side kept; otherwise nothing changes |
| SearchTab.SearchTab.GotoPage | src/gui/search_tab.py:237-244 | the entry (1 when it does not convert) clamped into [1, pages], then loaded: page count, columns and grid of that page, with page size and thumbnail side kept |
| SearchTab.SearchTab.SearchImages | src/gui/search_tab.py:131-134 | back to page 1, then loaded: page count, columns and grid of page 1, with page size and thumbnail side kept |
| SearchTab.SearchTab.ChangePageSize | src/gui/search_tab.py:102-104 | the new size reloads the current page, clamped: page count, columns and grid under the new size, with the thumbnail side kept |
| SearchTab.SearchTab.ThumbChange | src/gui/search_tab.py:246-253 | int(float(value)) becomes the thumbnail side; a value that does not convert is ignored; nothing else changes |
| SearchTab.LayOut | src/gui/search_tab.py:181-216 | the r/c loop places the k-th record at row k div cols, column k mod cols |
| SearchTab.DivModStep | src/gui/search_tab.py:213-216 | the column wraps to 0 and the row advances exactly when the column reaches the count |
| SearchTab.DivUnique | src/gui/search_tab.py:213-216 | quotient and remainder are unique |
| SourceTab.CommonParts | src/gui/source_tab.py:102 | the result is a common prefix of both component lists and is maximal: where both lists go on, the next components differ |
| SourceTab.CommonPath | src/gui/source_tab.py:102-107 | commonpath fails (the source is skipped) exactly when the two paths lie on different drives |
| SourceTab.CoversIsAncestry | src/gui/source_tab.py:101-102 | the test "equal, or commonpath equals the source" holds exactly when the source is the chosen folder or one of its ancestors, in both directions |
| SourceTab.CommonPrefix | src/gui/source_tab.py:102 | when one path's components are a prefix of the other's, commonpath returns the shorter path itself |
| SourceTab.FirstCover | src/gui/source_tab.py:98-107 | a source reported as covering is the folder or its ancestor; no source is reported exactly when no listed source (an empty folder counting as the working directory) is an ancestor-or-self of the folder |
| SourceTab.AddSource | src/gui/source_tab.py:85-114 | a cancelled dialog does nothing; a failing source query counts as no sources; the first covering source, in database order, refuses the folder; otherwise the folder is added when the database accepts it and reported as already present when it does not |
| SourceTab.DescendantDoesNotBlock | src/gui/source_tab.py:102 | a registered folder strictly inside the chosen one never blocks adding it |
| SourceTab.ToggleFlips | src/gui/source_tab.py:140-175 | reading the new flag back from the displayed status (cross present) always gives the negation of the current flag |
| SourceTab.ScanOne | src/gui/source_tab.py:187-205 | a source is searched exactly when it is enabled and its folder exists; nothing found means no rows counted |
| SourceTab.ScanOneReportsNewHashes | src/gui/source_tab.py:194-197 | a searched source reports only hashes missing from the table get_image_hashes returned just before it, each once, and with that table they make up every scanned hash |
| SourceTab.ScanSources | src/gui/source_tab.py:177-212 | with no enabled source only a warning results and nothing is searched; otherwise each source's turn is its own search against the table read just before it, the total is the sum of the rows the inserts report, and the view switches tabs exactly when the total is positive |
| SourceTab.AnyEnabled | src/gui/source_tab.py:180-184 | true exactly when some source is enabled |
| SourceTab.ScanLoop | src/gui/source_tab.py:187-205 | the loop performs one turn per source, in order, and sums the rows counted |
| SourceTab.SearchSource | src/gui/source_tab.py:189-203 | one turn, run with a fresh copy of the table searched in place, gives the specified result |
| SourceTab.TotalAdded | src/gui/source_tab.py:186-203 | total_new is 0 when no turn counts a row |
| SourceTab.TotalAddedSnoc | src/gui/source_tab.py:200-203 | one more turn adds its counted rows to total_new |
| SourceTab.HashesAfter | src/gui/source_tab.py:199-201 | when an insert records every pair found, the table afterwards keeps what it had and holds every hash of the searched folder |
| SourceTab.UnknownHashReported | src/gui/source_tab.py:192-197 | every scanned image whose hash the table lacks is reported, so one whose earlier insert the database refused is reported again |
| SourceTab.SkippedSourcesChangeNothing | src/gui/source_tab.py:189-190 | when every source is disabled or has no folder on disk, no source is searched and no row is counted |
| SourceTab.ScanRecordsAllHashes | src/gui/source_tab.py:194-203 | when every insert is accepted (each source reads the table the previous insert left), the last table holds every hash of every searched folder |
| OcrCli.IntsOf | ocr_cli.py:218 | a list of ints is produced only when every part parses, and then one int per part |
| OcrCli.HexGroups | ocr_cli.py:210-213 | both '#' forms give three two-digit groups |
| OcrCli.HexColor | ocr_cli.py:211-213 | a group that is not hex raises ValueError, never anything else |
| OcrCli.ParseColor | ocr_cli.py:207-222 | the only failure is ValueError, and it arises only from a stripped '#' form of length 4 or 7 |
| OcrCli.HexNotSpace | ocr_cli.py:208 | a hex digit is not whitespace, so stripping never eats one |
| OcrCli.HexFormIsHexColor | ocr_cli.py:208-214 | a '#' form of length 4 or 7 ending in a hex digit is read by the hex rule |
| OcrCli.ShortHexDoubles | ocr_cli.py:210-211 | "#rgb" doubles each digit: each channel is 17 times the digit's value |
| OcrCli.LongHexPairs | ocr_cli.py:212-213 | "#rrggbb" reads three hex pairs, each a value in 0..255 |
| OcrCli.LongHexGroups | ocr_cli.py:212-213 | the three groups of "#rrggbb" are its characters 1-2, 3-4 and 5-6, each a byte |
| OcrCli.HexPairsColor | ocr_cli.py:213 | three pairs of hex digits parse to three bytes, high digit first |
| OcrCli.BadShortHexRaises | ocr_cli.py:209-211 | "#ggg" raises ValueError instead of falling back to black, since the '#' branch has no try |
| OcrCli.CommaTriple | ocr_cli.py:215-218 | any three ints written with commas come back as that colour, with no range check (negatives and values above 255 pass) |
| OcrCli.TripleText | ocr_cli.py:208-218 | three numerals joined by commas need no stripping, do not start with '#', and split back into the numerals |
| OcrCli.CommaColorOf | ocr_cli.py:215-218 | a comma text whose split parses as exactly three ints is that colour |
| OcrCli.CommaFormIsCommaColor | ocr_cli.py:215-222 | a stripped text not starting with '#' and holding a comma is decided by the comma rule alone |
| OcrCli.IntsOfThree | ocr_cli.py:218 | three parts that each parse give the three values in order |
| OcrCli.IntsOfCons | ocr_cli.py:218 | the list comprehension parses the head and then the rest |
| OcrCli.NumeralsHaveNoComma | ocr_cli.py:215-218 | a written int holds only digits and a minus sign, never a comma or '#' |
| OcrCli.NumeralChars | ocr_cli.py:215-218 | three numerals joined by commas hold only digits, minus signs and commas |
| OcrCli.CommaOtherwiseBlack | ocr_cli.py:215-222 | a comma text that does not split into exactly three ints is black, (0, 0, 0) |
| OcrCli.MissingColorBlack | ocr_cli.py:208-222 | None, the empty string and blanks are black |
| OcrCli.OcrOne | ocr_cli.py:409-415 | a successful image is reported under its original path |
| OcrCli.RunImages | ocr_cli.py:403-424 | the run collects at most one result per image |
| OcrCli.ResultPaths | ocr_cli.py:414 | one path per result, in the same order |
| OcrCli.ResultsFollowImages | ocr_cli.py:403-424 | a finished run reports exactly the images whose OCR succeeded, in input order, under their original paths |
| OcrCli.FailedImageSkipped | ocr_cli.py:420-421 | an image whose OCR raises adds nothing and the loop carries on |
| OcrCli.BadColorAborts | ocr_cli.py:404-405 | a '#' colour that does not parse aborts the run with ValueError at its first image, before any OCR |
| OcrCli.BadColorFails | ocr_cli.py:404-405 | with a failing colour the run ends with that colour's error |
| OcrCli.RunCli | ocr_cli.py:387-424 | the run follows its specification (no images: exit status 1; a positive limit keeps that many; then the loop) and every temporary copy taken is released |
| OcrCli.RunCliSpec | ocr_cli.py:393-424 | no images exactly when status 1 results; a finished run has at most one result per image, and at most the limit when one is set |
| OcrCli.RunLoop | ocr_cli.py:403-424 | the loop computes the run's specification and leaves no temporary copy behind |
| OcrCli.UnopenedAborts | ocr_cli.py:405 | an image that cannot be opened, outside the try, ends the whole run with that error |
| OcrCli.RunImagesStep | ocr_cli.py:403-421 | one more image that opens: its result is appended when its OCR succeeds, and nothing changes when it raises |
| OcrCli.OcrImage | ocr_cli.py:407-424 | the per-image try computes the image's result and its finally releases the padded copy on success and on failure |
| OcrCli.AbortSticks | ocr_cli.py:403-405 | once a prefix of the run has aborted, the whole run ends with that same error |
| DetectCudaVersion.SmiCudaVersion | scripts/detect_cuda_version.py:19-41 | a version is returned exactly when nvidia-smi exits with 0 and its stripped output has at least two comma fields; it is then (second field, first field), both stripped; a missing tool gives the "not found" message |
| DetectCudaVersion.SmiReadsCsvLine | scripts/detect_cuda_version.py:29-35 | the csv line `<driver>, <cuda>` reads back as (cuda, driver) |
| DetectCudaVersion.NvccVersion | scripts/detect_cuda_version.py:44-65 | a version comes only from an nvcc run that exits with 0, is the dotted number after "release", and is that search's answer whenever nvcc exits with 0 |
| DetectCudaVersion.DllCodeAt | scripts/detect_cuda_version.py:108 | a match at a position yields a non-empty run of digits |
| DetectCudaVersion.DllCodeFrom | scripts/detect_cuda_version.py:108-109 | the search finds a non-empty digit code, and finds none exactly when the pattern matches at no position |
| DetectCudaVersion.DllNameReadsCode | scripts/detect_cuda_version.py:106-110 | the file name `cudart64_<code>.dll` yields exactly its code |
| DetectCudaVersion.OrtVersionFromDll | scripts/detect_cuda_version.py:103-114 | with the CUDA provider listed, a first DLL named `cudart64_<code>.dll` makes the decoded code the version |
| DetectCudaVersion.DecodeDll | scripts/detect_cuda_version.py:110-114 | a code of two or more digits becomes "code minus its last digit . last digit"; a one-digit code becomes "d.d" |
| DetectCudaVersion.DecodedIsDotted | scripts/detect_cuda_version.py:110-114 | a decoded code is always a dotted number |
| DetectCudaVersion.MajorOfDecoded | scripts/detect_cuda_version.py:110-134 | the integer major read from a decoded code is the value of the code without its last digit |
| DetectCudaVersion.DecodeExamples | scripts/detect_cuda_version.py:110-114 | "110" decodes to "11.0" and "118" to "11.8", while a two-digit "12" decodes to "1.2" |
| DetectCudaVersion.OrtCudaVersion | scripts/detect_cuda_version.py:68-124 | there is no version exactly when onnxruntime is missing, fails to load, or lacks the CUDA provider; any version returned is "未知" or a dotted number |
| DetectCudaVersion.CheckCompatibility | scripts/detect_cuda_version.py:127-146 | a missing version gives (False, "版本信息不完整"); an unreadable one gives (False, "版本格式无法解析"); compatible exactly when both majors read and the system major is at least the onnxruntime major |
| DetectCudaVersion.CompatibleDotted | scripts/detect_cuda_version.py:133-144 | for two dotted versions, compatibility is the order of the integers before the dots |
| DetectCudaVersion.UnknownNeverCompatible | scripts/detect_cuda_version.py:116-146 | the placeholder "未知" has no readable major and is never compatible |
| DetectCudaVersion.GetRecommendation | scripts/detect_cuda_version.py:149-181 | the exact advice lines in each branch (no system CUDA; onnxruntime missing, with the 12.x or 11.x package by the system major; compatible; incompatible, naming the system major); ValueError exactly when a branch that reads the system major meets an unreadable one |
| DetectCudaVersion.SystemCuda | scripts/detect_cuda_version.py:209 | the driver's CUDA version when it is non-empty, else the toolkit's |
| DetectCudaVersion.NvccSystemReadable | scripts/detect_cuda_version.py:196-209 | a system version that came from nvcc always has a readable major |
| DetectCudaVersion.RecommendationFailure | scripts/detect_cuda_version.py:246-248 | printing the advice fails exactly when a system version is present, the versions are missing or incompatible, and the system major is unreadable |
| DetectCudaVersion.RunDetection | scripts/detect_cuda_version.py:184-264 | the script dies with ValueError exactly when the chosen system version has no readable major; otherwise it exits with 2 exactly when there is no system version, 0 exactly when both versions are present and compatible, and 1 in every other case |
| DetectCudaVersion.ExitCode | scripts/detect_cuda_version.py:258-264 | the status is 0, 1 or 2, and 0 exactly when a system version exists and is compatible |
| RecommendVersion.VersionRecommender.constructor | scripts/recommend_version.py:16-19 | a new recommender has found no GPU and recorded no CUDA or driver version |
| RecommendVersion.VersionRecommender.DetectNvidiaGpu | scripts/recommend_version.py:21-50 | a GPU is reported exactly when nvidia-smi exits with 0; only then is the flag set and each version the banner shows recorded, a version it does not show keeping its old value; a timeout, a missing binary or a non-zero exit report no GPU and change nothing; any other exception escapes |
| RecommendVersion.VersionRecommender.RecordBanner | scripts/recommend_version.py:32-43 | the GPU flag is set; the CUDA and driver versions become the matches found, or keep their old values where the regex found nothing |
| RecommendVersion.VersionRecommender.CudaMajor | scripts/recommend_version.py:52-57 | a major exists exactly when a CUDA version is recorded; it is that version's integer part and is never negative, so the conversion cannot raise |
| RecommendVersion.VersionRecommender.Recommend | scripts/recommend_version.py:59-178 | fails only when nvidia-smi raises an uncaught error; the flag and versions become what the detection records for the run (set from the banner when it exits with 0, unchanged otherwise); the returned GPU flag, CUDA version and on-screen advice are read from that state |
| RecommendVersion.VersionRecommender.Guide | scripts/recommend_version.py:180-216 | the guide file recommends the CPU package exactly when there is no GPU, no known CUDA major, or a major below 11; a fallback is named exactly when a GPU package is recommended |
| RecommendVersion.ScreenAdvice | scripts/recommend_version.py:83-143 | CUDA 12 advice exactly for a GPU with major at least 12; CUDA 11 advice exactly for major 11; the old-CUDA CPU advice exactly for a known major below 11 |
| RecommendVersion.GuideDownload | scripts/recommend_version.py:199-210 | the guide always names one of the three packages |
| RecommendVersion.GuideAgreesWithScreen | scripts/recommend_version.py:83-210 | the guide file names the CUDA 12 or CUDA 11 package, with the CPU package as fallback, exactly when the screen recommends that GPU build, and names the CPU package alone in every other case |
| VersionText.DigitRun | scripts/recommend_version.py:36 | the measured run from i consists of ASCII digits and is maximal: the character after it, if any, is not a digit |
| VersionText.SpaceRun | scripts/recommend_version.py:36 | the whitespace run from i stays inside the text |
| VersionText.VersionAt | scripts/recommend_version.py:36-41 | a capture at position i needs the tag to begin at i and is always a dotted number |
| VersionText.MatchPos | scripts/recommend_version.py:36-41 | re.search's match position is the leftmost position from i where the pattern matches; no position matches exactly when none is returned |
| VersionText.FindVersion | scripts/recommend_version.py:36-43 | the captured version is always "digits.digits", and there is none exactly when the pattern matches nowhere in the text |
| VersionText.DigitRunIs | scripts/recommend_version.py:36 | a digit run ended by the text's end or a non-digit has exactly the measured length |
| VersionText.SpaceRunIs | scripts/recommend_version.py:36 | a whitespace run ended by a digit has exactly the measured length |
| VersionText.VersionAfterTag | scripts/recommend_version.py:36-41 | the tag, at least one whitespace character, digits, a dot and digits ended by a non-digit capture exactly "digits.digits" (greedy runs) |
| VersionText.VersionFromRuns | scripts/recommend_version.py:36-41 | the capture at i stated by the measured run lengths |
| VersionText.FindVersionFirstTag | scripts/detect_cuda_version.py:57-59 | when the tag begins nowhere earlier, the search returns what the pattern captures at the first tag |
| VersionText.DigitsBelowPow | scripts/detect_cuda_version.py:134 | a run of n digits is worth less than ten to the n |
| VersionText.MajorOfDotted | scripts/detect_cuda_version.py:134-135 | int(float("d1.d2")) is the number spelled by d1 |
| VersionText.MajorOfParts | scripts/recommend_version.py:55 | int(float(v)) of an unsigned mantissa with no exponent is its integer digits' value |
| VersionText.UnpaddedFloat | scripts/recommend_version.py:55 | float() skips no whitespace when the text starts and ends with a digit |
| VersionText.BareFloatOfParts | scripts/recommend_version.py:55 | float() of "d1.d2" is d1 plus d2 scaled by ten to the number of its digits |
| VersionText.DottedParts | scripts/recommend_version.py:55 | "d1.d2" has no sign, no exponent, and d1 and d2 as its mantissa |
| VersionText.TruncOfFraction | scripts/recommend_version.py:55 | truncating iv plus a proper fraction gives iv |
| VersionText.DottedOfRuns | scripts/recommend_version.py:36 | two digit runs joined by a dot form a dotted number |
| VersionText.DottedNumberParses | scripts/recommend_version.py:36-55 | whatever the version scan captures is read by int(float(...)) without raising, and its major is never negative |
| PyText.LStrip | src/core/text_filter.py:63 | the result is a suffix of the input that starts with no whitespace, and everything removed is whitespace |
| PyText.RStrip | src/core/text_filter.py:63 | the result is a prefix of the input that ends with no whitespace, and everything removed is whitespace |
| PyText.Strip | src/core/text_filter.py:63 | the result is no longer than the input, has no whitespace at either end, and adds no character |
| PyText.Lower | src/core/scanner.py:25 | each character is lower-cased in place and the length is kept |
| PyText.ContainsChar | src/gui/source_tab.py:173 | `c in s` as a substring test is membership of the character |
| PyText.RemoveAll | src/core/text_filter.py:56 | replace-all with the empty string never lengthens the text and adds no character |
| PyText.RemoveAllChar | src/core/text_filter.py:56 | removing a one-character keyword leaves no occurrence of that character |
| PyText.IntToString | scripts/detect_cuda_version.py:141 | str(i) is non-empty and starts with '-' exactly for negative i |
| PyText.ParseIntIsStripped | ocr_cli.py:218 | int() of a text is int() of its strip |
| PyText.HexPairByte | ocr_cli.py:213 | two hex digits parse to the byte they spell, in 0..255 |
| PyText.IndexOf | scripts/detect_cuda_version.py:134 | the index found holds the character and no earlier position does |
| PyText.TruncToInt | scripts/detect_cuda_version.py:134 | int() of a float truncates toward zero |
| PyText.NatToStringValue | ocr_cli.py:218 | the digits str() writes for a natural number read back as that number |
| PyText.IntToStringRoundTrip | ocr_cli.py:218 | int(str(i)) == i for every int |
| PyText.SplitPiece | ocr_cli.py:218 | splitting at the first separator gives the piece before it and the split of the rest |
| PyText.SplitJoinOn | ocr_cli.py:218 | splitting what was joined gives back the pieces when none holds the separator |
| PyValue.Or | src/core/ocr_processor.py:259-261 | `a or b` is truthy exactly when one operand is, and is a itself when a is truthy |
| PyValue.Get | src/core/ocr_processor.py:259-261 | d.get(k) is None for a missing key and otherwise a value stored under k |
| PyValue.Values | src/core/ocr_processor.py:246-249 | the dict's values, one per entry, in insertion order |
| PyValue.Len | src/core/ocr_processor.py:262 | len() succeeds exactly on strings, lists, tuples and dicts |
| PyValue.Index | src/core/ocr_processor.py:264-265 | indexing a list inside its bounds gives that element, and any success is inside len() |
| PyValue.ListOf | src/core/ocr_processor.py:259-260 | list() succeeds exactly where len() does, with that many items, and keeps a list's elements |
| PyValue.ToFloat | src/core/ocr_processor.py:265 | float() of a number is its value; of anything but a number or a string it is TypeError |
| PyValue.StrOf | src/core/ocr_processor.py:264 | str() of a string is the string and of an int its decimal numeral |
| PyText.RoundHalfEven | src/core/ocr_processor.py:166-167 | round() gives an integer within a half of x, and the even one on a tie |
| PyText.RoundIsNearest | src/core/ocr_processor.py:166-167 | off a tie, round() gives the one integer closer than a half |
| PyText.Split | ocr_cli.py:218 | str.split always gives at least one piece |
| PyText.JoinSplit | ocr_cli.py:218 | joining the pieces of a split with the same separator gives back the text |

## Left out

Python values and arithmetic:

- `str()` of a float, list, tuple or dict is not modelled. `PyValue.StrOf` gives a fixed stand-in for these, so such a text compares equal only to itself.
- Floats are exact reals. There is no inf, nan or binary rounding, and `round(x, 4)` rounds an exact real.
- Numpy arrays and `.tolist()` are not modelled. The engines' answers are lists, tuples and dicts with string keys.
- Text handling covers ASCII only: digits, letters and lower-casing. Unicode case folding and non-ASCII digits in `int()` and `float()` are not modelled.

Files, paths and the operating system:

- `os.path.abspath` is taken as already applied. A path is a drive plus its components.
- `os.path.commonpath` compares components exactly. On Windows it ignores letter case, and that is not modelled.
- Scanner.PathLess: `sorted()` of paths compares components case-sensitively, as on POSIX. On Windows pathlib compares case-folded components, and that order is not modelled.
- The order of `os.walk` and of `rglob` is an input.
- `collect_images` in `ocr_cli.py` is taken as an input: the list of images it returns.
- PIL image I/O, the padded temporary file and `tempfile` are not modelled. `Geometry.TempSpace` models only acquiring and releasing the directory.
- MD5 digests are inputs.

External processes and libraries:

- Subprocess runs of `nvidia-smi` and `nvcc` are inputs, given as how each run ended. So are the onnxruntime provider list and its DLL walk.
- The PaddleOCR, RapidOCR, Senta, SnowNLP and TextBlob calls are inputs, given as what each call returned or raised.
- `paddle.set_device` and the tool's `_cuda_compiled` device choice are not modelled.

Counters, timers and GUI:

- Garbage collection and the resource monitor's memory check in the refactored processor are counted, not performed.
- The processor's debug dump and the command-line tool's raw debug dump are not modelled.
- The command-line tool's visualisation and its JSON, JSONL and CSV output are not modelled.
- Logging and printing are not modelled. This includes the diagnostic scripts' printed text, the prompt in `recommend_version.py` and the guide file's text. Only the recommended and fallback packages of the guide are modelled.
- The worker thread of the processing tab is not modelled as concurrency. The other thread is modelled as the index of the first image before which the flag is found cleared.
- Tk widgets, message boxes, the debounce timer `_schedule_reload` and thumbnail loading are not modelled.
- The database is an input: the rows it lists, the hash table each `get_image_hashes` call returns, and what its inserts and updates report. `add_images_batch` is not part of this model.
- `remove_source` and `open_source_folder` of the source tab are not modelled. They only forward to the database and the file manager.

Where the project's documentation and the code disagree, the code is followed:

- The code has no watchdog timeout around engine construction in `src/core/ocr_engine.py`. Construction outcomes are inputs.
- The normaliser can raise, for example when `float()` of a score fails. `ResultNormalizer.ParseOcrResult` returns that error, and the callers' downgrade to the defaults is proved.

Weaker contracts and modelling choices:

- SearchTab.SearchTab.LoadPage: requires a page of at least 1. Every method of the tab keeps this. The `max(1, …)` guard against a page entry below 1 set from outside the tab is not modelled.
- SourceTab.ScanRecordsAllHashes: holds only when every batch insert is accepted and nothing else writes to the table. A refused insert (an already listed `file_path`) leaves its hash unknown, and SourceTab.UnknownHashReported states what the next source then does.
- OcrCli.RunCli: parses the colour option once and hands the result to the loop. The source parses it again for every image. Parsing is pure, so each image sees the same result.

## Findings

| source | as written | input that shows it | evidently intended | confidence | as-written member | corrected member |
|---|---|---|---|---|---|---|
| src/utils/gpu_detector.py:28,81 | `import logging` sits inside the onnxruntime `try` and binds a local name. When that import is skipped, line 81 raises UnboundLocalError, and the bare `except` turns it into `(False, None)`. | onnxruntime not installed, MEMEFINDER_USE_GPU unset, and `nvidia-smi --version` exits with 0 | `(False, "检测到NVIDIA驱动，但ONNX Runtime可能未安装GPU版本")`, the driver-only message | not executed | GpuDetector.DriverMessageLost | GpuDetector.DetectGpu |

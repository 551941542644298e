# RAG document service: ingestion core in Dafny

This project models the ingestion core of a retrieval-augmented question-answering service, and proves properties of that model.

**Chunkers.** The service turns uploaded PDF, Word, spreadsheet and PowerPoint files into chunks: lists of chunk texts aligned with lists of locator metadata.
- A PDF page's text and a slide's text are cut into overlapping windows.
- Text from images comes from an OCR engine. Recognised lines are kept when their confidence exceeds 0.3, and they are added as `[IMAGE_TEXT]` blocks.
- Spreadsheet rows are grouped `rows_per_chunk` at a time, with 1-based inclusive row ranges.

**Index.** Each chunk is embedded and upserted in batches into a vector index under the id `"<filename>_<i>"`.

**Two APIs.**
- The first API (`app.py`) deletes a file by re-chunking it to recompute its ids.
- The versioned service (`app/services`) records the upload in a MongoDB ledger. It writes one document row, whose status goes processing, then completed or failed, and one vector-metadata record per chunk. It deletes a file by the ids the ledger recorded.

**Read path.** Matches are shaped into answers and references. `build_prompt` frames the retrieved texts. The upload endpoint validates extensions. The chat front end renders references.

**How the model is built.**
- External libraries are inputs. The parse of a file by PyMuPDF, pandas or python-pptx is a value (`Readers`). OCR answers are data. The sentence-embedding model is a function `embed`.
- The vector index is a `map` from id to entry. Every operation that talks to it returns the requests it sends, and `VectorStore.ApplyAll` gives the index afterwards.
- Pinecone rejecting a batch is the parameter `failAt`. A raising converter is a `Conversion` value.
- The upload directory is a set of present paths.
- The ledger is the class `Ledger.Database`. Its methods change its two sequences.
- Loops in the source are methods with loop invariants, proved against specification functions. Lemmas relate those functions to what the source promises.

**Main proved behaviours.**
- Window and row-group arithmetic, with coverage and order, and the termination edge cases.
- The batches tile the chunks. An upsert that raises leaves exactly a prefix of the ids in the index.
- Upload-then-delete through either API removes exactly what the upload stored, for an upload that was not converted and whose name has no `/`. For the first API this holds with its delete routing `.xls` the way its upload does (the corrected routing of the Findings row). A converted upload deleted through the ledger leaves its chunks (`Lifecycle.ConvertedDeleteLeavesVectors`), and an `.xls` delete through the first API as written finds no ids (`AppMain.XlsDeleteFindsNoIds`).
- The ledger-row lifecycle: created as processing, then completed exactly when the upload replied.

**Behaviour of the code as written.**
- For a `.ppt`, `.doc` or `.docx` upload through the versioned service, the ids the ledger records are not the ids the chunks were stored under. The ledger uses the upload's name. The index uses the base name of the converted file. Deleting such a file through the ledger therefore leaves its chunks in the index (`DocumentService.ConvertedIdsDiffer`, `Lifecycle.ConvertedDeleteLeavesVectors`).
- The first API's 404 for an empty result is caught by its own handler and reaches the client as a 500 (`AppMain.EmptyResultDetail`). The versioned service passes it on unchanged.
- Only the versioned service turns its internal 422s (a failed `.ppt` conversion, no content extracted) into 500s `"Processing failed: …"` (`DocumentService.PptRefusalIsServerError`, `DocumentService.EmptyContentIsServerError`). The first API's `upload_file` has no enclosing handler, so its `.ppt` conversion 422 reaches the client unchanged (`AppMain.UploadResult`), and it raises no 422 for a file without content.

**Where the code was followed.**
- `app/services/document_service.py` imports `app.utils.doc_loader`, which is taken to be `doc_loader.py`.
- The service settings (upload directory, chunk sizes, embedding model) take the values in `New folder/config.py`. `app/core/config.py` is not part of this model.

## Model

| member | source | states |
|---|---|---|
| Common.Strip | doc_loader.py:183-184 | `str.strip()`: no longer than the input, and neither end of a non-empty result is whitespace; with `StripIsInfix` and `StripCutsOnlySpace` this fixes the result exactly |
| Common.StripEmptyIffBlank | doc_loader.py:95-98 | a text strips to nothing exactly when it is all whitespace, the test behind `if text.strip()` |
| Common.StripIsInfix | doc_loader.py:265 | the stripped text is the infix of the input that starts right after its leading whitespace |
| Common.StripCutsOnlySpace | doc_loader.py:265 | everything cut before and after that infix is whitespace |
| Common.StripOfNonSpaceEnds | doc_loader.py:265 | a text that starts and ends with a non-space strips to itself |
| Common.StripIdempotent | doc_loader.py:183-184 | stripping twice is stripping once |
| Common.PySlice | doc_loader.py:97 | `s[i:j]` is never longer than `s` |
| Common.WindowSlice | doc_loader.py:97 | a window `s[i:i+w]` with `i` in range is the part of `[i, i+w)` inside `s`, at most `w` long |
| Common.NatToString | app/services/embedding_service.py:37 | `str(i)`: a number prints as at least one decimal digit, digits only, with no leading zero |
| Common.NatToStringInjective | app/services/embedding_service.py:37 | different numbers print differently |
| Common.NatToStringValue | app/services/embedding_service.py:37 | the printed digits read back as the number, so they are its decimal notation |
| Common.Lower | app.py:52 | `str.lower()` keeps the length and lower-cases each character |
| Common.LowerIdempotent | app.py:52 | lower-casing twice is lower-casing once |
| Common.LastIndexOf | app.py:52 | the position of the last occurrence of a character, or none when it does not occur |
| Paths.Basename | doc_loader.py:28 | `os.path.basename`: a suffix of the path with no `/` in it |
| Paths.BasenameOfJoin | app.py:45-67 | a name without `/` joined under the upload directory has that name as its base name |
| Paths.SplitExt | app.py:52 | `os.path.splitext`: the two parts make up the path; the extension is empty or a dot followed by characters other than dots and slashes |
| Paths.SplitExtOfSimpleName | app.py:52 | a plain stem followed by one extension splits into those two |
| Ocr.Zip | doc_loader.py:58 | pairs `rec_texts` with `rec_scores` position by position, as many pairs as the shorter list |
| Ocr.KeepZipped | doc_loader.py:54-60 | the dict-shape loop extracts exactly the kept lines of the zipped pairs, in order |
| Ocr.KeepListed | doc_loader.py:63-71 | the list-shape loop passes over unusable entries and extracts exactly the kept lines of the usable ones |
| Ocr.ImageBlock | doc_loader.py:49-84 | one image's OCR outcome: no block when it raised or nothing was kept, otherwise the marker and the kept lines joined by spaces |
| Ocr.KeptAppend | doc_loader.py:58-60 | filtering distributes over concatenation, so kept lines stay in recognition order |
| Ocr.KeptSource | doc_loader.py:59-60 | every kept line comes from one pair that passed the test and strips to it |
| Ocr.KeptContains | doc_loader.py:59-60 | every pair that passes the test contributes its stripped text |
| Ocr.KeptMembership | doc_loader.py:59-60 | a line is kept if and only if some recognised pair passes the test and strips to it |
| Ocr.KeptLinesAreClean | doc_loader.py:59-60 | every kept line is non-empty, already stripped, and was recognised with confidence above 0.3 |
| Ocr.BlockShape | doc_loader.py:74-76 | an image yields a block exactly when some line is kept; the block begins with `[IMAGE_TEXT]: ` and then the first kept line |
| Ocr.DictAndListAgree | doc_loader.py:54-72 | the dict and the list result shapes keep the same lines when they carry the same pairs |
| Ocr.ListPairsAllUsable | doc_loader.py:65-68 | a list result whose entries are all usable yields the same pairs as the zip |
| Ocr.RevenueExample | doc_loader.py:59-76 | "Revenue" at 0.92 and "xx" at 0.10 give the block `[IMAGE_TEXT]: Revenue` |
| SlidingWindow.WithImageTextPrefix | doc_loader.py:86-89 | the combined page text starts with the native text, and is the native text when there are no image blocks |
| SlidingWindow.WindowsAtStarts | doc_loader.py:96-97 | there is one window per visited position, and it is the slice taken at that position |
| SlidingWindow.StartsAreMultiples | doc_loader.py:96 | `range(0, n, stride)` visits exactly the multiples of the stride below `n` |
| SlidingWindow.WindowsBounded | doc_loader.py:97 | every window `text[i:i+size]` is at most `size` characters long |
| SlidingWindow.PdfChunks | doc_loader.py:94-98 | the definition of the PDF window loop: the windows at 0, stride, 2·stride, … kept untrimmed when not blank; its properties are `PdfChunksBounded`, `WindowOverlap`, `NoTextLost` and `Example2200` |
| SlidingWindow.PdfChunksBounded | doc_loader.py:96-99 | every PDF chunk is non-blank and at most `chunk_size` characters long |
| SlidingWindow.PptChunks | doc_loader.py:263-277 | the definition of the slide window loop: the same windows, each stripped and kept when non-empty; its properties are `PptChunksBounded` and `TrimmedIsStrippedNonBlank` |
| SlidingWindow.TrimmedIsStrippedNonBlank | doc_loader.py:264-266 | the presentation chunks are, one for one, the stripped PDF-style chunks of the same windows |
| SlidingWindow.PptChunksBounded | doc_loader.py:264-267 | every presentation chunk is non-empty, already stripped and at most `chars_per_chunk` characters long |
| SlidingWindow.WindowOverlap | doc_loader.py:96-97 | consecutive windows share `size - stride` characters: the tail of one after its first `stride` characters is the head of the next |
| SlidingWindow.WindowsCover | doc_loader.py:96-97 | with `0 <= overlap`, every position of the text lies in some window |
| SlidingWindow.NoTextLost | doc_loader.py:95-99 | with `0 <= overlap`, every non-whitespace character lies in a window the loader keeps |
| SlidingWindow.NonBlankTextHasChunk | doc_loader.py:95-99 | a page text with a non-whitespace character yields at least one chunk |
| SlidingWindow.NonBlankKeepsAll | doc_loader.py:98 | when no window is blank, every window is kept |
| SlidingWindow.Example2200 | doc_loader.py:96-99 | 2200 non-blank characters with 1000 and 100 give three chunks of 1000, 1000 and 400 characters |
| PdfChunker.PageImageTexts | doc_loader.py:35-84 | the image loop of a page yields the blocks of the pixmaps with fewer than four colour channels whose OCR kept a line, in image order; failing images are skipped |
| PdfChunker.PageWindows | doc_loader.py:95-107 | the window loop of a page with a positive stride yields exactly the non-blank windows, untrimmed |
| PdfChunker.PageWindow | doc_loader.py:97-99 | one pass of the window loop appends the window at `i` when it is not blank and leaves the windows from `i + stride` to come |
| PdfChunker.LoadAndChunkPdf | doc_loader.py:15-116 | a missing path returns `None`; otherwise the metadata list is the record per kept window, page by page, and the chunk list is its texts; an unopenable file or a zero step gives two empty lists |
| PdfChunker.ChunkPages | doc_loader.py:30-107 | the page loop yields the records of every page in page order, the chunk list being their texts |
| PdfChunker.ZeroStrideGivesNothing | doc_loader.py:96-116 | with `chunk_size == overlap` the loader returns no chunks (`range` raises and the handler returns empty lists) |
| PdfChunker.DocMetaOrigin | doc_loader.py:96-106 | every record comes from one page: its page number is that page's index plus one, its image fields count that page's blocks, and its text is a chunk of that page's text |
| PdfChunker.PdfMetaShape | doc_loader.py:100-106 | every record names the file's basename, a page between 1 and the page count, a non-blank text of at most `chunk_size` characters, and `has_images` exactly when `image_count > 0` |
| PdfChunker.PagesAscending | doc_loader.py:30-106 | records come in page order |
| PdfChunker.ContentIsIndexed | doc_loader.py:88-99 | with `0 <= overlap < chunk_size`, a page with non-blank text or at least one image block yields a record |
| PdfChunker.PageTextNotBlank | doc_loader.py:86-95 | a page with non-blank text or an image block has a non-blank combined text |
| PdfChunker.BlockIsMarked | doc_loader.py:76 | every image block of a page begins with `[IMAGE_TEXT]: ` |
| ExcelChunker.RowTexts | doc_loader.py:139-141 | one text per row, each the row's cells (missing cells as empty strings) joined by single spaces |
| ExcelChunker.RowTextsSlice | doc_loader.py:135-142 | taking the row texts of the whole sheet and slicing gives each group the text the per-group `agg` gives it |
| ExcelChunker.ChunkSheet | doc_loader.py:125-157 | one sheet: nothing for a sheet without rows, the zero-step raise, nothing for a negative step, otherwise the sheet's records |
| ExcelChunker.SheetGroups | doc_loader.py:132-157 | the group loop with a positive step emits exactly the records of the non-blank groups, in row order |
| ExcelChunker.SheetGroup | doc_loader.py:133-157 | one pass of the group loop appends the record of the group at `start`, if its text is not blank, and leaves the groups from `start + rows_per_chunk` to come |
| ExcelChunker.EmitGroup | doc_loader.py:146-157 | a group gives no record when its stripped text is empty, otherwise one record with that text |
| ExcelChunker.ChunkSheets | doc_loader.py:124-157 | the sheet loop yields the records sheet after sheet, or the raise of the first sheet that raises |
| ExcelChunker.LoadAndChunkExcel | doc_loader.py:119-159 | a missing file and an unreadable workbook raise; a zero step on a sheet with rows raises; otherwise the chunk list and metadata list, entry for entry |
| ExcelChunker.RaisePersists | doc_loader.py:124-132 | once a sheet raises, the whole load raises whatever sheets follow |
| ExcelChunker.RowGroupShape | doc_loader.py:132-144 | each group starts at a visited position, ends at `min(start + rows_per_chunk, total_rows)` after its start, and carries the joined text of exactly those rows |
| ExcelChunker.RowGroupsOrdered | doc_loader.py:132-133 | an earlier group ends no later than a later one starts |
| ExcelChunker.RowGroupStart | doc_loader.py:132 | group `i` starts `i * rows_per_chunk` rows past the first |
| ExcelChunker.RowGroupAt | doc_loader.py:132 | every visited start has its group |
| ExcelChunker.EmittedOrigin | doc_loader.py:146-157 | every record is the record of one group |
| ExcelChunker.EmittedFor | doc_loader.py:146-157 | every group with non-blank text has its record |
| ExcelChunker.EmittedOrdered | doc_loader.py:150-157 | records of ordered groups have ordered, non-overlapping row ranges |
| ExcelChunker.SheetRecordShape | doc_loader.py:151-157 | every record names the file and the sheet, with `1 <= start_row <= end_row <= total_rows`, a start one past a multiple of the step, fewer than `rows_per_chunk` rows and `end_row = min(start + rows_per_chunk, total_rows)` |
| ExcelChunker.SheetRecordText | doc_loader.py:138-156 | a record's text is the stripped, joined text of exactly the rows `start_row..end_row`, and it is non-empty |
| ExcelChunker.EmitPlaced | doc_loader.py:150-157 | a group gives at most one record, naming the file and the group's 1-based row range |
| ExcelChunker.EmitShape | doc_loader.py:143-157 | a group's record carries the stripped group text, which is non-empty and already stripped |
| ExcelChunker.SheetRecordsAscending | doc_loader.py:132-157 | a sheet's records are in row order and their row ranges do not overlap |
| ExcelChunker.SheetGroupKept | doc_loader.py:132-157 | every group of rows the loop visits whose text is not blank has its record |
| ExcelChunker.SheetRowCovered | doc_loader.py:132-157 | every non-blank row lies inside some record's row range |
| ExcelChunker.GroupStart | doc_loader.py:132 | every row lies in the group starting at the multiple of the step just below it |
| ExcelChunker.RowMakesGroup | doc_loader.py:138-148 | a group containing a non-blank row has non-blank text |
| ExcelChunker.RaisingSheet | doc_loader.py:127-132 | if the load raises, the step is zero and some sheet has rows |
| ExcelChunker.SheetRaises | doc_loader.py:127-132 | a zero step and a sheet with rows make the load raise |
| ExcelChunker.BookRecordOrigin | doc_loader.py:124-157 | every record of the workbook is a record of one of its sheets |
| ExcelChunker.TwelveRowsExample | doc_loader.py:132-133 | twelve rows with the default step of 5 give the row ranges 1-5, 6-10 and 11-12 |
| PptChunker.CollectShapeTexts | doc_loader.py:179-188 | the shape loop collects the stripped texts of the shapes that have a non-blank `text`, in shape order |
| PptChunker.CollectPictureTexts | doc_loader.py:193-246 | the picture loop collects one block per picture whose OCR kept a line, in shape order; a failing picture is skipped |
| PptChunker.ReadSlide | doc_loader.py:179-253 | a slide's text is its shape texts one per line, then a blank line and the image blocks one per line when there is a block, with the block count beside it |
| PptChunker.SlideWindows | doc_loader.py:262-277 | the window loop with a positive stride yields exactly the non-empty stripped windows |
| PptChunker.SlideWindow | doc_loader.py:265-277 | one pass of the window loop appends the stripped window at `pos` when it is not empty and leaves the windows from `pos + stride` to come |
| PptChunker.ChunkSlide | doc_loader.py:257-277 | a blank slide is skipped; a non-positive stride on a non-blank slide never returns; otherwise one record per kept window |
| PptChunker.LoadAndChunkPpt | doc_loader.py:163-290 | a missing or unreadable file gives two empty lists; otherwise the records slide by slide with the chunk list as their texts, or no return when the stride is not positive and some slide has text |
| PptChunker.ChunkSlides | doc_loader.py:175-284 | the slide loop yields the records in slide order, or does not return from the first non-blank slide with a non-positive stride |
| PptChunker.DivergencePersists | doc_loader.py:262-277 | once a slide's loop does not return, neither does the load, whatever slides follow |
| PptChunker.DivergingSlide | doc_loader.py:257-277 | if the load does not return, the stride is not positive and some slide has non-blank text |
| PptChunker.DivergesAt | doc_loader.py:257-277 | a non-positive stride and a slide with non-blank text make the load not return |
| PptChunker.RecordOrigin | doc_loader.py:175-274 | every record of the presentation is a record of one slide |
| PptChunker.SlideRecordShape | doc_loader.py:265-274 | a slide's records name the file, the 1-based slide number and its image counts, and carry a kept window of the slide's text |
| PptChunker.RecordSlide | doc_loader.py:265-274 | every record comes from one slide, numbered from 1, with that slide's image counts and one of its chunks |
| PptChunker.SlidesAscending | doc_loader.py:267-274 | records come in slide order |
| PptChunker.PptRecordShape | doc_loader.py:265-274 | every returned record has its chunk beside it, names the basename, a slide between 1 and the slide count, a non-empty stripped text of at most `chars_per_chunk` characters, and `has_images` exactly when `image_count > 0` |
| PptChunker.SameWindowsAsPdf | doc_loader.py:262-266 | the presentation chunks are the PDF chunks of the same text, each stripped |
| PptChunker.ShapeTextsNonEmpty | doc_loader.py:181-185 | some shape text is collected if and only if some shape has a non-blank `text` |
| PptChunker.ShapeTextsTrimmed | doc_loader.py:183-185 | every collected shape text is non-empty and starts with a non-whitespace character |
| PptChunker.BlocksMarked | doc_loader.py:238 | every picture block begins with `[IMAGE_TEXT]: ` |
| PptChunker.SlideNotBlank | doc_loader.py:183-259 | a slide with a non-blank shape text or a picture block is not skipped as empty |
| PptChunker.ContentIsIndexed | doc_loader.py:257-277 | with `0 <= overlap < chars_per_chunk`, a slide with a non-blank shape text or a picture block yields at least one record |
| Records.ToDict | doc_loader.py:100-274 | the dict a loader appends for a chunk carries its text and source, `page` only for PDF pages, `slide` only for slides, `sheet`, `start_row` and `end_row` only for sheet rows, and the image keys for pages and slides but not for sheets |
| Records.Dicts | doc_loader.py:100-106 | one dict per chunk record, in order |
| Records.Texts | doc_loader.py:99-268 | the chunk list the loaders return beside the metadata list: entry `j` is the text of metadata `j` |
| Records.Tagged | doc_loader.py:99-274 | the records of one page or slide carry its chunks in order, each with the file and the page's or slide's locator |
| Records.SeparatorIsLastUnderscore | app/services/embedding_service.py:37 | in `"<filename>_<i>"` the last underscore is the one after the filename |
| Records.VectorIdInjective | app/services/embedding_service.py:37 | different (file, index) pairs give different vector ids |
| Records.IdRange | app/services/embedding_service.py:36-37 | the ids of positions `lo..hi-1`, in order |
| Records.IdRangeDistinct | app/services/embedding_service.py:36-37 | the ids of one upload's positions are pairwise distinct |
| VectorStore.Ids | app/services/embedding_service.py:38-40 | the ids of the tuples an upsert sends, in order |
| VectorStore.PutConcat | app/services/embedding_service.py:32-40 | upserting two batches one after the other is upserting their concatenation |
| VectorStore.PutKeys | app/services/embedding_service.py:40 | after an upsert the index holds exactly the old keys and the sent ids, and every key not sent keeps its entry |
| VectorStore.PutLookup | app/services/embedding_service.py:40 | with distinct ids, each sent id maps to the values and metadata it was sent with |
| VectorStore.Remove | app/services/embedding_service.py:67-70 | a delete leaves exactly the keys not named, with their entries unchanged |
| VectorStore.ApplyAllSnoc | app/services/embedding_service.py:32-40 | the index after one more request is that request applied to the index before it |
| EmbeddingService.EmbedChunks | app/services/embedding_service.py:20-23 | one embedding per chunk, entry `i` being the model's encoding of chunk `i` |
| EmbeddingService.EmbedAndUpsert | app/services/embedding_service.py:25-40 | empty metadata raises before sending; a zero batch size raises in `range`; a negative one sends nothing; otherwise the batches of `range(0, total, batch_size)` are sent in order, up to the first that runs out of metadata or that the index rejects, under `metadata[0].get('source', 'unknown')` |
| EmbeddingService.UpsertEffect | app/services/embedding_service.py:27-40 | after the call, every position reached is stored under `"<filename>_<i>"` with its embedding and its dict, no other key changes, and the call succeeded exactly when every chunk was reached |
| EmbeddingService.QueryVectors | app/services/embedding_service.py:42-65 | one query with the encoded question and `top_k`, and one answer per match, shaped field by field with its defaults |
| EmbeddingService.DeleteVectors | app/services/embedding_service.py:67-70 | an empty id list sends nothing; otherwise one delete request with exactly those ids |
| EmbeddingService.DeleteEffect | app/services/embedding_service.py:67-70 | after the delete, the index keeps exactly the keys not named, with unchanged entries |
| Embeddings.EmbedAndUpsert | embeddings.py:15-33 | as the service method, except that `metadata[0]['source']` raises when the key is missing |
| Embeddings.FullUpsert | embeddings.py:15-33 | with enough metadata and no rejected batch, every chunk `i` is stored under `"<source>_<i>"` with its embedding and dict, and no other key changes |
| UpsertBatching.Tuples | app/services/embedding_service.py:34-38 | the tuples of positions `lo..hi-1`, one per position |
| UpsertBatching.TupleAt | app/services/embedding_service.py:37-38 | tuple `j` of a batch is `("<filename>_<lo+j>", embedding lo+j, metadata lo+j)` |
| UpsertBatching.TupleIds | app/services/embedding_service.py:37 | a batch's ids are the ids of its positions |
| UpsertBatching.TuplesSplit | app/services/embedding_service.py:32-38 | two adjacent batches carry the tuples of their joined range |
| UpsertBatching.SpansTile | app/services/embedding_service.py:32-33 | the batches tile `0..total-1`: each ends where the next begins, the last ends at `total`, and each holds between 1 and `batch_size` positions |
| UpsertBatching.SpanStart | app/services/embedding_service.py:32-33 | batch `k` starts at `k * batch_size` and ends at `min(start + batch_size, total)` |
| UpsertBatching.FirstStop | app/services/embedding_service.py:32-40 | the first batch that raises lies between the current one and the end |
| UpsertBatching.FirstStopSpec | app/services/embedding_service.py:36-40 | no batch before the first stop raises |
| UpsertBatching.FirstStopStops | app/services/embedding_service.py:36-40 | the first stop, when there is one, raises |
| UpsertBatching.Plan | app/services/embedding_service.py:28-40 | the definition of one batched call: the batches sent, the position reached and the error that ended it; its properties are `RunOutcome`, `SentTile`, `Delivered`, `StoredAt` and `OthersKept` |
| UpsertBatching.RunOutcome | app/services/embedding_service.py:32-40 | the positions reached are at most the chunks and the dicts; the call succeeds exactly when every chunk is reached; too few dicts is the only cause of the metadata error; a rejected batch is the configured one; with enough dicts and no rejection the call succeeds |
| UpsertBatching.SentTile | app/services/embedding_service.py:32-40 | the batches sent tile `0..reached-1` in order |
| UpsertBatching.Upserts | app/services/embedding_service.py:40 | one upsert request per batch sent |
| UpsertBatching.UpsertsSnoc | app/services/embedding_service.py:40 | sending one more batch appends its request |
| UpsertBatching.UpsertAt | app/services/embedding_service.py:34-40 | request `k` carries the tuples of batch `k` |
| UpsertBatching.Delivered | app/services/embedding_service.py:32-40 | the requests sent leave the index as one upsert of every tuple reached |
| UpsertBatching.ChainedDelivers | app/services/embedding_service.py:32-40 | requests for consecutive batches from 0 have the effect of one upsert of their joined range |
| UpsertBatching.SentChained | app/services/embedding_service.py:32-40 | the batches sent are consecutive from position 0 |
| UpsertBatching.StoredAt | app/services/embedding_service.py:37-40 | every position reached is stored under its id with its embedding and dict |
| UpsertBatching.OthersKept | app/services/embedding_service.py:37-40 | keys outside the ids reached keep their entries |
| UpsertBatching.BuildBatch | app/services/embedding_service.py:34-38 | the inner loop builds the batch's tuples, or raises when the metadata list runs out first |
| UpsertBatching.LoopHalt | app/services/embedding_service.py:32-40 | when the batch at hand raises, the batches already sent are exactly the run's, with its error |
| UpsertBatching.SendNext | app/services/embedding_service.py:33-40 | one pass of the outer loop sends the batch at `start` or ends the run as the plan says |
| UpsertBatching.UpsertAll | app/services/embedding_service.py:32-40 | the batch loop sends exactly the run's requests and ends with its error |
| Records.TextsAppend | doc_loader.py:99-100 | the chunk list of two runs of records is the concatenation of theirs |
| Records.DictsAppend | doc_loader.py:100-106 | the metadata list of two runs of records is the concatenation of theirs |
| Dispatch.Loader | app.py:69-77 | a file goes to the spreadsheet loader exactly when its extension is `.xlsx` or `.xls`, to the deck loader exactly when it is `.pptx`, and to the PDF loader otherwise |
| Dispatch.StageTable | app.py:52-66 | a failing `.ppt` conversion raises inside that block; a converted `.ppt` is read as the `.pptx` beside it, with the `.ppt` removed; a `.doc` or `.docx` raises exactly when its conversion fails, and otherwise is read as the PDF beside it, kept until the end and then removed; any other file is read where it was saved, with the disk unchanged |
| Dispatch.Stage | app.py:52-66 | the definition of the conversion steps from the saved file; `StageTable` and `StageLeaves` state what each extension reaches and leaves on disk |
| Dispatch.Staging | app.py:44-66 | the definition of the conversion steps for an upload saved into the upload directory, which the upload handlers of both APIs start with; properties as for `Dispatch.Stage` |
| Dispatch.StageLeaves | app/services/document_service.py:44-131 | once ingested, the file the chunker read is on disk, a converted original is not, and an unconverted file stays where it was saved |
| Dispatch.PdfPathDiffers | app.py:61-63 | the PDF a Word file converts to is a different path from the file itself |
| Dispatch.DefaultSlidesTerminate | doc_loader.py:262-277 | with the default chunk size 1000 and overlap 100 the slide loop always ends |
| Dispatch.LoadFile | app.py:69-77 | the chunker call returns the selected loader's records with its default parameters, or raises: a missing PDF returns `None`, which the caller fails to unpack |
| Dispatch.Load | app.py:69-77 | the definition of the chunker call `LoadFile` is proved against; `LoadSources` states that every record names the file's base name |
| Dispatch.LoadSources | doc_loader.py:100-274 | every record a loader returns names the file by its base name |
| AppMain.UploadFile | app.py:43-81 | the handler's requests, disk and reply are the upload outcome of the saved file, whose properties the three lemmas below state |
| AppMain.UploadResult | app.py:43-81 | a successful reply is `"<name> uploaded!"`; a failed `.ppt` conversion answers 422 with nothing sent; nothing is sent unless the conversions succeeded. `UploadOk`, `UploadStores` and `UploadLeaves` state the rest |
| AppMain.UploadOk | app.py:43-81 | an upload succeeds only when staging and chunking succeed, the file yields at least one record and no batch is rejected; it then sends the batches of all records at the default batch size under the first record's source, removes the saved original only after a Word conversion, and replies `"<name> uploaded!"` |
| AppMain.UploadStores | app.py:67-77 | a successful upload stores record `i` under `"<base name of the chunked path>_<i>"` with the embedding of its text and its dict, and leaves every other id as it was |
| AppMain.UploadLeaves | app.py:45-79 | after a successful upload the chunked file is on disk; a `.doc` or `.docx` original is gone and the PDF beside it is what was chunked; a `.ppt` original is gone and the `.pptx` beside it was chunked; any other file is saved where the name says and chunked there |
| AppMain.DeleteRoute | app.py:124-129 | (corrected) a delete re-reads a file with the chunker its upload used |
| AppMain.DeleteRouteAsWritten | app.py:124-129 | (as written) the routing agrees with the upload's on every extension `os.path.splitext` can return except `.xls`, which goes to the PDF chunker |
| AppMain.DeleteIdsMembers | app.py:132-136 | an id is deleted exactly when it is `"<filename>_<i>"` for a position `i` whose record names the file |
| AppMain.DeleteIdsOfOneFile | app.py:132-136 | when every record names the file, the ids are those of all positions in order |
| AppMain.DeleteFile | app.py:120-151 | the handler's requests, disk and reply are those of the corrected routing: a loader failure propagates with nothing sent; no ids answers "no ids to delete" and changes nothing; otherwise one delete of the ids, then the file is removed, or a missing file raises after the delete |
| AppMain.DeleteResult | app.py:120-151 | a delete removes at most the saved file and sends at most one request; no ids sends nothing and changes nothing; status ok sent one delete and removed exactly the saved file; an error leaves the disk as it was. `DeleteIdsMembers` and `UploadThenDelete` state which ids go |
| AppMain.XlsDeleteFindsNoIds | app.py:124 | as written, deleting an `.xls` that cannot be opened as a PDF sends nothing, keeps the file and answers "no ids to delete" |
| AppMain.DeleteRoutesDiffer | app.py:124 | the written and the corrected routing differ for exactly one extension, `.xls` |
| AppMain.UploadThenDelete | app.py:43-151 | (corrected) with the delete routing `.xls` to the spreadsheet chunker, deleting a file that was not converted and whose name has no `/`, right after uploading it, sends one delete of exactly the ids the upload stored, removes the file and leaves the index as it was before the upload, less those ids |
| AppMain.QueryEndpoint | app.py:88-118 | the query embeds the question with `top_k`; an empty result becomes a 500 carrying the 404's text; a failing model becomes a 500 with its message; otherwise the answer comes back with one reference per match, in order |
| AppMain.EmptyResultDetail | app.py:93-118 | the 500 for an empty result reads `"404: No relevant documents found."` |
| DocumentService.BuildRecords | app/services/document_service.py:98-116 | the loop builds one ledger record per metadata dict, in order |
| DocumentService.SheetNames | app/services/document_service.py:71-72 | the workbook's sheet names, one per sheet, in order |
| DocumentService.Failing | app/services/document_service.py:140-149 | the exception handler saves the row exactly once more, after the saves made so far, and always raises a 500; `FailingEnds` and `FailingKept` state the saved row |
| DocumentService.ProcessResult | app/services/document_service.py:18-149 | every upload first saves the new processing row, then that row with its size, then at least one more state |
| DocumentService.StageFailure | app/services/document_service.py:48-149 | a failed conversion saves the created and sized rows and at least one more, replies with an error, and inserts and sends nothing |
| DocumentService.Ingest | app/services/document_service.py:66-149 | past the conversions, the upload keeps the saves made so far and saves the row at least once more |
| DocumentService.Index | app/services/document_service.py:93-138 | once chunks exist, the upload keeps the saves made so far and saves the row at least once more |
| DocumentService.RecordAndEmbed | app/services/document_service.py:97-122 | the ledger records of the chunks and the service's `embed_and_upsert` call at its default batch size of 100 |
| DocumentService.ProcessUpload | app/services/document_service.py:18-149 | the upload's outcome, with the ledger then holding the old rows plus the upload's row in its last saved state, and the old records plus the ones it inserted |
| DocumentService.SaveLast | app/services/document_service.py:40-42 | saving the row just created replaces the last row of the ledger |
| DocumentService.StageFailed | app/services/document_service.py:53-149 | the `.ppt` handler's save, then the outer handler's; no records are inserted |
| DocumentService.Fail | app/services/document_service.py:140-149 | the row is saved as failed with `str(e)`, the current file is removed if it exists, and a 500 carries `"Processing failed: "` and the same text |
| DocumentService.IngestStaged | app/services/document_service.py:66-91 | a chunker or count failure goes to the handler; an empty chunk list saves the row as failed and raises a 422 the handler catches; otherwise the chunks are indexed |
| DocumentService.IndexChunks | app/services/document_service.py:93-138 | the chunk count is saved, the records inserted, the upsert made, and the row completed, or the handler runs after the records were inserted |
| DocumentService.ProcessOk | app/services/document_service.py:18-138 | an upload succeeds only when the conversion, the chunker and the count step return, at least one chunk is found and no batch is rejected; it then saved the row four times, ending completed, inserted one record per chunk and replied with the chunk count |
| DocumentService.StageFailureEnds | app/services/document_service.py:53-149 | a failed conversion never replies, and its last save agrees with the 500 |
| DocumentService.IngestOk | app/services/document_service.py:66-91 | a reply past the conversions means the chunker and the count step returned with at least one chunk |
| DocumentService.IndexOk | app/services/document_service.py:119-138 | a reply past the count means no batch was rejected, and the last two saves are the count and the completion |
| DocumentService.CountedKeeps | app/services/document_service.py:67-85 | the count step fills in the count of its own format only and changes nothing else |
| DocumentService.Counted | app/services/document_service.py:67-85 | the definition of the count step after chunking, which raises on a missing or unreadable file; `CountedKeeps` states what it changes |
| DocumentService.FailingEnds | app/services/document_service.py:140-149 | the handler leaves a failed last save whose message is the 500's detail after `"Processing failed: "` |
| DocumentService.KeepSave | app/services/document_service.py:24-127 | one more save of the same upload keeps the fields set from it, and nothing before the last save is completed |
| DocumentService.FailingKept | app/services/document_service.py:140-144 | the handler's save ends an open upload within the ledger invariant |
| DocumentService.StageFailureKept | app/services/document_service.py:53-144 | a failed conversion's saves keep the ledger invariant |
| DocumentService.OpenAfterSize | app/services/document_service.py:24-42 | after creation and the size save the upload is open: created as processing with size 0, then saved with its size |
| DocumentService.PptRefusalKept | app/services/document_service.py:53-144 | the `.ppt` handler's extra save keeps the ledger invariant |
| DocumentService.IndexKept | app/services/document_service.py:93-144 | the indexing saves keep the ledger invariant, whatever the index does |
| DocumentService.IndexEnds | app/services/document_service.py:119-149 | after indexing, the reply and the last save agree |
| DocumentService.IngestKept | app/services/document_service.py:66-144 | the saves past the conversions keep the ledger invariant |
| DocumentService.IngestEnds | app/services/document_service.py:66-149 | past the conversions, the reply and the last save agree |
| DocumentService.ProcessLife | app/services/document_service.py:18-149 | every upload is created as processing with size 0, saved with its size, keeps the fields set from its name and size, and is completed at most at its last save; it replied exactly when that save is completed with its chunk count and one record per chunk, and otherwise the last save is failed with the 500's text |
| DocumentService.ProcessLeaves | app/services/document_service.py:44-131 | after a successful upload the chunked file is on disk, a converted `.doc`, `.docx` or `.ppt` original is gone, and any other file stays where it was saved |
| DocumentService.ProcessCleansUp | app/services/document_service.py:140-148 | a failed upload removes the saved file, or for a `.ppt` the original when its conversion failed and the converted deck otherwise |
| DocumentService.IngestDisk | app/services/document_service.py:146-148 | past the conversions, a failure removes the current saved file |
| DocumentService.PptRefusalIsServerError | app/services/document_service.py:53-149 | the `.ppt` block's 422 is saved, caught by the outer handler, saved again as its `str()`, and raised as a 500 with that text; nothing is recorded or sent |
| DocumentService.EmptyContentIsServerError | app/services/document_service.py:87-149 | the 422 for an empty chunk list ends the same way: two failed saves and a 500 |
| DocumentService.RecordsFollowChunks | app/services/document_service.py:99-116 | record `i` has id `"<filename>_<i>"`, the upload's name, position `i`, its chunk's text length, its locator keys, its image fields (`False` and 0 for a sheet) and the embedding model |
| DocumentService.ServiceStores | app/services/document_service.py:121-122 | a successful upload stores chunk `i` under `"<base name of the chunked path>_<i>"` with its embedding and dict, and no other id changes |
| DocumentService.LedgerMatchesIndex | app/services/document_service.py:100-122 | for an unconverted upload whose name has no `/`, record `i`'s id is where chunk `i` is stored |
| DocumentService.UnconvertedBasename | app/services/document_service.py:20-64 | an unconverted upload is chunked from a file whose base name is the upload's name |
| DocumentService.ConvertedIdsDiffer | app/services/document_service.py:48-122 | for a converted upload no recorded id is one the upload stored: the index keeps what it held under those ids |
| DocumentService.ConvertedBasename | app/services/document_service.py:48-64 | a converted file's chunked path has a base name other than the upload's name |
| DocumentService.ProcessRecords | app/services/document_service.py:98-119 | an upload inserts no records or one per chunk |
| DocumentService.IndexRecords | app/services/document_service.py:119-122 | the records are inserted before the index call, whatever it does |
| DocumentService.ProcessKeepsIds | app/services/document_service.py:100-104 | an upload keeps every ledger record's id prefixed by its document's name |
| Ledger.Database.constructor | app/services/document_service.py:24-33 | an empty ledger |
| Ledger.Database.Create | app/services/document_service.py:24-33 | `create()` appends the row and returns its position; records unchanged |
| Ledger.Database.Save | app/services/document_service.py:40-144 | `save()` overwrites the upload's own row and nothing else |
| Ledger.Database.InsertMany | app/services/document_service.py:118-119 | `insert_many` appends the records in order; rows unchanged |
| Ledger.Database.DeleteRecordsOf | app/services/file_service.py:113-116 | the records of the file are removed and every other record kept in order |
| Ledger.Database.DeleteRow | app/services/file_service.py:118-119 | the found row is removed and the other rows kept in order |
| Ledger.SavedOverLast | app/services/document_service.py:124-127 | saving over the last row replaces it |
| Ledger.FirstRow | app/services/file_service.py:91-93 | `find_one` finds no row exactly when none has the name, and otherwise the first that has it |
| Ledger.RecordsOfMembers | app/services/file_service.py:102-104 | `find` returns exactly the records of the file |
| Ledger.RecordsButMembers | app/services/file_service.py:113-116 | after the delete, exactly the records of other files remain |
| Ledger.RecordsButNone | app/services/file_service.py:106-116 | a file without records leaves the records as they were |
| Ledger.RecordsOfOther | app/services/file_service.py:113-116 | deleting one file's records keeps every other file's records in order |
| Ledger.RecordsOfAppend | app/services/document_service.py:118-119 | the records of a file in two appended runs are those of each in order |
| Ledger.RowsNamedAfterDelete | app/services/file_service.py:118-119 | deleting the first row of a name removes just that row from the rows of that name, and no row of any other name |
| Ledger.RowsNamedDeletedFirst | app/services/file_service.py:118-119 | for the name deleted, the rows of that name lose their first |
| Ledger.RowsNamedDeletedOther | app/services/file_service.py:118-119 | for any other name, the rows of that name are unchanged |
| Ledger.RowsNamedAround | app/services/file_service.py:118-119 | the rows of a name split around a position |
| Ledger.RowsNamedNone | app/services/file_service.py:91-99 | rows without the name give no rows of that name |
| Ledger.RowsNamedAppend | app/services/document_service.py:24-33 | the rows of a name in two appended runs are those of each in order |
| FileService.RecordIds | app/services/file_service.py:108 | the ids of the records, one per record, in order |
| FileService.DeleteFile | app/services/file_service.py:87-135 | the response, the requests, both collections and the disk afterwards are those of the delete outcome below |
| FileService.UnknownFileKept | app/services/file_service.py:95-99 | a name with no row answers an error and changes nothing |
| FileService.FaultKeepsAll | app/services/file_service.py:131-135 | a lookup that raises, or an index delete that raises, answers `"Error deleting file: ..."` with nothing sent and nothing changed |
| FileService.KnownFileDeleted | app/services/file_service.py:101-129 | a file with a row answers success with its record count; the index loses exactly the recorded ids (and no request goes out when there are none); no record of the file remains; every other file's records and rows stay; the rows of the name lose their first; the file is removed from disk |
| FileService.RecordedIdDeleted | app/services/file_service.py:106-111 | every recorded id of the file is gone from the index |
| FileService.UnrecordedIdKept | app/services/file_service.py:106-111 | an id no record of the file holds keeps its entry |
| FileService.DeleteKeepsIds | app/services/file_service.py:113-119 | a delete keeps every remaining record's id prefixed by its document's name |
| FileService.RecordsOfGone | app/services/file_service.py:113-116 | after the delete no record of the file remains |
| FileService.Filenames | app/services/file_service.py:67-71 | one name per row, in order |
| FileService.RegularFilesMembers | app/services/file_service.py:60-85 | the fallback listing holds exactly the entries of the directory that are files |
| FileService.RegularFilesAppend | app/services/file_service.py:62-64 | the fallback loop's list grows entry by entry in directory order |
| FileService.ListFiles | app/services/file_service.py:47-86 | the row names in order when the query returns rows; the directory's files in listing order when it returns none or raises; nothing when the directory is missing |
| FileService.LedgerNames | app/services/file_service.py:67-71 | the loop over the rows collects their names in order |
| FileService.DirectoryNames | app/services/file_service.py:60-64 | the loop over the listing keeps the entries that are files, in order |
| FileService.RowListed | app/services/file_service.py:67-73 | every row's name is listed when the query returns |
| Answers.ShapedAnswers | matching.py:18-31 | one answer per match, in order, answer `i` shaped from match `i` |
| Answers.ShapeMatches | matching.py:18-31 | the loop builds exactly the shaped answers |
| Answers.ShapeOfStored | matching.py:20-29 | a match whose metadata is a stored chunk's dict gives back that chunk's text, source and locator keys, with the match's score |
| Answers.ShapeDefaults | matching.py:21-23 | a missing text or source becomes `""`, a present one is copied, a missing page stays `None` |
| Answers.ToReference | app.py:104-113 | a missing source becomes `"N/A"`, a missing score 0.0 and a missing text `""` |
| Answers.ReferencesOf | app.py:101-114 | one reference per chunk, in order |
| Answers.BuildReferences | app/services/query_service.py:27-40 | the loop builds exactly those references |
| Answers.ReferenceCopiesAnswer | app.py:104-113 | a shaped answer always carries text, source and score, so its reference copies every field and the defaults are never used |
| Answers.ReferenceOfStored | app.py:102-114 | the reference of a stored chunk's match carries the chunk's text, source and locator keys, and the match's score |
| Answers.ReferencesFollowMatches | app.py:92-114 | reference `i` carries match `i`'s score, its text and source (or `""`), and its page, slide, sheet and row keys |
| Matching.QueryPinecone | matching.py:9-31 | the query embeds the question and asks for `top_k` matches; the answers are the shaped matches |
| QueryService.ProcessQuery | app/services/query_service.py:13-47 | as the first API's endpoint, except that the 404 for an empty result reaches the caller unchanged |
| Prompt.ChunkTexts | model.py:5 | the chunk texts in order |
| Prompt.BuildPrompt | model.py:3-12 | the prompt is exactly as long as the fixed frame, the context and the question together; `PromptFrame` states the frame and its order, `ChunkInPrompt` that every chunk text appears before the question |
| Prompt.JoinPrefix | model.py:5 | the join of the first `k` texts is a prefix of the join of all |
| Prompt.JoinAt | model.py:5 | text `i` appears in the join at its offset |
| Prompt.JoinOrdered | model.py:5 | a later text appears after an earlier one and the separator between them |
| Prompt.PromptFrame | model.py:3-12 | the prompt is the instruction, `"Context:\n"`, the joined context, `"\n\nQuestion: "`, the question and `"\n\nAnswer:"`, in that order |
| Prompt.ChunkInPrompt | model.py:3-12 | every chunk's text appears in the context part of the prompt, before the question |
| UploadEndpoint.LastSegment | app/api/v1/endpoints/upload.py:20 | `split('.')[-1]`: the text after the last dot, or the whole name when it has none |
| UploadEndpoint.UploadExt | app/api/v1/endpoints/upload.py:20 | the extension checked always starts with a dot |
| UploadEndpoint.Validate | app/api/v1/endpoints/upload.py:15-26 | an empty name is refused with "No file provided"; otherwise the name is accepted exactly when its extension is in the allowed set; every refusal is a 400 |
| UploadEndpoint.UploadFile | app/api/v1/endpoints/upload.py:10-37 | a refused name gets its 400; an accepted one gets the service's reply, the service's own `HTTPException`, or a 500 `"Upload failed: ..."` for anything else |
| UploadEndpoint.ExtIgnoresCase | app/api/v1/endpoints/upload.py:20 | the extension does not depend on the name's case |
| UploadEndpoint.ExtOfDottedName | app/api/v1/endpoints/upload.py:20 | the extension of `stem.e` is `.e` lower-cased, whatever the stem |
| UploadEndpoint.ExtOfDotlessName | app/api/v1/endpoints/upload.py:20 | a name with no dot is its own extension: `pdf` is checked as `.pdf` |
| UploadEndpoint.BareExtensionAccepted | app/api/v1/endpoints/upload.py:19-26 | the bare name `pdf` is accepted |
| UploadEndpoint.UpperCaseAccepted | app/api/v1/endpoints/upload.py:19-26 | `report.PDF` is accepted |
| UploadEndpoint.TextFileRefused | app/api/v1/endpoints/upload.py:22-26 | `notes.txt` is refused with a 400 |
| Frontend.LocParts | frontend/gradio_app.py:124-136 | one part for a page, one for a slide, and one for a truthy sheet |
| Frontend.Preview | frontend/gradio_app.py:138 | the first 150 characters of the text (all of a shorter one), then `"…"` |
| Frontend.Entries | frontend/gradio_app.py:119-144 | one entry per reference, numbered from 1 in order |
| Frontend.FormatReply | frontend/gradio_app.py:115-144 | the reply text is the answer block followed by the references block |
| Frontend.FormatBlock | frontend/gradio_app.py:117-144 | the loop builds exactly the references block |
| Frontend.BlockSnoc | frontend/gradio_app.py:119-144 | each pass of the loop appends the next reference's entry |
| Frontend.BlockEntries | frontend/gradio_app.py:119-144 | the references block is the entries concatenated in order |
| Frontend.LocationParts | frontend/gradio_app.py:124-137 | the location is "Location N/A" exactly when there is no page, no slide and no truthy sheet; the page part comes first, then the slide, and the sheet part last |
| Frontend.SheetRowsLocation | frontend/gradio_app.py:129-133 | a sheet with truthy start and end rows reads `"Sheet S (Rows a-b)"` |
| Frontend.ConcatEntries | frontend/gradio_app.py:119-144 | entry `k` sits between the entries before it and those after it |
| Frontend.ChatWithDocuments | frontend/gradio_app.py:94-164 | a blank message sends nothing and keeps the history; any other message is asked, and the history gains it with the reply's text; the text box is cleared |
| Frontend.ReplyText | frontend/gradio_app.py:109-162 | the text added to the history for each kind of reply |
| Frontend.DeleteTarget | frontend/gradio_app.py:77-81 | a delete is requested exactly for a non-empty selection other than `"No files available"`, and for that name |
| Frontend.UploadTarget | frontend/gradio_app.py:11-22 | no file gives "No file selected", an object that is not a path gives the unsupported-type error, and a path is uploaded under its base name |
| Lifecycle.UploadFindable | app/services/document_service.py:24-33 | the upload's row is one a later delete of the same name finds |
| Lifecycle.UploadThenDelete | app/services/file_service.py:87-129 | deleting an upload that was not converted and whose name has no `/` through the ledger succeeds and removes every id the upload stored, every record it inserted and the saved file |
| Lifecycle.ConvertedDeleteLeavesVectors | app/services/file_service.py:101-116 | deleting a converted upload through the ledger succeeds but leaves every chunk the upload stored in the index, unchanged |

## Left out

- PyMuPDF, pandas, python-pptx, PaddleOCR, docx2pdf and LibreOffice are not modelled. Their results are inputs: a parsed document per path, an OCR result or failure per image, and a converter that either writes its output or raises.
- Image decoding and pixmap conversion are not modelled. An image is its channel count, its alpha flag and its OCR result.
- OCR confidences are `real`s compared against 0.3. IEEE float behaviour is not modelled.
- Embeddings are an abstract function. Similarity ranking is the index's own business, so matches arrive as data.
- Pinecone, MongoDB and the file system are modelled only through what the operations send or change. Network failures, async scheduling and durability are not modelled.
- Which batch Pinecone rejects is a parameter.
- `delete_file` in the versioned service is modelled with faults only at the ledger lookup and at the index delete. A MongoDB failure after the index delete is not modelled.
- `os.listdir` order is a parameter.
- `document_id`, `uploaded_at` and `processed_at` are not modelled; for `processed_at` only whether it was set is kept. The ledger schema (`app/models/mongo_models.py`) is not part of this model.
- `str(e)` of an exception other than an `HTTPException` is the parameter `describe`.
- `query_mistral_local` is not modelled. The language model is the function `generate`, which answers or fails with a message.
- `ppt_to_pptx_soffice` is not modelled. It is a conversion that writes `<stem>.pptx` or raises. The source returns the absolute, normalised path of that file; the model keeps it relative to the upload directory. Base names, and so vector ids and `source` fields, are the same either way.
- The commented-out `FileService` in app/services/file_service.py is not modelled.
- `print` and traceback logging are not modelled.
- FastAPI routing, dependency injection and the Gradio layout are not modelled.
- In the front end, the HTTP calls and `get_files_list`, `get_files_dropdown` and `refresh_all` are not modelled. Only the reply formatting and the input guards of `chat_with_documents`, `delete_file_gr` and `upload_file_gr` are.
- Frontend.ChatWithDocuments: the `{score:.3f}` score formatting is the parameter `formatScore`.
- Frontend.ReplyText: the reply of the query endpoint is an input datatype rather than a parsed JSON response.
- Dispatch.DefaultSlidesTerminate: the slide window loop with a non-positive stride on a non-blank slide does not return. It is modelled as the outcome `Diverges`.
- Common.Lower: only the letters A-Z are lower-cased. Other Unicode case mappings are not modelled.
- UploadEndpoint.Validate: the 400 detail lists the allowed extensions in one fixed order. The source joins a Python `set`, whose iteration order varies between runs, so that order is not modelled.

## Findings

| source | as written | input that shows it | evidently intended | confidence | as-written member | corrected member |
|---|---|---|---|---|---|---|
| app.py:124 | `delete_file` chooses the spreadsheet loader when `ext in ['.xlsx', 'xls']`; the second entry has no dot and never matches an extension | deleting `book.xls` uploaded earlier: it is re-read by the PDF loader, which cannot open it, so no ids are found, its vectors stay in the index and the file stays on disk | `['.xlsx', '.xls']`, the list `upload_file` uses, so a delete re-reads a file with the chunker its upload used | high, not executed | AppMain.DeleteRouteAsWritten, AppMain.XlsDeleteFindsNoIds | AppMain.DeleteRoute, AppMain.DeleteFile, AppMain.UploadThenDelete |

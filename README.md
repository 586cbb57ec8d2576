# CombLayer activation core in Dafny

This project models the core of the CombLayer activation tool. The tool
collects what MCNPX and htape runs produced, cell by cell, and turns it into
CINDER'90 input. The model covers:

- **The record codec.** `fortRecFile` reads Fortran unformatted sequential
  records framed as `[int n][n bytes][int n]`. `fortRecWrite` writes them.
  The model includes the writer-to-reader round trip.
- **The production ledger.** `cellProduction` keeps three ZAID-keyed maps
  per cell (production, loss and net total). `htapeProcess` reads htape
  tables into them and merges batches weighted by their sample counts.
- **The flux tally reader** (`tallyProcess`). It finds `1tally` headers,
  reads the energy tables of the listed cells, rebins onto the 64-point
  grid and merges the series per cell.
- **The small state holders.** These are `cinderHistory` (time units,
  history lines, grouping into blocks), `cinderOption` (tag dispatch),
  `Score` (collision slots) and `CellInfo` (parallel cell lists).
- **Two readers.** One is the control-file reader of `Control` (cell
  renumbering, output directories, materials, normalisation, files,
  cell lists and the keyword section dispatch). The other is the MCNP
  card reader of `materialProcess` (cell cards and material cards).

Each core file is one module:

| file | module |
|---|---|
| `RawBytes.dfy`, `FortRecFile.dfy`, `FortRecWrite.dfy`, `RecordRoundTrip.dfy` | RawBytes, FortRecFile, FortRecWrite, RecordRoundTrip |
| `CellProduction.dfy`, `HtapeProcess.dfy` | Production, Htape |
| `TallyProcess.dfy` | Flux |
| `CinderHistory.dfy`, `CinderOption.dfy`, `Score.dfy`, `CellInfo.dfy` | History, CinderSettings, Scoring, Volumes |
| `Control.dfy`, `MaterialProcess.dfy` | RunControl, Materials |
| `Common.dfy` | Common (Option/Result, faults, tokens, integer text) |

An object whose methods update fields in place is a Dafny `class` with
those fields. Each method is proved to implement a function on the
object's value, e.g. `ensures Value() == AddCellSpec(old(Value()), cn, cv)`.
What the source promises is then proved as lemmas about those functions.
The record reader keeps its buffer as an `array<byte>`, and `Score` keeps
its two vectors as arrays. Loops in the source are `while` loops with
invariants.

Input that the source takes from streams appears here as data. A file is
its bytes, or a sequence of lines. The lines are already split into tokens
or classified by the patterns the source tests them with. A file that
fails to open is a flag. The file system's answer to an existence test is
a set of paths.

## Model

| member | source | states |
|---|---|---|
| RawBytes.Wrap32 | fileSupport/fortRecWrite.cxx:102-109 | the value an `int` holds after a wider count is assigned to it: in the signed 32-bit range, congruent mod 2^32, unchanged when it fits |
| RawBytes.Wrap32Add | fileSupport/fortRecWrite.cxx:102-109 | adding to a wrapped counter and wrapping again equals wrapping the exact sum, so the running `recLeng` is the wrapped payload length |
| RawBytes.LE | fileSupport/fortRecWrite.cxx:146-162 | the little-endian bytes of a value are exactly `w` bytes long |
| RawBytes.EncodeInt | fileSupport/fortRecWrite.cxx:146-162 | the two's complement bytes of a value that fits in `w` bytes are `w` bytes long |
| RawBytes.DecodeInt | fileSupport/fortRecFile.cxx:149-163 | a non-empty byte string decodes to a value that fits in its width |
| RawBytes.Encode32 | fileSupport/fortRecWrite.cxx:83-87 | a 32-bit length marker is four bytes |
| RawBytes.Decode32 | fileSupport/fortRecFile.cxx:115-126 | four bytes decode to a value in the `int` range |
| RawBytes.FromLEOfLE | fileSupport/fortRecWrite.cxx:146-162 | decoding the little-endian bytes of a value that fits in `w` bytes gives the value back |
| RawBytes.LEOfFromLE | fileSupport/fortRecFile.cxx:149-163 | encoding the value of any byte string in as many bytes gives the bytes back |
| RawBytes.DecodeOfEncode | fileSupport/fortRecFile.cxx:115-126 | two's complement decoding inverts encoding for every value that fits |
| RawBytes.EncodeOfDecode | fileSupport/fortRecFile.cxx:115-126 | every non-empty byte pattern is the encoding of the integer it decodes to |
| RawBytes.Decode32OfEncode32 | fileSupport/fortRecFile.cxx:115-126 | a 32-bit length marker reads back as the value written |
| RawBytes.Width | fileSupport/fortRecFile.cxx:185-191 | `sizeof` of each item type is 1, 2, 4 or 8 |
| RawBytes.EncodeItem | fileSupport/fortRecWrite.cxx:146-162 | the raw bytes of a typed value are exactly `sizeof(T)` long |
| RawBytes.DecodeItem | fileSupport/fortRecFile.cxx:149-163 | `sizeof(T)` bytes decode to a valid item of type `T` |
| RawBytes.DecodeOfEncodeItem | fileSupport/fortRecWrite.cxx:146-162 | reading back the raw bytes of a value gives the same value |
| RawBytes.EncodeOfDecodeItem | fileSupport/fortRecFile.cxx:149-163 | every byte pattern of an item's width is the encoding of the item it decodes to |
| FortRecFile.FreshState | fileSupport/fortRecFile.cxx:24-30 | a new reader has `bPos = curLeng = recLeng = 0`, a 1024-byte buffer and no file |
| FortRecFile.Extract | fileSupport/fortRecFile.cxx:115-124 | `istream::read` delivers the next bytes of the stream; a short read clears `good`, and a stream that is not good delivers nothing |
| FortRecFile.ResizeSpec | fileSupport/fortRecFile.cxx:53-65 | corrected growth rule: afterwards the buffer holds the record and its trailing marker, and it never shrinks |
| FortRecFile.ResizeAsWrittenTooSmall | fileSupport/fortRecFile.cxx:53-65 | on a fresh reader the source's rule leaves no room for the trailing marker exactly for record lengths 1021 to 1024 |
| FortRecFile.ResizeSpecHasRoom | fileSupport/fortRecFile.cxx:119-124 | under the corrected rule `recLeng+4` bytes always fit in the buffer |
| FortRecFile.NegativeMarkerAsWritten | fileSupport/fortRecFile.cxx:119-126 | a leading marker FF FF FF FF is loaded as a record, and its trailer is read at buffer offset -1 |
| FortRecFile.NextRecordConsistent | fileSupport/fortRecFile.cxx:103-139 | nextRecord keeps the reader invariant: `0 <= bPos <= curLeng`, except once the data is exhausted |
| FortRecFile.NextRecordExhausted | fileSupport/fortRecFile.cxx:133-138 | a stream that is not good, or has fewer than four bytes left, yields `curLeng = recLeng = 0` and leaves the stream failed |
| FortRecFile.NextRecordLoads | fileSupport/fortRecFile.cxx:119-130 | after a non-zero record is loaded, `curLeng == recLeng`, `bPos == 0`, and the buffer holds the bytes that followed the marker |
| FortRecFile.NextRecordMismatch | fileSupport/fortRecFile.cxx:124-128 | for a positive leading marker `rl`, the mismatch is raised exactly when the four bytes after the payload do not decode to `rl` |
| FortRecFile.NegativeMarkerRejected | fileSupport/fortRecFile.cxx:115-126 | a negative leading marker raises the mismatch, leaves no record current and fails the stream |
| FortRecFile.EndOfDataDiffers | fileSupport/fortRecFile.cxx:110-139 | at the end of the data the source serves the previous record again with the cursor reset, while the corrected model reports no record |
| FortRecFile.TakeConsistent | fileSupport/fortRecFile.cxx:149-163 | getItem and getString keep the reader invariant |
| FortRecFile.TakeOutOfRange | fileSupport/fortRecFile.cxx:150-157 | a read past the record end throws RangeError and leaves the whole state, cursor included, unchanged |
| FortRecFile.TakeInRange | fileSupport/fortRecFile.cxx:159-161 | a read that fits returns exactly the `w` bytes at the cursor and advances by `w`; at the record end the next record is loaded |
| FortRecFile.TakeFailures | fileSupport/fortRecFile.cxx:173-182 | only the range test and a negative string length fail |
| FortRecFile.TakeInRangeLength | fileSupport/fortRecFile.cxx:173-182 | a successful getString returns exactly `leng` bytes |
| FortRecFile.OpenSpec | fileSupport/fortRecFile.cxx:68-88 | openFile returns -1 for an empty name and changes nothing; otherwise it returns 0 or -1 according to the first record |
| FortRecFile.OpenConsistent | fileSupport/fortRecFile.cxx:68-88 | openFile keeps the reader invariant |
| FortRecFile.ReopenFails | fileSupport/fortRecFile.cxx:68-88 | opening a second file on an open reader fails and reads nothing new |
| FortRecFile.Reader.constructor | fileSupport/fortRecFile.cxx:24-30 | the reader's state is the fresh state |
| FortRecFile.Reader.Open | fileSupport/fortRecFile.cxx:33-42 | the name constructor is the fresh state followed by openFile |
| FortRecFile.Reader.Read | fileSupport/fortRecFile.cxx:115-124 | the stream read implements `Extract` |
| FortRecFile.Reader.Resize | fileSupport/fortRecFile.cxx:53-65 | resize implements the corrected growth rule |
| FortRecFile.Reader.NextRecord | fileSupport/fortRecFile.cxx:103-139 | nextRecord implements `NextRecordSpec` and returns the new `curLeng` |
| FortRecFile.Reader.LoadBody | fileSupport/fortRecFile.cxx:121-129 | reading a record body and trailer implements `LoadBodySpec` |
| FortRecFile.Reader.Take | fileSupport/fortRecFile.cxx:149-163 | the cursor read implements `TakeSpec` |
| FortRecFile.Reader.GetItem | fileSupport/fortRecFile.cxx:143-163 | getItem returns the decoded `sizeof(T)` bytes or the fault of `TakeSpec` |
| FortRecFile.Reader.GetString | fileSupport/fortRecFile.cxx:167-182 | getString implements `TakeSpec` on `leng` bytes |
| FortRecFile.Reader.EndRecord | fileSupport/fortRecFile.cxx:91-100 | endRecord implements `EndRecordSpec` and returns `curLeng` |
| FortRecFile.Reader.OpenFile | fileSupport/fortRecFile.cxx:68-88 | openFile implements `OpenSpec` |
| FortRecWrite.FreshState | fileSupport/fortRecWrite.cxx:23-28 | a new writer has an empty payload, `recLeng = 0` and no file |
| FortRecWrite.WriteBytes | fileSupport/fortRecWrite.cxx:78-92 | `ostream::write` appends only on a good stream, and writing with no file open fails |
| FortRecWrite.AddStringSpec | fileSupport/fortRecWrite.cxx:96-109 | addString(s) appends `s` and adds `|s|` to `recLeng` (as an `int`) |
| FortRecWrite.FixedShape | fileSupport/fortRecWrite.cxx:119-136 | addString(s,len) appends exactly `len` bytes: `s` cut to `len`, or blank-padded to `len` |
| FortRecWrite.AddFixedSpec | fileSupport/fortRecWrite.cxx:112-136 | addString(s,len) appends the fixed text and adds `len` to `recLeng` |
| FortRecWrite.AddItemSpec | fileSupport/fortRecWrite.cxx:140-162 | addItem appends the `sizeof(T)` raw bytes of the value and adds `sizeof(T)` to `recLeng` |
| FortRecWrite.AddsConsistent | fileSupport/fortRecWrite.cxx:102-162 | every add keeps `recLeng` equal to the wrapped payload length |
| FortRecWrite.RecLengIsLength | fileSupport/fortRecWrite.cxx:88-89 | while the payload is below 2^31 bytes, `recLeng == |buffer|` |
| FortRecWrite.WrapBelow | fileSupport/fortRecWrite.cxx:83-87 | a non-negative wrapped length never exceeds the payload, so the frame's `substr` is in range |
| FortRecWrite.WriteRecordSpec | fileSupport/fortRecWrite.cxx:71-92 | writeRecord returns 1 exactly when the stream stays good, empties the payload on a good stream and changes nothing otherwise |
| FortRecWrite.CloseSpec | fileSupport/fortRecWrite.cxx:59-68 | closeFile leaves the file closed |
| FortRecWrite.OpenSpec | fileSupport/fortRecWrite.cxx:39-56 | openFile returns -1 for an empty name (nothing changes) and 0 otherwise, with a new file empty |
| FortRecWrite.WriteRecordConsistent | fileSupport/fortRecWrite.cxx:59-92 | writeRecord, closeFile and openFile keep the writer consistent |
| FortRecWrite.Writer.constructor | fileSupport/fortRecWrite.cxx:23-28 | the writer's state is the fresh state |
| FortRecWrite.Writer.OpenFile | fileSupport/fortRecWrite.cxx:39-56 | openFile implements `OpenSpec` |
| FortRecWrite.Writer.Write | fileSupport/fortRecWrite.cxx:83-87 | the stream write implements `WriteBytes` |
| FortRecWrite.Writer.WriteRecord | fileSupport/fortRecWrite.cxx:71-92 | writeRecord implements `WriteRecordSpec` |
| FortRecWrite.Writer.CloseFile | fileSupport/fortRecWrite.cxx:59-68 | closeFile implements `CloseSpec` |
| FortRecWrite.Writer.AddString | fileSupport/fortRecWrite.cxx:96-109 | addString(s) implements `AddStringSpec` |
| FortRecWrite.Writer.AddFixedString | fileSupport/fortRecWrite.cxx:112-136 | addString(s,len) implements `AddFixedSpec` |
| FortRecWrite.Writer.AddItem | fileSupport/fortRecWrite.cxx:140-162 | the byte loop of addItem implements `AddItemSpec` |
| RecordRoundTrip.AddFieldsAppends | fileSupport/fortRecWrite.cxx:96-162 | adding fields appends their bytes to the payload and touches nothing else |
| RecordRoundTrip.Frame | fileSupport/fortRecWrite.cxx:83-87 | a frame is the payload with a four-byte marker before and after it |
| RecordRoundTrip.WriteAll | fileSupport/fortRecWrite.cxx:71-92 | writing records one after another keeps the writer consistent |
| RecordRoundTrip.ReadOne | fileSupport/fortRecFile.cxx:143-182 | one getItem or getString call keeps the reader consistent |
| RecordRoundTrip.ReadAll | fileSupport/fortRecFile.cxx:143-182 | a sequence of reader calls returns one result per call |
| RecordRoundTrip.WriteRecordEmitsFrame | fileSupport/fortRecWrite.cxx:83-89 | on an open good stream writeRecord emits `[n][payload][n]`, empties the payload and returns 1 |
| RecordRoundTrip.CloseEmitsFrame | fileSupport/fortRecWrite.cxx:59-68 | closeFile flushes the pending payload as a final frame and closes |
| RecordRoundTrip.WriteAllFrames | fileSupport/fortRecWrite.cxx:71-92 | writing records one after another emits their frames in order |
| RecordRoundTrip.LoadFramed | fileSupport/fortRecFile.cxx:115-130 | a reader at a frame loads it with no trailer mismatch, cursor at 0 and the payload in the buffer |
| RecordRoundTrip.ReadField | fileSupport/fortRecFile.cxx:149-182 | reading a field where the writer put it returns the field and advances past it |
| RecordRoundTrip.ReadRest | fileSupport/fortRecFile.cxx:149-182 | reading the rest of a record, then the following framed records, returns their fields unchanged |
| RecordRoundTrip.WriteFresh | fileSupport/fortRecWrite.cxx:39-92 | a fresh writer that opens a new file leaves exactly the frames of its records in it |
| RecordRoundTrip.ReadFresh | fileSupport/fortRecFile.cxx:68-182 | a fresh reader on framed records opens with code 0, no mismatch, and reads every field back |
| RecordRoundTrip.RoundTrip | fileSupport/fortRecWrite.cxx:83-87 | what the writer writes, followed by anything, the reader opens and reads back field for field |
| RecordRoundTrip.CorruptTrailerDetected | fileSupport/fortRecFile.cxx:119-128 | a frame whose trailing four bytes differ from the encoding of its length raises the mismatch |
| RecordRoundTrip.EmptyRecordLoadsNothing | fileSupport/fortRecFile.cxx:119-131 | an empty record loads nothing: the current record stays and the stream stops at its trailing marker |
| RecordRoundTrip.EmptyFirstRecordFails | fileSupport/fortRecFile.cxx:68-88 | a file whose first record is empty opens with -1 |
| RecordRoundTrip.TrailingEmptyFieldFails | fileSupport/fortRecFile.cxx:167-182 | a zero-byte field at the end of the last record is written; under the corrected end-of-data rule (Findings row 3) reading it back gives a range error, while the source as written serves the last record again and reads the field back as an empty string |
| RecordRoundTrip.EmptyFieldAfterReplay | fileSupport/fortRecFile.cxx:113-131 | as written, the last record is served again with the cursor at 0 at the end of the data, and a zero-byte read on it returns an empty string |
| Production.Accumulate | src/cellProduction.cxx:161-170 | insert-or-accumulate: the key gains `v` (a missing one is created), no other key changes |
| Production.CellIndexProduction | src/cellProduction.cxx:126-130 | index 0 or 1 adds `frac` under the full ZAID to production and total, and leaves the loss map alone |
| Production.CellIndexDestruction | src/cellProduction.cxx:131-134 | index 2 adds `frac` to loss and `-frac` to total, both under `meta = 0`, and leaves production alone |
| Production.CellIndexOther | src/cellProduction.cxx:135-136 | cellIndexProd succeeds exactly for index 0, 1 and 2 |
| Production.ScaledBy | src/cellProduction.cxx:256-272 | scaling keeps the key set |
| Production.ScaleTwice | src/cellProduction.cxx:256-272 | scaling twice is scaling by the product |
| Production.MergeCases | src/cellProduction.cxx:287-311 | scaleSum: keys in both get `(A*old+B*new)/(old+new)`, A-only keys `A*old/(old+new)`, B-only keys `B*new/(old+new)` |
| Production.MergeAt | src/cellProduction.cxx:287-311 | a merged key holds the weighted mean of its two sides, and a key in neither holds nothing |
| Production.Merge | src/cellProduction.cxx:287-311 | the merged key set is the union of both |
| Production.MergeSymmetric | src/cellProduction.cxx:275-314 | merging is symmetric in the two batches with their weights |
| Production.MergeIdentical | src/cellProduction.cxx:275-314 | merging a batch with an identical one leaves it unchanged |
| Production.MeanAssoc | src/cellProduction.cxx:287-311 | the weighted mean of three values is the same whichever pair is merged first |
| Production.MergeAssoc | src/cellProduction.cxx:275-314 | scaleSum is associative: merging a with b, then with c, equals merging a with the merge of b and c, weights added |
| Production.MergeLedgerAssoc | src/cellProduction.cxx:275-314 | the same associativity for whole ledgers |
| Production.MergeWeightZero | src/cellProduction.cxx:275-314 | a batch of weight 0 keeps every old value and adds its new keys with 0 |
| Production.MeanSymmetric | src/cellProduction.cxx:305-311 | the weighted mean is symmetric in its two sides |
| Production.MeanSame | src/cellProduction.cxx:305-311 | the weighted mean of equal values is that value |
| Production.AccumulateSum | src/cellProduction.cxx:239-252 | accumulating `v` raises getTotal by `v` |
| Production.ScaleTotal | src/cellProduction.cxx:239-272 | scaling every entry scales getTotal |
| Production.ScaleTally | src/cellProduction.cxx:264-269 | the in-place scale loop computes `ScaledBy` |
| Production.ScaleSumMaps | src/cellProduction.cxx:275-314 | the three passes of scaleSum compute the merge |
| Production.PassesMerge | src/cellProduction.cxx:287-311 | the weighted sums divided by the count are the merge |
| Production.WeighShared | src/cellProduction.cxx:287-296 | the first pass weighs each A entry and adds the weighted B entry when B has the key |
| Production.InsertMissing | src/cellProduction.cxx:297-303 | the second pass inserts the weighted B entries missing from A |
| Production.DivideAll | src/cellProduction.cxx:305-311 | the last pass divides every entry by the count |
| Production.CellProduction.constructor | src/cellProduction.cxx:67-71 | a new ledger is empty |
| Production.CellProduction.Copy | src/cellProduction.cxx:73-80 | the copy holds the same three maps |
| Production.CellProduction.Assign | src/cellProduction.cxx:82-97 | assignment copies the three maps |
| Production.CellProduction.AddProd | src/cellProduction.cxx:177-204 | addProd implements insert-or-accumulate on the production map |
| Production.CellProduction.AddDestruct | src/cellProduction.cxx:207-236 | addDestruct implements insert-or-accumulate on the loss map under `meta = 0` |
| Production.CellProduction.AddTotal | src/cellProduction.cxx:143-173 | addTotal implements insert-or-accumulate on the total map |
| Production.CellProduction.CellIndexProd | src/cellProduction.cxx:108-140 | cellIndexProd implements `CellIndexProdSpec`, and a failure changes nothing |
| Production.CellProduction.GetTotal | src/cellProduction.cxx:239-252 | getTotal is the sum of every total-map value |
| Production.CellProduction.Scale | src/cellProduction.cxx:256-272 | scale multiplies every entry of the three maps by `V` |
| Production.CellProduction.AddComponent | src/cellProduction.cxx:319-337 | addComponent replaces each map by its sample-weighted merge with the other ledger's |
| Htape.FindCellProdSpec | src/htapeProcess.cxx:414-433 | findCellProd keeps an existing entry or inserts exactly one empty one; no other cell changes |
| Htape.ZaidScan | src/htapeProcess.cxx:176-199 | the scan of readZaid ends within the stream, after its starting line |
| Htape.LineNuclide | src/htapeProcess.cxx:182-199 | a nuclide line records at most one nuclide |
| Htape.ZaidScanStops | src/htapeProcess.cxx:176-180 | readZaid reads up to and including the first `complete` line, or to the end of the stream |
| Htape.ZaidExample | src/htapeProcess.cxx:182-199 | example: the listing continuation `n = 13 g`, `z = 12 n = 12 f`, continuation `n = 13 g`, `complete`, `z = 12 ...` records (0,13,g), (12,12,f) and (12,13,g) and stops after the complete line; the general rule is ZaidScanRecords |
| Htape.ZaidScanRecords | src/htapeProcess.cxx:156-206 | readZaid records the nuclide of each line up to the first "complete", a continuation line under the atomic number of the last `z =` line before it, or the initial one |
| Htape.ReadZaid | src/htapeProcess.cxx:156-206 | the readZaid loop records exactly the scanned nuclides through cellIndexProd |
| Htape.ApplyProduction | src/htapeProcess.cxx:182-199 | production lines raise the production and total sums by their fractions and leave the loss map unchanged |
| Htape.ApplyDestruction | src/htapeProcess.cxx:182-199 | destruction lines raise the loss sum, lower the total sum by their fractions, and leave production unchanged |
| Htape.ApplyOther | src/htapeProcess.cxx:182-199 | another index fails with IndexError on the first nuclide line and only then |
| Htape.ReadHeader | src/htapeProcess.cxx:209-270 | the readHeader loop implements the four-state machine `HeaderRun` |
| Htape.HeaderCells | src/htapeProcess.cxx:246-254 | readHeader keeps every cell, and each cell it adds is named by a `for cell:` line |
| Htape.HeaderNps | src/htapeProcess.cxx:235-242 | the sample count returned is the initial one or one read from a line |
| Htape.HeaderFallThrough | src/htapeProcess.cxx:235-245 | state 0 has no break, so a case header on the same line moves straight to state 2 |
| Htape.GasStep | src/htapeProcess.cxx:323-375 | a procGas step stays within states 0-5 and keeps the current cell in the map |
| Htape.ProcGas | src/htapeProcess.cxx:290-383 | the procGas loop implements `GasRun` and reports a final state other than 0 |
| Htape.GasHeliumResets | src/htapeProcess.cxx:365-375 | after the helium row procGas returns to state 0 even when the row fails to parse |
| Htape.HydrogenRow | src/htapeProcess.cxx:345-360 | the hydrogen row adds its three values under (1,0), (1,1) and (1,2) |
| Htape.HeliumRow | src/htapeProcess.cxx:362-373 | the helium row adds its two values under (2,1) and (2,2) |
| Htape.GasCells | src/htapeProcess.cxx:323-340 | procGas keeps every cell, and each cell it adds is named by a `for cell:` line |
| Htape.ScaleCells | src/htapeProcess.cxx:436-449 | scale keeps the cell key set |
| Htape.ScaleCellsTotal | src/htapeProcess.cxx:444-447 | scaling every cell scales each cell's total |
| Htape.AddCellsSpec | src/htapeProcess.cxx:468-490 | the merged cell set is the union of both batches |
| Htape.AddCellsAsMerge | src/htapeProcess.cxx:468-490 | every cell gets the sample-weighted merge of its two ledgers, a missing side counting as empty |
| Htape.AddCellsLedger | src/htapeProcess.cxx:468-490 | the ledger a cell holds after addCells is the merge of its two ledgers, a missing side counting as empty |
| Htape.AddCellsAssoc | src/htapeProcess.cxx:453-492 | adding three batches in turn equals adding the first to the sum of the other two, with the sample counts added |
| Htape.MergeEmptyRight | src/htapeProcess.cxx:468-474 | an old-only cell is scaled by `nps/(nps+newNPS)` |
| Htape.MergeEmptyLeft | src/htapeProcess.cxx:480-488 | a new-only cell is inserted scaled by `newNPS/(nps+newNPS)` |
| Htape.HtapeProcess.constructor | src/htapeProcess.cxx:74-78 | a new process has `nps = 0` and no cells |
| Htape.HtapeProcess.FindCellProd | src/htapeProcess.cxx:402-411 | findCellProd on the process's map implements `FindCellProdSpec` |
| Htape.HtapeProcess.Scale | src/htapeProcess.cxx:436-449 | scale applies the ledger scale to every cell |
| Htape.HtapeProcess.AddCells | src/htapeProcess.cxx:453-492 | addCells implements `AddCellsSpec` and `nps` becomes `nps+newNPS` |
| Flux.GridShape | src/tallyProcess.cxx:229-256 | the rebin grid has 64 strictly increasing energies from 0 to 25 |
| Flux.AddFluxSpec | src/tallyProcess.cxx:128-145 | addFlux inserts a series for a new cell and adds it to the stored one otherwise; no other cell changes |
| Flux.GetWorkDataSpec | src/tallyProcess.cxx:110-124 | getWorkData returns the stored series, or InContainerError exactly for an unknown cell |
| Flux.AddAllCells | src/tallyProcess.cxx:299-303 | adding a list of series adds exactly the listed cells and keeps the others |
| Flux.AddAllSingle | src/tallyProcess.cxx:299-303 | a cell listed once and absent before gets exactly its series |
| Flux.Find1TallyFirst | src/tallyProcess.cxx:160-176 | find1Tally takes the first header from the position on, and fails exactly when there is none |
| Flux.Find1TallySpec | src/tallyProcess.cxx:148-177 | a header that is found lies after the start position and within the stream |
| Flux.Find1Tally | src/tallyProcess.cxx:148-177 | the find1Tally loop returns the first header's tally number and nps |
| Flux.FluxesMeaning | src/tallyProcess.cxx:284-293 | a row succeeds exactly when all its flux tokens are numbers; otherwise FileError carries the first bad index |
| Flux.Fluxes | src/tallyProcess.cxx:284-292 | a row that succeeds yields exactly one flux per remaining cell |
| Flux.EnergyRows | src/tallyProcess.cxx:279-296 | a table that succeeds keeps one series per listed cell and ends within the stream |
| Flux.ReadWorkEnergySpec | src/tallyProcess.cxx:260-306 | readWorkEnergy ends within the stream, after its starting position |
| Flux.FluxScan | src/tallyProcess.cxx:180-226 | a table scan ends within the stream, after its starting position |
| Flux.ShortRow | src/tallyProcess.cxx:287-293 | a row with fewer flux values than listed cells throws FileError at the first missing one |
| Flux.PushRow | src/tallyProcess.cxx:284-292 | each cell's series gains the row's energy with that cell's flux |
| Flux.ReadRow | src/tallyProcess.cxx:284-292 | the row loop implements `Fluxes` |
| Flux.ReadRows | src/tallyProcess.cxx:279-296 | the table loop implements `EnergyRows` on one fresh series per cell |
| Flux.SkipsText | src/tallyProcess.cxx:282-286 | a row whose first token is not a number is skipped |
| Flux.Finish | src/tallyProcess.cxx:296-303 | each series is rebinned on the grid and weighted by the file's nps |
| Flux.EnergyRowsColumns | src/tallyProcess.cxx:279-296 | a table read without a fault gives series k exactly column k of its numeric rows, in row order |
| Flux.ReadWorkEnergyCells | src/tallyProcess.cxx:260-306 | every listed cell ends with a series, other cells keep theirs, and a new cell listed once holds its own column of the table (`ColumnSeries`), rebinned onto the grid and weighted by npsFile |
| Flux.FluxScanKeeps | src/tallyProcess.cxx:180-226 | the flux map only gains cells, whether or not a table throws |
| Flux.NoHeader | src/tallyProcess.cxx:326-330 | an opened file, or an empty name, with no tally header is FileError(1) and changes nothing |
| Flux.EmptyNameNoTally | src/tallyProcess.cxx:316-330 | an empty name is not rejected as unopened (a default-constructed stream is good): the scan reads nothing and the run ends in FileError(1) with nothing changed |
| Flux.McnpScanNps | src/tallyProcess.cxx:224 | the accumulated nps never decreases over a file |
| Flux.IsValidSpec | src/tallyProcess.cxx:335-348 | isValid is whether the integral reaches the tolerance, and InContainerError for an unknown cell |
| Flux.TallyProcess.constructor | src/tallyProcess.cxx:72-77 | a new process has `nps = 0` and no fluxes |
| Flux.TallyProcess.GetWorkData | src/tallyProcess.cxx:110-124 | implements `GetWorkDataSpec` |
| Flux.TallyProcess.AddFlux | src/tallyProcess.cxx:128-145 | implements `AddFluxSpec`, with `nps` unchanged |
| Flux.TallyProcess.ReadWorkEnergy | src/tallyProcess.cxx:260-306 | implements `ReadWorkEnergySpec`, and a bad row leaves the map unchanged |
| Flux.TallyProcess.AddSeries | src/tallyProcess.cxx:299-303 | the series loop implements `AddAll` |
| Flux.TallyProcess.GetFluxTally | src/tallyProcess.cxx:180-226 | implements `FluxScan`, and `nps` grows by exactly npsFile unless a table threw |
| Flux.TallyProcess.ReadMcnp | src/tallyProcess.cxx:309-332 | implements `ReadMcnpSpec`: FileError(0) only for a non-empty name whose file does not open, FileError(1) when the last tally header read has number 0 (in particular when there is none) |
| Flux.TallyProcess.IsValid | src/tallyProcess.cxx:335-348 | implements `IsValidSpec` |
| History.ConvertTimeUnit | src/cinderHistory.cxx:89-111 | the ten names map to their initial letter s, m, d, h, y; any other name is InContainerError |
| History.ConvertTime | src/cinderHistory.cxx:114-135 | the ten names give at least one second; any other name is InContainerError |
| History.ConversionsAgree | src/cinderHistory.cxx:89-135 | both conversions accept the same names, and the seconds match the letter (1, 60, 86400, 3600, 31557600) |
| History.PeriodsAppend | src/cinderHistory.cxx:153-163 | addLine only appends; new currents are the line's; the lists stay parallel unless a bad unit leaves one current extra |
| History.PeriodsUnits | src/cinderHistory.cxx:156-162 | every recorded unit is one of the five letters |
| History.NoCurrent | src/cinderHistory.cxx:150-151 | a line without an integer tag and a leading current changes nothing |
| History.RunEndNear | src/cinderHistory.cxx:187-192 | every current up to the run end is within 1e-6 of the run's first |
| History.RunEnd | src/cinderHistory.cxx:187-192 | the run end is the first differing current, or the end |
| History.SliceAt | src/cinderHistory.cxx:194-199 | a block's k-th period is the time and unit at its start plus k |
| History.Slice | src/cinderHistory.cxx:194-199 | the periods from `i` to `j` are `j - i` in number |
| History.SliceJoin | src/cinderHistory.cxx:194-199 | consecutive period slices join into the slice over both ranges |
| History.BlocksCover | src/cinderHistory.cxx:187-200 | the block counts sum to `current.size()`, and every period is emitted exactly once, in order |
| History.BlocksRuns | src/cinderHistory.cxx:187-200 | every block holds at least one period |
| History.BlocksStep | src/cinderHistory.cxx:187-200 | each block is the maximal run from its start, followed by the blocks after it |
| History.ScanRun | src/cinderHistory.cxx:187-192 | the inner loop finds the run end |
| History.CopyPeriods | src/cinderHistory.cxx:194-199 | the period loop emits the run's periods in order |
| History.GroupBlocks | src/cinderHistory.cxx:176-202 | the grouping loop computes `Blocks` |
| History.CinderHistory.constructor | src/cinderHistory.cxx:50-54 | a new history is empty |
| History.CinderHistory.Assign | src/cinderHistory.cxx:65-79 | assignment copies the three lists |
| History.CinderHistory.AddLine | src/cinderHistory.cxx:138-167 | implements `AddLineSpec` |
| History.CinderHistory.Write | src/cinderHistory.cxx:172-203 | the written blocks are `Blocks` of the lists |
| CinderSettings.Trunc | src/cinderOption.cxx:123-130 | `static_cast<int>` truncates toward zero |
| CinderSettings.TruncProperties | src/cinderOption.cxx:123-130 | truncation keeps integers and is odd |
| CinderSettings.KlibSetsKchn | src/cinderOption.cxx:119-122 | as written, `klib 1` sets kchn and leaves klib, and `kchn 1` leaves kchn at 0 |
| CinderSettings.AddStringSetsItsField | src/cinderOption.cxx:113-130 | a known tag with a value sets its own setting (as read for tst/signif, truncated otherwise) and no other |
| CinderSettings.AddStringIgnores | src/cinderOption.cxx:113-134 | no number, or an unknown tag, changes nothing (both versions) |
| CinderSettings.AddStringKeepsLimits | src/cinderOption.cxx:113-134 | epsm, epsn and expomax are never set |
| CinderSettings.AsWrittenAgrees | src/cinderOption.cxx:113-134 | the two versions differ only on kchn and klib |
| CinderSettings.CinderOption.constructor | src/cinderOption.cxx:50-57 | the defaults tst=1e-5, signif=1e-16, nfe=3, nlintl=2, russ=1, the rest 0 |
| CinderSettings.CinderOption.Assign | src/cinderOption.cxx:71-93 | assignment copies all eleven settings |
| CinderSettings.CinderOption.AddString | src/cinderOption.cxx:102-138 | implements the corrected `AddStringSpec` |
| Common.ParseInt | src/Control.cxx:226-237 | only non-empty text converts to an integer |
| Common.NatToString | src/Control.cxx:614-617 | a natural number's text is non-empty, all digits and has that value |
| Common.IntToString | src/Control.cxx:614-617 | an integer's text is non-empty and starts with `-` exactly for a negative value |
| Common.LeadingInts | src/tallyProcess.cxx:208-210 | the leading integers of a line are the longest prefix of tokens that convert, with their values |
| Common.Find | src/Control.cxx:222-223 | `find` returns the first position of the character, or the length when it is absent |
| Scoring.FreshConsistent | src/Score.cxx:60-70 | a new score has `maxCol` zero slots and is consistent |
| Scoring.AddNeutronConsistent | src/Score.cxx:112-118 | addNeutron keeps both arrays at length maxCol and `sum(collisionN) <= pCnt` |
| Scoring.AddNeutronSlots | src/Score.cxx:112-118 | Plus gains the weight and pCnt one; slot `k < maxCol` gains weight and 1; every other slot is unchanged |
| Scoring.OverflowKeepsSlots | src/Score.cxx:113 | with `k >= maxCol` neither array changes and the slots count fewer than pCnt |
| Scoring.Score.constructor | src/Score.cxx:60-70 | `m` zero slots in both arrays, Plus and pCnt 0 |
| Scoring.Score.Assign | src/Score.cxx:82-98 | copies NCol, both arrays (into fresh storage), Plus and pCnt, but not the const maxCol |
| Scoring.Score.AddNeutron | src/Score.cxx:110-121 | implements `AddNeutronSpec` in place |
| Volumes.AddCellPairs | src/CellInfo.cxx:99-100 | addCell keeps the lists parallel and earlier entries unchanged, and appends exactly (CN, CV) |
| Volumes.AddAllPairs | src/CellInfo.cxx:99-100 | cells added one by one are held in order after the earlier ones |
| Volumes.Pairs | src/CellInfo.cxx:92-102 | the held pairs are the i-th cell number with the i-th volume |
| Volumes.CellInfo.constructor | src/CellInfo.cxx:51-57 | the name is set and both lists are empty |
| Volumes.CellInfo.Assign | src/CellInfo.cxx:69-83 | copies the name and both lists |
| Volumes.CellInfo.AddCell | src/CellInfo.cxx:92-102 | implements `AddCellSpec` |
| Common.ParseIntToString | src/Control.cxx:614-617 | the decimal text of an integer parses back to it |
| Common.IntToStringInjective | src/Control.cxx:614-617 | different integers have different decimal text |
| RunControl.Emplace | src/Control.cxx:228-242 | emplace inserts only a missing key and never overwrites |
| RunControl.EmplaceRangeMeaning | src/Control.cxx:236-242 | a range emplace keeps old mappings, maps each new key to its offset from N, and touches no other key |
| RunControl.CellReMapSingle | src/Control.cxx:224-233 | single form: `A -> N` is added only when `A != N` and A is unmapped; nothing is overwritten |
| RunControl.CellReMapRange | src/Control.cxx:236-242 | range `A-B`: `A+k -> N+k` for `0 <= k <= B-A`, nothing overwritten, nothing added if `A > B` |
| RunControl.OutDir | src/Control.cxx:606-618 | the output directory is the base name followed by the decimal cell number, or by its remapped number |
| RunControl.OutDirShared | src/Control.cxx:613-617 | two cells share an output directory exactly when they are named after the same number |
| RunControl.CellMat | src/Control.cxx:589-603 | the stored material, or InContainerError exactly for a cell without one |
| RunControl.BaseNameSpec | src/Control.cxx:144-156 | an empty name is EmptyValue with nothing changed; otherwise outDirBase is set |
| RunControl.NormalizationMeaning | src/Control.cxx:419-440 | `snorm` sets srcNorm, `hnorm` htapeNorm, other tags throw with nothing changed, no number changes nothing |
| RunControl.OutFilesListed | src/Control.cxx:339-353 | an mcnpx_outp line appends every one of its tokens, in order, and touches nothing else |
| RunControl.HtapeFilesListed | src/Control.cxx:356-370 | an mcnpx_histp line appends every one of its tokens, in order, and touches nothing else |
| RunControl.AddTallyCellsMeaning | src/Control.cxx:316-325 | tally cells are added without overwriting, and every tally cell ends up known |
| RunControl.CellListKeeps | src/Control.cxx:248-282 | procCellList changes only the two cell tables and never a known cell's entry |
| RunControl.CellListRegisters | src/Control.cxx:263-270 | `cellN volume` registers a positive cell exactly (unless known); a cell number of 0 or below registers nothing |
| RunControl.HandleKeeps | src/Control.cxx:468-506 | no section handler changes the renumbering map or the materials |
| RunControl.FilesKeeps | src/Control.cxx:374-416 | a files line changes neither the renumbering map nor the materials |
| RunControl.ReadKeepsRemap | src/Control.cxx:443-517 | readControlFile never changes the renumbering map or the materials, so the `cell_remap` branch is unreachable |
| RunControl.ReadBeforeSections | src/Control.cxx:451-454 | lines before the first section keyword change nothing |
| RunControl.ReadSwitch | src/Control.cxx:472-476 | a keyword line switches section and changes nothing else |
| RunControl.AssignDropsHtapeNorm | src/Control.cxx:91-117 | as written, assignment keeps the target's htapeNorm, unlike the copy constructor |
| RunControl.Control.constructor | src/Control.cxx:68-74 | the default library, outDirBase `Cell`, htapeNorm -1, empty tables and the default options |
| RunControl.Control.Assign | src/Control.cxx:76-117 | corrected assignment: every member takes the other controller's value |
| RunControl.Control.ProcCellReMap | src/Control.cxx:208-244 | the emplace loop implements `CellReMapSpec` and changes nothing else |
| RunControl.Control.SetBaseName | src/Control.cxx:144-156 | implements `BaseNameSpec` |
| RunControl.Control.ProcNormalization | src/Control.cxx:419-440 | implements `NormalizationSpec` |
| RunControl.Control.ProcFiles | src/Control.cxx:374-416 | implements `FilesSpec` on the tag's kind |
| RunControl.Control.ProcCellList | src/Control.cxx:248-282 | implements `CellListSpec` on the line's reads |
| RunControl.Control.ReadControlFile | src/Control.cxx:443-517 | the key loop implements `ReadControlSpec`, keeping the key in the keyword set |
| Materials.MarkerAt | src/materialProcess.cxx:257-265 | the first line from the position on that holds the marker, or the end |
| Materials.MarkerAtFirst | src/materialProcess.cxx:279-286 | no line before that one holds the marker |
| Materials.ScanFor | src/materialProcess.cxx:248-287 | the search loop returns 1 just past the first marker line, and 0 at the end |
| Materials.CellCardsKeys | src/materialProcess.cxx:174-181 | the cell cards never add or remove a cell, and every material they set is non-zero |
| Materials.CellCardsStop | src/materialProcess.cxx:166 | nothing after a line holding `++ END ++` is read |
| Materials.CellCardsUntouched | src/materialProcess.cxx:165-181 | a cell with no accepted card before the end mark keeps its material |
| Materials.CellCardsLast | src/materialProcess.cxx:165-181 | the last accepted card for a cell before the end mark (non-zero material, density strictly between 0 and 2) decides its material |
| Materials.CellCardsChanged | src/materialProcess.cxx:165-181 | a cell whose material changed had an accepted card for it before the end mark |
| Materials.DigitItems | src/materialProcess.cxx:129-131 | the items are the leading tokens that start with a digit, up to the first that does not |
| Materials.ProcMaterialMeaning | src/materialProcess.cxx:111-141 | material 0 does nothing; a stored number is InContainerError; a rejected material is InvalidLine; otherwise exactly the new material is stored |
| Materials.MatCardsKeeps | src/materialProcess.cxx:219-239 | the card loop never changes or removes a stored material and stores only numbered ones |
| Materials.MatCardsSpecKeeps | src/materialProcess.cxx:199-245 | processMaterialCards, with the final flush, keeps every stored material |
| Materials.PendingStored | src/materialProcess.cxx:219-245 | without a fault, the pending material is stored under its number with the digit items of its card and of the continuation lines after it |
| Materials.MatCardStored | src/materialProcess.cxx:199-245 | without a fault, every card `mN` with N != 0 before the end mark is stored under N with the digit items of its line and of its continuation lines |
| Materials.OneMaterial | src/materialProcess.cxx:225-242 | an `mN` card followed by a continuation line stores material N with the digit items of both lines |
| Materials.ReadMcnpKeeps | src/materialProcess.cxx:291-326 | readMCNP, whatever its outcome, keeps stored materials and the cell set, and sets only non-zero materials |
| Materials.ItemsStep | src/materialProcess.cxx:129-131 | the item loop moves one digit item into the accumulated string |
| Materials.MaterialProcess.constructor | src/materialProcess.cxx:73-77 | a new reader has no materials |
| Materials.MaterialProcess.Assign | src/materialProcess.cxx:88-100 | assignment copies the store |
| Materials.MaterialProcess.ProcMaterial | src/materialProcess.cxx:111-141 | implements `ProcMaterialSpec` |
| Materials.MaterialProcess.FindCellCards | src/materialProcess.cxx:270-287 | 1 at the first `CELL CARDS` line, 0 at the end |
| Materials.MaterialProcess.FindMaterialCards | src/materialProcess.cxx:248-266 | 1 at the first `MATERIAL CARDS` line, 0 at the end |
| Materials.MaterialProcess.ProcessCellCards | src/materialProcess.cxx:145-193 | implements `CellCardsRun` and resumes after the end line |
| Materials.MaterialProcess.ProcessMaterialCards | src/materialProcess.cxx:199-245 | implements `MatCardsSpec` |
| Materials.MaterialProcess.ReadMcnp | src/materialProcess.cxx:291-326 | implements `ReadMcnpSpec`: FileError(0) for an empty name, a file that does not open, or a missing marker |

## Left out

- Stream plumbing is not modelled: opening `std::ifstream`/`std::ofstream` objects and reading `getLine`. A file is its content, or a flag saying whether it opened. `StrFunc::getLine`'s 256-character line limit and `StrFunc::convert`'s trimming are not modelled.
- The `StrFunc` tokenisers and the `boost::regex` patterns are not part of this model. Lines arrive split into tokens, each with its numeric value if it has one, or classified by the patterns the source matches (`HLine`, `TLine`, `CardLine`).
- A last line without a newline sets `eof` on the read that returns it. Several loops test `good()` before using such a line; the model treats every given line as read while the stream is good.
- Floating point is modelled as exact reals. The tolerances (`1e-6` in write, the threshold of isValid) are real comparisons.
- `doubleErr.h` is not part of this model. Only the value part of each ledger entry is kept; the paired error and its quadrature rules are not modelled.
- `WorkData` (pushData, rebin, `+=`, setWeight, integrate) is not part of this model. Series are symbolic terms, and `integrate` is a parameter of isValid.
- Host byte order and `reinterpret_cast`: items are fixed-width little-endian two's complement, and floating-point items are their bit patterns.
- Production.CellProduction.AddComponent: requires the other ledger to be a different object; self-merge through aliasing is not modelled.
- Production.CellProduction.AddComponent, Htape.HtapeProcess.AddCells: require `nps + newNPS != 0`. The source divides by that sum without a check.
- Htape: a cell's ledger is held as a value in the cell map. The pointer findCellProd returns is modelled as the updated map.
- Scoring.Score.AddNeutron: requires both arrays to hold `maxCol` slots. Scoring.Score.Assign can break this by copying from a score with a smaller maxCol, because the source copies the vectors whatever their size.
- Scoring: `getTrans` (the ratio Plus/pCnt) and `write` are not modelled. Integer overflow of `pCnt` is not modelled.
- CinderSettings.Trunc: values outside the range of `int` are undefined behaviour in the source and are not modelled.
- RunControl: `setLibrary`'s existence test is the set `env.existing`. `addTallyCells` reads an MCNP file; the model reads the cells from the map `env.tallyCells`.
- RunControl: the program tags of procFiles set the program runner (`runProgs`), which is not part of this model. `readMaterials`, `readFluxes`, `runHTape`, `writeInput`, `writeLibrary` and `writeCinderInput` drive files and external programs; they are not modelled.
- History.AddLineSpec: the time variable read before the first unit is uninitialised in the source; its value is the parameter `l0`. RunControl.ReadControlSpec passes one `l0` to every `history` line, while in the source each addLine call has its own uninitialised local, whose value may differ from call to call.
- FortRecFile.TakeSpec: the range test of getString, `leng+bPos>curLeng`, is computed in 32-bit `int` in the source. For `leng > INT_MAX - bPos` (say `bPos = 1`, `leng = INT_MAX`) the sum overflows, which is undefined behaviour and in practice wraps negative, so the test passes and the string is built from bytes past the buffer. The model adds exactly and returns RangeError there. The getItem test adds only `sizeof(T)` to a `bPos` no larger than `curLeng`, so it cannot overflow.
- RunControl.CellReMapSpec: the range loop `for(;OA<=OB;OA++,NA++)` runs on 32-bit `int`. With `OB == INT_MAX` (name `1-2147483647`) the source loop never ends and `NA++` wraps. The model uses unbounded integers, so `EmplaceRange` ends after `B-A+1` steps and maps each key to `N+k` without wrapping.
- Materials: `Material::setMaterial` is the parameter `accept`. A stored material is the item string it was given.
- Materials: `matLine += SLine` is modelled as joining token lists. It keeps token boundaries because each appended remainder starts with the separator left by `section`.
- Materials: the `mN` card pattern also needs whitespace after the number. A `mN` token that ends its line counts as a card here.
- Materials: the diagnostic count of updated cells in processCellCards is only logged, and is left out.
- Writers that only format output (`write`, `writeSprods`, `writeFluxes`, `writeMaterials`, `cinderOption::write`) are not modelled, nor is `htapeProcess::processHTape`/`addSProdFile`, which run external programs.
- RecordRoundTrip.RoundTrip: covers only at least one record, every record non-empty, and every field at least one byte long. RecordRoundTrip.EmptyFirstRecordFails shows that an empty first record makes open return -1. RecordRoundTrip.EmptyRecordLoadsNothing shows that an empty record inside the file loads nothing and leaves its trailing marker to be read as a new length. RecordRoundTrip.TrailingEmptyFieldFails shows that a zero-byte field at the end of the last record reads back as a range error. That range error comes from the corrected end-of-data rule (Findings row 3). The source as written serves the last record again with the cursor at 0, so the empty field reads back as an empty string, over a replayed record (RecordRoundTrip.EmptyFieldAfterReplay). Neither version reads the record sequence back as written, so the lemma is restricted to fields of at least one byte. Zero-byte fields elsewhere are outside this lemma.
- RecordRoundTrip.ReadFresh: has the same restrictions as RoundTrip, for the same reasons.
- Flux.Fluxes: reads one number token per flux. The source reads a `DError::doubleErr` for each flux, and doubleErr's extraction operator, which may take a value and an error, is not part of this model.
- Glob, SimpleAxis and the drivers in `Main/` are outside the modelled core.

## Findings

| source | as written | input that shows it | evidently intended | confidence | as-written member | corrected member |
|---|---|---|---|---|---|---|
| fileSupport/fortRecFile.cxx:58-63 | resize grows the buffer only when `recLeng > bSize`, yet nextRecord reads `recLeng+4` bytes into it | fresh reader, record of length 1021 to 1024: 1025 to 1028 bytes read into a 1024-byte buffer | grow whenever the record and its trailing marker do not fit | not executed | FortRecFile.ResizeAsWrittenTooSmall | FortRecFile.ResizeSpecHasRoom |
| fileSupport/fortRecFile.cxx:119-126 | a negative leading marker is loaded as a record, and its trailer is read at `Buffer+recLeng` | marker bytes FF FF FF FF (`recLeng = -1`): the trailer is read one byte before the buffer | reject a negative length as corrupt data | not executed | FortRecFile.NegativeMarkerAsWritten | FortRecFile.NegativeMarkerRejected |
| fileSupport/fortRecFile.cxx:113-131 | at the end of the data the failed read leaves `recLeng` unchanged, so the previous record is served again with `bPos = 0` | a good stream positioned just after its last record, with `recLeng > 0` | report that no record is left (`curLeng = recLeng = 0`) | not executed | FortRecFile.EndOfDataDiffers | FortRecFile.NextRecordExhausted |
| src/cinderOption.cxx:119-122 | tag `kchn` sets kchn to 0, and tag `klib` sets kchn rather than klib | lines `kchn 1` and `klib 1` on the defaults | each tag sets its own setting to the value truncated | not executed | CinderSettings.KlibSetsKchn | CinderSettings.AddStringSetsItsField |
| src/Control.cxx:97-117 | operator= copies every member except htapeNorm, which the copy constructor copies | assign a controller with `hnorm 2.0` to a fresh one: the target keeps -1.0 | copy htapeNorm like every other member | not executed | RunControl.AssignDropsHtapeNorm | RunControl.Control.Assign |

The record reader class uses the corrected rules of the first three rows. `CinderOption.AddString` uses the corrected dispatch. The `cinder_options` branch of readControlFile, which calls `COpt.addString` (src/Control.cxx:489), goes through `AddStringSpec` in `ReadControlSpec` and `Control.ReadControlFile`, so it gets the corrected dispatch too. `Control.Assign` copies every member.

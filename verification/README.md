# The SIE recorder and the playback generator

A Dafny model of two parts of the hbk-opendaq-modules repository, with proofs:

* the **SIE recorder** of `advanced_recorder_module`: a layered writer of binary log files, from the
  scatter/gather loop over `writev` up to the function block that records whatever is connected to it;
* the **playback generator** of `playback_device_module`: a buffer of values played in a circle, driven by
  a clock.

`dafny verify dfyconfig.toml` checks everything.

## How it fits together

The recorder writes its own reader into every file: an XML preamble with a stream decoder and an index
decoder, and for every signal a decoder element whose loops and `$`-expressions say how to read that
signal's blocks. The model takes this literally. `Decoders.dfy` is an interpreter for the decoder language,
`Expressions.dfy` and `SieXml.dfy` compile decoder elements to its programs, `XmlReader.dfy` is a conforming
XML reader, and `Reader.dfy` puts them together into a reader that gets samples out of the bytes of a file and
nothing else: it takes the stream decoder from the metadata the file begins with, parses the file with it, and
finds everything else in the metadata it parsed. The writing side follows the program's layers:

| layer | files |
|---|---|
| bytes, numbers, CRC-32 | `Bytes`, `Decimal`, `Crc32` |
| vectored file, blocks, index, ids | `FileLayer`, `BlockLayer`, `IndexLayer`, `IndexAgreement`, `IndexFailures`, `LogicalLayer` |
| XML printing and reading | `Xml`, `XmlReader`, `XmlRoundTrip`, `XmlConformance`, `XmlDocument`, `PlainText` |
| decoder language | `Decoders`, `Expressions`, `SieXml`, `StreamDecoder`, `StreamParse` |
| the preamble | `Format`, `FormatDecoders`, `Preamble`, `Bootstrap`, `PreambleLimits` |
| what descriptors say by themselves | `Descriptors`, `SampleTypes` |
| signal handlers | `ScalarLinear`, `Can`, `CanCompile`, `CanFields`, `CanCorrect`, `CanMessages`, `CanLimits`, `Handlers`, `HandlerChoice` |
| signal object and recorder, updated in place | `RecorderSignal`, `Recorder`, `Ports` |
| whole files and whole runs | `FileLog`, `Runs`, `RunGrowth`, `Connections`, `Delivery`, `Succession`, `Ownership`, `Partition`, `EventHistory` |
| the bytes under a file name | `Disk`, `FileNames`, `NameClashes` |
| reading back | `Reader`, `CanonicalElements`, `Declarations`, `Metadata`, `Readback`, `RunTheorems`, `SignalStreams`, `InputChannels`, `InputStreams`, `ChannelTexts` |
| sizes of the metadata | `TextLimits`, `DeclarationLimits` |
| recordings that exist | `ExampleRun`, `ExampleReadback` |
| playback | `Playback`, `PlaybackStream`, `RateChange` |

Code that changes things in place is modelled by classes whose methods are proved against functions on
values (`Put`, `Receive`, `Collect`, ...). `Runs.dfy` is a state machine over these functions in which a packet
delivery takes several steps (find the signal object, deliver packets, let go), so that connections, stops and
deliveries of other threads come between them; the methods of the recorder class are proved to take its steps
(`Represents` in `Recorder.dfy` says which states correspond: ports, connections, writer and map, the handler
state of every signal object and the bytes of every open file). A writer is destroyed, and its file closed, as
soon as nobody refers to it. `FileLog` keeps a log of what each file was given; the log is a record only
(`FileLog.ReceiveInIsReceive`).

Files are opened by name, and the same name may be opened again: `Disk.Under` is what is on disk under a name
after a run, where opening truncates and every writer goes on writing at its own offset. The theorems about
recordings are theorems about these bytes.

## Main results

* **End to end** (`InputStreams.InputReadsBack`): for every sequence of events, given the bytes under the name
  of a finished recording and the global id of a scalar signal, and nothing else, the reader gets exactly the
  samples of all acceptable packets that arrived for the signal, in order, across changes of descriptors and
  reconnections. Which packets are acceptable (`SampleTypes.IsRecorded`) and what their samples are
  (`SampleTypes.ScalarSamples`) is read off descriptors and packets alone. It rests on `SignalStreams.SignalReadsBack` (the same for every signal object, group by group),
  `RunTheorems.RunReadBack` (when a declared group can be read, and what is read),
  `Delivery.Conservation` (what is accepted is what arrived and was acceptable), `Partition.PacketsByGroup`, and
  `Preamble.PreambleReadBack` (the decoder that parses the file is the one written into it).
  `ExampleReadback.OneRecordingReadsBack` applies it to a recording that exists.
* **Finalisation** (`RunTheorems.Finalisation`): in every interleaving a file is closed exactly when its writer
  has lost its last holder, and nothing follows the closing index block.
* **File names** (`FileNames.NameIsRightIff`, `FileNames.PersistsIff`): the bytes under a name are those of the
  recording opened last under it, however the run goes on, if and only if every earlier recording of that name
  was closed when it was opened; a finished recording lasts if and only if its name is not opened again.
* **Ownership** (`RunTheorems.RunOwnership`), **map and ports** (`Connections`), **index**
  (`IndexAgreement.IndexAgreesWithFile`), **framing** (`StreamDecoder.FramingRoundTrip`,
  `StreamParse.StreamIsParsed`), **XML** (`XmlConformance.RoundTripIff`), **checksum** (`Crc32.ChecksumIsFrameCheck`).
* **Declarations** (`Succession.HandlersFollowDescriptors`, `ChannelTexts.RunDescribes`): a signal object declares
  one handler for each change of its descriptors and none otherwise, and the channel declared says what descriptors
  and signal say.
* **Playback** (`PlaybackStream.PlayIsIdeal`): the stream does not depend on how the acquisition loop batches it.

## Where the code does less than it says

Where a property can fail, the condition under which the code does meet it is proved.

* The vectored write throws "premature EOF" although everything was written when its last segment is empty
  (`FileLayer.PosixVectorIoFile.Write`). The block layer always ends with an 8-byte footer, so it is not affected.
* The id allocators promise identifiers not yet used in the file. That holds for the first 2^32 - 2 of them; then
  the counters wrap round to the reserved ids (`Ownership.IdsAreFreeIff`).
* Blocks whose size or group exceeds 32 bits are not read back (`StreamDecoder.FramingRoundTrip`).
* Text survives XML printing and reading only without tabs and line ends in attribute values, without carriage
  returns in content, in elements that do not have both content and children, with XML names, without two
  attributes of one name, and with XML characters only (`XmlConformance.RoundTripIff`). A character such as U+0001 in
  the description of one signal makes the whole recording unreadable (`RunTheorems.BadDescriptionLosesAll`).
* The CAN handler accepts packets it then records wrongly: its guard asks for at least 8 domain bytes per sample
  whatever the domain type, the sample count is narrowed to 32 bits, arrays other than byte strings of one
  dimension get a read of a single element, and the decoder expects the messages right behind the domain values
  and 69 bytes apart. Accepted packets of given sizes are all read back as the samples they hold by their
  descriptors if and only if there are none, or the count fits 32 bits, every array is a byte string of one
  dimension or a single element and, unless the fields have no bytes, the domain type is 64 bits wide, there is
  exactly one domain value per sample, and the fields take up 69 bytes, or fewer when there is one sample
  (`CanLimits.PairingIff`). A message with data words of 16 bits is the example (`CanLimits.WordsAreLost`). Fields
  that run past the end of the data make the block unreadable (`CanCorrect.AcceptedPacket`).
* Connecting another signal to a port that is still connected leaves the old signal's object in the map
  (`Connections.StepMatches`, `ExampleRun.RewiringHappens`).
* The file name is kept over a stop and opened with truncation at the next start, so that the recording made
  before is lost (`NameClashes.RestartTruncates`). A delivery that still holds a signal object of the recording
  before writes at its old place in the new one, even behind its closing index block, and the file can then not
  be read at all (`NameClashes.LateReleaseSpoils`). When exactly this is possible is `FileNames.NameIsRightIff`.
* A block whose write fails has already been put into the index list, and bytes a failed write or flush leaves in
  the file are not counted by the writer's offset. Index and file agree after the closing flush if and only if no
  write failed and no flush left bytes before a later write (`IndexFailures.IndexAgreesIff`,
  `IndexFailures.EntriesLag`). Failed flushes that leave nothing only make index blocks of more than 100 entries
  (`IndexFailures.FailedFlushIsLarge`). A file that ends with a torn block cannot be read at all
  (`StreamParse.TornBlockLosesAll`).
* The playback rate formula multiplies by the numerator of the tick resolution and truncates
  (`Playback.ClockBoundIff`). When the rate changes, the next collection does not wrap round if and only if the
  new rate has as many samples due at the change as the old one had at the last collection; otherwise a packet of
  2^64 - k samples may be asked for (`RateChange.NoWrapIff`, `RateChange.LowerRateWraps`). The offset
  computed by `Zero` depends on batching (`PlaybackStream.ZeroReferenceIff`).
* The class comment of the recorder speaks of one file per recorded signal and of packet handlers in a
  background thread. The code has one file per recording and handles packets in the sending thread; the model
  follows the code.

## Model

| member | source | states |
|---|---|---|
| FileLayer.PosixVectorIoFile.Write | hbk-opendaq-modules-main/modules/advanced_recorder_module/include/advanced_recorder_module/sie/posix_vector_io_file.h:78-120 | For every sequence of answers of `writev` (any short count, or an error): a normal return means the segments' concatenation was appended exactly once and in order, a throw leaves a first part of it, and not all of it unless the last segment is empty. With a kernel that always makes progress all bytes arrive, and the call returns normally if and only if the last segment is non-empty: with an empty last segment it throws although everything was written. |
| FileLayer.PosixVectorIoFile.Advance | hbk-opendaq-modules-main/modules/advanced_recorder_module/include/advanced_recorder_module/sie/posix_vector_io_file.h:101-118 | The inner loop keeps the current segment in bounds, terminates, and leaves exactly the bytes not yet written pending. |
| FileLayer.PosixVectorIoFile.Writev | hbk-opendaq-modules-main/modules/advanced_recorder_module/include/advanced_recorder_module/sie/posix_vector_io_file.h:89-99 | The system call appends some prefix of what the remaining segments hold, or nothing. |
| FileLayer.PendingIovs | hbk-opendaq-modules-main/modules/advanced_recorder_module/include/advanced_recorder_module/sie/posix_vector_io_file.h:150-158 | The segment array built from the arguments describes the concatenation of the data. |
| Crc32.Crc32Type.ProcessBytes | hbk-opendaq-modules-main/modules/advanced_recorder_module/include/advanced_recorder_module/sie/basic_block_writer.h:80-82 | Feeding bytes one at a time is feeding the flat byte string. |
| Crc32.ProcessConcat | hbk-opendaq-modules-main/modules/advanced_recorder_module/include/advanced_recorder_module/sie/basic_block_writer.h:112-118 | The checksum does not depend on how the payload is split into segments. |
| Crc32.ChecksumIsFrameCheck | hbk-opendaq-modules-main/modules/advanced_recorder_module/include/advanced_recorder_module/sie/basic_block_writer.h:80-84 | The number the register computes is the frame check sequence of section 8.1.1.6.2 of ITU-T V.42 (section 8 of RFC 1952): the complement of the remainder, by schoolbook division of polynomials, of the message with its first 32 bits inverted. |
| Crc32.GeneratorIsKnown | hbk-opendaq-modules-main/modules/advanced_recorder_module/include/advanced_recorder_module/sie/basic_block_writer.h:80-84 | The register form of the generator is the number 0xEDB88320 of the standards. |
| Crc32.MessageBits | hbk-opendaq-modules-main/modules/advanced_recorder_module/include/advanced_recorder_module/sie/basic_block_writer.h:80-82 | The bits fed to the register are those of the bytes in order, eight for each, standing for its number. |
| Crc32.BurstDetected | hbk-opendaq-modules-main/modules/advanced_recorder_module/include/advanced_recorder_module/sie/format.h:51-55 | Changing any run of at most four bytes changes the checksum. |
| BlockLayer.AlterationDetected | hbk-opendaq-modules-main/modules/advanced_recorder_module/include/advanced_recorder_module/sie/basic_block_writer.h:80-85 | Altering up to four neighbouring bytes of a block's size, group, sync word or payload makes the recomputed checksum differ from the one stored in the footer. |
| BlockLayer.BlockWriter.DoPayloadCrc | hbk-opendaq-modules-main/modules/advanced_recorder_module/include/advanced_recorder_module/sie/basic_block_writer.h:108-118 | The recursion over the segments updates the register as the flat payload would. |
| BlockLayer.BlockWriter.WriteBlock | hbk-opendaq-modules-main/modules/advanced_recorder_module/include/advanced_recorder_module/sie/basic_block_writer.h:66-93 | On success exactly one frame (header, payload, checksum, repeated size) of the segments' concatenation is appended and its length returned; on failure the file has grown by a first part of that frame, and not by all of it. |
| BlockLayer.FramesPlaced | hbk-opendaq-modules-main/modules/advanced_recorder_module/include/advanced_recorder_module/sie/format.h:35-55 | Where the fields of every frame lie in the file. |
| StreamDecoder.FramingRoundTrip | hbk-opendaq-modules-main/modules/advanced_recorder_module/include/advanced_recorder_module/sie/format.h:96-105 | Running the stream decoder over any sequence of frames recovers exactly that sequence of groups and payloads if and only if every size and group fits its 32-bit field, and then it consumes every byte. |
| StreamParse.StreamIsParsed | hbk-opendaq-modules-main/modules/advanced_recorder_module/include/advanced_recorder_module/sie/format.h:96-105 | On any bytes whatever, running the stream decoder is parsing them with the plain parser of the block format: each block in its place with the synchronisation word and both sizes, up to the end, or nothing at all. |
| StreamParse.BytesBehindBlocks | hbk-opendaq-modules-main/modules/advanced_recorder_module/include/advanced_recorder_module/sie/format.h:96-105 | Blocks followed by other bytes are readable if and only if these bytes are blocks, too, and are then read as well. |
| StreamParse.TornBlockLosesAll | hbk-opendaq-modules-main/modules/advanced_recorder_module/include/advanced_recorder_module/sie/format.h:96-105 | A file that ends with a first part of a block, as a write that failed leaves it, cannot be read at all, whatever blocks come before. |
| FormatDecoders.StreamDecoderCompiles | hbk-opendaq-modules-main/modules/advanced_recorder_module/include/advanced_recorder_module/sie/format.h:96-105 | The decoder element in the preamble compiles to the six-read loop the framing round trip is about. |
| FormatDecoders.IndexDecoderCompiles | hbk-opendaq-modules-main/modules/advanced_recorder_module/include/advanced_recorder_module/sie/format.h:113-119 | The second decoder element compiles to the loop reading an offset and a group. |
| FormatDecoders.IndexDecoderReads | hbk-opendaq-modules-main/modules/advanced_recorder_module/include/advanced_recorder_module/sie/format.h:113-119 | Run on the payload of an index block, that program yields the block's entries, in order. |
| IndexLayer.IndexedWriter.WriteBlock | hbk-opendaq-modules-main/modules/advanced_recorder_module/include/advanced_recorder_module/sie/basic_indexed_writer.h:58-71 | A successful write remembers the block at the current offset and flushes when 100 are pending. On failure the entry stays behind, because it is pushed before the write, and either the block is not in the file (at most a first part of its frame is), with the offset where it was, or the block is in place and only the flush due after it failed. |
| IndexLayer.IndexedWriter.FlushIndex | hbk-opendaq-modules-main/modules/advanced_recorder_module/include/advanced_recorder_module/sie/basic_indexed_writer.h:81-92 | Emits all pending entries as one index block and forgets them; on failure nothing is forgotten, the offset stays, and at most a first part of the index block is in the file. |
| IndexLayer.IndexedWriter.Destroy | hbk-opendaq-modules-main/modules/advanced_recorder_module/include/advanced_recorder_module/sie/basic_indexed_writer.h:98-108 | The destructor performs the closing flush, and a failure of it is swallowed and leaves what a failed flush leaves. |
| IndexAgreement.WritesAgree | hbk-opendaq-modules-main/modules/advanced_recorder_module/include/advanced_recorder_module/sie/basic_indexed_writer.h:58-122 | After any sequence of writes the offset is the file length, fewer than 100 entries are pending, every index block holds 1 to 100 entries, nothing is pending exactly when the file is empty or ends in an index block, and index blocks plus pending entries list all other blocks in order. |
| IndexAgreement.IndexAgreesWithFile | hbk-opendaq-modules-main/modules/advanced_recorder_module/include/advanced_recorder_module/sie/basic_indexed_writer.h:58-108 | After the closing flush the entries of all index blocks are, in order and without duplicates, the (offset, group) list found by parsing the file and leaving the index blocks out; the file ends with an index block. |
| IndexAgreement.IndexEntriesLand | hbk-opendaq-modules-main/modules/advanced_recorder_module/include/advanced_recorder_module/sie/basic_indexed_writer.h:62-67 | Every index entry points at a header that carries its group and the sync word, at strictly increasing offsets. |
| IndexAgreement.IndexBlocksAreRegular | hbk-opendaq-modules-main/modules/advanced_recorder_module/include/advanced_recorder_module/sie/basic_indexed_writer.h:69-108 | The closed file has an index block behind every hundred other blocks and one behind the rest, and no other: n blocks make n + (n + 99) / 100. |
| IndexFailures.AttemptIsWrite | hbk-opendaq-modules-main/modules/advanced_recorder_module/include/advanced_recorder_module/sie/basic_indexed_writer.h:58-92 | An attempt that succeeds does what the writer does on success, and the attempts that fail are exactly the failures its contract allows: any first part of the block or of the index block may be left in the file. |
| IndexFailures.AttemptsTallied | hbk-opendaq-modules-main/modules/advanced_recorder_module/include/advanced_recorder_module/sie/basic_indexed_writer.h:58-92 | After any list of writes and flushes, each of which succeeds or leaves any first part of its frame: the file is the whole and torn frames one after the other, the writer's offset is behind the end of the file by exactly the bytes left, and the entries in the file and those pending are, in order, where the writer believed each block to begin. |
| IndexFailures.IndexAgreesIff | hbk-opendaq-modules-main/modules/advanced_recorder_module/include/advanced_recorder_module/sie/basic_indexed_writer.h:58-108 | After the closing flush the index describes the file, entry by entry, if and only if no write failed and no failed flush left bytes before a later write; otherwise there are too many entries by the number of failed writes. If the closing flush fails the index lacks exactly the pending entries. |
| IndexFailures.EntriesLag | hbk-opendaq-modules-main/modules/advanced_recorder_module/include/advanced_recorder_module/sie/basic_indexed_writer.h:58-92 | Without failed writes the entry of a block names a place short of the block by exactly the bytes failed flushes left before it. |
| IndexFailures.OnlyWhole | hbk-opendaq-modules-main/modules/advanced_recorder_module/include/advanced_recorder_module/sie/basic_indexed_writer.h:58-92 | Without torn frames the positions and bytes of the file are those of its blocks. |
| IndexFailures.IndexBlocksAreSmall | hbk-opendaq-modules-main/modules/advanced_recorder_module/include/advanced_recorder_module/sie/basic_indexed_writer.h:69-70 | Without failures no index block has more than 100 entries. |
| IndexFailures.FailedFlushIsLarge | hbk-opendaq-modules-main/modules/advanced_recorder_module/include/advanced_recorder_module/sie/basic_indexed_writer.h:69-92 | After a failed flush the next successful one writes an index block of 101 entries. |
| IndexAgreement.EntriesRoundTrip | hbk-opendaq-modules-main/modules/advanced_recorder_module/include/advanced_recorder_module/sie/format.h:65-81 | Entries survive their 12-byte encoding. |
| LogicalLayer.Writer.constructor | hbk-opendaq-modules-main/modules/advanced_recorder_module/include/advanced_recorder_module/sie/basic_writer.h:112-115 | Channel ids start at 0, all other ids at 2. |
| LogicalLayer.Writer.AllocateGroup | hbk-opendaq-modules-main/modules/advanced_recorder_module/include/advanced_recorder_module/sie/basic_writer.h:69-72 | Hands out the counter and increments it modulo 2^32. |
| LogicalLayer.Writer.AllocateDecoder | hbk-opendaq-modules-main/modules/advanced_recorder_module/include/advanced_recorder_module/sie/basic_writer.h:58-61 | Hands out the counter and increments it modulo 2^32. |
| LogicalLayer.Writer.AllocateChannel | hbk-opendaq-modules-main/modules/advanced_recorder_module/include/advanced_recorder_module/sie/basic_writer.h:48-51 | Hands out the counter and increments it modulo 2^32. |
| LogicalLayer.Writer.AllocateTest | hbk-opendaq-modules-main/modules/advanced_recorder_module/include/advanced_recorder_module/sie/basic_writer.h:79-82 | Hands out the counter and increments it modulo 2^32. |
| LogicalLayer.Writer.WriteMetadataText | hbk-opendaq-modules-main/modules/advanced_recorder_module/include/advanced_recorder_module/sie/basic_writer.h:91-97 | Writes one block of group 0 holding the bytes of the text; on failure no id is lost and the index layer is in one of its failure states. |
| Xml.OStream.PutEscaped | hbk-opendaq-modules-main/modules/advanced_recorder_module/src/sie/xml.cpp:19-52 | Appends the text with the five markup characters escaped. |
| Xml.EscapedHasNoMarkup | hbk-opendaq-modules-main/modules/advanced_recorder_module/src/sie/xml.cpp:19-52 | Escaped text holds no quote, apostrophe or angle bracket, and every ampersand in it starts one of the five predefined references. |
| Xml.OStream.SerializeElement | hbk-opendaq-modules-main/modules/advanced_recorder_module/src/sie/xml.cpp:54-105 | Appends exactly the indented text of the tree: start tag, then nothing, escaped content or the children one level deeper. |
| Xml.TwoLevels | hbk-opendaq-modules-main/modules/advanced_recorder_module/src/sie/xml.cpp:54-105 | The layout of an element with two children: all on lines of their own, children one blank further in than their parent, attribute values in double quotes, content between its tags. |
| XmlRoundTrip.ForestParsed | hbk-opendaq-modules-main/modules/advanced_recorder_module/src/sie/xml.cpp:54-105 | On text whose line ends are already normalised the parser inverts the printer on every forest with valid names, whatever white space precedes it, up to tabs and line ends in attribute values, which are read as blanks, and children of elements that have content, which are never printed. |
| XmlConformance.ForestReadBack | hbk-opendaq-modules-main/modules/advanced_recorder_module/src/sie/xml.cpp:54-105 | A conforming reader (characters of section 2.2 and names of 2.3 of XML 1.0, line-end normalisation of 2.11, unique attribute names of 3.1, attribute-value normalisation of 3.3.3, references of 4.6) recovers the canonical form of every forest with valid names and attributes, at every indent, if its texts are made of XML characters, and rejects it otherwise. |
| XmlConformance.CanonicalIffFaithful | hbk-opendaq-modules-main/modules/advanced_recorder_module/src/sie/xml.cpp:54-105 | A tree is its own canonical form if and only if no element has both content and children, no attribute value holds a tab or line end, and no content holds a carriage return. |
| XmlConformance.RoundTripIff | hbk-opendaq-modules-main/modules/advanced_recorder_module/src/sie/xml.cpp:54-105 | For every forest: printing and reading returns the same trees if and only if all of them satisfy that condition, their names are XML names, no element has two attributes of one name, and all texts are made of XML characters; at every indent, for content made of white space or markup characters too. |
| XmlDocument.DocumentReadBack | hbk-opendaq-modules-main/modules/advanced_recorder_module/include/advanced_recorder_module/sie/format.h:88-124 | A document made of an XML declaration, a root start tag without its end tag, and comments, white space and elements in any order, followed by any printed elements, is read as its elements in order and then the canonical forms of those behind them, and is rejected if and only if a text of those holds a character XML does not allow. |
| Preamble.OnePreamble | hbk-opendaq-modules-main/modules/advanced_recorder_module/include/advanced_recorder_module/sie/format.h:88-124 | The preamble is fixed: one head and seventeen comments, gaps and elements, and no other text is a preamble. |
| Preamble.PreambleReadBack | hbk-opendaq-modules-main/modules/advanced_recorder_module/include/advanced_recorder_module/sie/format.h:88-124 | Whatever elements are written behind the preamble, a reader of the metadata finds decoder 0, the metadata tag, the index tag and decoder 1, in this order, and then those elements in canonical form, if their texts are made of XML characters, and nothing otherwise. |
| Bootstrap.StreamProgramFound | hbk-opendaq-modules-main/modules/advanced_recorder_module/include/advanced_recorder_module/sie/format.h:96-105 | A file that begins with the opening metadata contains its own stream decoder: the program of the decoder 0 found in its first block is the six-read loop of the framing round trip. |
| PreambleLimits.OpeningFits | hbk-opendaq-modules-main/modules/advanced_recorder_module/src/advanced_recorder_impl.cpp:142-149 | The opening metadata is less than 41000 characters long, so that the block every file begins with fits its size field. |
| ScalarLinear.DecoderCompiles | hbk-opendaq-modules-main/modules/advanced_recorder_module/src/handlers/scalar_linear_signal_handler.cpp:140-149 | The decoder element, with its loop start given as text in braces, stands for the program: read the 64-bit offset, then loop from offset + start in steps of delta reading one value per turn. |
| ScalarLinear.DecoderIsCorrect | hbk-opendaq-modules-main/modules/advanced_recorder_module/src/handlers/scalar_linear_signal_handler.cpp:140-149 | For every start, delta, offset, type and byte order, running that program on the written block yields exactly the packet's samples, and accepts the block if and only if the raw data consists of whole values. |
| ScalarLinear.SampleAt | hbk-opendaq-modules-main/modules/advanced_recorder_module/src/handlers/scalar_linear_signal_handler.cpp:208-212 | Sample i is (offset + start + i * delta, value i): the domain that was never written out. |
| ScalarLinear.SamplesCount | hbk-opendaq-modules-main/modules/advanced_recorder_module/src/handlers/scalar_linear_signal_handler.cpp:208-212 | n values make n samples. |
| CanCompile.DecoderCompiles | hbk-opendaq-modules-main/modules/advanced_recorder_module/src/handlers/can_signal_handler.cpp:93-139 | The decoder element, with its two seek offsets given as arithmetic in braces and one read per struct field, stands for the interleaved program. |
| CanCorrect.DecoderIsCorrect | hbk-opendaq-modules-main/modules/advanced_recorder_module/src/handlers/can_signal_handler.cpp:93-139 | For every count, domain type and field layout, the program yields sample i as domain value i with the fields at message i, the messages taken 69 bytes apart, and it succeeds if and only if the fields of the last message end inside the block. |
| CanCorrect.CanLoop | hbk-opendaq-modules-main/modules/advanced_recorder_module/src/handlers/can_signal_handler.cpp:96-132 | At the top of turn i the cursor is at 4 + width * i. |
| CanCorrect.AcceptedPacket | hbk-opendaq-modules-main/modules/advanced_recorder_module/src/handlers/can_signal_handler.cpp:148-174 | What every packet that passes the guards decodes to, whatever its field layout: the sample count narrowed to 32 bits, and fields read from right behind the domain values on, 69 bytes apart; nothing if and only if the fields of the last message run past the end. |
| CanMessages.WholeValues | hbk-opendaq-modules-main/modules/advanced_recorder_module/src/handlers/can_signal_handler.cpp:110-123 | What the declared reads take from a message is what its fields say by their descriptors (element size times the dimensions; arrays as their bytes, single elements as numbers) if every array among them is a byte string of one linear dimension or a single element. |
| CanMessages.ReadAsNumber | hbk-opendaq-modules-main/modules/advanced_recorder_module/src/handlers/can_signal_handler.cpp:118-123 | Any other array gets one typed read of a single element, which is never what the field says. |
| CanLimits.RightSizesPair | hbk-opendaq-modules-main/modules/advanced_recorder_module/src/handlers/can_signal_handler.cpp:148-174 | An accepted packet of the right sizes decodes to exactly the samples it holds by its descriptors: domain value i with all of the fields of message i. |
| CanLimits.PairingIff | hbk-opendaq-modules-main/modules/advanced_recorder_module/src/handlers/can_signal_handler.cpp:163-173 | The packets for the handler's two descriptors that it accepts with a given sample count and domain size are all read back as the samples they hold by their descriptors if and only if there are none, or the count fits 32 bits, every array is a byte string of one dimension or a single element and, unless the fields have no bytes, the domain type is 64 bits wide, there are exactly 8 domain bytes per sample, and the fields take up 69 bytes, or fewer when there is one sample. |
| CanLimits.ArrayIsMisread | hbk-opendaq-modules-main/modules/advanced_recorder_module/src/handlers/can_signal_handler.cpp:118-123 | An array field of any other kind is misread in every packet that has samples. |
| CanLimits.WordsAreLost | hbk-opendaq-modules-main/modules/advanced_recorder_module/src/handlers/can_signal_handler.cpp:110-123 | A message of an id, a length and 32 data words of 16 bits, 69 bytes: the handler supports it, of each message 7 bytes are read, and no packet with samples is read back rightly. |
| SieXml.CompileTypedRead | hbk-opendaq-modules-main/modules/advanced_recorder_module/src/sie/xml.cpp:134-141 | The element built for a typed read compiles to the read of that variable, type, width and byte order. |
| SieXml.CompileRawRead | hbk-opendaq-modules-main/modules/advanced_recorder_module/src/sie/xml.cpp:143-149 | The element built for a raw read compiles to the read of that many octets. |
| SieXml.CompileSeek | hbk-opendaq-modules-main/modules/advanced_recorder_module/src/sie/xml.cpp:164-169 | The element built for a seek compiles to a jump to the offset its expression denotes. |
| Decimal.NumberRoundTrip | hbk-opendaq-modules-main/modules/advanced_recorder_module/src/sie/xml.cpp:107-149 | Numbers printed into attributes are read back. |
| SampleTypes.DeclaredRead | hbk-opendaq-modules-main/modules/advanced_recorder_module/include/advanced_recorder_module/metadata.h:40-64 | For each sample type: there is a read exactly for the ten numeric types, and it takes as many bytes as the type has and yields the number they stand for: unsigned, in two's complement, or a floating-point pattern. |
| SampleTypes.RuleIsRead | hbk-opendaq-modules-main/modules/advanced_recorder_module/include/advanced_recorder_module/metadata.h:25-38 | Start and delta of a domain are those of its linear rule, 0 and 1 where the rule leaves them out, and there are none exactly without a linear rule that has parameters. |
| CanFields.FieldIsRead | hbk-opendaq-modules-main/modules/advanced_recorder_module/src/handlers/can_signal_handler.cpp:106-123 | The read declared for a field compiles to a statement that takes the bytes of the field where it is a byte string of one linear dimension, and the number of its first element otherwise, and moves on behind what it took. |
| RecorderSignal.AdvancedRecorderSignal.NewScalarHandler | hbk-opendaq-modules-main/modules/advanced_recorder_module/src/handlers/scalar_linear_signal_handler.cpp:119-193 | Takes one group, decoder and channel id, then writes the decoder and the test element as one metadata block. With a kernel that makes progress there is a handler if and only if the domain has a linear rule with parameters. Otherwise, or when the block cannot be written, there is none, but the ids are taken, and the writer is in one of its failure states. |
| RecorderSignal.AdvancedRecorderSignal.NewCanHandler | hbk-opendaq-modules-main/modules/advanced_recorder_module/src/handlers/can_signal_handler.cpp:68-146 | The same for CAN messages, with a handler if and only if the domain and all fields are of the ten numeric types. |
| RecorderSignal.AdvancedRecorderSignal.BuildField | hbk-opendaq-modules-main/modules/advanced_recorder_module/src/handlers/can_signal_handler.cpp:106-123 | Succeeds if and only if the field is of one of the ten numeric types. The element built takes the bytes of a byte string of one linear dimension and the number of any other field, by its type and dimensions alone; the dimension carries the field's name and variable number. |
| RecorderSignal.AdvancedRecorderSignal.BuildFields | hbk-opendaq-modules-main/modules/advanced_recorder_module/src/handlers/can_signal_handler.cpp:103-128 | The loop over the struct fields builds one read and one dimension per field, numbered from 1, and fails exactly on a field without a read type. |
| RecorderSignal.AdvancedRecorderSignal.HandleScalarPacket | hbk-opendaq-modules-main/modules/advanced_recorder_module/src/handlers/scalar_linear_signal_handler.cpp:195-213 | Writes offset and raw data as one block of the handler's group; packets without a domain packet or offset are dropped. |
| RecorderSignal.AdvancedRecorderSignal.HandleCanPacket | hbk-opendaq-modules-main/modules/advanced_recorder_module/src/handlers/can_signal_handler.cpp:148-174 | Writes count, domain data and messages as one block; packets that fail a guard are dropped. |
| RecorderSignal.AdvancedRecorderSignal.Rebind | hbk-opendaq-modules-main/modules/advanced_recorder_module/src/advanced_recorder_signal.cpp:49-90 | Equal descriptors leave handler and writer alone. A change of either descriptor discards the handler and builds the one that supports the new descriptors, or none; where its declaration cannot be written the signal is left without a handler. |
| RecorderSignal.AdvancedRecorderSignal.OnDataPacketReceived | hbk-opendaq-modules-main/modules/advanced_recorder_module/src/advanced_recorder_signal.cpp:41-94 | State and file afterwards are those of the specification of one packet, when no write fails. With the descriptors of the packet before it the handler stays and the file at most gets the packet's data block. A failing declaration only leaves the signal without a handler; when the data block fails the handler is the right one and the file holds at most a first part of the block, or the block without the flush due after it. |
| RecorderSignal.AdvancedRecorderSignal.CreateHandler | hbk-opendaq-modules-main/modules/advanced_recorder_module/src/advanced_recorder_signal.cpp:58-84 | With a kernel that makes progress a scalar handler is made exactly for a value of a numeric type, an explicit value rule, no or an empty dimension list and a linear domain rule with parameters, and a CAN handler exactly for a struct with explicit rules on both sides and numeric domain and fields. |
| HandlerChoice.HandlerBuiltIff | hbk-opendaq-modules-main/modules/advanced_recorder_module/src/handlers/scalar_linear_signal_handler.cpp:82-118 | The same conditions, read off the descriptors, for the choice of handler and its construction together. |
| HandlerChoice.CreatedIff | hbk-opendaq-modules-main/modules/advanced_recorder_module/src/advanced_recorder_signal.cpp:58-90 | Kind and group of the handler created for any descriptors, and that ids are taken exactly where a handler supports them, even if it cannot be built. |
| Succession.PacketSucceeds | hbk-opendaq-modules-main/modules/advanced_recorder_module/src/advanced_recorder_signal.cpp:45-90 | A packet with the descriptors of the one before it declares nothing and leaves handler and ids alone; one with another value or domain descriptor takes ids if the new descriptors are supported, and declares exactly one handler, for them, if it can be built. |
| Succession.HandlersFollowDescriptors | hbk-opendaq-modules-main/modules/advanced_recorder_module/src/advanced_recorder_signal.cpp:45-90 | In every run the handlers a signal object declared are, in order, for exactly those arrived packets whose descriptors differ from the packet's before and can be recorded, and the ids taken in a file count the changes to supported descriptors of its objects. |
| Succession.SameDescriptors | hbk-opendaq-modules-main/modules/advanced_recorder_module/src/advanced_recorder_signal.cpp:45-49 | A signal object whose packets all have the same descriptors declares at most one handler, however many packets arrive, and exactly one if they can be recorded and one arrived. |
| FileLog.ReceiveInIsReceive | hbk-opendaq-modules-main/modules/advanced_recorder_module/src/advanced_recorder_signal.cpp:41-94 | Recording what happens in a log changes neither states nor bytes. |
| FileLog.ReceiveInInv | hbk-opendaq-modules-main/modules/advanced_recorder_module/src/advanced_recorder_signal.cpp:41-94 | One packet keeps the file equal to the blocks of its log, in order, and the object's handler declared for the descriptors last seen. |
| Recorder.AdvancedRecorderImpl.constructor | hbk-opendaq-modules-main/modules/advanced_recorder_module/src/advanced_recorder_impl.cpp:29-41 | A new recorder has one free port named Value1, no writer and no entries: the initial state of the state machine. |
| Recorder.AdvancedRecorderImpl.AddInputPort | hbk-opendaq-modules-main/modules/advanced_recorder_module/src/advanced_recorder_impl.cpp:122-125 | Appends a fresh, free port with the next number in its name. |
| Recorder.AdvancedRecorderImpl.OpenFile | hbk-opendaq-modules-main/modules/advanced_recorder_module/src/advanced_recorder_impl.cpp:136-149 | The file of the filename property is created or truncated and holds one metadata block: the preamble and the element of test 0. |
| Recorder.AdvancedRecorderImpl.EnsureWriter | hbk-opendaq-modules-main/modules/advanced_recorder_module/src/advanced_recorder_impl.cpp:133-150 | A writer in use is kept; otherwise a new one is taken into use, even if its opening metadata could not be written. |
| Recorder.AdvancedRecorderImpl.VisitPort | hbk-opendaq-modules-main/modules/advanced_recorder_module/src/advanced_recorder_impl.cpp:164-177 | One turn of the first pass: a connected port without an entry gets a fresh one for its signal, nothing else changes. |
| Recorder.AdvancedRecorderImpl.AddEntries | hbk-opendaq-modules-main/modules/advanced_recorder_module/src/advanced_recorder_impl.cpp:159-178 | The first pass finds exactly the connected ports, gives each an entry, and touches no existing entry. |
| Recorder.AdvancedRecorderImpl.EraseEntries | hbk-opendaq-modules-main/modules/advanced_recorder_module/src/advanced_recorder_impl.cpp:180-197 | The second pass erases exactly the entries of other ports. |
| Recorder.AdvancedRecorderImpl.UpdateEntries | hbk-opendaq-modules-main/modules/advanced_recorder_module/src/advanced_recorder_impl.cpp:152-197 | Both passes: the keys become exactly the connected ports, entries of ports that stay connected are the same objects, new ones are fresh, for the signal now connected, and share the writer. |
| Recorder.AdvancedRecorderImpl.Reconfigure | hbk-opendaq-modules-main/modules/advanced_recorder_module/src/advanced_recorder_impl.cpp:127-205 | Ends in the state the state machine's reconfiguration prescribes, with the properties above while recording and with map and writer empty otherwise. If the opening metadata cannot be written the writer is kept and the entries stay as they were. |
| Recorder.AdvancedRecorderImpl.StartRecording | hbk-opendaq-modules-main/modules/advanced_recorder_module/src/advanced_recorder_impl.cpp:43-50 | Takes the start step of the state machine: recording, with a writer in use; a writer already in use is kept. |
| Recorder.AdvancedRecorderImpl.StopRecording | hbk-opendaq-modules-main/modules/advanced_recorder_module/src/advanced_recorder_impl.cpp:52-59 | Takes the stop step: no entries and no writer afterwards, and it never fails. |
| Recorder.AdvancedRecorderImpl.ActiveChanged | hbk-opendaq-modules-main/modules/advanced_recorder_module/src/advanced_recorder_impl.cpp:96-100 | Deactivation is a stop; activation changes nothing. |
| Recorder.AdvancedRecorderImpl.FilenameWritten | hbk-opendaq-modules-main/modules/advanced_recorder_module/src/advanced_recorder_impl.cpp:116-120 | Sets the name the next file is opened under and takes the refresh step; a file already open keeps its name. |
| Recorder.AdvancedRecorderImpl.OnConnected | hbk-opendaq-modules-main/modules/advanced_recorder_module/src/advanced_recorder_impl.cpp:71-76 | Takes the connect step: one more free port at the end, the others unchanged, and an entry for the port if recording. |
| Recorder.AdvancedRecorderImpl.TrimPorts | hbk-opendaq-modules-main/modules/advanced_recorder_module/src/advanced_recorder_impl.cpp:82-91 | The trimming loop terminates and keeps the number of ports the specification says. |
| Recorder.AdvancedRecorderImpl.OnDisconnected | hbk-opendaq-modules-main/modules/advanced_recorder_module/src/advanced_recorder_impl.cpp:78-94 | Takes the disconnect step: with a free last port before, the last port is free, one port is left or the last but one is connected, and only free ports at the end were removed. |
| Recorder.AdvancedRecorderImpl.FindSignal | hbk-opendaq-modules-main/modules/advanced_recorder_module/src/advanced_recorder_impl.cpp:207-215 | The port's entry, the one the state machine has under the port's number, or none. |
| Recorder.AdvancedRecorderImpl.DeliveryLeavesMap | hbk-opendaq-modules-main/modules/advanced_recorder_module/src/advanced_recorder_impl.cpp:102-114 | Finding an object, delivering through it and letting it go leave ports, names, writer and map of the state machine as they are. |
| Recorder.AdvancedRecorderImpl.OnPacketReceived | hbk-opendaq-modules-main/modules/advanced_recorder_module/src/advanced_recorder_impl.cpp:102-114 | Empties the queue of a connected port and hands every data packet, in order, to the port's object. Seen as steps of the state machine: the object is found, the packets arrive one after the other, the object is let go, and handler state and bytes are those of the state this leads to. |
| Ports.KeptIsTrimmed | hbk-opendaq-modules-main/modules/advanced_recorder_module/src/advanced_recorder_impl.cpp:82-91 | Trimming keeps a free last port, stops at one port or a connected neighbour, and removes only free ports. |
| Runs.StepInv | hbk-opendaq-modules-main/modules/advanced_recorder_module/src/advanced_recorder_impl.cpp:43-215 | Every step (connect, disconnect, start, stop, packet delivery in pieces) keeps the invariant of references, files, map and ports. |
| Runs.RunInv | hbk-opendaq-modules-main/modules/advanced_recorder_module/src/advanced_recorder_impl.cpp:43-215 | The invariant holds in every state reachable by any sequence of events. |
| Runs.ReconfigureInv | hbk-opendaq-modules-main/modules/advanced_recorder_module/src/advanced_recorder_impl.cpp:127-205 | What reconfigure does to map, writer, files and objects. |
| ExampleRun.OneRecording | hbk-opendaq-modules-main/modules/advanced_recorder_module/src/advanced_recorder_impl.cpp:43-114 | Connecting a signal, recording one scalar packet under a name and stopping gives one closed file with the opening metadata, one declaration and the packet, for every such signal and packet: the theorems over runs speak about recordings that exist. |
| ExampleRun.RewiringHappens | hbk-opendaq-modules-main/modules/advanced_recorder_module/src/advanced_recorder_impl.cpp:169-176 | Connecting another signal to a port while recording is reachable, and leaves the port's entry on the signal connected before. |
| ExampleReadback.OneRecordingReadsBack | hbk-opendaq-modules-main/modules/advanced_recorder_module/src/advanced_recorder_impl.cpp:43-114 | Applied to that recording the end-to-end theorem holds for every scalar packet of whole values whose texts are byte strings and which is not too large, and SomePacket shows that there is one: what the theorem asks for can be had all at once. |
| Connections.RunMap | hbk-opendaq-modules-main/modules/advanced_recorder_module/src/advanced_recorder_impl.cpp:152-204 | In every reachable state the keys are the connected ports while recording, all entries share the writer in use, its file is open, and when not recording map and writer are empty. |
| Connections.EntryIsKept | hbk-opendaq-modules-main/modules/advanced_recorder_module/src/advanced_recorder_impl.cpp:152-155 | Whatever one event does, a port with an entry before and after keeps its object, file and signal; only a packet for that object changes its state. |
| Connections.StepMatches | hbk-opendaq-modules-main/modules/advanced_recorder_module/src/advanced_recorder_impl.cpp:169-176 | An event makes an entry's signal differ from the connected one if and only if it connects a different signal to a port that already has an entry. |
| Connections.RunMatches | hbk-opendaq-modules-main/modules/advanced_recorder_module/src/advanced_recorder_impl.cpp:169-176 | Without such an event every entry is for the signal now connected, in every reachable state. |
| Connections.RunPorts | hbk-opendaq-modules-main/modules/advanced_recorder_module/src/advanced_recorder_impl.cpp:71-94 | In every reachable state the last port is free; after a disconnection one port is left or the last but one is connected. |
| RunTheorems.Finalisation | hbk-opendaq-modules-main/modules/advanced_recorder_module/src/advanced_recorder_impl.cpp:102-114 | In every interleaving a file is closed exactly when nobody refers to its writer, is open while a delivery holds one of its objects, ends with the flush of exactly its log, and nothing is written through it after it is closed. If it was opened while no other file of its name was open, these are the bytes under the name as long as the name is not opened again. |
| RunTheorems.StoppedAndReleased | hbk-opendaq-modules-main/modules/advanced_recorder_module/src/advanced_recorder_impl.cpp:200-215 | After a stop, once no delivery holds an object, every file is closed. |
| RunTheorems.FinishedFile | hbk-opendaq-modules-main/modules/advanced_recorder_module/src/advanced_recorder_impl.cpp:200-204 | The bytes under the name of every finished recording (closed, opened while no other file of its name was open, its name not opened since) parse into its blocks, begin with metadata in group 0, end with an index block in group 1 and are fully indexed. |
| RunGrowth.FilesBegin | hbk-opendaq-modules-main/modules/advanced_recorder_module/src/advanced_recorder_impl.cpp:136-149 | Every file of every run begins with the metadata it was opened with: the preamble of the configuration and test 0. The read-back theorems take that to be the one text of format.h. |
| Disk.OneFileAtATime | hbk-opendaq-modules-main/modules/advanced_recorder_module/src/advanced_recorder_impl.cpp:127-205 | A step opens one file and changes no other, or writes to at most one: the order in which a step's writes reach the disk does not matter. |
| Disk.NameHolds | hbk-opendaq-modules-main/modules/advanced_recorder_module/include/advanced_recorder_module/sie/posix_vector_io_file.h:36-48 | The bytes under a name are what was written through the file opened last under it, if earlier files of that name were closed when it was opened. |
| FileNames.NameIsRightIff | hbk-opendaq-modules-main/modules/advanced_recorder_module/include/advanced_recorder_module/sie/posix_vector_io_file.h:36-48 | When a recording starts, the bytes under its name will be those of its own file however the run goes on, until the name is opened again, if and only if every earlier file of that name is closed. |
| FileNames.PersistsIff | hbk-opendaq-modules-main/modules/advanced_recorder_module/src/advanced_recorder_impl.cpp:129-140 | A closed recording that was opened while no other file of its name was open keeps its bytes at every later time if and only if its name is not opened again. |
| NameClashes.RestartTruncates | hbk-opendaq-modules-main/modules/advanced_recorder_module/src/advanced_recorder_impl.cpp:129-140 | Start, stop and start with the name left alone: the first recording is gone and the bytes under the name are the opening metadata of the second. |
| NameClashes.LateReleaseSpoils | hbk-opendaq-modules-main/modules/advanced_recorder_module/src/advanced_recorder_impl.cpp:102-114 | A delivery that lets go of its signal object only after another recording of the same name is finished: until then that recording is intact, afterwards the closing index block of the first lies behind a hole in it and no reader gets anything from the file. |
| RunTheorems.RunOwnership | hbk-opendaq-modules-main/modules/advanced_recorder_module/src/advanced_recorder_signal.cpp:41-94 | Over whole runs every data block comes after the one declaration of its group, by the same signal object, for a packet with the descriptors its decoder was built from; the groups, decoders and channels declared are pairwise different, the first two unreserved. |
| RunTheorems.RunReadBack | hbk-opendaq-modules-main/modules/advanced_recorder_module/src/advanced_recorder_impl.cpp:127-205 | End to end over runs, from the bytes under the name of a finished recording: parsing them with the stream decoder found in them, looking a declared group up in the metadata and running the decoder found there succeeds if and only if every packet its handler accepted is readable (whole values for scalars; for CAN, fields of the last message that do not run past the end), and then yields what the declared reads take from the packets, in order. These are the samples the packets hold if they are made of whole values, for CAN of the sizes `PairingIff` names. |
| RunTheorems.RunReadableIff | hbk-opendaq-modules-main/modules/advanced_recorder_module/src/sie/xml.cpp:19-52 | A finished recording whose texts are byte strings can be read if and only if these texts are made of XML characters: the others are printed as they are. |
| RunTheorems.BadDescriptionLosesAll | hbk-opendaq-modules-main/modules/advanced_recorder_module/src/handlers/scalar_linear_signal_handler.cpp:170-183 | A character XML does not allow in the description of one recorded scalar signal makes the whole recording unreadable. |
| SignalStreams.SignalReadsBack | hbk-opendaq-modules-main/modules/advanced_recorder_module/src/advanced_recorder_impl.cpp:102-114 | From arrival to read-back: in every run, reading the groups a signal object declared in a finished recording, one after the other, from the bytes under its name yields exactly the samples of all acceptable packets (those `IsRecorded` names) that arrived at the object, in the order they arrived, across every change of descriptors. |
| InputChannels.LogInput | hbk-opendaq-modules-main/modules/advanced_recorder_module/src/handlers/scalar_linear_signal_handler.cpp:170-183 | The metadata names the groups of an input channel, by the tag with the signal's global id, in the order they were declared; channels of CAN signals carry no such tag. |
| InputStreams.RunOrigins | hbk-opendaq-modules-main/modules/advanced_recorder_module/src/advanced_recorder_signal.cpp:58-93 | In every run each declaration was made in test 0 for the signal of the object it belongs to, into the file that object writes to, for the descriptors of a packet that arrived at it, by the kind of handler that records them. |
| InputStreams.InputGroupsRead | hbk-opendaq-modules-main/modules/advanced_recorder_module/src/handlers/scalar_linear_signal_handler.cpp:170-213 | For every global id, the bytes under the name of a finished recording alone give the samples of the packets of all scalar groups declared for the id, in the order declared. |
| InputStreams.TurnsTaken | hbk-opendaq-modules-main/modules/advanced_recorder_module/src/advanced_recorder_signal.cpp:58-93 | If nothing arrives at an object after something has arrived at a later one, their declarations come in this order. |
| InputStreams.InputReadsBack | hbk-opendaq-modules-main/modules/advanced_recorder_module/src/handlers/scalar_linear_signal_handler.cpp:170-213 | The whole way for a scalar signal, disconnected and connected again however often: given the bytes under the name of a finished recording and the global id (its line ends normalised, as a conforming reader does), the reader gets exactly the samples of all acceptable packets that arrived at the signal objects it had in the recording, in order, if these received packets one after the other. |
| DeclarationLimits.DeclarationText | hbk-opendaq-modules-main/modules/advanced_recorder_module/src/handlers/scalar_linear_signal_handler.cpp:140-192 | The metadata of every declaration is made of XML characters of one byte if the texts it is made of are, and longer than them by a bound computed from the descriptors. |
| SignalStreams.RunInTurn | hbk-opendaq-modules-main/modules/advanced_recorder_module/src/advanced_recorder_signal.cpp:49-93 | In every run data is written through the handler its signal object declared last. |
| Partition.PacketsByGroup | hbk-opendaq-modules-main/modules/advanced_recorder_module/src/advanced_recorder_signal.cpp:43-53 | The packets a file holds for a signal object are those of its groups, one group after the other: every packet is in exactly one group and later groups hold later packets. |
| Delivery.Conservation | hbk-opendaq-modules-main/modules/advanced_recorder_module/src/advanced_recorder_impl.cpp:102-114 | In every run the file of a signal object holds for it exactly those of the packets that arrived at it that are recorded, once each and in order, and no other file holds any. Which are recorded is read off each packet alone: descriptors of a scalar signal and a domain offset, or descriptors of a message signal and as many data and domain bytes as the narrowed sample count needs. |
| Ownership.DeclarationsAreDistinct | hbk-opendaq-modules-main/modules/advanced_recorder_module/include/advanced_recorder_module/sie/basic_writer.h:48-82 | No two declarations of a file share a group, decoder or channel id, and none uses a reserved group or decoder id. |
| Ownership.IdsAreFreeIff | hbk-opendaq-modules-main/modules/advanced_recorder_module/include/advanced_recorder_module/sie/basic_writer.h:58-72 | The ids handed out are unreserved if and only if at most 2^32 - 2 are taken. |
| Ownership.DataIsOwned | hbk-opendaq-modules-main/modules/advanced_recorder_module/src/advanced_recorder_signal.cpp:58-93 | The declaration a data block belongs to exists, comes first and is unique. |
| Metadata.MetadataForest | hbk-opendaq-modules-main/modules/advanced_recorder_module/src/advanced_recorder_impl.cpp:142-149 | The group-0 payloads of a file are the preamble followed by text that parses to the four elements of the preamble and then the test and decoder elements in the order written, unchanged if and only if they satisfy the round-trip condition; one text with a character XML does not allow makes all of it unreadable. |
| Declarations.ScalarChannelIsGood | hbk-opendaq-modules-main/modules/advanced_recorder_module/src/handlers/scalar_linear_signal_handler.cpp:151-183 | The channel element is well formed and, read back, its dimensions come from variables v0 and v1 of its decoder. |
| Declarations.CanChannelIsGood | hbk-opendaq-modules-main/modules/advanced_recorder_module/src/handlers/can_signal_handler.cpp:80-128 | The channel element is well formed and, read back, dimension k comes from variable vk of its decoder. |
| Readback.LookUpFinds | hbk-opendaq-modules-main/modules/advanced_recorder_module/src/handlers/scalar_linear_signal_handler.cpp:185-192 | Looking a declared group up in the metadata read back, behind the preamble's own decoders, yields the program and the columns its handler means. |
| Readback.FileReadBack | hbk-opendaq-modules-main/modules/advanced_recorder_module/src/handlers/scalar_linear_signal_handler.cpp:195-213 | The end-to-end theorem for the bytes of one finished file, with the stream decoder and the preamble found in them: when a group can be read, what is read, and that it is what the packets hold when they are made of whole values. |
| Readback.DeclaredDecoderReads | hbk-opendaq-modules-main/modules/advanced_recorder_module/src/handlers/scalar_linear_signal_handler.cpp:131-149 | The decoder a handler declares, run on the block written for a packet of whole values: sample i of a scalar is offset + start + i * delta by the parameters of the domain's rule next to number i of the raw data by the value's type; of messages it is domain value i with the fields of message i by their descriptors. |
| ChannelTexts.ChannelDescribes | hbk-opendaq-modules-main/modules/advanced_recorder_module/src/handlers/scalar_linear_signal_handler.cpp:151-183 | What a conforming reader finds in the channel element: ids, name, tick scale and units of the domain; for scalars the tags for UUID, description, global id, sample rate and schema, a data type, format and width that agree with the sample type, the unit and both ends of the range; for messages their tags and the name of every field at its dimension. |
| ChannelTexts.RunDescribes | hbk-opendaq-modules-main/modules/advanced_recorder_module/src/handlers/can_signal_handler.cpp:80-128 | In the bytes under the name of every finished recording a reader finds, for each declared group, a channel in the test of the recording that says all this of the descriptors and signal it was declared for. |
| EventHistory.FilesFollowEvents | hbk-opendaq-modules-main/modules/advanced_recorder_module/src/advanced_recorder_impl.cpp:43-59 | The events alone say what a run comes to: it is recording after a start until a stop, the name is the one set last, every start of an idle recorder opens one file under the name of that moment and nothing else opens one, and the writer in use is that of the file opened last. |
| EventHistory.ConnectionsFollowEvents | hbk-opendaq-modules-main/modules/advanced_recorder_module/src/advanced_recorder_impl.cpp:71-94 | A port is connected to a signal if and only if it was connected to it last, as a port that was there, and not disconnected since. |
| EventHistory.DeliveriesFollowEvents | hbk-opendaq-modules-main/modules/advanced_recorder_module/src/advanced_recorder_impl.cpp:102-114 | A thread holds the signal object it found last, until it lets go of it, whatever else happens to ports, map and files. |
| Connections.FoundIsConnected | hbk-opendaq-modules-main/modules/advanced_recorder_module/src/advanced_recorder_impl.cpp:102-108 | While recording, a delivery for a connected port gets hold of an object for the signal connected there (unless a port was rewired), and that object writes to the file in use; other deliveries keep what they hold, and nothing is found for a port without a connection or without a recording. |
| Playback.PlaybackChannelImpl.constructor | hbk-opendaq-modules-main/modules/playback_device_module/src/playback_channel_impl.cpp:24-69 | The defaults (deltaT 1000, ticks of a microsecond, rate 10 until there is something to play), with the value array selected and playing at 1000 samples per second. |
| Playback.PlaybackChannelImpl.DataSourceChanged | hbk-opendaq-modules-main/modules/playback_device_module/src/playback_channel_impl.cpp:166-200 | The selected values replace the buffer, playing starts over at their beginning, signals exist exactly when there is something to play, and the rate follows the formula. |
| Playback.PlaybackChannelImpl.ValueDataArrayChanged | hbk-opendaq-modules-main/modules/playback_device_module/src/playback_channel_impl.cpp:155-164 | The array property replaces its copy, and the buffer when it is selected; then playing starts over with the selected source. |
| Playback.PlaybackChannelImpl.Zero | hbk-opendaq-modules-main/modules/playback_device_module/src/playback_channel_impl.cpp:62-66 | The offset makes the last value meet the target. |
| Playback.PlaybackChannelImpl.CollectSamples | hbk-opendaq-modules-main/modules/playback_device_module/src/playback_channel_impl.cpp:227-247 | State and packets are those of the specification, and the counter equals the samples due now. With an empty buffer, an inactive signal or nothing due nothing is sent and index and last value stay; otherwise one packet is sent, with the next values round the buffer (indices modulo its length) and the stamp of the first, and the last value is the first of them. |
| Playback.PlaybackChannelImpl.GenerateSamples | hbk-opendaq-modules-main/modules/playback_device_module/src/playback_channel_impl.cpp:249-272 | The packet holds the next values round the buffer plus the offset; the index stays in range. |
| Playback.CastKeepsLowBits | hbk-opendaq-modules-main/modules/playback_device_module/src/playback_channel_impl.cpp:237-238 | The stamp is the 64-bit two's complement number that agrees with the counted ticks modulo 2^64. |
| Playback.TurnIsModulo | hbk-opendaq-modules-main/modules/playback_device_module/src/playback_channel_impl.cpp:258-266 | The wrap-around index counts modulo the buffer length. |
| Playback.RateIsTruncated | hbk-opendaq-modules-main/modules/playback_device_module/src/playback_channel_impl.cpp:192 | The rate is the numerator times the whole number of deltaT in the denominator, for every tick resolution. |
| Playback.ClockBoundIff | hbk-opendaq-modules-main/modules/playback_device_module/src/playback_channel_impl.cpp:192 | In exact arithmetic the samples keep pace with the clock at every moment (never ahead, less than one deltaT behind) if and only if the tick numerator is 1 and deltaT divides the denominator. |
| Playback.MicrosecondClock | hbk-opendaq-modules-main/modules/playback_device_module/src/playback_channel_impl.cpp:221-225 | With microsecond ticks and deltaT dividing 10^6: samples * deltaT <= elapsed < samples * deltaT + deltaT. |
| PlaybackStream.PlayIsIdeal | hbk-opendaq-modules-main/modules/playback_device_module/src/playback_channel_impl.cpp:227-272 | For every monotone schedule an active channel sends sample number i stamped epoch + i * deltaT, values continuing round the buffer, with no gap, overlap or index out of range. |
| PlaybackStream.BatchingDoesNotMatter | hbk-opendaq-modules-main/modules/playback_device_module/src/playback_channel_impl.cpp:227-272 | Any two schedules that end at the same time send the same stream and leave the same state, the last value apart. |
| PlaybackStream.FreshStream | hbk-opendaq-modules-main/modules/playback_device_module/src/playback_channel_impl.cpp:227-272 | From a fresh start sample i is buffer[i mod length] + offset at epoch + i * deltaT. |
| PlaybackStream.PacketsSent | hbk-opendaq-modules-main/modules/playback_device_module/src/playback_channel_impl.cpp:227-272 | For every monotone schedule: exactly the active passes in which samples are due send a packet, one each, with the samples since the pass before, stamped with the number of the first, the values read on from where the last packet ended. |
| PlaybackStream.NothingToPlay | hbk-opendaq-modules-main/modules/playback_device_module/src/playback_channel_impl.cpp:235-243 | With nothing to play no schedule, active or not, sends a packet, not even an empty one, and nothing of the channel changes but the counter, which counts the samples up to the last pass. |
| PlaybackStream.PlayWithPauses | hbk-opendaq-modules-main/modules/playback_device_module/src/playback_channel_impl.cpp:235-243 | With pauses exactly the samples due in active passes are sent, stamped with their own numbers, while the values wait. |
| PlaybackStream.DueIncreases | hbk-opendaq-modules-main/modules/playback_device_module/src/playback_channel_impl.cpp:235-243 | Sample numbers never repeat or go back. |
| PlaybackStream.ReferenceOf | hbk-opendaq-modules-main/modules/playback_device_module/src/playback_channel_impl.cpp:267-268 | After any schedule the last value Zero refers to is the one the buffer had reached where the last pass that sent anything began. |
| RateChange.NoWrapIff | hbk-opendaq-modules-main/modules/playback_device_module/src/playback_channel_impl.cpp:192-231 | A channel last collected at one moment goes on with another rate from a later one while its counter stays: the next collection, whenever it happens, does not wrap round if and only if at the change the new rate has as many samples due as the old one had at the last collection. |
| RateChange.HigherRateIsSafe | hbk-opendaq-modules-main/modules/playback_device_module/src/playback_channel_impl.cpp:192-231 | A rate that is not lower never wraps. |
| RateChange.LowerRateWraps | hbk-opendaq-modules-main/modules/playback_device_module/src/playback_channel_impl.cpp:227-247 | A collection wraps if and only if k samples are missing that the old rate had given by the last collection, k > 0, and then sends a packet of 2^64 - k values; one is missing as soon as rate times elapsed time has fallen back by a second of samples. |
| RateChange.SlowerFileWraps | hbk-opendaq-modules-main/modules/playback_device_module/src/playback_channel_impl.cpp:192-231 | A file with tick resolution 1/100000 after values with 1/1000000, last collected one second after the start: 2^64 - 900 samples are asked for at once, and 2^64 - 700 two seconds later. |
| PlaybackStream.ZeroReferenceIff | hbk-opendaq-modules-main/modules/playback_device_module/src/playback_channel_impl.cpp:62-66 | Any two schedules leave Zero with the same reference if and only if the buffer holds equal values where their last sending passes begin. |
| PlaybackStream.ZeroDependsOnBatches | hbk-opendaq-modules-main/modules/playback_device_module/src/playback_channel_impl.cpp:62-66 | Two schedules that send the same stream and end at the same time and yet leave Zero with different references. |

## Left out

Assumptions of the theorems:

- No write fails: the ownership, read-back and file name theorems are about runs in which every `writev` makes progress. The methods' contracts also say what a failing write leaves behind, and `IndexFailures` what it does to the index.
- Sizes: a file of less than 2^64 bytes, blocks that fit 32-bit size fields, at most 2^32 - 2 ids taken in a file.
- The texts of descriptors and signals are made of XML characters of one byte each; `RunReadableIff` says what happens otherwise. Bytes from 128 on count as characters of their own: the UTF-8 encoding is not modelled.
- Two names are two files: links, relative paths and other programs writing to the same file are left out. Opening a name succeeds.
- The meaning of the decoder language (loop defaults start 0, increment 1 and exclusive end, a loop without end runs until the payload is used up, reads with `value` must match) is taken from how the files use it. An endless loop that does not advance is rejected.
- Locked sections and single packet deliveries are atomic steps. Unsynchronised concurrent `write_block` calls from several threads are not modelled.
- The clock of the playback device is monotone and, but for `RateChange`, the sample rate fixed while a stream is considered; `deltaT` is not zero (the code divides by it) and time stamps stay below 2^63.

Not modelled:

- The openDAQ SDK: property objects, reference counting, packet and descriptor classes. Descriptors are values compared by value, and using an absent one throws. A packet is its descriptors, offset, sample count and bytes.
- `fallback_vector_io_file`, error numbers, console output.
- Texts the model does not look into: the tick scale, sample rate and value range in scientific or fixed notation, and random UUIDs.
- Xml: the builders of elements in `xml.h` (adding an attribute, a child, the content) work on values; moving from an element and chaining on a reference are not modelled.
- IEEE rounding in playback: values are reals and sample counts are exact floors. A count that does not fit 64 bits is excluded.
- CSV files, connection strings, the device registry and its acquisition thread, log files, metadata properties and signal descriptors of playback.
- Camera, MTi-G-710 and static fatigue modules.

Weaker than the code could promise:

- InputReadsBack: for scalar signals, and for objects that received packets one after the other; InputGroupsRead says what is read in any case, group by group. The channel of a CAN signal carries no tag with the signal's global id, so that SignalReadsBack takes its groups from the log of the file.
- Represents: that a writer nobody refers to is destroyed, with its closing flush, is a fact of the state machine only, because a Dafny heap has no destructors. It ties the bytes of open files only.
- Destroy: a failing closing flush leaves the file without its last index block, as in the code.

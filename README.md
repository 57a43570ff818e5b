# TinyWav and the binaural FIR renderer, in Dafny

This project models `C/tinywav.c`. It covers two parts:

- The TinyWav codec: writing and reading canonical 44-byte RIFF/WAVE files with int16 or float32 samples, in the interleaved, inline or split channel layout.
- The binaural renderer built on it: the angle snap, `copy_array_f`, `conv_32` and the block-by-block convolution loop of `binaural_compute`.

The model is laid out by module:

- `LittleEndian` (`bytes.dfy`): integer header fields as little-endian byte strings, and int16 samples in two's complement.
- `Wav` (`wav.dfy`): the header record, the four chunk identifiers, and the header `tinywav_open_write` fills in. It also holds the reader's parse as a pure function on the file's unread bytes. Each `fread` and `fseek` maps the unread suffix to a shorter one. The parse covers the RIFF signature test, the subchunk scans for `fmt ` and `data`, and the sample format chosen from the fmt fields.
- `Stdio` (`stdio.dfy`): a `File` class for a stdio stream, holding its bytes, its position and whether it was opened for writing. `fread`, `fwrite` and `fseek` are methods on it.
- `Samples` (`samples.dfy`): the bytes of the `data` chunk. A float is its 32-bit pattern. The int16 scaling (division by, or multiplication by, `INT16_MAX`) is a pair of functions given as a parameter.
- `Layout` (`layout.dfy`): where each sample of an interleaved block goes in the caller's buffer (`Deliver`), and which samples a write takes from it (`Interleave`), for each channel format.
- `Buffers` (`buffers.dfy`): the sample-moving loops of `tinywav_read_f` and `tinywav_write_f`, as methods on arrays proved against `Layout`.
- `TinyWavHandle` (`tinywav.dfy`): the `TinyWav` handle as a class whose methods update its fields and its stream: `OpenWrite`, `WriteF`, `CloseWrite`, `OpenRead`, `ReadF`, `CloseRead` and `IsOpen`.
- `RoundTrip` (`roundtrip.dfy`): whole-file properties. A written and closed file parses back to the header written, and its samples decode to the samples written.
- `Fir` (`fir.dfy`): the FIR sum over `real` samples, with silence before the signal, plus `copy_array_f` and `conv_32` as array methods.
- `Binaural` (`binaural.dfy`): the angle snap and the block loop. The block loop is proved to produce the whole-signal convolution of each channel with its filter.

The split layout is modelled in one array: the caller's `float **` becomes an array plus each channel's offset in it (`ptrs`). `TW_INT16` is taken to be 2 and `TW_FLOAT32` to be 4, the bytes per sample. The header file `tinywav.h` is not part of this model; these values are what `8 * sampFmt` and `sampFmt - 1` at `C/tinywav.c:83-88` require.

## Model

| member | source | states |
|---|---|---|
| LittleEndian.DecodeEncode | C/tinywav.c:96-108 | A value below 256^width, written as `width` little-endian bytes, reads back as the same value. |
| LittleEndian.EncodeDecode | C/tinywav.c:140-142 | Any byte string re-encodes from its decoded value to the same bytes, so every header field read can be written back unchanged. |
| LittleEndian.Encode | C/tinywav.c:96-108 | A field written with width w takes exactly w bytes. |
| LittleEndian.Decode | C/tinywav.c:140-169 | A field read from k bytes is below 256^k. |
| LittleEndian.DecodeInt16 | C/tinywav.c:214 | The int16 read from two bytes is the one whose two's-complement encoding is those bytes. |
| LittleEndian.EncodeInt16 | C/tinywav.c:326 | An int16 sample is written as exactly two bytes. |
| LittleEndian.DecodeEncodeInt16 | C/tinywav.c:326 | An int16 sample written as two bytes reads back as the same int16. |
| Wav.ChunkIDMatches | C/tinywav.c:31-39 | The byte-by-byte comparison is true exactly when the four-byte identifier equals the name. |
| Wav.MatchesFrom | C/tinywav.c:33-37 | The loop from byte i is true exactly when the identifiers agree from byte i on. |
| Wav.AsInt16 | C/tinywav.c:181 | The uint16 NumChannels stored in the int16 field keeps its value below 0x8000 and loses 65536 otherwise; it is non-negative exactly when below 0x8000. |
| Wav.WriterHeader | C/tinywav.c:69-93 | The header sets NumChannels and SampleRate from the arguments, and AudioFormat 1 for int16 or 3 for float32. BitsPerSample is 8 times the sample width. When the product fits, BlockAlign is channels times width and ByteRate is the rate times BlockAlign modulo 2^32. Both sizes are 0 and Subchunk1Size is 16. The four identifiers are `RIFF`, `WAVE`, `fmt ` and `data`. |
| Wav.HeaderBytes | C/tinywav.c:96-108 | The thirteen fields written in order make 44 bytes. |
| Wav.RiffFields | C/tinywav.c:96-98 | Bytes 0-3 are `RIFF`, bytes 8-11 `WAVE`, and bytes 4-7 decode to ChunkSize. |
| Wav.FmtFields | C/tinywav.c:99-106 | The fmt subchunk starts with `fmt `, and each of its seven integer fields decodes at its fixed offset to the header's value. |
| Wav.ReadID | C/tinywav.c:140 | fread of a four-character identifier reports 4 exactly when four bytes remain. It then yields those bytes, and it consumes what it reports. |
| Wav.ReadU32 | C/tinywav.c:141 | fread of a uint32 succeeds exactly when four bytes remain and then yields their little-endian value. Otherwise the field keeps its value and the stream is at its end. |
| Wav.ReadU16 | C/tinywav.c:160-161 | fread of a uint16 succeeds exactly when two bytes remain and then yields their little-endian value; otherwise the field is unchanged. |
| Wav.Seek | C/tinywav.c:155 | fseek by n from the current position leaves n fewer bytes to read, or none past the end. |
| Wav.ScanChunks | C/tinywav.c:149-157 | The subchunk scan never makes the unread part longer. |
| Wav.ScanEnds | C/tinywav.c:149-157 | A subchunk scan stops either at the target identifier or at the end of the file. |
| Wav.ReadIDOf | C/tinywav.c:140 | Reading an identifier in front of any bytes yields it with count 4 and leaves the rest. |
| Wav.ReadU32Of | C/tinywav.c:141 | Reading an encoded uint32 yields its value with count 1 and leaves the rest. |
| Wav.ReadU16Of | C/tinywav.c:160-165 | Reading an encoded uint16 yields its value with count 1 and leaves the rest. |
| Wav.ScanFindsFirst | C/tinywav.c:172-179 | A scan whose next chunk is the target stops after that chunk's size field, with the target's identifier and size. |
| Wav.ScanSkipsOtherChunk | C/tinywav.c:149-157 | A chunk with another identifier is skipped by exactly its declared size; the scan then ends as if the chunk were absent. |
| Wav.ScanOverwritesStart | C/tinywav.c:150-151 | With a chunk header ahead, the identifier and size the scan starts from do not matter. |
| Wav.ParseWav | C/tinywav.c:140-179 | A header the reader accepts has the identifiers `RIFF`, `WAVE` and `fmt `. |
| Wav.ParseSubchunks | C/tinywav.c:149-169 | The subchunk parse succeeds only at a `fmt ` chunk, and it keeps the RIFF fields already read. |
| Wav.ParseFmt | C/tinywav.c:160-179 | The fmt fields are read exactly when 16 bytes remain behind the fmt chunk header; the parse keeps the identifiers read before. |
| Wav.ParseCanonical | C/tinywav.c:140-179 | Parsing the 44 bytes of any header with the four standard identifiers succeeds. It recovers every field and leaves exactly the bytes behind the header unread. |
| Wav.WriterHeaderReadBack | C/tinywav.c:41-197 | The header `tinywav_open_write` writes is accepted by `tinywav_open_read`, which recovers the channel count, the header and the sample format. |
| Wav.ChunkBeforeFmtIgnored | C/tinywav.c:149-157 | An unknown chunk between `WAVE` and `fmt ` changes nothing in the parse. |
| Wav.ChunkBeforeDataIgnored | C/tinywav.c:171-179 | An unknown chunk between the fmt fields and `data` changes nothing in the parse. |
| Wav.SameSubchunksSameParse | C/tinywav.c:140-147 | Behind the same valid RIFF/WAVE prefix, suffixes that parse alike give the same parse. |
| Wav.SubchunksSkipOther | C/tinywav.c:149-157 | The fmt search skips a non-`fmt ` chunk. |
| Wav.DataSkipOther | C/tinywav.c:171-179 | The data search skips a non-`data` chunk. |
| Wav.RiffPrefix | C/tinywav.c:140-147 | A valid 12-byte RIFF/WAVE prefix passes the signature test, and parsing goes on with the subchunks. `AcceptedHasSignature` is the converse. |
| Wav.AcceptedHasSignature | C/tinywav.c:140-169 | Every file the reader accepts is at least 12 bytes long, starts with `RIFF`, has `WAVE` at bytes 8-11, and was parsed from a `fmt ` chunk. |
| Wav.FmtFirst | C/tinywav.c:149-169 | A `fmt ` chunk right at the scan position is read field by field, and the data search starts behind its 24 bytes. |
| Wav.FindData | C/tinywav.c:171-179 | A file without a `data` chunk is not an error. |
| Wav.ReaderSampleFormat | C/tinywav.c:184-191 | int16 is chosen exactly for 16 bits with AudioFormat 1, and 32-bit float data is read as float32. |
| Wav.FallbackWarning | C/tinywav.c:188-190 | The warning is printed exactly for combinations that are neither float32 nor PCM16, and those are treated as float32. |
| Wav.FramesInHeaderBounds | C/tinywav.c:193 | numFramesInHeader is the number of whole frames the declared data size holds. |
| Stdio.OverwriteAt | C/tinywav.c:384-388 | After a write at a position, each byte is the new data where written, the old byte elsewhere, and zero in a gap. |
| Stdio.OverwriteInside | C/tinywav.c:384-388 | A write inside the file replaces exactly the bytes it covers. |
| Stdio.OverwriteKeeps | C/tinywav.c:384-388 | A write changes the bytes it covers to its data and no other byte of the file. |
| Stdio.OverwriteAtEnd | C/tinywav.c:96-108 | A write at the end of the file appends. |
| Stdio.File.OpenForWrite | C/tinywav.c:52 | fopen with "wb" truncates the file, and the stream is at its start, open for writing. |
| Stdio.File.OpenForRead | C/tinywav.c:126 | fopen with "rb" keeps the contents, and the whole file is unread. |
| Stdio.File.SeekSet | C/tinywav.c:384 | fseek SEEK_SET moves to the offset. |
| Stdio.File.Read | C/tinywav.c:214 | fread yields the next n bytes, or as many as remain, and advances past them. |
| Stdio.File.Write | C/tinywav.c:362 | fwrite on a write stream overwrites at the position and reports every byte; on a read stream it writes nothing. |
| Stdio.File.Seek | C/tinywav.c:155 | fseek SEEK_CUR moves the position by the offset. |
| Samples.EncodeSamples | C/tinywav.c:326-329 | A block of n samples occupies n times the sample width in bytes. |
| Samples.DecodeSamples | C/tinywav.c:214-216 | The bytes read decode to one sample per whole element. |
| Samples.DecodeEncodeOne | C/tinywav.c:220 | One sample written and read back gives the same bits for float32, or the int16 conversions composed. |
| Samples.DecodeEncodeSamples | C/tinywav.c:214-220 | A written block reads back with the same length, each sample reconstructed. |
| Samples.DecodeEncodeFloat32 | C/tinywav.c:245-250 | For float32 the block reads back exactly. |
| Samples.DecodePrefix | C/tinywav.c:214 | Decoding the first k samples' bytes gives the first k samples. |
| Layout.InlinePtrs | C/tinywav.c:224-231 | In the inline layout, channel c starts at c times the frame count. |
| Layout.InlinePtrsFit | C/tinywav.c:224-231 | The inline channel regions lie inside channels times frames and do not overlap. |
| Layout.ScatterAt | C/tinywav.c:232-239 | Frame t of channel c lands at that channel's offset plus t, taken from interleaved index t * C + c. |
| Layout.ScatterUpToElsewhere | C/tinywav.c:232-239 | Positions outside every channel region keep their old value. |
| Layout.GatherUpToAt | C/tinywav.c:314-321 | Interleaved sample t * C + c is frame t of channel c. |
| Layout.GatherScatter | C/tinywav.c:232-239 | De-interleaving a block into disjoint regions and gathering it again gives the block back. |
| Layout.ScatterGather | C/tinywav.c:314-321 | Gathering the frames of disjoint regions and storing them back leaves the buffer unchanged. |
| Layout.InterleaveDeliver | C/tinywav.c:199-369 | For every channel format, a block read into a buffer is written out from it as the same block. |
| Layout.DeliverInterleave | C/tinywav.c:199-369 | For every channel format, interleaving a buffer's frames and reading them back into it restores the buffer. |
| Buffers.CopyBlock | C/tinywav.c:249-251 | The interleaved read copies the first C * frames samples and leaves the rest of the buffer. |
| Buffers.StoreStrided | C/tinywav.c:254-258 | The inline inner loop stores channel i's samples contiguously from its position and ends one channel further on. |
| Buffers.DeinterleaveInline | C/tinywav.c:253-260 | The inline read leaves the buffer as `Deliver` places the block. |
| Buffers.StoreChannelAt | C/tinywav.c:262-266 | The split inner loop stores channel i's samples from its pointer. |
| Buffers.DeinterleaveSplit | C/tinywav.c:261-268 | The split read leaves the buffer as `Deliver` places the block. |
| Buffers.InterleavedCopy | C/tinywav.c:334-340 | The interleaved write takes the first C * len samples unchanged. |
| Buffers.InlineFrame | C/tinywav.c:343-347 | One frame of the inline write is sample i of every channel region in channel order. |
| Buffers.InterleaveInline | C/tinywav.c:341-349 | The inline write produces the block `Interleave` specifies. |
| Buffers.SplitFrame | C/tinywav.c:352-356 | One frame of the split write is x[c][i] for every channel c. |
| Buffers.InterleaveSplit | C/tinywav.c:350-358 | The split write produces the block `Interleave` specifies. |
| TinyWavHandle.DataLength | C/tinywav.c:376 | The stored data length is frames times channels times width whenever that fits in 32 bits. |
| TinyWavHandle.ChunkSizeFor | C/tinywav.c:377 | ChunkSize is the data length plus 36 whenever that fits in 32 bits. |
| TinyWavHandle.Backpatch | C/tinywav.c:384-388 | Patching a written file puts ChunkSize at bytes 4-7 and Subchunk2Size at bytes 40-43, keeps its length and changes no other byte. |
| TinyWavHandle.PastData | C/tinywav.c:205 | A reader stops once the frames read cover the declared data size, and a file declaring no data reads nothing. |
| TinyWavHandle.UnsignedFrameSize | C/tinywav.c:193 | The frame-size divisor is zero exactly when NumChannels is 0, and otherwise channels times width for a positive count. |
| TinyWavHandle.FramesInHeaderAsWritten | C/tinywav.c:193 | The frame count as written is undefined (a division by zero) exactly when NumChannels is 0. |
| TinyWavHandle.FramesInHeaderAsWrittenAgrees | C/tinywav.c:193 | For a positive channel count the division as written gives the model's frame count. |
| TinyWavHandle.ZeroChannelsDivideByZero | C/tinywav.c:140-193 | A header that passes every check of `tinywav_open_read` but has NumChannels 0 reaches the division with divisor 0. |
| TinyWavHandle.TinyWav.constructor | C/tinywav.c:633 | A zero-initialised handle is closed. |
| TinyWavHandle.TinyWav.IsOpen | C/tinywav.c:394-396 | The handle is open exactly when it has a stream. |
| TinyWavHandle.TinyWav.FreadID | C/tinywav.c:140 | The identifier read, the count and the stream agree with `ReadID` on the unread bytes. |
| TinyWavHandle.TinyWav.FreadU32 | C/tinywav.c:141 | The uint32 read, the count and the stream agree with `ReadU32`. |
| TinyWavHandle.TinyWav.FreadU16 | C/tinywav.c:160-165 | The uint16 read, the count and the stream agree with `ReadU16`. |
| TinyWavHandle.TinyWav.FindChunk | C/tinywav.c:149-157 | The scan loop ends where `ScanChunks` says, with its identifier and size. |
| TinyWavHandle.TinyWav.Append | C/tinywav.c:96 | An fwrite at the end of a write stream appends its data. |
| TinyWavHandle.TinyWav.WriteRiff | C/tinywav.c:96-98 | The file grows by the RIFF bytes of the header, nine elements. |
| TinyWavHandle.TinyWav.WriteFmt | C/tinywav.c:99-106 | The file grows by the fmt bytes of the header, eleven elements. |
| TinyWavHandle.TinyWav.WriteDataHeader | C/tinywav.c:107-108 | The file grows by the data header bytes, five elements. |
| TinyWavHandle.TinyWav.WriteHeader | C/tinywav.c:96-111 | The file grows by the 44 header bytes, and the element count is the 25 that `tinywav_open_write` compares against. |
| TinyWavHandle.TinyWav.OpenWrite | C/tinywav.c:41-114 | A channel count or rate below 1 is refused with nothing changed, and a failed fopen is refused too. Otherwise the file holds exactly the writer header, the handle settings are set, and the result is 0. |
| TinyWavHandle.TinyWav.WriteF | C/tinywav.c:285-369 | Bad arguments or a closed handle return -1. Otherwise the buffer's len frames, interleaved per the channel format and encoded, are written at the position. The count returned is len, and the running frame total advances by len modulo 2^32 (0 and nothing on a read stream). |
| TinyWavHandle.TinyWav.InterleaveFrames | C/tinywav.c:296-358 | The interleaving step gives the block `Interleave` specifies for the handle's channel format. |
| TinyWavHandle.TinyWav.CloseWrite | C/tinywav.c:371-392 | The header struct gets the final ChunkSize and Subchunk2Size. The file gets the same two values at offsets 4 and 40 and is otherwise unchanged, and the handle is closed. A closed handle is left alone. |
| TinyWavHandle.TinyWav.CloseRead | C/tinywav.c:276-283 | The handle is closed afterwards. |
| TinyWavHandle.TinyWav.ReadRiff | C/tinywav.c:140-147 | The RIFF step agrees with the parse: it fails where `ParseWav` fails, and otherwise leaves the subchunk parse to do. |
| TinyWavHandle.TinyWav.ReadFmt | C/tinywav.c:149-169 | The fmt step agrees with the parse. |
| TinyWavHandle.TinyWav.ReadDataHeader | C/tinywav.c:171-179 | The data scan agrees with `FindData` and never fails. |
| TinyWavHandle.TinyWav.ReadHeader | C/tinywav.c:140-179 | The sequence of freads and fseeks leaves exactly the header and unread bytes `ParseWav` describes, with the same verdict. |
| TinyWavHandle.TinyWav.OpenRead | C/tinywav.c:116-197 | A failed fopen or a rejected header returns -1 and closes the handle. An accepted header with at least one channel returns 0. The handle then holds the parsed header, the channel count, the chosen format, the frames in the header, a zero frame total, and a stream positioned just after the data chunk header. |
| TinyWavHandle.TinyWav.AdoptHeader | C/tinywav.c:181-194 | The handle settings are taken from the parsed header, and numFramesInHeader is the declared size over the frame size. |
| TinyWavHandle.TinyWav.ReadF | C/tinywav.c:199-274 | Bad arguments or a closed handle return -1. Past the declared data it returns 0 with nothing changed. Otherwise at most len frames' worth of bytes are read, and the whole frames among them are counted and returned (never more than len). They are stored in the caller's buffer per the channel format, and the frame total advances modulo 2^32. |
| TinyWavHandle.TinyWav.ReadBlock | C/tinywav.c:213-216 | The fread step reads at most C * len samples and decodes them, giving at most len whole frames. |
| TinyWavHandle.TinyWav.DeliverFrames | C/tinywav.c:217-270 | The copy-out step leaves the buffer as `Deliver` specifies for the channel format. |
| TinyWavHandle.FramesBound | C/tinywav.c:214-216 | The frames counted from a read of at most C * len samples are at most len, and their samples were all read. |
| TinyWavHandle.WholeFrames | C/tinywav.c:326-327 | Writing C * len samples reports len frames. |
| RoundTrip.BackpatchHeader | C/tinywav.c:384-388 | Patching offsets 4 and 40 of a written file gives the header with the new ChunkSize and Subchunk2Size, followed by the same samples. |
| RoundTrip.SizesOf | C/tinywav.c:376-377 | For a data length that fits, the stored sizes are the length and the length plus 36, and the reader counts the frames written. |
| RoundTrip.FileRoundTrip | C/tinywav.c:41-392 | A file opened for writing, given `frames` frames and closed, is accepted by the reader. The reader recovers the header with the final sizes, the channel count, the sample format and the frame count, and the samples decode back to the samples written. |
| RoundTrip.Float32LayoutRoundTrip | C/tinywav.c:243-366 | A float32 block written from a buffer in any channel layout reads back bit for bit. Read into the same layout, it interleaves to the same block. |
| RoundTrip.WriteAll | C/tinywav.c:285-369 | One `tinywav_write_f` of every frame on a handle open at the end of its file appends the encoded samples and counts the frames. |
| RoundTrip.OpenAndWrite | C/tinywav.c:41-369 | After `tinywav_open_write` and one `tinywav_write_f` of every frame, the file holds the writer header followed by the encoded samples, and the handle counts the frames. |
| RoundTrip.WriteFile | C/tinywav.c:41-392 | After opening, writing every frame and closing, the file is the writer header and the samples, patched with the final sizes. |
| RoundTrip.OpenFile | C/tinywav.c:116-197 | `tinywav_open_read` on that file opens the handle with the writer's channel count and sample format, positioned at the samples. |
| RoundTrip.ReadWhole | C/tinywav.c:213-216 | A read of exactly the frames the stream holds takes all its bytes, counts all the frames and fills the whole buffer. |
| RoundTrip.ReadAll | C/tinywav.c:199-274 | One `tinywav_read_f` on a handle positioned at exactly `frames` frames of samples returns `frames` and fills a new buffer with the decoded samples. |
| RoundTrip.ReadFile | C/tinywav.c:116-274 | Opening that file and reading `frames` frames returns every frame, each sample as the encoding reconstructs it, and float32 samples bit for bit. |
| RoundTrip.WriteThenRead | C/tinywav.c:41-392 | A file written through one handle and read through another returns every frame written, float32 samples bit for bit. |
| Fir.DotShift | C/tinywav.c:415-422 | Output i of the FIR sum depends only on the last FILTER_SIZE samples up to i, so a shifted copy of that window gives the same sum. |
| Fir.Dot | C/tinywav.c:417-420 | The sum over a window of silent samples is 0. |
| Fir.Response | C/tinywav.c:417-420 | The filter response is 0 before the signal and once the last sample has left the filter. |
| Fir.UnitTap | C/tinywav.c:406 | A filter of FILTER_SIZE taps with a single unit tap. |
| Fir.DotUnitTap | C/tinywav.c:415-422 | With a single unit tap at t, the output is the input delayed by t samples. |
| Fir.CopyArray | C/tinywav.c:409-413 | The destination gets `length` source samples from the source offset at the destination offset and is otherwise unchanged; nothing happens when length is not positive. |
| Fir.ConvAt | C/tinywav.c:417-420 | Output i, cleared and accumulated tap by tap, is the FIR sum at i; no other output changes. |
| Fir.Conv32 | C/tinywav.c:415-422 | Outputs start .. start+len-1 are the FIR sums over the input at those positions, and every other output is unchanged. |
| Binaural.CRem360 | C/tinywav.c:588 | C's `% 360` keeps the dividend's sign, stays strictly inside ±360, and differs from the dividend by a multiple of 360. |
| Binaural.RoundDiv | C/tinywav.c:586 | The rounded quotient has the sign of the dividend. |
| Binaural.RoundDivNearest | C/tinywav.c:586 | The rounded quotient is a nearest integer to degrees / 30, and on a tie it is the one further from zero. |
| Binaural.SnapAngle | C/tinywav.c:586-588 | The snapped angle is a multiple of 30 strictly between -360 and 360, with the sign of `degrees`. |
| Binaural.SnapAngleSpec | C/tinywav.c:586-588 | The snapped angle is congruent modulo 360 to 30 times the rounded quotient, which is a nearest multiple of 30 to `degrees`; on a tie it is the one further from zero. |
| Binaural.SnapNegativeAngle | C/tinywav.c:586-588 | -100 degrees selects the -90 degree filter. |
| Binaural.LoadBlock | C/tinywav.c:713-716 | After the cache is prepended and the block read behind it, the buffer holds the signal from History frames before the block through its end. |
| Binaural.ProcessBlock | C/tinywav.c:710-732 | One block extends the output by the whole-signal filter response for its frames. Afterwards the cache holds the History frames before the next block. |
| Binaural.BlockCount | C/tinywav.c:644 | Each of the ceil(total / 512) blocks starts inside the signal, every block but the last is full, and the last reaches the end. |
| Binaural.BinauralCompute | C/tinywav.c:685-737 | Each output channel has the input's length, and every output frame n is the response of that channel's filter at n, over the whole input with silence before it. |
| Binaural.FirstBlockAfterSilence | C/tinywav.c:703-705 | Were the memory before a channel's buffer silent, the first block as written would give the right output. |
| Binaural.FirstBlockReadsBeforeBuffer | C/tinywav.c:703-705 | A one-sample-delay filter over a silent first block outputs the value stored just before the buffer, where the response from silence is 0. |
| Binaural.DataSizeAsWritten | C/tinywav.c:640 | data_size is the largest count of 4-byte units within Subchunk2Size. |
| Binaural.DataSizeCountsSamples | C/tinywav.c:640-644 | For a stereo float32 file of n frames, data_size is 2n while the header declares n frames. |

## Left out

- `fopen`, `fclose`, the file system and paths: a `File` object stands for an opened stream. A null `File` stands for a failed `fopen`. `perror` and `printf` output is not modelled, except that `FallbackWarning` says when the format warning is printed.
- The `tw == NULL` and `path == NULL` checks are not modelled: the handle is an object reference and the path is not modelled.
- `alloca` and the stack overflow of large blocks are not modelled.
- Floating point: samples are 32-bit patterns. The int16 conversions `x / INT16_MAX` and `(int16_t)(x * INT16_MAX)` are a pair of functions passed in (`Int16Scaling`), and the FIR filter and convolution work over `real`, with no rounding.
- TinyWavHandle.TinyWav.ReadF: `numChannels * len` and the alloca size are C `int` arithmetic that can overflow; the model computes them unbounded.
- TinyWavHandle.TinyWav.WriteF: same as ReadF, and the `(int)` cast of the frame count returned is not modelled.
- TinyWavHandle.TinyWav.ReadF: the last read can run past the declared data, into chunks after `data`, as the source does. The model reproduces this and does not promise more.
- A partial fread of a header field leaves the field unchanged; in C its bytes are indeterminate.
- The `default: return 0` branches for unknown format values cannot occur: `SampleFormat` and `ChannelFormat` have only the known values.
- The split layout: the caller's array of channel pointers is one array plus each channel's offset in it. Channel regions in different allocations are not modelled.
- TinyWavHandle.TinyWav.OpenRead: a NumChannels below 1, as an int16_t, is rejected and the handle closed. As written, a NumChannels of 0 divides by zero (see Findings). A negative one makes `numChannels * sampFmt` negative. That product becomes a large unsigned divisor of the uint32_t Subchunk2Size, so numFramesInHeader is 0 or 1 and the open returns 0 (`TinyWavHandle.FramesInHeaderAsWritten`).
- Byte order: the source freads and fwrites whole `uint16_t`, `uint32_t`, `int16_t` and `float` values, so its files are little-endian only on a little-endian host. The model always uses little-endian bytes (`LittleEndian`).
- The `_WIN32` branches (`C/tinywav.c:21`, `48`, `122`) are not modelled. There `long` is 32 bits, so the `fseek` at `C/tinywav.c:155` and `177` would seek backward over a chunk size of 2^31 or more. `Wav.Seek` and `Stdio.File.Seek` always skip forward.
- TinyWavHandle.DataLength and TinyWavHandle.ChunkSizeFor: the contract states the value only when it fits in 32 bits; the wrap itself is in the body.
- RoundTrip.FileRoundTrip: proved for files whose data length plus 36 fits in 32 bits. The same holds for RoundTrip.ReadFile and RoundTrip.WriteThenRead.
- Binaural.BlockCount: uses the exact ceiling of data_size / 512. `C/tinywav.c:644` computes `(uint32_t)ceil((float)data_size/512)`, and the float conversion rounds data_size above 2^24. For example 2^24 + 1 gives 32768 blocks, not 32769, so the last frame is not processed.
- Binaural.SnapAngle: models `round((float) degrees / 30)` exactly, that is, without float rounding. This is faithful while `degrees` is small enough for the float quotient to be exact.
- The rest of binaural_compute is not modelled: the sprintf/strcat path building, the filter file read (`fread` of 256 floats per channel), `tinywav_open_read`/`tinywav_open_write` on the named files, and the progress printf. The filters and the channel signals are parameters, and the output is returned as sequences.
- binaural_compute_no_ptrs (`C/tinywav.c:424-581`) and `main` are not part of this model.
- Binaural.BinauralCompute: models the corrected first block (see Findings): the cache starts as silence and every block is handled as the later blocks are.
- Binaural.BinauralCompute: loops over the frames of the input, not over data_size (see Findings). Its two channels share one scratch buffer each for samples and outputs, instead of two regions of one static array.
- The cache refresh of the first block, `copy_array_f(cache, samples, 0, len - 255, 255)`, reads before the buffer when the first block is shorter than 255 frames. In that case there is no later block, so the cache is never used. The model takes every cache from the extended buffer, which is what the later blocks do.
- Fir.CopyArray and Fir.Conv32 require distinct source and destination arrays, as every call in binaural_compute has them.
- The return values `binaural_compute` ignores (those of `tinywav_read_f` and `tinywav_write_f`) are not modelled there.

## Findings

| source | as written | input that shows it | evidently intended | confidence | as-written member | corrected member |
|---|---|---|---|---|---|---|
| C/tinywav.c:193 | numFramesInHeader divides Subchunk2Size by `numChannels * sampFmt` after every header check has passed; NumChannels is never checked | a well-formed 44-byte header with NumChannels = 0: the division is by zero | reject a file without channels, as `tinywav_open_write` rejects `numChannels < 1` | not executed; high | TinyWavHandle.ZeroChannelsDivideByZero | TinyWavHandle.TinyWav.OpenRead |
| C/tinywav.c:703-705 | the first block calls `conv_32` from start 0, so taps j > i read `audio[i - j]` at negative indices, up to 255 floats before the channel's buffer | a one-sample-delay filter and a silent first block: output 0 equals whatever float precedes the buffer, not 0 | treat the samples before the signal as silence, as the zero-initialised cache does for the later blocks | not executed; high | Binaural.FirstBlockReadsBeforeBuffer | Binaural.BinauralCompute |
| C/tinywav.c:640 | `data_size = Subchunk2Size / sizeof(float)` counts the samples of both channels, and the loop at 644-737 runs over that many frames | a stereo float32 file of n frames: data_size is 2n, so ceil(2n/512) blocks are read, convolved and written, the last ones past the end of the data | loop over the frames of the file, numFramesInHeader | not executed; high | Binaural.DataSizeCountsSamples | Binaural.BinauralCompute |

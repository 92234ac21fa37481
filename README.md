# tonegen-rs in Dafny

A model of the core of tonegen-rs. It covers two parts:

- A RIFF WAVE encoder. Three chunk objects (header, "fmt " chunk, data chunk) each implement a resumable `read` that fills a caller buffer and advances a private `read_cur` cursor.
- Two sample generators: the Karplus-Strong plucked string and the tiling sine-tone generator.

There are two snapshots of the encoder:

- `src/wavfile/*`, the newer one.
- `src/wavefile/*` together with the all-in-one `src/wavefile/lib.rs`, the older one.

They share one design, so one class per chunk serves both. The differences are modelled explicitly:

- The data chunk has two constructors, for the "data" and "DATA" magics.
- The format chunk has two reads, with end-of-stream guards 24 and 12.

Files:

| file | module | contents |
|---|---|---|
| `util.dfy` | `Util` | fixed-width integers, little-endian images, `append_bytes`, `zero_u8_array`, the `*_to_u8` helpers, `do_transmute!` |
| `layout.dfy` | `Layout` | byte images of the three chunks, their decoders, and the read result type |
| `header.dfy` | `Header` | `WavHeader` and `HeaderStep`, the pure specification of one read |
| `format.dfy` | `Format` | `FormatChunk` and `FormatStep` |
| `data.dfy` | `Data` | `DataChunk`, `DataStep`, `create_mono_datachunk`, `create_stereo_datachunk` |
| `wavfile.dfy` | `WavFile` | `Wav::create_new`, `create_mono_wav`, a whole-file round trip |
| `ksstring.dfy` | `KsString` | the `KarplusStrong` ring and its tick as a function on states |
| `tone.dfy` | `Tone` | `create_sine_sample`, `generate_tone_f32`, `generate_tone_u8` |

Each `read` is a method on a class over `array<byte>`. Its postcondition equates the result, the new cursor and the new buffer with a pure step function of the old cursor and the old buffer. Properties that span several calls are lemmas about the step functions: end of stream is sticky, a mono chunk arrives in one read, the first resumed data read skips two samples, and the delivered bytes decode back to the fields.

Samples are `f32` values represented by their IEEE-754 bit pattern (`F32 = u32`). `transmute` is modelled as little-endian, which is the RIFF byte order and the order of the hosts the code was written for.

The model follows the code, including where it departs from the WAVE standard or from what its own comments say:

- The Karplus-Strong ring has `ring_size + 1` cells. The head wraps at `ring_size`. A tick reads cell `ring_first + 1` without wrapping, so the extra last cell is read but never written.
- No ring size is rejected. `set_frequency` only reserves capacity, so the ring's length does not change.
- The RIFF size is data + 24 + 8. The WAVE form wants data + 36 (the file length minus 8).
- A resumed data read starts at sample `read_cur / 4`. Because the cursor counts the 8 header bytes, the first resumed read skips the two samples after the last delivered one. Later reads continue with the next sample.
- A 12-byte buffer makes the header read report 12 bytes while the buffer stays all zero.
- A format read into a buffer shorter than 24 bytes reports 0 bytes (end of stream), not an error, and resets the cursor.
- `create_stereo_datachunk` truncates to the shorter channel instead of failing. It declares 8 bytes per pushed sample, twice the payload.
- The format tag is 1 (PCM) although the samples are floats.

## Model

| member | source | states |
|---|---|---|
| Util.Appended | src/wavfile/util.rs:62-69 | bytes that fit are copied to `[offset, offset+len)`; bytes that do not fit leave the buffer unchanged; the length never changes |
| Util.AppendedOutside | src/wavfile/util.rs:64-66 | no byte outside the window `[offset, offset+len)` changes |
| Util.AppendBytes | src/wavfile/util.rs:62-69 | the array becomes `Appended` of its old contents; the return value is the length of `bytes` whether or not they were copied; the same holds for src/wavefile/lib.rs:76-83 |
| Util.ZeroBytes | src/wavfile/util.rs:72-76 | every element becomes 0 and the length is kept; the same holds for src/wavefile/lib.rs:85-89 |
| Util.U16ToBytes | src/wavfile/util.rs:49-51 | exactly output[0..2) receives the little-endian image; the rest is unchanged |
| Util.U32ToBytes | src/wavfile/util.rs:53-55 | exactly output[0..4) receives the little-endian image; the rest is unchanged |
| Util.F32ToBytes | src/wavfile/util.rs:57-59 | exactly output[0..4) receives the image of the sample's bit pattern |
| Util.DoTransmute | src/wavfile/util.rs:38-46 | the value's image is appended at the offset; the offset advances by the value's size even when nothing fits; writing a value into a buffer of exactly its size gives exactly its image |
| Util.LE16 | src/wavfile/util.rs:10-19 | two bytes, least significant first: a value under 256 is itself followed by a zero, and the second byte is zero exactly when the value is under 256 |
| Util.LE32 | src/wavfile/util.rs:10-19 | four bytes, least significant first: a value under 256 is itself followed by three zeros, and the last byte is zero exactly when the value is under 2^24 |
| Util.LE16RoundTrip | src/wavfile/util.rs:10-19 | decoding a u16's 2-byte image gives the value back |
| Util.LE16Inverse | src/wavfile/util.rs:10-19 | every 2 bytes are the image of the u16 they decode to |
| Util.LE32RoundTrip | src/wavfile/util.rs:10-19 | decoding a u32's 4-byte image gives the value back |
| Util.LE32Inverse | src/wavfile/util.rs:10-19 | every 4 bytes are the image of the u32 they decode to |
| Layout.HeaderRoundTrip | src/wavefile/wavheader.rs:54-61 | the RIFF header image decodes to its size field |
| Layout.FormatRoundTrip | src/wavefile/formatchunk.rs:84-97 | the 24-byte format image decodes to all eight fields, at offsets 0, 4, 8, 10, 12, 16, 20, 22 |
| Layout.SampleBytesAt | src/wavfile/datachunk.rs:53-60 | sample i occupies bytes [4i, 4i+4) of the payload |
| Layout.SamplesRoundTrip | src/wavfile/datachunk.rs:53-60 | the payload decodes to the samples, in order |
| Layout.HeaderImage | src/wavefile/wavheader.rs:54-61 | 12 bytes: the magic at [0, 4), the size's image at [4, 8), the form type at [8, 12) |
| Layout.FormatImage | src/wavefile/formatchunk.rs:84-97 | 24 bytes: the magic, then the seven fields' images at offsets 4, 8, 10, 12, 16, 20 and 22 |
| Layout.DataHeaderImage | src/wavfile/datachunk.rs:38-47 | 8 bytes: the magic at [0, 4), the declared payload size's image at [4, 8) |
| Layout.SampleBytes | src/wavfile/datachunk.rs:53-65 | exactly 4 bytes per sample; where each sample lands is Layout.SampleBytesAt |
| Layout.WaveRoundTrip | src/wavfile/lib.rs:41-60 | the header, format and data images laid end to end decode to the RIFF size, the format fields, the payload size and the samples |
| Header.HeaderStep | src/wavefile/wavheader.rs:43-72 | once the cursor reaches 12 a read returns 0 and changes nothing; a buffer under 12 bytes is an error that keeps cursor and buffer; otherwise the read returns 12, the cursor becomes 12 and bytes 12.. are zero; the same holds for src/wavefile/lib.rs:172-196 |
| Header.HeaderEofAfterRead | src/wavefile/wavheader.rs:45-68 | after a successful read every further read returns 0 and leaves its buffer alone |
| Header.HeaderReadDecodes | src/wavefile/wavheader.rs:49-62 | a buffer of 13 or more bytes receives "RIFF", the size and "WAVE", which decode back to the size, then zeros |
| Header.TwelveByteBufferLosesHeader | src/wavefile/wavheader.rs:50-68 | a 12-byte buffer is reported filled with 12 bytes but holds only zeros, which do not decode as a header |
| Header.ScratchCopied | src/wavefile/wavheader.rs:50-62 | copying the 13-byte scratch buffer into a zeroed buffer yields the image and zeros if all 13 bytes fit, and zeros otherwise |
| Header.WavHeader.Default | src/wavefile/wavheader.rs:32-39 | "RIFF" and "WAVE" magics, size 0, cursor 0; the same holds for src/wavefile/lib.rs:98-107 |
| Header.WavHeader.SetSize | src/wavefile/wavheader.rs:25-27 | only the size field changes; the same holds for src/wavefile/lib.rs:93-95 |
| Header.WavHeader.FillScratch | src/wavefile/wavheader.rs:50-61 | the scratch buffer holds the magic, the size's image, the form type and one spare zero |
| Header.WavHeader.Read | src/wavefile/wavheader.rs:43-72 | result, new cursor and new buffer are exactly HeaderStep of the old cursor and buffer; the same holds for src/wavefile/lib.rs:172-196 |
| Format.FormatStep | src/wavefile/formatchunk.rs:71-105 | a read never errors and returns 0 or 24; at or past the guard it returns 0 and changes nothing; otherwise the new cursor is the count; a 0 result leaves the buffer alone |
| Format.FormatGuardsAgree | src/wavefile/lib.rs:146-168 | on every cursor a read can leave (0 or 24), the older guard 12 behaves like guard 24, and reads keep the cursor in {0, 24} |
| Format.FormatReadDecodes | src/wavefile/formatchunk.rs:82-104 | a buffer of 24 or more bytes gets count 24, cursor 24, an image that decodes to the fields, and zeros after byte 24 |
| Format.FormatShortBufferLooksLikeEof | src/wavefile/formatchunk.rs:78-104 | a buffer under 24 bytes gets `Ok(0)`, the cursor reset to 0, and is left untouched |
| Format.FormatChunk.Default | src/wavefile/formatchunk.rs:56-68 | "fmt ", size 16, tag 1, one channel, 32 bits, rates and alignment 0, cursor 0; the same holds for src/wavefile/lib.rs:127-141 |
| Format.FormatChunk.SetNumberChannels | src/wavefile/formatchunk.rs:25-27 | only the channel count changes |
| Format.FormatChunk.SetSampleRate | src/wavefile/formatchunk.rs:29-31 | only the sample rate changes; the older src/wavefile/lib.rs:110-124 has the same five setters with the same one-field frames |
| Format.FormatChunk.SetByteRate | src/wavefile/formatchunk.rs:36-38 | only the byte rate changes |
| Format.FormatChunk.SetBlockAlign | src/wavefile/formatchunk.rs:43-45 | only the block alignment changes |
| Format.FormatChunk.SetBitsSample | src/wavefile/formatchunk.rs:47-49 | only the bits per sample change |
| Format.FormatChunk.WriteFields | src/wavefile/formatchunk.rs:91-97 | the seven transmutes leave the full 24-byte image in the scratch buffer, with the offset at 24 |
| Format.FormatChunk.FillScratch | src/wavefile/formatchunk.rs:84-97 | the magic loop and the transmutes build the chunk's image |
| Format.FormatChunk.ReadGuarded | src/wavefile/formatchunk.rs:75-104 | the body shared by both guards meets FormatStep |
| Format.FormatChunk.Read | src/wavefile/formatchunk.rs:71-105 | result, cursor and buffer are exactly FormatStep with guard 24 |
| Format.FormatChunk.ReadLegacy | src/wavefile/lib.rs:143-170 | result, cursor and buffer are exactly FormatStep with guard 12 |
| Data.DataStep | src/wavfile/datachunk.rs:22-74 | end of stream once the cursor reaches size + 4; an error exactly when the buffer has 8 bytes or fewer, keeping cursor and buffer; otherwise the count is a multiple of 4 below the buffer length and the cursor advances by it; the same holds for src/wavefile/datachunk.rs:14-68 and src/wavefile/lib.rs:198-236 |
| Data.DataEofSticky | src/wavfile/datachunk.rs:23-33 | end of stream returns 0, changes nothing and stays end of stream |
| Data.MonoOneShot | src/wavfile/datachunk.rs:33-69 | a mono chunk read into a buffer over 8 + 4n bytes delivers the header and all samples in order, then 0 |
| Data.ResumeSkipsTwoSamples | src/wavfile/datachunk.rs:50-68 | after a first read that delivers k samples, the next read starts at sample k + 2 |
| Data.ResumeContinues | src/wavfile/datachunk.rs:50-68 | a resumed read that delivers k samples moves the next start index on by exactly k, so no later read skips |
| Data.FirstReadWritesHeader | src/wavfile/datachunk.rs:36-47 | a first read into more than 8 bytes reports at least 8 bytes, and those 8 are the chunk header |
| Data.ResumeKeepsTail | src/wavfile/datachunk.rs:50-68 | a resumed read puts the delivered samples, in order, at the front of the buffer and leaves every byte after them as it was |
| Data.SmallBufferDropsSamples | src/wavfile/datachunk.rs:50-68 | four samples through 13-byte buffers: sample 0, then sample 3, then end of stream |
| Data.StereoOneShotOverruns | src/wavfile/datachunk.rs:23-50 | after a stereo chunk's samples are all read, the cursor is below end of stream but past the samples |
| Data.DataChunk.Default | src/wavfile/datachunk.rs:96-103 | magic "data", size 0, no samples, cursor 0; the same holds for src/wavefile/lib.rs:250-259 |
| Data.DataChunk.DefaultUpper | src/wavefile/datachunk.rs:89-96 | magic "DATA", size 0, no samples, cursor 0 |
| Data.DataChunk.PushSample | src/wavfile/datachunk.rs:79-81 | the sample is appended at the end and the length grows by one; the same holds for src/wavefile/datachunk.rs:72-74 |
| Data.DataChunk.SetSize | src/wavfile/datachunk.rs:83-85 | only the declared size changes; the same holds for src/wavefile/datachunk.rs:76-78 |
| Data.DataChunk.Len | src/wavfile/datachunk.rs:87-89 | the number of samples held |
| Data.DataChunk.WriteChunkHeader | src/wavfile/datachunk.rs:38-47 | the buffer becomes the magic, the size's image and zeros, with the offset at 8 |
| Data.DataChunk.EmitSample | src/wavfile/datachunk.rs:55-64 | a sample is appended only when a byte is left after it, and the offset advances only then |
| Data.DataChunk.CopySamples | src/wavfile/datachunk.rs:53-65 | the loop writes exactly the first min(remaining, room) samples after the start and nothing else |
| Data.DataChunk.Read | src/wavfile/datachunk.rs:22-74 | result, new cursor and new buffer are exactly DataStep of the old cursor and buffer; the same holds for src/wavefile/datachunk.rs:14-68 and src/wavefile/lib.rs:198-236 |
| Data.CreateMonoDataChunk | src/wavfile/datachunk.rs:106-119 | the samples in order, magic "data", cursor 0, size 4 bytes per sample |
| Data.CreateStereoDataChunk | src/wavfile/datachunk.rs:121-141 | left and right alternate for min(left, right) frames; the size is 8 bytes per pushed sample |
| WavFile.MonoFormat | src/wavfile/lib.rs:46-51 | "fmt ", size 16, tag 1, one channel, the given rate |
| WavFile.MonoRiffSize | src/wavfile/lib.rs:53-54 | the declared RIFF size is at least 32 |
| WavFile.MonoFormatConsistent | src/wavfile/lib.rs:47-51 | for a whole number of bytes per sample: the bits are kept, block align * 8 = channels * bits, byte rate = rate * block align |
| WavFile.MonoStreamRoundTrip | src/wavfile/lib.rs:41-60 | the bytes the three reads deliver decode to the declared size, the format and the samples; the declared size is the stream length minus 12 |
| WavFile.Wav.CreateNew | src/wavfile/lib.rs:33-35 | packages its three arguments unchanged; the same holds for src/wavefile/lib.rs:261-265 |
| WavFile.CreateMonoWav | src/wavfile/lib.rs:41-60 | fresh default header and format chunk around the unchanged data chunk; format fields MonoFormat with byte rate and alignment from the width; RIFF size MonoRiffSize |
| KsString.TickN | src/synth/ksstring.rs:81-96 | a tuned string stays tuned with the same size over any number of ticks |
| KsString.Tick | src/synth/ksstring.rs:81-96 | a tick keeps the ring's length and size, counts itself, keeps the head among the active cells and changes no cell but the head |
| KsString.Damp | src/synth/ksstring.rs:91 | amplitudes in [-0.5, 0.5] stay there, and opposite neighbours cancel to 0 |
| KsString.TickFrame | src/synth/ksstring.rs:82-95 | a tick writes only the head cell, with the damped average of it and its successor; the old head becomes ring_last; the counter grows by one; the string stays tuned |
| KsString.TickNAdvances | src/synth/ksstring.rs:92-95 | after n ticks the head has advanced n places modulo the ring size, the counter by n, and the extra last cell is unchanged |
| KsString.DampBounded | src/synth/ksstring.rs:91 | the filter maps two amplitudes in [-0.5, 0.5] into [-0.5, 0.5] |
| KsString.TickNBounded | src/synth/ksstring.rs:81-96 | amplitudes in [-0.5, 0.5] stay there over any number of ticks |
| KsString.Plucked | src/synth/ksstring.rs:59-75 | plucking keeps the ring's length |
| KsString.PluckedBounded | src/synth/ksstring.rs:59-75 | noise over the whole ring leaves every cell in [-0.5, 0.5] |
| KsString.KarplusStrong.WithFrequency | src/synth/ksstring.rs:27-47 | size + 1 zero cells, head 0, ring_last = size, ticks 0; tuned when size >= 1 |
| KsString.KarplusStrong.SetFrequency | src/synth/ksstring.rs:49-57 | only the frequency and the ring size change; the ring keeps its length and contents |
| KsString.KarplusStrong.Pluck | src/synth/ksstring.rs:59-75 | cells 0..=ring_size receive the noise, in order; head, ring_last and ticks are untouched |
| KsString.KarplusStrong.Sample | src/synth/ksstring.rs:77-79 | returns the head cell and changes nothing |
| KsString.KarplusStrong.TickSimulation | src/synth/ksstring.rs:81-96 | the new state is Tick of the old |
| KsString.KarplusStrong.GetTicks | src/synth/ksstring.rs:98-100 | returns the tick counter |
| KsString.KarplusStrong.GetRingSize | src/synth/ksstring.rs:102-104 | returns the ring size |
| Tone.Tiled | src/synth/tone.rs:37-47 | the repeated table has exactly total + 1 entries |
| Tone.TiledPeriodic | src/synth/tone.rs:37-47 | the output repeats with the table's length as period |
| Tone.TiledStartsWithCycle | src/synth/tone.rs:37-47 | a run at least one period long starts with the whole table |
| Tone.TileCycle | src/synth/tone.rs:34-47 | total + 1 outputs, output k being table entry k mod the table's length |
| Tone.CreateSineSample | src/synth/tone.rs:4-20 | exactly samples_num values, value i being sample i of the period |
| Tone.GenerateToneF32 | src/synth/tone.rs:25-50 | total + 1 values, value k being sample k mod samples_num of the period |
| Tone.GenerateToneU8 | src/synth/tone.rs:52-83 | total + 1 bytes, byte k being the scaled sample k mod samples_num |

## Left out

- Floating point is not modelled. Karplus-Strong amplitudes are `real`, without f32 rounding. The sine values of `create_sine_sample` are an opaque function `wave`. The `(s + 0.5) * 256` rounding to `u8` is an opaque function `scale`.
- The float-to-integer computations are inputs, not computed: the ring size `round(44100 / freq)`, `samples_num` and `total_samples`.
- Util.F32ToBytes: the bytes are the little-endian image of the sample's bit pattern. The bit pattern itself, IEEE-754 encoding of a real value, is not modelled.
- Host byte order: `transmute` is taken to be little-endian. A big-endian host would write the bytes reversed.
- The OS random generator used by `pluck` is not modelled. The noise is a parameter whose values lie in [-0.5, 0.5).
- The `println!` debug output inside the older data read (src/wavefile/lib.rs:220) is left out because it is I/O.
- `with_ring_size` is left out. It is private and unused, and it leaves the ring empty.
- `Vec::with_capacity` and `reserve` are left out, because they change no contents or lengths.
- The `std::io::Read` trait and `io::Result` become the `ReadResult` datatype. Its `InsufficientBuffer` value stands for the error.
- KsString.KarplusStrong.TickSimulation: `ticks` is an unbounded `nat`, so the u64 counter's overflow is not modelled.
- Data.CreateMonoDataChunk: the requires exclude the case where `len * 4` overflows u32. That case would panic in a debug build. The `as u32` truncation of the length is modelled.
- Data.CreateStereoDataChunk: the requires exclude the case where `len * 8` overflows u32, as for the mono chunk.
- WavFile.CreateMonoWav: the requires exclude the u32 overflows of the byte rate and of the RIFF size. The `as u16` truncations are modelled.
- Tone.TileCycle: the requires exclude an empty table, which would panic on `unwrap`. They also exclude `total_samples = 2^32 - 1`, where the u32 output counter would overflow.
- KsString.KarplusStrong.Pluck: the requires `ring_size < |ring|` excludes the panic of `get_mut(i).unwrap()` (src/synth/ksstring.rs:69), which happens once `set_frequency` has raised `ring_size` past the ring's last index.
- KsString.KarplusStrong.TickSimulation: the requires `ring_first + 1 < |ring|` excludes the panic of `get(next_index).unwrap()` (src/synth/ksstring.rs:86). That panic happens on the first tick of a `with_frequency` ring of size 0 (a frequency above 88200 Hz). It also happens once `set_frequency` has grown the size past `|ring| - 1`.
- Data.DataChunk.Read: the requires exclude a resume index past the end of the samples, where `split_at` panics. Data.StereoOneShotOverruns shows the reachable case.
- The energy decrease of the damped ring over one rotation is not claimed. Only the amplitude bound is proved.
- The command line and file output (src/main.rs, src/options.rs) are not part of this model.
- The generators that drive the string (pluck, then tick and sample repeatedly) are not part of this model.

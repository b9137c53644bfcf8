# Audio processor core — a Dafny model

This project models the sample-processing and serialisation core of a browser
audio processor. Four functions are modelled, each in its own module:

- `bufferToWave` (`WaveEncoder`, wave_encoder.dfy) serialises the channels of an
  audio buffer as a PCM WAV file. It writes the 44-byte RIFF/WAVE header, then
  every frame's samples, channel by channel, as 16-bit little-endian integers.
  Each sample is clamped to [-1, 1], scaled by 32768 (negative) or 32767
  (otherwise) and truncated toward zero.
- `applyBandpassFilter` (`Bandpass`, bandpass.dfy) designs windowed-sinc
  band-pass taps with a Hamming window, then convolves the channel with them.
- `applyAdaptiveFilter` (`Adaptive`, adaptive.dfy) is an LMS loop with step size
  0.0001 that uses the input itself as the desired signal.
- `applyWienerFilter` (`Wiener`, wiener.dfy) scales each sample by a gain built
  from a three-sample neighbourhood and the channel's mean square.

Samples are exact `real`s. Bytes are integers in 0..255, and PCM samples are
`int`s. The imperative parts (the `pos` cursor and `DataView` writes, the tap and
convolution loops, and the in-place weight update) are `method`s over arrays. Each
is proved to produce a specification function, and the properties are lemmas
about those functions. The Wiener filter is a `reduce` and a `map`, so it is a
function.

tmp.js holds an older copy of `bufferToWave`, `applyBandpassFilter` and
`applyWienerFilter`. Apart from an unused allocation, that code is the same as
in src/AudioProcessor.js, so one model covers both files. Some rows below cite
the copy.

## Model

| member | source | states |
|---|---|---|
| WaveEncoder.Le16 | src/AudioProcessor.js:274 | `setUint16`/`setInt16` with littleEndian: the value modulo 2^16 as two bytes, low byte first |
| WaveEncoder.Le32 | src/AudioProcessor.js:279 | `setUint32` with littleEndian: the value modulo 2^32 as four bytes, lowest first |
| WaveEncoder.Ascii | src/AudioProcessor.js:285 | `setUint8(pos++, str.charCodeAt(i))`: one byte per character, its code modulo 256 |
| WaveEncoder.Le16RoundTrip | src/AudioProcessor.js:273-276 | reading back the two bytes of a 16-bit little-endian field gives the value modulo 2^16; a value in the signed 16-bit range reads back unchanged as a two's-complement i16 |
| WaveEncoder.Le32RoundTrip | src/AudioProcessor.js:278-281 | reading back the four bytes of a 32-bit little-endian field gives the value modulo 2^32 |
| WaveEncoder.Clamp | src/AudioProcessor.js:309 | the clamped sample lies in [-1, 1]; it is the sample itself inside that range, 1 above it and -1 below it |
| WaveEncoder.TruncateToZero | src/AudioProcessor.js:310 | for x in [-2^31, 2^31) the bitwise OR with 0 truncates toward zero: the result is at most x and within 1 of it for x >= 0, and at least x and within 1 of it for x < 0 |
| WaveEncoder.Pcm16 | tmp.js:282-283 | every converted sample lies in [-32768, 32767] |
| WaveEncoder.Pcm16Saturates | src/AudioProcessor.js:309-310 | 1.0 and above become 32767, -1.0 and below become -32768, and 0 becomes 0 |
| WaveEncoder.Pcm16RoundTrip | src/AudioProcessor.js:309-310 | rescaling the written value gives back the clamped sample, moved toward zero by less than one quantisation step (1/32768 below zero, 1/32767 otherwise) |
| WaveEncoder.Pcm16Monotonic | src/AudioProcessor.js:309-310 | the conversion preserves order |
| WaveEncoder.SampleAt | src/AudioProcessor.js:309-310 | the PCM value of sample f of a channel; past the channel's end the read is `undefined`, the clamp gives NaN and the bitwise OR with 0 turns it into 0 |
| WaveEncoder.FrameBytes | src/AudioProcessor.js:308-313 | one frame of c channels takes 2c bytes |
| WaveEncoder.DataBytes | src/AudioProcessor.js:307-315 | k frames of n channels take 2kn bytes |
| WaveEncoder.TotalLength | src/AudioProcessor.js:265 | `length = len * numOfChan * 2 + 44` |
| WaveEncoder.RiffDescriptor | src/AudioProcessor.js:289-291 | ChunkID, ChunkSize and Format take 12 bytes |
| WaveEncoder.FmtChunk | src/AudioProcessor.js:292-299 | the "fmt " sub-chunk takes 24 bytes |
| WaveEncoder.DataChunkHeader | src/AudioProcessor.js:300-301 | Subchunk2ID and Subchunk2Size take 8 bytes |
| WaveEncoder.Header | src/AudioProcessor.js:289-301 | the header is exactly 44 bytes |
| WaveEncoder.WaveFile | src/AudioProcessor.js:263-318 | the bytes of the returned blob: the header for the computed length, then `len` interleaved frames |
| WaveEncoder.HeaderLayout | src/AudioProcessor.js:289-301 | the byte range of each header field holds that field's tag or little-endian value, in source order |
| WaveEncoder.WaveFileSizes | tmp.js:238-274 | the file is `len * numOfChan * 2 + 44` bytes; the u32 at offset 4 is the length less 8 and the u32 at offset 40 is the length less 44 (both modulo 2^32) |
| WaveEncoder.WaveHeaderTags | src/AudioProcessor.js:289-300 | "RIFF" at 0, "WAVE" at 8, "fmt " at 12 and "data" at 36 |
| WaveEncoder.WaveHeaderFields | src/AudioProcessor.js:292-299 | u32 16 at 16, u16 1 (PCM) at 20, u16 numOfChan at 22, u32 sampleRate at 24, u32 sampleRate·2·numOfChan at 28, u16 numOfChan·2 at 32 and u16 16 at 34 |
| WaveEncoder.SamplePlacement | src/AudioProcessor.js:307-315 | the sample of frame f, channel c is in range of the file and reads back as a two's-complement i16 at byte 44 + 2·(f·numOfChan + c); past a channel's end the sample is 0 |
| WaveEncoder.SetUint16 | src/AudioProcessor.js:273-276 | writes the value's two little-endian bytes at the cursor, keeps the bytes before it and after it, and advances the cursor by 2 |
| WaveEncoder.SetUint32 | src/AudioProcessor.js:278-281 | writes the value's four little-endian bytes at the cursor, keeps the bytes before it and after it, and advances the cursor by 4 |
| WaveEncoder.WriteString | src/AudioProcessor.js:283-287 | writes one byte per character (its code modulo 256) at the cursor, leaves every other byte alone and advances the cursor by the string's length |
| WaveEncoder.WriteRiffDescriptor | src/AudioProcessor.js:289-291 | the first 12 bytes become the RIFF descriptor and every later byte is untouched |
| WaveEncoder.WriteFmtFormat | src/AudioProcessor.js:292-295 | appends Subchunk1ID "fmt ", Subchunk1Size 16, AudioFormat 1 and NumChannels, 12 bytes, keeping the bytes before and after them |
| WaveEncoder.WriteFmtRates | src/AudioProcessor.js:296-299 | appends SampleRate, ByteRate (sampleRate·2·numOfChan), BlockAlign (numOfChan·2) and BitsPerSample 16, 12 bytes, keeping the bytes before and after them |
| WaveEncoder.WriteFmtChunk | src/AudioProcessor.js:292-299 | appends the "fmt " sub-chunk after the bytes already written and leaves the bytes after it untouched |
| WaveEncoder.WriteDataChunkHeader | src/AudioProcessor.js:300-301 | with the cursor at 40 after "data", `length - pos - 4` is the length less 44; the cursor ends at 44 and the bytes from 44 on are untouched |
| WaveEncoder.WriteHeader | src/AudioProcessor.js:289-301 | the header writes leave the cursor at 44 with the 44 header bytes before it and every byte from 44 on untouched |
| WaveEncoder.WriteFrame | src/AudioProcessor.js:308-313 | one pass of the channel loop appends the frame's samples, keeps everything before the cursor and leaves the bytes after the frame untouched |
| WaveEncoder.WriteData | src/AudioProcessor.js:307-315 | the frame loop keeps the header bytes, appends all frames, and leaves the cursor exactly at the end of the view |
| WaveEncoder.BufferToWave | src/AudioProcessor.js:263-319 | the blob holds exactly the header followed by the interleaved samples, and has the computed total length |
| Bandpass.Offset | src/AudioProcessor.js:197 | `m = i - (filterLength - 1) / 2`, a real division |
| Bandpass.BandSinc | src/AudioProcessor.js:201 | the difference of the two sines over π·m, band edges already divided by the Nyquist frequency |
| Bandpass.Hamming | src/AudioProcessor.js:202 | the Hamming factor `0.54 - 0.46 cos(2π i / (L - 1))` |
| Bandpass.Tap | src/AudioProcessor.js:197-203 | tap i: `2 (hi - lo)` where m is 0, otherwise the sinc times the Hamming factor |
| Bandpass.CentreOffset | src/AudioProcessor.js:197-198 | `m = i - (L - 1) / 2` is 0 exactly when L is odd and i = (L - 1) / 2 |
| Bandpass.EvenLengthHasNoCentre | src/AudioProcessor.js:196-199 | for even L no tap takes the centre branch |
| Bandpass.DesignedTaps | src/AudioProcessor.js:191-204 | there are exactly filterLength taps |
| Bandpass.DesignTaps | src/AudioProcessor.js:191-204 | the tap loop fills every tap with the centre value or the windowed sinc; for odd L the centre tap is 2·(end/nyquist − start/nyquist) |
| Bandpass.Term | src/AudioProcessor.js:211-212 | term j of output i: `channelData[i - j] * taps[j]` when `i - j >= 0`, otherwise nothing is added (0) |
| Bandpass.PartialSum | src/AudioProcessor.js:209-214 | the running `sum` after n inner passes: the terms `x[i - j] · taps[j]` for j < n, skipping j > i |
| Bandpass.ConvAt | src/AudioProcessor.js:208-215 | output sample i is the running sum after all filterLength inner passes |
| Bandpass.Convolve | src/AudioProcessor.js:206-216 | the output has the input's length, and output i is the sum over j < L with j <= i of x[i−j]·taps[j] |
| Bandpass.ApplyBandpassFilter | src/AudioProcessor.js:190-221 | the filtered channel is the convolution of the input with the designed taps |
| Bandpass.ConvolutionIsCausal | src/AudioProcessor.js:208-216 | output i depends only on samples 0..i |
| Bandpass.ConvolutionOfSilence | tmp.js:201-211 | an all-zero input gives an all-zero output, whatever the taps |
| Bandpass.ImpulseResponse | src/AudioProcessor.js:208-216 | a unit impulse gives taps[i] at every i < L and 0 from L on |
| Adaptive.Steps | src/AudioProcessor.js:230 | the loop runs `length - filterLength` times, and not at all when that is not positive |
| Adaptive.Dot | src/AudioProcessor.js:232 | the prediction `y`: the sum of weight j times x[j] over the weights |
| Adaptive.Adapt | src/AudioProcessor.js:235-237 | the updated weights keep the length of the weight vector, each moved by 0.0001·e·x[j] |
| Adaptive.LmsSample | src/AudioProcessor.js:230-239 | output i is the prediction of pass i where a pass ran, else the initial 0 of the Float32Array |
| Adaptive.Weights | src/AudioProcessor.js:227-237 | the weight vector keeps length filterLength after every pass |
| Adaptive.LmsOutput | src/AudioProcessor.js:226-239 | the output has the input's length |
| Adaptive.UpdateWeights | src/AudioProcessor.js:235-237 | every weight moves by 0.0001·e·x[j] |
| Adaptive.ApplyAdaptiveFilter | src/AudioProcessor.js:223-245 | the loop produces the LMS output, and every output from max(0, len − L) on stays 0 |
| Adaptive.FirstOutputIsZero | src/AudioProcessor.js:227-232 | the weights start at zero, so output 0 is 0 |
| Adaptive.LmsOfSilence | src/AudioProcessor.js:227-239 | an all-zero input leaves the weights at zero and gives an all-zero output |
| Adaptive.DotOfAdapt | src/AudioProcessor.js:231-236 | after an update with error e, the prediction on the window x grows by exactly 0.0001·e·Σ_{j<L} x[j]² |
| Wiener.Read | src/AudioProcessor.js:251-252 | `channelData[k]`: the sample where k is in range, `undefined` otherwise |
| Wiener.Or | src/AudioProcessor.js:251-252 | the logical OR fallback: a when it is defined and not 0, else b |
| Wiener.SumSquares | src/AudioProcessor.js:248 | the `reduce` of `acc + val * val` from 0 |
| Wiener.Sq | src/AudioProcessor.js:252 | a square is non-negative |
| Wiener.SumSquaresSign | src/AudioProcessor.js:248 | the sum of squares is non-negative, and it is 0 exactly when every sample is 0 |
| Wiener.NoisePower | tmp.js:221 | the noise power is non-negative, and it is 0 exactly when every sample is 0 |
| Wiener.LocalMean | src/AudioProcessor.js:251 | as written: `prev + value + next / 3`, where only the next neighbour is divided by 3 and a missing or zero neighbour counts as 0 |
| Wiener.LocalVariance | tmp.js:225 | the as-written local variance is non-negative |
| Wiener.SignalPower | tmp.js:226 | the signal power is non-negative, and it is 0 exactly when the local variance is at most the noise power |
| Wiener.Gain | tmp.js:227 | for positive noise power the gain lies in [0, 1), and it is 0 exactly when the local variance is at most the noise power |
| Wiener.WienerFilter | src/AudioProcessor.js:246-261 | the output has the input's length, except that the 0/0 gain makes every sample NaN (None) exactly when the input is non-empty and all zero |
| Wiener.WienerShrinks | tmp.js:223-229 | no output sample grows in magnitude or changes sign, and a sample whose local variance is at most the noise power becomes 0 |
| Wiener.ConstantSignalPassesThrough | src/AudioProcessor.js:251-254 | as written, [1, 1, 1] comes out as [11/20, 19/28, 7/10] |
| Wiener.WindowVariance | src/AudioProcessor.js:251-252 | the intended three-sample window variance is non-negative |
| Wiener.GuardedGain | src/AudioProcessor.js:254 | the guarded gain lies in [0, 1] and is 0 when the signal power is 0, including 0/0 |
| Wiener.CorrectedSample | src/AudioProcessor.js:251-255 | an intended output sample never exceeds its input in magnitude, and it is 0 when the window variance is at most the noise power |
| Wiener.CorrectedWienerFilter | src/AudioProcessor.js:246-261 | the intended filter keeps the length and never increases a sample's magnitude |
| Wiener.CorrectedConstantSignalSilenced | src/AudioProcessor.js:251-255 | the intended filter turns any constant signal, silence included, into silence |

## Left out

- The React component, its hooks and state, microphone capture, file upload, and Blob/URL creation are platform glue. `src/App.js` is a UI wrapper.
- `addNoiseAndFilter` (src/AudioProcessor.js:150-174) is left out. It is I/O orchestration: it fetches and decodes the recording, injects noise with `addGaussianNoise`, calls the chosen filter, and encodes the noisy and the filtered buffer with `bufferToWave`. The component's `stepSize` state (src/AudioProcessor.js:114) is never passed to the LMS filter, which hard-codes 0.0001 (src/AudioProcessor.js:228).
- `addGaussianNoise` is left out because it draws from `Math.random`.
- The unused `noisyData` allocation in the copy of `applyWienerFilter` (tmp.js:220) is left out.
- Float32 rounding is not modelled: all sample arithmetic is exact over `real`. Infinity is not modelled either.
- NaN is modelled in two places only. A read past the end of a channel in `bufferToWave` becomes NaN, and the bitwise OR with 0 writes it as 0. A silent channel makes the Wiener gain 0/0.
- `Math.sin` and `Math.cos` are uninterpreted function parameters, and `Math.PI` is its 16-digit decimal value. Nothing is claimed about the frequency response or the symmetry of the taps.
- Adaptive.ApplyAdaptiveFilter: the unused `sampleRate` argument is dropped. The LMS filter's convergence and stability are not modelled.
- Bandpass.ApplyBandpassFilter requires sampleRate > 0. At 0 the source divides by a zero Nyquist frequency and fills the taps with NaN or Infinity, and that case is not modelled.
- Bandpass.DesignTaps: the source does not reject a filterLength below 2. Length 1 yields the single centre tap and length 0 yields no taps, and the model does the same.
- WaveEncoder.BufferToWave takes the sample rate as a natural number. A fractional `buffer.sampleRate`, which `setUint32` would truncate, is not modelled.
- WaveEncoder.TruncateToZero models `x | 0` only for x in [-2^31, 2^31). Outside that range ToInt32 wraps modulo 2^32, which is not modelled; the encoder only passes values in [-32768, 32767].
- WaveEncoder.Pcm16RoundTrip: the error bound for non-negative samples is one step of the positive scale, 1/32767, not 1/32768.

## Findings

| source | as written | input that shows it | evidently intended | confidence | as-written member | corrected member |
|---|---|---|---|---|---|---|
| src/AudioProcessor.js:251-252 | only the next neighbour of `localMean` and the last square of `localVariance` are divided by 3, and the logical-OR fallback for a missing previous neighbour binds as prev OR (0 − localMean) | [1, 1, 1] (noise power 1) gives [11/20, 19/28, 7/10] instead of silence | mean and variance of the three-sample window, with missing neighbours as 0, so that a constant signal never exceeds the noise power and is silenced | high; not executed | Wiener.ConstantSignalPassesThrough | Wiener.CorrectedConstantSignalSilenced |
| src/AudioProcessor.js:248-254 | `gain = signalPower / (signalPower + noisePower)` has no guard | [0, 0] makes every gain 0/0, so every output sample is NaN | gain 0 when both powers are 0, so silence stays silence | medium; not executed | Wiener.WienerFilter | Wiener.GuardedGain |

# Alloy: compute-command argument binding and ONNX convolution padding

A Dafny model of the two pieces of logic in the Alloy GPU wrapper library
that are more than direct calls into Metal:

- **`ComputeCommand`**, the by-name argument binder. Its binding tables come
  from the compute pipeline's reflection data. They map argument names to
  slot indices, one table each for textures, samplers, buffers and
  threadgroup memory. Callers set buffers, textures and integers by name.
  An integer name ending in `Offset` sets a buffer offset. One ending in
  `MemoryLength` sets a threadgroup memory length. Before each dispatch the
  command binds every argument on the compute encoder. It stops fatally when
  a texture, sampler or buffer has no value. It skips threadgroup memory
  whose length is not positive.
- **`ONNXConvolutionPadding`**, the padding policy of ONNX `Conv` and
  `ConvTranspose` operators. It holds the output-size formulas, which are
  ONNX's formulas for dilation 1, and the offsets it gives the convolution
  kernel. It is archived under 13 keys.

Modules, one per file:

| file | module | models |
|---|---|---|
| `wrappers.dfy` | `Wrappers` | `Option` (Swift optionals) and `Outcome` (the fatal-error path) |
| `dictionary.dfy` | `Dictionary` | reading and assigning a Swift dictionary entry, where assigning `nil` removes the key |
| `reflection.dfy` | `Reflection` | `makeBindings`: the four binding tables built from the reflected arguments |
| `argument_names.dfy` | `ArgumentNames` | the `Offset` / `MemoryLength` rules of the `Int` subscript, as functions on the two integer tables |
| `encoding.dfy` | `Encoding` | the compute encoder as a trace of calls, and the calls each kind of argument produces |
| `compute_command.dfy` | `Compute` | the `ComputeCommand` class: its tables, the subscript setters, `setup`, `dispatch`, `encode(using:)` |
| `convolution_padding.dfy` | `ConvolutionPadding` | the padding policy as a value: `paddedSize` and the offset formulas, with truncating division |
| `padding_policy.dfy` | `PaddingPolicy` | `destinationImageDescriptor`, which updates the kernel and the descriptor in place |
| `padding_archive.dfy` | `PaddingArchive` | `encode(with:)` and `init?(coder:)` over a keyed archive |

Modelling choices:

- GPU objects (buffers, textures, samplers) are opaque handles.
- The encoder is an object that records the calls made on it.
- A `fatalError` in `setup` becomes `Fail(MissingArgument(kind, name))`.
- Swift runtime traps are preconditions. These are division by a zero
  stride, indexing an empty `sourceImages`, and a failed `as!` cast of the
  kernel.
- Swift dictionaries iterate in an unspecified order. `setup` therefore
  picks each next name with `:|`. The ghost `...Order` sequences it returns
  record the order it took. Its contract fixes the order of the kinds
  (textures, samplers, buffers, threadgroup memory). Within a kind it fixes
  nothing.
- Swift's `/` on `Int` rounds toward zero. `ConvolutionPadding.TruncDiv`
  models it, and it is used for both the stride division and `kernel / 2`.

Where the code behaves differently from what its interface suggests, the model follows the code:

- Setting a buffer or texture by name stores the value under that name even
  when the pipeline has no such argument. One might expect a no-op with a
  warning. See `SetBufferValue` and `SetTextureValue`.
- Setting `<t>MemoryLength` always writes the length under the full
  suffixed name. It also writes it under `t` when `t` is a threadgroup
  memory argument (`MemoryLengthAssignment`). The `Int` getter always
  reads the first write back (`MemoryLengthReadBack`). Suppose the full name
  is itself a threadgroup memory argument. Encoding then binds the length
  from the first write, when the length is positive. If in addition `t` is not an argument, the setter
  reports no match and warns, although the value takes effect
  (`SuffixedMemoryArgumentTakesEffect`).
- ONNX specifies the forward output size with floor division. The code
  truncates toward zero. Let span be the padded input less the kernel. The
  two differ whenever span is negative and not a multiple of the stride.
  When the kernel overhangs the padded input by less than one stride, the
  code gives 1 where ONNX gives 0 (`OverhangingKernelGivesOne`).
- ONNX computes both output sizes with the dilated kernel extent
  `(kernel - 1) * dilation + 1`. The code uses the kernel size as it is and
  never reads the dilations (`DilationsIgnored`). So for any dilation other
  than 1 the output size is not the ONNX one.
- Samplers are bound like the other kinds, but the code has no
  sampler setter and never writes `samplerValues`. So any sampler argument
  makes the encoding fail (`Setup`, and `Valid()`).

## Model

| member | source | states |
|---|---|---|
| `Dictionary.Put` | Sources/Alloy/Core/ComputeCommand.swift:67 | Assigning to a dictionary entry: reading the key back gives the assigned optional, where `nil` removes the key. Every other key is left as it was. |
| `Reflection.MakeBindings` | Sources/Alloy/Core/ComputeCommand.swift:192-244 | The loop over the reflected arguments builds each kind's table as the fold `KindTable` of that kind's entries. A missing reflection gives four empty tables. |
| `Reflection.KindTable` | Sources/Alloy/Core/ComputeCommand.swift:207-219 | Defines a kind's table as the in-order fold of the entries of that kind, a later entry overwriting an earlier one. It has at most as many names as there are entries. `KindTableContents` and `OtherKindIgnored` characterise it. |
| `Reflection.KindTableContents` | Sources/Alloy/Core/ComputeCommand.swift:200-243 | A name is in a kind's table exactly when some reflected entry of that kind carries it. It is then bound at the index of the last such entry. |
| `Reflection.OtherKindIgnored` | Sources/Alloy/Core/ComputeCommand.swift:207-220 | An entry of another kind, wherever it appears, leaves a kind's table unchanged. This is how kinds other than the four are skipped. |
| `ArgumentNames.AssignInt` | Sources/Alloy/Core/ComputeCommand.swift:85-111 | Defines the `Int` setter on the two tables. Offsets change only on a matched, suffixed `Offset` name. Lengths change only for a suffixed `MemoryLength` name. A match needs one of the two suffixes, and at most one table changes. The assignment lemmas below characterise it. |
| `ArgumentNames.GetInt` | Sources/Alloy/Core/ComputeCommand.swift:76-84 | Defines the `Int` getter. A value comes either from the offsets, for a name ending in `Offset` other than `Offset` itself, or from the lengths. When such a name is in the offsets, the offset wins. The result is `nil` exactly when the lengths lack the name and the offset lookup does not apply or finds nothing. Characterised by `MemoryLengthReadBack` and `OffsetReadMissesAssignment`. |
| `ArgumentNames.PostfixesExclusive` | Sources/Alloy/Core/ComputeCommand.swift:87-99 | No name ends in both `Offset` and `MemoryLength`, so at most one of the two rules can apply. |
| `ArgumentNames.OffsetAssignment` | Sources/Alloy/Core/ComputeCommand.swift:87-94 | Setting `<b>Offset` for a buffer argument `b` records the value as the offset of `b`. It leaves the lengths unchanged and matches, so no warning is given. |
| `ArgumentNames.UnknownOffsetIgnored` | Sources/Alloy/Core/ComputeCommand.swift:87-110 | Setting `<b>Offset` where `b` is not a buffer argument falls through both rules. It changes no table and warns. |
| `ArgumentNames.MemoryLengthAssignment` | Sources/Alloy/Core/ComputeCommand.swift:98-110 | Setting `<n>MemoryLength` always records the length under the full name. It also records it under `n`, and matches, exactly when `n` is a threadgroup memory argument. The offsets are never touched. |
| `ArgumentNames.BarePostfixIgnored` | Sources/Alloy/Core/ComputeCommand.swift:85-111 | A bare `Offset` or `MemoryLength` has nothing before the suffix, so neither rule treats it as suffixed. It changes nothing and warns. |
| `ArgumentNames.UnsuffixedIgnored` | Sources/Alloy/Core/ComputeCommand.swift:85-111 | A name ending in neither suffix changes no table and warns. |
| `ArgumentNames.SuffixedMemoryArgumentTakesEffect` | Sources/Alloy/Core/ComputeCommand.swift:98-110 | Setting a threadgroup memory argument whose own name ends in `MemoryLength` records the length under that name, so encoding binds it when the length is positive. The setter still reports no match and warns, because the name less the suffix is not an argument. |
| `ArgumentNames.MemoryLengthReadBack` | Sources/Alloy/Core/ComputeCommand.swift:76-108 | Reading `<n>MemoryLength` after setting it gives the value that was set. |
| `ArgumentNames.OffsetReadMissesAssignment` | Sources/Alloy/Core/ComputeCommand.swift:76-94 | Reading `<b>Offset` after a successful offset assignment gives the same result as before it. The setter keys the offset by `b`, but the getter looks up `<b>Offset`. |
| `ArgumentNames.OffsetReadAfterFreshAssignment` | Sources/Alloy/Core/ComputeCommand.swift:76-94 | On fresh tables, reading `<b>Offset` right after setting it gives `nil`. |
| `Encoding.TextureCalls` | Sources/Alloy/Core/ComputeCommand.swift:137-143 | Defines the texture calls for an iteration order: one `setTexture` per name, in that order. `TextureCallsBindEach` characterises it. |
| `Encoding.SamplerCalls` | Sources/Alloy/Core/ComputeCommand.swift:145-151 | Defines the sampler calls for an iteration order: one `setSamplerState` per name, in that order. `SamplerCallsBindEach` characterises it. |
| `Encoding.SamplerCallsBindEach` | Sources/Alloy/Core/ComputeCommand.swift:145-151 | The sampler calls bind each sampler in the iteration order, one call per argument, with its value at its reflected slot. |
| `Encoding.BufferCalls` | Sources/Alloy/Core/ComputeCommand.swift:153-161 | Defines the buffer calls for an iteration order: one `setBuffer` per name, in that order. `BufferCallsBindEach` characterises it. |
| `Encoding.ThreadgroupMemoryCalls` | Sources/Alloy/Core/ComputeCommand.swift:163-171 | Defines the threadgroup memory calls for an iteration order. Every call sets a threadgroup memory length. `ThreadgroupMemoryCallsBindPositive` and `ThreadgroupMemoryCallsPositive` characterise it. |
| `Encoding.TextureCallsBindEach` | Sources/Alloy/Core/ComputeCommand.swift:137-143 | The texture calls bind each texture in the iteration order, one call per argument, with its value at its reflected slot. |
| `Encoding.BufferCallsBindEach` | Sources/Alloy/Core/ComputeCommand.swift:153-161 | The buffer calls bind each buffer in the iteration order, one call per argument, at its reflected slot. The offset is the recorded one, or 0 when none was recorded. |
| `Encoding.ThreadgroupMemoryCallsBindPositive` | Sources/Alloy/Core/ComputeCommand.swift:163-171 | A threadgroup memory call is issued exactly for the arguments whose recorded length is positive. It carries that length and that argument's slot. A missing or non-positive length is skipped. |
| `Encoding.ThreadgroupMemoryCallsPositive` | Sources/Alloy/Core/ComputeCommand.swift:163-171 | There are at most as many threadgroup memory calls as arguments, and each carries a positive length. |
| `Compute.ComputeCommand.constructor` | Sources/Alloy/Core/ComputeCommand.swift:58-62 | The four binding tables are the ones `MakeBindings` builds from the reflection. Every value table starts empty. |
| `Compute.ComputeCommand.BufferValue` | Sources/Alloy/Core/ComputeCommand.swift:66 | The buffer getter gives a value exactly when one is stored under that exact name, and then it gives that value. |
| `Compute.ComputeCommand.TextureValue` | Sources/Alloy/Core/ComputeCommand.swift:71 | The same as `BufferValue`, for textures. |
| `Compute.ComputeCommand.IntValue` | Sources/Alloy/Core/ComputeCommand.swift:76-84 | The `Int` getter on the command's own tables. A value comes from the offsets, only for a name ending in `Offset` other than `Offset` itself, or from the lengths, and such an offset wins. The result is `nil` exactly when neither lookup applies. |
| `Compute.ComputeCommand.SetBufferValue` | Sources/Alloy/Core/ComputeCommand.swift:65-68 | Stores the buffer under exactly the given name, or removes it for `nil`, whatever the binding tables hold. Reading it back gives the new value. The frame is `bufferValues` alone. |
| `Compute.ComputeCommand.SetTextureValue` | Sources/Alloy/Core/ComputeCommand.swift:70-73 | The same as `SetBufferValue`, for textures. The frame is `textureValues` alone. |
| `Compute.ComputeCommand.SetIntValue` | Sources/Alloy/Core/ComputeCommand.swift:85-111 | The offsets and lengths become `AssignInt` of the old ones. `warned` is set exactly when no rule matched. The frame is these two tables. |
| `Compute.ComputeCommand.Setup` | Sources/Alloy/Core/ComputeCommand.swift:136-172 | Succeeds iff every texture, sampler and buffer argument has a value. Otherwise it reports the first missing one: textures are checked first, then samplers, then buffers. Any sampler argument forces a failure. On success it appends the calls for textures, samplers, buffers and threadgroup memory, in that order, each kind in an enumeration of its table. On failure it has only appended binding calls, and no dispatch. |
| `Compute.ComputeCommand.BindTextures` | Sources/Alloy/Core/ComputeCommand.swift:137-143 | Succeeds iff every texture argument has a value, and then appends `TextureCalls` for an enumeration of the texture table. Otherwise it names a texture without a value. |
| `Compute.ComputeCommand.BindSamplers` | Sources/Alloy/Core/ComputeCommand.swift:145-151 | The same as `BindTextures`, for samplers. |
| `Compute.ComputeCommand.BindBuffers` | Sources/Alloy/Core/ComputeCommand.swift:153-161 | The same as `BindTextures`, for buffers, with offsets defaulting to 0. |
| `Compute.ComputeCommand.BindThreadgroupMemory` | Sources/Alloy/Core/ComputeCommand.swift:163-171 | Never fails. Appends `ThreadgroupMemoryCalls` for an enumeration of the threadgroup memory table. |
| `Compute.ComputeCommand.DispatchThreadsInfo` | Sources/Alloy/Core/ComputeCommand.swift:174-180 | Appends one `dispatchThreadgroups` call carrying the caller's group count and group size unchanged. |
| `Compute.ComputeCommand.DispatchGridInfo` | Sources/Alloy/Core/ComputeCommand.swift:182-187 | Appends one `dispatchThreads` call carrying the caller's grid size and group size unchanged. |
| `Compute.ComputeCommand.EncodeThreadsInfo` | Sources/Alloy/Core/ComputeCommand.swift:126-129 | Runs `Setup` and then the dispatch by threadgroups. After a missing argument, the calls it has appended include no dispatch. On success the trace is the setup calls followed by the dispatch. |
| `Compute.ComputeCommand.EncodeGridInfo` | Sources/Alloy/Core/ComputeCommand.swift:131-134 | The same as `EncodeThreadsInfo`, with the dispatch by grid size. After a missing argument, no dispatch is appended. |
| `ConvolutionPadding.TruncDiv` | Sources/Alloy/ML/ONNXConvolutionPadding.swift:141-146 | Swift's `Int` division. The remainder is smaller than the divisor in magnitude and takes the dividend's sign. For a non-negative dividend and a positive divisor it agrees with Dafny's division. |
| `ConvolutionPadding.ConvolutionOutputSize` | Sources/Alloy/ML/ONNXConvolutionPadding.swift:141-146 | Take span = input + pads - kernel, with span at least 0 and a positive stride. The forward output size `out` is then the ONNX floor formula: `(out-1)*stride <= span < out*stride`, and `out >= 1`. |
| `ConvolutionPadding.TransposeOutputSize` | Sources/Alloy/ML/ONNXConvolutionPadding.swift:134-139 | The transposed output size along one axis. With a positive stride, an input of at least 1, non-negative output padding and a kernel wider than its pads, the output is at least as large as the input. |
| `ConvolutionPadding.PaddedSize` | Sources/Alloy/ML/ONNXConvolutionPadding.swift:129-149 | `paddedSize`. Take a forward policy with positive strides whose kernel fits the padded input. Each axis then has the ONNX size for dilation 1: `out >= 1` and `(out-1)*stride <= span < out*stride`. `PaddedSizeByAxis` gives the per-axis formulas, and `TransposedPolicyRestoresSize` gives the transposed case. |
| `ConvolutionPadding.ConvolutionOffset` | Sources/Alloy/ML/ONNXConvolutionPadding.swift:116-118 | The forward source offset, for a non-negative kernel size. Offset plus leading pad is the kernel's centre tap: half the kernel, rounded down. The z offset is 0. |
| `ConvolutionPadding.TransposeKernelOffset` | Sources/Alloy/ML/ONNXConvolutionPadding.swift:112-113 | The transposed kernel offsets, for a non-negative kernel size. Each equals one plus the leading pad, less half the kernel rounded up. |
| `ConvolutionPadding.PaddedSizeByAxis` | Sources/Alloy/ML/ONNXConvolutionPadding.swift:129-149 | Each output dimension uses its own formula, transposed or forward. Each formula is computed from that axis's input, pads, kernel, stride and output padding. |
| `ConvolutionPadding.AxesIndependent` | Sources/Alloy/ML/ONNXConvolutionPadding.swift:129-149 | Two policies that agree on one axis's settings give the same output size along that axis, whatever the other axis's input and settings. |
| `ConvolutionPadding.DilationsIgnored` | Sources/Alloy/ML/ONNXConvolutionPadding.swift:108-149 | Changing the dilations changes neither the output size nor any offset. |
| `ConvolutionPadding.SamePaddingKeepsSize` | Sources/Alloy/ML/ONNXConvolutionPadding.swift:141-146 | With stride 1 and pads adding up to kernel − 1, the forward output size equals the input size. |
| `ConvolutionPadding.WorkedSizes` | Sources/Alloy/ML/ONNXConvolutionPadding.swift:141-146 | Two worked cases. Kernel 3, pads 1/1, stride 1: input 8 gives 8. Kernel 3, no pads, stride 2: input 7 gives 3. |
| `ConvolutionPadding.OverhangingKernelGivesOne` | Sources/Alloy/ML/ONNXConvolutionPadding.swift:141-146 | Suppose the kernel overhangs the padded input by less than one stride. Truncation then gives output size 1, where floor division would give 0. |
| `ConvolutionPadding.TransposeRestoresSize` | Sources/Alloy/ML/ONNXConvolutionPadding.swift:134-146 | Along one axis, take the forward output size and feed it to the transposed formula. Use the same kernel, stride and pads, with output padding `span % stride`. The result is the original input. |
| `ConvolutionPadding.TransposedPolicyRestoresSize` | Sources/Alloy/ML/ONNXConvolutionPadding.swift:129-149 | The same, for a whole policy. The transposed copy of a forward policy maps the forward `paddedSize` back to the input width and height. |
| `ConvolutionPadding.OffsetsMirror` | Sources/Alloy/ML/ONNXConvolutionPadding.swift:108-120 | For non-negative kernel sizes, on each axis, the transposed kernel offset plus the forward source offset is 1 for an even kernel and 0 for an odd one, whatever the leading pad. |
| `ConvolutionPadding.CentredOddKernel` | Sources/Alloy/ML/ONNXConvolutionPadding.swift:108-120 | An odd kernel whose leading pads are half the kernel gets a zero forward offset and zero transposed kernel offsets. |
| `PaddingPolicy.DestinationImageDescriptor` | Sources/Alloy/ML/ONNXConvolutionPadding.swift:101-127 | For a transposed policy, sets offset (0,0,0) and kernel offsets `kW/2 - kW + 1 + left`, `kH/2 - kH + 1 + top`. For a forward one, sets offset `(kW/2 - left, kH/2 - top, 0)` and leaves the kernel offsets alone. Edge mode is zero in both cases. The descriptor's size becomes `paddedSize` of the first source image, and the same descriptor is returned. |
| `PaddingArchive.CodingKeysDistinct` | Sources/Alloy/ML/ONNXConvolutionPadding.swift:32-46 | The 13 coding keys are pairwise distinct. |
| `PaddingArchive.DecodeFields` | Sources/Alloy/ML/ONNXConvolutionPadding.swift:48-79 | `init?(coder:)`: reads each field from its own key through `decodeInteger`/`decodeBool`, with a missing key read as 0 or `false`. An empty archive gives the all-zero policy, and a stored transpose flag is read back. Characterised by `DecodeAfterEncode` and `DecodeReadsOnlyCodingKeys`. |
| `PaddingArchive.DecodeReadsOnlyCodingKeys` | Sources/Alloy/ML/ONNXConvolutionPadding.swift:48-71 | Two archives that agree on the 13 coding keys decode to the same policy. |
| `PaddingArchive.EncodePadding` | Sources/Alloy/ML/ONNXConvolutionPadding.swift:81-95 | Writes the 12 integer fields in order, each under its key, and the transpose flag under `isTranspose`. The rest of the archive is left as it was. |
| `PaddingArchive.DecodeAfterEncode` | Sources/Alloy/ML/ONNXConvolutionPadding.swift:48-95 | Decoding an archive that `encode(with:)` wrote gives back all 13 fields, whatever the archive held before. |
| `PaddingArchive.ArchiveRoundTrip` | Sources/Alloy/ML/ONNXConvolutionPadding.swift:48-95 | Encoding a policy into a fresh archive and decoding it gives the same policy. |

## Left out

- Pipeline creation in `ComputeCommand.init` (Sources/Alloy/Core/ComputeCommand.swift:28-56) is left out: the function lookup and its `fatalError`, the pipeline options and the pipeline state. These are Metal calls. The constructor takes the reflected arguments, or `None` for a missing reflection, as a parameter.
- The two OS-availability branches (`bindings` and `arguments` reflection) compute the same tables. They are modelled once.
- The `encode(commandBuffer:…)` wrappers (Sources/Alloy/Core/ComputeCommand.swift:114-124) are left out. They only open an encoder on a command buffer, which is a platform call.
- The printed warnings are I/O. The `Int` setter's warning is modelled as its `warned` result. The skipped-threadgroup-memory warning is not modelled.
- The thread and grid sizes are passed as autoclosures. The caller's expression is evaluated only after `setup` returns, and never when `setup` aborts. The model takes the sizes as plain values. This assumes the caller's expression has no side effects, so evaluating it earlier or not at all makes no difference.
- Swift's `Int` is 64 bits wide and traps on overflow. The model uses unbounded integers, so overflow traps in the size and offset arithmetic are not modelled.
- Swift counts string length in grapheme clusters for `count`, `hasSuffix` and `dropLast`. The model counts characters. Swift also compares `String`s by canonical equivalence, and hashes dictionary keys that way. So the binding and value tables match names that way. The model's maps compare character sequences exactly.
- `NSCoder` is modelled as a keyed archive with separate integer and boolean tables. Decoding a key stored with the other type is not modelled. `init?(coder:)` never returns `nil` in the source, so decoding always succeeds.
- `paddingMethod` (a constant `.custom`) and `supportsSecureCoding` (a constant `true`) are left out. They are framework flags with no logic.
- Sources/Alloy/Core/Extensions/Alloy/MTLContext+Device.swift is not part of this model. Every member there forwards to the Metal device.
- Package.swift is not part of this model. It is a build manifest.
- Compute.ComputeCommand.Setup: on failure, the contract says only that binding calls and no dispatch were appended. It does not say which binding calls. In the source the process aborts at that point.

/**
 * A compute command: a compute pipeline whose arguments are set by name and
 * bound on an encoder, each at the slot its reflection reports, just before
 * the dispatch.
 */
module Compute {
  import opened Wrappers
  import opened Dictionary
  import opened Reflection
  import opened ArgumentNames
  import opened Encoding

  /** A dispatch by threadgroup count. */
  datatype ThreadsInfo = ThreadsInfo(groupSize: Size, groupCount: Size)

  /** A dispatch by grid size. */
  datatype GridInfo = GridInfo(gridSize: Size, groupSize: Size)

  /** The argument whose missing value stops the encoding (a fatal error in the library). */
  datatype MissingArgument = MissingArgument(kind: ArgumentKind, name: string)

  class ComputeCommand {
    // Binding tables, fixed once the pipeline has been reflected.
    const threadgroupMemoryArguments: map<string, int>
    const samplerArguments: map<string, int>
    const textureArguments: map<string, int>
    const bufferArguments: map<string, int>

    // Values set by the caller.
    var threadgroupMemoryLengths: map<string, int>
    var bufferValues: map<string, BufferHandle>
    var bufferOffsetValues: map<string, int>
    var textureValues: map<string, TextureHandle>
    /** Samplers are not supported yet: nothing ever stores into this table. */
    var samplerValues: map<string, SamplerHandle>

    ghost predicate Valid()
      reads this
    {
      samplerValues == map[]
    }

    /** The binding tables are those `MakeBindings` builds from the pipeline's reflection; no value is set yet. */
    constructor (reflection: Option<seq<Binding>>)
      ensures Valid()
      ensures samplerArguments == KindTable(Entries(reflection), Sampler)
      ensures textureArguments == KindTable(Entries(reflection), Texture)
      ensures bufferArguments == KindTable(Entries(reflection), Buffer)
      ensures threadgroupMemoryArguments == KindTable(Entries(reflection), ThreadgroupMemory)
      ensures threadgroupMemoryLengths == map[] && bufferValues == map[] && bufferOffsetValues == map[]
      ensures textureValues == map[]
    {
      var bindings := MakeBindings(reflection);
      samplerArguments := bindings.samplers;
      textureArguments := bindings.textures;
      bufferArguments := bindings.buffers;
      threadgroupMemoryArguments := bindings.threadgroupMemory;
      threadgroupMemoryLengths := map[];
      bufferValues := map[];
      bufferOffsetValues := map[];
      textureValues := map[];
      samplerValues := map[];
    }

    /** Reading a buffer argument by name: the value stored under exactly that name, if any. */
    function BufferValue(input: string): (r: Option<BufferHandle>)
      reads this
      ensures r.Some? <==> input in bufferValues
      ensures r.Some? ==> r.value == bufferValues[input]
    {
      Lookup(bufferValues, input)
    }

    /** Reading a texture argument by name: the value stored under exactly that name, if any. */
    function TextureValue(input: string): (r: Option<TextureHandle>)
      reads this
      ensures r.Some? <==> input in textureValues
      ensures r.Some? ==> r.value == textureValues[input]
    {
      Lookup(textureValues, input)
    }

    /** The buffer offsets and threadgroup memory lengths. */
    function Ints(): IntTables
      reads this
    {
      IntTables(bufferOffsetValues, threadgroupMemoryLengths)
    }

    /**
     * Reading an `Int` argument by name: an offset stored under the full
     * `<b>Offset` name, else the threadgroup memory length stored under it.
     */
    function IntValue(input: string): (r: Option<int>)
      reads this
      ensures r.Some? ==> ((HasSuffix(input, BufferOffsetPostfix) && input != BufferOffsetPostfix
                            && input in bufferOffsetValues && r.value == bufferOffsetValues[input])
                           || (input in threadgroupMemoryLengths && r.value == threadgroupMemoryLengths[input]))
      ensures HasSuffix(input, BufferOffsetPostfix) && input != BufferOffsetPostfix && input in bufferOffsetValues ==>
        r == Some(bufferOffsetValues[input])
      ensures r.None? <==> input !in threadgroupMemoryLengths
                           && (input !in bufferOffsetValues || !HasSuffix(input, BufferOffsetPostfix) || input == BufferOffsetPostfix)
    {
      GetInt(Ints(), input)
    }

    /**
     * Setting a buffer argument by name stores the value under exactly that
     * name, whether or not the pipeline has such a buffer argument; `None`
     * removes it. No other table changes.
     */
    method SetBufferValue(input: string, newValue: Option<BufferHandle>)
      requires Valid()
      modifies this`bufferValues
      ensures Valid()
      ensures bufferValues == Put(old(bufferValues), input, newValue)
      ensures BufferValue(input) == newValue
    {
      match newValue {
        case Some(v) => bufferValues := bufferValues[input := v];
        case None => bufferValues := bufferValues - {input};
      }
    }

    /** Setting a texture argument by name, as for buffers. */
    method SetTextureValue(input: string, newValue: Option<TextureHandle>)
      requires Valid()
      modifies this`textureValues
      ensures Valid()
      ensures textureValues == Put(old(textureValues), input, newValue)
      ensures TextureValue(input) == newValue
    {
      match newValue {
        case Some(v) => textureValues := textureValues[input := v];
        case None => textureValues := textureValues - {input};
      }
    }

    /**
     * Setting an `Int` argument by name, following the `Offset` and
     * `MemoryLength` naming rules; `warned` is set when no rule matched
     * (the library prints a warning then).
     */
    method SetIntValue(input: string, newValue: Option<int>) returns (warned: bool)
      requires Valid()
      modifies this`bufferOffsetValues, this`threadgroupMemoryLengths
      ensures Valid()
      ensures Ints() == AssignInt(bufferArguments, threadgroupMemoryArguments, old(Ints()), input, newValue).tables
      ensures warned == !AssignInt(bufferArguments, threadgroupMemoryArguments, old(Ints()), input, newValue).matched
    {
      if HasSuffix(input, BufferOffsetPostfix) && |input| > |BufferOffsetPostfix| {
        var bufferName := input[..|input| - |BufferOffsetPostfix|];
        if bufferName in bufferArguments {
          bufferOffsetValues := Put(bufferOffsetValues, bufferName, newValue);
          return false;
        }
      }
      if HasSuffix(input, ThreadgroupMemoryLengthPostfix) && |input| > |ThreadgroupMemoryLengthPostfix| {
        threadgroupMemoryLengths := Put(threadgroupMemoryLengths, input, newValue);
        var threadgroupArgumentName := input[..|input| - |ThreadgroupMemoryLengthPostfix|];
        if threadgroupArgumentName in threadgroupMemoryArguments {
          threadgroupMemoryLengths := Put(threadgroupMemoryLengths, threadgroupArgumentName, newValue);
          return false;
        }
      }
      return true;
    }

    /** Every texture, sampler and buffer argument has a value. */
    ghost predicate ArgumentsSupplied()
      reads this
    {
      textureArguments.Keys <= textureValues.Keys
      && samplerArguments.Keys <= samplerValues.Keys
      && bufferArguments.Keys <= bufferValues.Keys
    }

    /**
     * `m` is the missing argument that stops the setup: textures are checked
     * first, then samplers, then buffers.
     */
    ghost predicate FirstMissing(m: MissingArgument)
      reads this
    {
      match m.kind
      case Texture => m.name in textureArguments && m.name !in textureValues
      case Sampler =>
        textureArguments.Keys <= textureValues.Keys
        && m.name in samplerArguments && m.name !in samplerValues
      case Buffer =>
        textureArguments.Keys <= textureValues.Keys && samplerArguments.Keys <= samplerValues.Keys
        && m.name in bufferArguments && m.name !in bufferValues
      case _ => false
    }

    /**
     * The four sequences are iteration orders of the four binding tables, and
     * every texture, sampler and buffer they list has a value.
     */
    ghost predicate BoundInOrder(textureOrder: seq<string>, samplerOrder: seq<string>,
                                 bufferOrder: seq<string>, memoryOrder: seq<string>)
      reads this
    {
      && Enumerates(textureOrder, textureArguments.Keys) && AllIn(textureOrder, textureArguments, textureValues)
      && Enumerates(samplerOrder, samplerArguments.Keys) && AllIn(samplerOrder, samplerArguments, samplerValues)
      && Enumerates(bufferOrder, bufferArguments.Keys) && AllIn(bufferOrder, bufferArguments, bufferValues)
      && Enumerates(memoryOrder, threadgroupMemoryArguments.Keys) && (forall n <- memoryOrder :: n in threadgroupMemoryArguments)
    }

    /**
     * The calls the setup issues when every argument has a value, for given
     * iteration orders of the four binding tables: textures, then samplers,
     * then buffers, then threadgroup memory.
     */
    ghost function SetupCalls(textureOrder: seq<string>, samplerOrder: seq<string>,
                              bufferOrder: seq<string>, memoryOrder: seq<string>): seq<EncoderCall>
      reads this
      requires BoundInOrder(textureOrder, samplerOrder, bufferOrder, memoryOrder)
    {
      TextureCalls(textureOrder, textureArguments, textureValues)
        + SamplerCalls(samplerOrder, samplerArguments, samplerValues)
        + BufferCalls(bufferOrder, bufferArguments, bufferValues, bufferOffsetValues)
        + ThreadgroupMemoryCalls(memoryOrder, threadgroupMemoryArguments, threadgroupMemoryLengths)
    }

    /**
     * Binds every argument on the encoder. It stops at the first texture,
     * sampler or buffer argument without a value; otherwise it binds each
     * texture and sampler at its slot, each buffer at its slot with its
     * offset (0 when none was set), and each threadgroup memory argument
     * whose length is positive. The tables are visited in an unspecified
     * order, returned here as the ghost `...Order` sequences.
     */
    method Setup(encoder: Encoder)
      returns (r: Outcome<MissingArgument>, ghost textureOrder: seq<string>, ghost samplerOrder: seq<string>,
               ghost bufferOrder: seq<string>, ghost memoryOrder: seq<string>)
      requires Valid()
      modifies encoder
      ensures r.Pass? <==> ArgumentsSupplied()
      ensures r.Fail? ==> FirstMissing(r.error)
      ensures samplerArguments != map[] ==> r.Fail?
      ensures r.Pass? ==>
        && BoundInOrder(textureOrder, samplerOrder, bufferOrder, memoryOrder)
        && encoder.calls == old(encoder.calls) + SetupCalls(textureOrder, samplerOrder, bufferOrder, memoryOrder)
      ensures r.Fail? ==> AppendsNoDispatch(old(encoder.calls), encoder.calls)
    {
      samplerOrder, bufferOrder, memoryOrder := [], [], [];
      ghost var start := encoder.calls;
      r, textureOrder := BindTextures(encoder);
      if r.Fail? {
        BindsNoDispatch(start, encoder.calls, TextureCalls(textureOrder, textureArguments, textureValues), [], []);
        return;
      }
      r, samplerOrder := BindSamplers(encoder);
      if r.Fail? {
        BindsNoDispatch(start, encoder.calls, TextureCalls(textureOrder, textureArguments, textureValues),
                        SamplerCalls(samplerOrder, samplerArguments, samplerValues), []);
        return;
      }
      r, bufferOrder := BindBuffers(encoder);
      if r.Fail? {
        BindsNoDispatch(start, encoder.calls, TextureCalls(textureOrder, textureArguments, textureValues),
                        SamplerCalls(samplerOrder, samplerArguments, samplerValues),
                        BufferCalls(bufferOrder, bufferArguments, bufferValues, bufferOffsetValues));
        return;
      }
      memoryOrder := BindThreadgroupMemory(encoder);
      ghost var textureCalls := TextureCalls(textureOrder, textureArguments, textureValues);
      ghost var samplerCalls := SamplerCalls(samplerOrder, samplerArguments, samplerValues);
      ghost var bufferCalls := BufferCalls(bufferOrder, bufferArguments, bufferValues, bufferOffsetValues);
      ghost var memoryCalls := ThreadgroupMemoryCalls(memoryOrder, threadgroupMemoryArguments, threadgroupMemoryLengths);
      AppendAssociative(start, textureCalls, samplerCalls, bufferCalls, memoryCalls);
    }

    /** Binds every texture argument at its slot, or stops at one without a value. */
    method BindTextures(encoder: Encoder) returns (r: Outcome<MissingArgument>, ghost order: seq<string>)
      modifies encoder
      ensures r.Pass? <==> textureArguments.Keys <= textureValues.Keys
      ensures r.Fail? ==> r.error.kind == Texture && r.error.name in textureArguments && r.error.name !in textureValues
      ensures AllIn(order, textureArguments, textureValues)
      ensures encoder.calls == old(encoder.calls) + TextureCalls(order, textureArguments, textureValues)
      ensures r.Pass? ==> Enumerates(order, textureArguments.Keys)
    {
      order := [];
      var remaining := textureArguments.Keys;
      while remaining != {}
        invariant remaining <= textureArguments.Keys
        invariant multiset(order) + multiset(remaining) == multiset(textureArguments.Keys)
        invariant AllIn(order, textureArguments, textureValues)
        invariant textureArguments.Keys - remaining <= textureValues.Keys
        invariant encoder.calls == old(encoder.calls) + TextureCalls(order, textureArguments, textureValues)
        decreases remaining
      {
        var name :| name in remaining;
        if name !in textureValues {
          return Fail(MissingArgument(Texture, name)), order;
        }
        encoder.SetTextureAt(textureValues[name], textureArguments[name]);
        Step(order, remaining, name);
        order, remaining := order + [name], remaining - {name};
      }
      r := Pass;
    }

    /** Binds every sampler argument at its slot, or stops at one without a value. */
    method BindSamplers(encoder: Encoder) returns (r: Outcome<MissingArgument>, ghost order: seq<string>)
      modifies encoder
      ensures r.Pass? <==> samplerArguments.Keys <= samplerValues.Keys
      ensures r.Fail? ==> r.error.kind == Sampler && r.error.name in samplerArguments && r.error.name !in samplerValues
      ensures AllIn(order, samplerArguments, samplerValues)
      ensures encoder.calls == old(encoder.calls) + SamplerCalls(order, samplerArguments, samplerValues)
      ensures r.Pass? ==> Enumerates(order, samplerArguments.Keys)
    {
      order := [];
      var remaining := samplerArguments.Keys;
      while remaining != {}
        invariant remaining <= samplerArguments.Keys
        invariant multiset(order) + multiset(remaining) == multiset(samplerArguments.Keys)
        invariant AllIn(order, samplerArguments, samplerValues)
        invariant samplerArguments.Keys - remaining <= samplerValues.Keys
        invariant encoder.calls == old(encoder.calls) + SamplerCalls(order, samplerArguments, samplerValues)
        decreases remaining
      {
        var name :| name in remaining;
        if name !in samplerValues {
          return Fail(MissingArgument(Sampler, name)), order;
        }
        encoder.SetSamplerStateAt(samplerValues[name], samplerArguments[name]);
        Step(order, remaining, name);
        order, remaining := order + [name], remaining - {name};
      }
      r := Pass;
    }

    /** Binds every buffer argument at its slot with its offset, or 0, or stops at one without a value. */
    method BindBuffers(encoder: Encoder) returns (r: Outcome<MissingArgument>, ghost order: seq<string>)
      modifies encoder
      ensures r.Pass? <==> bufferArguments.Keys <= bufferValues.Keys
      ensures r.Fail? ==> r.error.kind == Buffer && r.error.name in bufferArguments && r.error.name !in bufferValues
      ensures AllIn(order, bufferArguments, bufferValues)
      ensures encoder.calls == old(encoder.calls) + BufferCalls(order, bufferArguments, bufferValues, bufferOffsetValues)
      ensures r.Pass? ==> Enumerates(order, bufferArguments.Keys)
    {
      order := [];
      var remaining := bufferArguments.Keys;
      while remaining != {}
        invariant remaining <= bufferArguments.Keys
        invariant multiset(order) + multiset(remaining) == multiset(bufferArguments.Keys)
        invariant AllIn(order, bufferArguments, bufferValues)
        invariant bufferArguments.Keys - remaining <= bufferValues.Keys
        invariant encoder.calls == old(encoder.calls) + BufferCalls(order, bufferArguments, bufferValues, bufferOffsetValues)
        decreases remaining
      {
        var name :| name in remaining;
        if name !in bufferValues {
          return Fail(MissingArgument(Buffer, name)), order;
        }
        var offset := if name in bufferOffsetValues then bufferOffsetValues[name] else 0;
        encoder.SetBufferAt(bufferValues[name], offset, bufferArguments[name]);
        Step(order, remaining, name);
        order, remaining := order + [name], remaining - {name};
      }
      r := Pass;
    }

    /** Binds each threadgroup memory argument whose recorded length is positive; the others are skipped with a warning. */
    method BindThreadgroupMemory(encoder: Encoder) returns (ghost order: seq<string>)
      modifies encoder
      ensures Enumerates(order, threadgroupMemoryArguments.Keys)
      ensures forall n <- order :: n in threadgroupMemoryArguments
      ensures encoder.calls
        == old(encoder.calls) + ThreadgroupMemoryCalls(order, threadgroupMemoryArguments, threadgroupMemoryLengths)
    {
      order := [];
      var remaining := threadgroupMemoryArguments.Keys;
      while remaining != {}
        invariant remaining <= threadgroupMemoryArguments.Keys
        invariant multiset(order) + multiset(remaining) == multiset(threadgroupMemoryArguments.Keys)
        invariant forall n <- order :: n in threadgroupMemoryArguments
        invariant encoder.calls
          == old(encoder.calls) + ThreadgroupMemoryCalls(order, threadgroupMemoryArguments, threadgroupMemoryLengths)
        decreases remaining
      {
        var name :| name in remaining;
        var length := if name in threadgroupMemoryLengths then threadgroupMemoryLengths[name] else 0;
        if length > 0 {
          encoder.SetThreadgroupMemoryLengthAt(length, threadgroupMemoryArguments[name]);
        }
        Step(order, remaining, name);
        order, remaining := order + [name], remaining - {name};
      }
    }

    /** Issues the dispatch by threadgroup count, passing the caller's sizes through unchanged. */
    method DispatchThreadsInfo(encoder: Encoder, threadsInfo: ThreadsInfo)
      modifies encoder
      ensures encoder.calls == old(encoder.calls) + [DispatchThreadgroups(threadsInfo.groupCount, threadsInfo.groupSize)]
    {
      encoder.DispatchThreadgroupsOf(threadsInfo.groupCount, threadsInfo.groupSize);
    }

    /** Issues the dispatch by grid size, passing the caller's sizes through unchanged. */
    method DispatchGridInfo(encoder: Encoder, gridInfo: GridInfo)
      modifies encoder
      ensures encoder.calls == old(encoder.calls) + [DispatchThreads(gridInfo.gridSize, gridInfo.groupSize)]
    {
      encoder.DispatchThreadsOf(gridInfo.gridSize, gridInfo.groupSize);
    }

    /**
     * Binds every argument, then dispatches by threadgroup count. A missing argument
     * stops it before the dispatch: the calls it leaves include no dispatch.
     */
    method EncodeThreadsInfo(encoder: Encoder, threadsInfo: ThreadsInfo)
      returns (r: Outcome<MissingArgument>, ghost textureOrder: seq<string>, ghost samplerOrder: seq<string>,
               ghost bufferOrder: seq<string>, ghost memoryOrder: seq<string>)
      requires Valid()
      modifies encoder
      ensures r.Pass? <==> ArgumentsSupplied()
      ensures r.Fail? ==> FirstMissing(r.error)
      ensures r.Pass? ==>
        && BoundInOrder(textureOrder, samplerOrder, bufferOrder, memoryOrder)
        && encoder.calls == old(encoder.calls) + SetupCalls(textureOrder, samplerOrder, bufferOrder, memoryOrder)
                            + [DispatchThreadgroups(threadsInfo.groupCount, threadsInfo.groupSize)]
      ensures r.Fail? ==> AppendsNoDispatch(old(encoder.calls), encoder.calls)
    {
      r, textureOrder, samplerOrder, bufferOrder, memoryOrder := Setup(encoder);
      if r.Pass? {
        DispatchThreadsInfo(encoder, threadsInfo);
      }
    }

    /**
     * Binds every argument, then dispatches by grid size. A missing argument
     * stops it before the dispatch: the calls it leaves include no dispatch.
     */
    method EncodeGridInfo(encoder: Encoder, gridInfo: GridInfo)
      returns (r: Outcome<MissingArgument>, ghost textureOrder: seq<string>, ghost samplerOrder: seq<string>,
               ghost bufferOrder: seq<string>, ghost memoryOrder: seq<string>)
      requires Valid()
      modifies encoder
      ensures r.Pass? <==> ArgumentsSupplied()
      ensures r.Fail? ==> FirstMissing(r.error)
      ensures r.Pass? ==>
        && BoundInOrder(textureOrder, samplerOrder, bufferOrder, memoryOrder)
        && encoder.calls == old(encoder.calls) + SetupCalls(textureOrder, samplerOrder, bufferOrder, memoryOrder)
                            + [DispatchThreads(gridInfo.gridSize, gridInfo.groupSize)]
      ensures r.Fail? ==> AppendsNoDispatch(old(encoder.calls), encoder.calls)
    {
      r, textureOrder, samplerOrder, bufferOrder, memoryOrder := Setup(encoder);
      if r.Pass? {
        DispatchGridInfo(encoder, gridInfo);
      }
    }
  }

  /** Moving `name` from the names still to visit to the visited ones keeps the two together equal to the table's keys. */
  lemma Step(order: seq<string>, remaining: set<string>, name: string)
    requires name in remaining
    ensures multiset(order + [name]) + multiset(remaining - {name}) == multiset(order) + multiset(remaining)
  {
    assert remaining == (remaining - {name}) + {name};
  }

  /** Calls that bind textures, samplers and buffers, appended in turn, append no dispatch. */
  lemma BindsNoDispatch(before: seq<EncoderCall>, after: seq<EncoderCall>,
                        textures: seq<EncoderCall>, samplers: seq<EncoderCall>, buffers: seq<EncoderCall>)
    requires after == before + textures + samplers + buffers
    requires forall c <- textures :: c.SetTexture?
    requires forall c <- samplers :: c.SetSamplerState?
    requires forall c <- buffers :: c.SetBuffer?
    ensures AppendsNoDispatch(before, after)
  {
    AppendedBindsNoDispatch(before, textures + samplers + buffers);
    assert after == before + (textures + samplers + buffers);
  }

  lemma AppendAssociative<T>(a: seq<T>, b: seq<T>, c: seq<T>, d: seq<T>, e: seq<T>)
    ensures a + b + c + d + e == a + (b + c + d + e)
  {
  }
}

/**
 * The compute command encoder as a trace of the calls made on it, and the
 * calls a compute command issues for each kind of argument.
 */
module Encoding {
  import opened Wrappers
  import opened Dictionary

  /** GPU objects are opaque: a handle tells one object from another and nothing more. */
  datatype BufferHandle = BufferHandle(id: nat)
  datatype TextureHandle = TextureHandle(id: nat)
  datatype SamplerHandle = SamplerHandle(id: nat)

  /** A three-dimensional grid or threadgroup size. */
  datatype Size = Size(width: int, height: int, depth: int)

  /** One call made on the encoder. */
  datatype EncoderCall =
    | SetTexture(texture: TextureHandle, index: int)
    | SetSamplerState(sampler: SamplerHandle, index: int)
    | SetBuffer(buffer: BufferHandle, offset: int, index: int)
    | SetThreadgroupMemoryLength(length: int, index: int)
    | DispatchThreadgroups(groupCount: Size, threadsPerThreadgroup: Size)
    | DispatchThreads(gridSize: Size, threadsPerThreadgroup: Size)

  /** A compute command encoder: it records the calls made on it, in order. */
  class Encoder {
    var calls: seq<EncoderCall>

    constructor ()
      ensures calls == []
    {
      calls := [];
    }

    method SetTextureAt(texture: TextureHandle, index: int)
      modifies this
      ensures calls == old(calls) + [SetTexture(texture, index)]
    {
      calls := calls + [SetTexture(texture, index)];
    }

    method SetSamplerStateAt(sampler: SamplerHandle, index: int)
      modifies this
      ensures calls == old(calls) + [SetSamplerState(sampler, index)]
    {
      calls := calls + [SetSamplerState(sampler, index)];
    }

    method SetBufferAt(buffer: BufferHandle, offset: int, index: int)
      modifies this
      ensures calls == old(calls) + [SetBuffer(buffer, offset, index)]
    {
      calls := calls + [SetBuffer(buffer, offset, index)];
    }

    method SetThreadgroupMemoryLengthAt(length: int, index: int)
      modifies this
      ensures calls == old(calls) + [SetThreadgroupMemoryLength(length, index)]
    {
      calls := calls + [SetThreadgroupMemoryLength(length, index)];
    }

    method DispatchThreadgroupsOf(groupCount: Size, threadsPerThreadgroup: Size)
      modifies this
      ensures calls == old(calls) + [DispatchThreadgroups(groupCount, threadsPerThreadgroup)]
    {
      calls := calls + [DispatchThreadgroups(groupCount, threadsPerThreadgroup)];
    }

    method DispatchThreadsOf(gridSize: Size, threadsPerThreadgroup: Size)
      modifies this
      ensures calls == old(calls) + [DispatchThreads(gridSize, threadsPerThreadgroup)]
    {
      calls := calls + [DispatchThreads(gridSize, threadsPerThreadgroup)];
    }
  }

  /** `after` is `before` with calls appended to it, none of them a dispatch. */
  ghost predicate AppendsNoDispatch(before: seq<EncoderCall>, after: seq<EncoderCall>) {
    && |before| <= |after|
    && after[..|before|] == before
    && forall i :: |before| <= i < |after| ==> !after[i].DispatchThreadgroups? && !after[i].DispatchThreads?
  }

  /** Appending calls of which none is a dispatch appends no dispatch. */
  lemma AppendedBindsNoDispatch(before: seq<EncoderCall>, added: seq<EncoderCall>)
    requires forall c <- added :: !c.DispatchThreadgroups? && !c.DispatchThreads?
    ensures AppendsNoDispatch(before, before + added)
  {
    forall i | |before| <= i < |before + added|
      ensures !(before + added)[i].DispatchThreadgroups? && !(before + added)[i].DispatchThreads?
    {
      assert (before + added)[i] == added[i - |before|];
    }
    assert (before + added)[..|before|] == before;
  }

  /** `order` lists every name of `names` exactly once: one possible iteration order of a dictionary with those keys. */
  ghost predicate Enumerates(order: seq<string>, names: set<string>) {
    multiset(order) == multiset(names)
  }

  /** Every name of `order` is a key of both maps. */
  ghost predicate AllIn<V, W>(order: seq<string>, arguments: map<string, V>, values: map<string, W>) {
    forall n <- order :: n in arguments && n in values
  }

  /** The texture calls for the names of `order`, taken in that order. */
  function TextureCalls(order: seq<string>, arguments: map<string, int>, values: map<string, TextureHandle>): (r: seq<EncoderCall>)
    requires AllIn(order, arguments, values)
    ensures |r| == |order|
    ensures forall c <- r :: c.SetTexture?
  {
    if order == [] then []
    else
      var n := order[|order| - 1];
      TextureCalls(order[..|order| - 1], arguments, values) + [SetTexture(values[n], arguments[n])]
  }

  /** The sampler calls for the names of `order`, taken in that order. */
  function SamplerCalls(order: seq<string>, arguments: map<string, int>, values: map<string, SamplerHandle>): (r: seq<EncoderCall>)
    requires AllIn(order, arguments, values)
    ensures |r| == |order|
    ensures forall c <- r :: c.SetSamplerState?
  {
    if order == [] then []
    else
      var n := order[|order| - 1];
      SamplerCalls(order[..|order| - 1], arguments, values) + [SetSamplerState(values[n], arguments[n])]
  }

  /** The byte offset a buffer is bound with: the recorded one, or 0. */
  function OffsetOf(offsets: map<string, int>, name: string): int {
    Lookup(offsets, name).GetOr(0)
  }

  /** The buffer calls for the names of `order`, taken in that order. */
  function BufferCalls(order: seq<string>, arguments: map<string, int>, values: map<string, BufferHandle>,
                       offsets: map<string, int>): (r: seq<EncoderCall>)
    requires AllIn(order, arguments, values)
    ensures |r| == |order|
    ensures forall c <- r :: c.SetBuffer?
  {
    if order == [] then []
    else
      var n := order[|order| - 1];
      BufferCalls(order[..|order| - 1], arguments, values, offsets) + [SetBuffer(values[n], OffsetOf(offsets, n), arguments[n])]
  }

  /** The threadgroup memory length recorded for a name, or 0. */
  function LengthOf(lengths: map<string, int>, name: string): int {
    Lookup(lengths, name).GetOr(0)
  }

  /** The threadgroup memory calls for the names of `order`: one for each name whose length is positive. */
  function ThreadgroupMemoryCalls(order: seq<string>, arguments: map<string, int>, lengths: map<string, int>): (r: seq<EncoderCall>)
    requires forall n <- order :: n in arguments
    ensures forall c <- r :: c.SetThreadgroupMemoryLength?
  {
    if order == [] then []
    else
      var n := order[|order| - 1];
      var rest := ThreadgroupMemoryCalls(order[..|order| - 1], arguments, lengths);
      if LengthOf(lengths, n) <= 0 then rest
      else rest + [SetThreadgroupMemoryLength(LengthOf(lengths, n), arguments[n])]
  }

  /** The texture calls bind, one for one and in order, each listed texture at its slot. */
  lemma {:induction false} TextureCallsBindEach(order: seq<string>, arguments: map<string, int>,
                                                 values: map<string, TextureHandle>)
    requires AllIn(order, arguments, values)
    ensures |TextureCalls(order, arguments, values)| == |order|
    ensures forall i :: 0 <= i < |order| ==>
      TextureCalls(order, arguments, values)[i] == SetTexture(values[order[i]], arguments[order[i]])
  {
    if order != [] {
      TextureCallsBindEach(order[..|order| - 1], arguments, values);
    }
  }

  /** The sampler calls bind, one for one and in order, each listed sampler at its slot. */
  lemma {:induction false} SamplerCallsBindEach(order: seq<string>, arguments: map<string, int>,
                                                 values: map<string, SamplerHandle>)
    requires AllIn(order, arguments, values)
    ensures forall i :: 0 <= i < |order| ==>
      SamplerCalls(order, arguments, values)[i] == SetSamplerState(values[order[i]], arguments[order[i]])
  {
    if order != [] {
      SamplerCallsBindEach(order[..|order| - 1], arguments, values);
    }
  }

  /**
   * The buffer calls bind, one for one and in order, each listed buffer at
   * its slot with its recorded offset, or offset 0 when none was recorded.
   */
  lemma {:induction false} BufferCallsBindEach(order: seq<string>, arguments: map<string, int>,
                                                values: map<string, BufferHandle>, offsets: map<string, int>)
    requires AllIn(order, arguments, values)
    ensures |BufferCalls(order, arguments, values, offsets)| == |order|
    ensures forall i :: 0 <= i < |order| ==>
      BufferCalls(order, arguments, values, offsets)[i]
        == SetBuffer(values[order[i]], if order[i] in offsets then offsets[order[i]] else 0, arguments[order[i]])
  {
    if order != [] {
      BufferCallsBindEach(order[..|order| - 1], arguments, values, offsets);
    }
  }

  /**
   * A threadgroup memory call is issued exactly for the listed names whose
   * recorded length is positive, with that length at that name's slot; a
   * name with no length, or a length of 0 or less, is skipped.
   */
  lemma {:induction false} ThreadgroupMemoryCallsBindPositive(order: seq<string>, arguments: map<string, int>,
                                                               lengths: map<string, int>, c: EncoderCall)
    requires forall n <- order :: n in arguments
    ensures c in ThreadgroupMemoryCalls(order, arguments, lengths) <==>
      exists n :: n in order && n in lengths && lengths[n] > 0
               && c == SetThreadgroupMemoryLength(lengths[n], arguments[n])
  {
    if order != [] {
      var prefix := order[..|order| - 1];
      var last := order[|order| - 1];
      ThreadgroupMemoryCallsBindPositive(prefix, arguments, lengths, c);
      assert order == prefix + [last];
      assert forall n :: n in order <==> n in prefix || n == last;
    }
  }

  /** Every threadgroup memory call carries a positive length. */
  lemma {:induction false} ThreadgroupMemoryCallsPositive(order: seq<string>, arguments: map<string, int>,
                                                          lengths: map<string, int>)
    requires forall n <- order :: n in arguments
    ensures |ThreadgroupMemoryCalls(order, arguments, lengths)| <= |order|
    ensures forall c <- ThreadgroupMemoryCalls(order, arguments, lengths) ::
      c.SetThreadgroupMemoryLength? && c.length > 0
  {
    if order != [] {
      ThreadgroupMemoryCallsPositive(order[..|order| - 1], arguments, lengths);
    }
  }
}

/**
 * Archiving a padding policy: its thirteen fields are written to a keyed
 * archive under thirteen distinct keys and read back from them.
 */
module PaddingArchive {
  import opened ConvolutionPadding

  const KernelHeightKey := "kernelHeight"
  const KernelWidthKey := "kernelWidth"
  const StrideHeightKey := "strideHeight"
  const StrideWidthKey := "strideWidth"
  const DilationHeightKey := "dilationHeight"
  const DilationWidthKey := "dilationWidth"
  const PadTopKey := "padTop"
  const PadLeftKey := "padLeft"
  const PadBottomKey := "padBottom"
  const PadRightKey := "padRight"
  const OutputPaddingHeightKey := "outputPaddingHeight"
  const OutputPaddingWidthKey := "outputPaddingWidth"
  const IsTransposeKey := "isTranspose"

  /** The coding keys, in the order the fields are written. */
  const CodingKeys: seq<string> := [
    KernelHeightKey, KernelWidthKey, StrideHeightKey, StrideWidthKey, DilationHeightKey, DilationWidthKey,
    PadTopKey, PadLeftKey, PadBottomKey, PadRightKey, OutputPaddingHeightKey, OutputPaddingWidthKey,
    IsTransposeKey]

  /** The thirteen coding keys are pairwise distinct, so no field overwrites another. */
  lemma CodingKeysDistinct()
    ensures |CodingKeys| == 13
    ensures forall i, j :: 0 <= i < j < |CodingKeys| ==> CodingKeys[i] != CodingKeys[j]
  {
  }

  /** A keyed archive holding integers and booleans. */
  class KeyedArchive {
    var integers: map<string, int>
    var booleans: map<string, bool>

    constructor ()
      ensures integers == map[] && booleans == map[]
    {
      integers := map[];
      booleans := map[];
    }

    method EncodeInteger(value: int, key: string)
      modifies this`integers
      ensures integers == old(integers)[key := value]
    {
      integers := integers[key := value];
    }

    method EncodeBool(value: bool, key: string)
      modifies this`booleans
      ensures booleans == old(booleans)[key := value]
    {
      booleans := booleans[key := value];
    }
  }

  /** Swift's `decodeInteger(forKey:)`: the integer stored under `key`, or 0 when there is none. */
  function IntegerAt(integers: map<string, int>, key: string): int {
    if key in integers then integers[key] else 0
  }

  /** Swift's `decodeBool(forKey:)`: the boolean stored under `key`, or `false` when there is none. */
  function BoolAt(booleans: map<string, bool>, key: string): bool {
    if key in booleans then booleans[key] else false
  }

  /**
   * `init?(coder:)`: reading a padding policy from an archive's two tables
   * field by field, each from its own key; a missing
   * key reads as 0 or `false`, so an empty archive gives the all-zero policy.
   */
  function DecodeFields(integers: map<string, int>, booleans: map<string, bool>): (r: Padding)
    ensures integers == map[] && booleans == map[] ==>
      r == Padding(Extent(0, 0), Extent(0, 0), Extent(0, 0), Pads(0, 0, 0, 0), Extent(0, 0), false)
    ensures IsTransposeKey in booleans ==> r.isTranspose == booleans[IsTransposeKey]
  {
    Padding(
      Extent(IntegerAt(integers, KernelHeightKey), IntegerAt(integers, KernelWidthKey)),
      Extent(IntegerAt(integers, StrideHeightKey), IntegerAt(integers, StrideWidthKey)),
      Extent(IntegerAt(integers, DilationHeightKey), IntegerAt(integers, DilationWidthKey)),
      Pads(IntegerAt(integers, PadTopKey), IntegerAt(integers, PadLeftKey),
           IntegerAt(integers, PadBottomKey), IntegerAt(integers, PadRightKey)),
      Extent(IntegerAt(integers, OutputPaddingHeightKey), IntegerAt(integers, OutputPaddingWidthKey)),
      BoolAt(booleans, IsTransposeKey))
  }

  /** Decoding reads the coding keys and nothing else: archives that agree on them decode alike. */
  lemma DecodeReadsOnlyCodingKeys(integers: map<string, int>, booleans: map<string, bool>,
                                  otherIntegers: map<string, int>, otherBooleans: map<string, bool>)
    requires forall i :: 0 <= i < 12 ==> IntegerAt(integers, CodingKeys[i]) == IntegerAt(otherIntegers, CodingKeys[i])
    requires BoolAt(booleans, IsTransposeKey) == BoolAt(otherBooleans, IsTransposeKey)
    ensures DecodeFields(integers, booleans) == DecodeFields(otherIntegers, otherBooleans)
  {
    assert CodingKeys[0] == KernelHeightKey && CodingKeys[1] == KernelWidthKey;
    assert CodingKeys[2] == StrideHeightKey && CodingKeys[3] == StrideWidthKey;
    assert CodingKeys[4] == DilationHeightKey && CodingKeys[5] == DilationWidthKey;
    assert CodingKeys[6] == PadTopKey && CodingKeys[7] == PadLeftKey;
    assert CodingKeys[8] == PadBottomKey && CodingKeys[9] == PadRightKey;
    assert CodingKeys[10] == OutputPaddingHeightKey && CodingKeys[11] == OutputPaddingWidthKey;
  }

  /** The integers of an archive after the twelve integer fields of `p` were written into it, in order. */
  function WriteIntegers(integers: map<string, int>, p: Padding): map<string, int> {
    integers
      [KernelHeightKey := p.kernel.height][KernelWidthKey := p.kernel.width]
      [StrideHeightKey := p.strides.height][StrideWidthKey := p.strides.width]
      [DilationHeightKey := p.dilations.height][DilationWidthKey := p.dilations.width]
      [PadTopKey := p.pads.top][PadLeftKey := p.pads.left][PadBottomKey := p.pads.bottom][PadRightKey := p.pads.right]
      [OutputPaddingHeightKey := p.outputPadding.height][OutputPaddingWidthKey := p.outputPadding.width]
  }

  /**
   * Reading back what was written gives the policy that was written, whatever
   * the archive held before: no field's key is overwritten by another's.
   */
  lemma DecodeAfterEncode(p: Padding, integers: map<string, int>, booleans: map<string, bool>)
    ensures DecodeFields(WriteIntegers(integers, p), booleans[IsTransposeKey := p.isTranspose]) == p
  {
    CodingKeysDistinct();
  }

  /**
   * Writes the thirteen fields of `p` into `coder`, each under its own key;
   * the rest of the archive stays.
   */
  method EncodePadding(p: Padding, coder: KeyedArchive)
    modifies coder
    ensures coder.integers == WriteIntegers(old(coder.integers), p)
    ensures coder.booleans == old(coder.booleans)[IsTransposeKey := p.isTranspose]
  {
    coder.EncodeInteger(p.kernel.height, KernelHeightKey);
    coder.EncodeInteger(p.kernel.width, KernelWidthKey);
    coder.EncodeInteger(p.strides.height, StrideHeightKey);
    coder.EncodeInteger(p.strides.width, StrideWidthKey);
    coder.EncodeInteger(p.dilations.height, DilationHeightKey);
    coder.EncodeInteger(p.dilations.width, DilationWidthKey);
    coder.EncodeInteger(p.pads.top, PadTopKey);
    coder.EncodeInteger(p.pads.left, PadLeftKey);
    coder.EncodeInteger(p.pads.bottom, PadBottomKey);
    coder.EncodeInteger(p.pads.right, PadRightKey);
    coder.EncodeInteger(p.outputPadding.height, OutputPaddingHeightKey);
    coder.EncodeInteger(p.outputPadding.width, OutputPaddingWidthKey);
    coder.EncodeBool(p.isTranspose, IsTransposeKey);
  }

  /** Archiving a padding policy into a fresh archive and reading it back gives the same policy. */
  method ArchiveRoundTrip(p: Padding) returns (decoded: Padding)
    ensures decoded == p
  {
    var coder := new KeyedArchive();
    EncodePadding(p, coder);
    decoded := DecodeFields(coder.integers, coder.booleans);
    DecodeAfterEncode(p, map[], map[]);
  }
}

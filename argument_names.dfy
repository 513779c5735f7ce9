/**
 * The naming rules of a compute command's `Int` arguments. An integer set
 * under `<buffer>Offset` is the byte offset of that buffer; one set under
 * `<name>MemoryLength` is the length of threadgroup memory `<name>`.
 */
module ArgumentNames {
  import opened Wrappers
  import opened Dictionary

  const BufferOffsetPostfix: string := "Offset"
  const ThreadgroupMemoryLengthPostfix: string := "MemoryLength"

  /** Swift's `hasSuffix`. */
  predicate HasSuffix(s: string, suffix: string) {
    |suffix| <= |s| && s[|s| - |suffix|..] == suffix
  }

  /** `s` ends in `suffix` and has at least one character before it. */
  predicate IsSuffixed(s: string, suffix: string) {
    HasSuffix(s, suffix) && |s| > |suffix|
  }

  /** Swift's `dropLast(n)` on a string at least `n` characters long. */
  function DropLast(s: string, n: nat): (r: string)
    requires n <= |s|
    ensures |r| == |s| - n
    ensures r + s[|s| - n..] == s
  {
    s[..|s| - n]
  }

  /** The two integer tables a compute command keeps: buffer offsets and threadgroup memory lengths. */
  datatype IntTables = IntTables(offsets: map<string, int>, lengths: map<string, int>)

  /** The tables after an `Int` assignment, and whether the name matched a rule (`false`: the setter warns). */
  datatype IntAssignment = IntAssignment(tables: IntTables, matched: bool)

  /**
   * Assigning `newValue` to the `Int` argument `input`. A suffixed
   * `<b>Offset` whose `b` is a buffer argument sets the offset of `b`. Failing
   * that, a suffixed `<t>MemoryLength` always sets the length under its full
   * name, and also under `t` when `t` is a threadgroup memory argument.
   * Anything else changes nothing.
   */
  function AssignInt(bufferArguments: map<string, int>, threadgroupMemoryArguments: map<string, int>,
                     t: IntTables, input: string, newValue: Option<int>): (r: IntAssignment)
    ensures r.tables.offsets == t.offsets || (r.matched && IsSuffixed(input, BufferOffsetPostfix))
    ensures r.tables.lengths == t.lengths || IsSuffixed(input, ThreadgroupMemoryLengthPostfix)
    ensures r.matched ==> IsSuffixed(input, BufferOffsetPostfix) || IsSuffixed(input, ThreadgroupMemoryLengthPostfix)
    ensures r.tables.offsets == t.offsets || r.tables.lengths == t.lengths
  {
    if IsSuffixed(input, BufferOffsetPostfix)
       && DropLast(input, |BufferOffsetPostfix|) in bufferArguments then
      IntAssignment(t.(offsets := Put(t.offsets, DropLast(input, |BufferOffsetPostfix|), newValue)), true)
    else if IsSuffixed(input, ThreadgroupMemoryLengthPostfix) then
      var lengths := Put(t.lengths, input, newValue);
      var name := DropLast(input, |ThreadgroupMemoryLengthPostfix|);
      if name in threadgroupMemoryArguments then
        IntAssignment(t.(lengths := Put(lengths, name, newValue)), true)
      else
        IntAssignment(t.(lengths := lengths), false)
    else
      IntAssignment(t, false)
  }

  /**
   * Reading the `Int` argument `input`: a name ending in `Offset` (other than
   * `Offset` itself) is looked up among the offsets under its full name;
   * otherwise, or when it is not there, among the lengths.
   */
  function GetInt(t: IntTables, input: string): (r: Option<int>)
    ensures r.Some? ==> ((HasSuffix(input, BufferOffsetPostfix) && input != BufferOffsetPostfix
                          && input in t.offsets && r.value == t.offsets[input])
                         || (input in t.lengths && r.value == t.lengths[input]))
    ensures HasSuffix(input, BufferOffsetPostfix) && input != BufferOffsetPostfix && input in t.offsets ==>
      r == Some(t.offsets[input])
    ensures r.None? <==> input !in t.lengths
                         && (input !in t.offsets || !HasSuffix(input, BufferOffsetPostfix) || input == BufferOffsetPostfix)
  {
    if HasSuffix(input, BufferOffsetPostfix) && input != BufferOffsetPostfix && input in t.offsets then
      Some(t.offsets[input])
    else
      Lookup(t.lengths, input)
  }

  lemma SuffixOfConcatenation(base: string, suffix: string)
    ensures IsSuffixed(base + suffix, suffix) <==> base != []
    ensures DropLast(base + suffix, |suffix|) == base
  {
    assert (base + suffix)[|base|..] == suffix;
    assert (base + suffix)[..|base|] == base;
  }

  /** No name ends in both `Offset` and `MemoryLength`. */
  lemma PostfixesExclusive(s: string)
    ensures !(HasSuffix(s, BufferOffsetPostfix) && HasSuffix(s, ThreadgroupMemoryLengthPostfix))
  {
    if HasSuffix(s, BufferOffsetPostfix) && |s| >= |ThreadgroupMemoryLengthPostfix| {
      assert s[|s| - |BufferOffsetPostfix|..][5] == s[|s| - 1] == s[|s| - |ThreadgroupMemoryLengthPostfix|..][11];
    }
  }

  /** `<b>Offset` for a buffer argument `b` records the offset under `b` and changes nothing else. */
  lemma OffsetAssignment(bufferArguments: map<string, int>, threadgroupMemoryArguments: map<string, int>,
                         t: IntTables, b: string, v: Option<int>)
    requires b in bufferArguments && b != []
    ensures AssignInt(bufferArguments, threadgroupMemoryArguments, t, b + BufferOffsetPostfix, v)
         == IntAssignment(IntTables(Put(t.offsets, b, v), t.lengths), true)
  {
    SuffixOfConcatenation(b, BufferOffsetPostfix);
  }

  /**
   * `<b>Offset` for a name `b` that is not a buffer argument changes no table
   * and warns: it cannot end in `MemoryLength` either.
   */
  lemma UnknownOffsetIgnored(bufferArguments: map<string, int>, threadgroupMemoryArguments: map<string, int>,
                             t: IntTables, b: string, v: Option<int>)
    requires b !in bufferArguments
    ensures AssignInt(bufferArguments, threadgroupMemoryArguments, t, b + BufferOffsetPostfix, v)
         == IntAssignment(t, false)
  {
    SuffixOfConcatenation(b, BufferOffsetPostfix);
    PostfixesExclusive(b + BufferOffsetPostfix);
  }

  /**
   * `<n>MemoryLength` records the length under the full name `<n>MemoryLength`
   * in every case, and under `n` as well exactly when `n` is a threadgroup
   * memory argument; it matches (does not warn) exactly then, and never
   * touches the offsets.
   */
  lemma MemoryLengthAssignment(bufferArguments: map<string, int>, threadgroupMemoryArguments: map<string, int>,
                               t: IntTables, n: string, v: Option<int>)
    requires n != []
    ensures var r := AssignInt(bufferArguments, threadgroupMemoryArguments, t, n + ThreadgroupMemoryLengthPostfix, v);
      && r.tables.offsets == t.offsets
      && r.matched == (n in threadgroupMemoryArguments)
      && r.tables.lengths == (var full := Put(t.lengths, n + ThreadgroupMemoryLengthPostfix, v);
                              if n in threadgroupMemoryArguments then Put(full, n, v) else full)
  {
    SuffixOfConcatenation(n, ThreadgroupMemoryLengthPostfix);
    PostfixesExclusive(n + ThreadgroupMemoryLengthPostfix);
  }

  /** A bare `Offset` or `MemoryLength`, with nothing before the suffix, is not a suffixed name: it changes nothing and warns. */
  lemma BarePostfixIgnored(bufferArguments: map<string, int>, threadgroupMemoryArguments: map<string, int>,
                           t: IntTables, v: Option<int>)
    ensures AssignInt(bufferArguments, threadgroupMemoryArguments, t, BufferOffsetPostfix, v) == IntAssignment(t, false)
    ensures AssignInt(bufferArguments, threadgroupMemoryArguments, t, ThreadgroupMemoryLengthPostfix, v) == IntAssignment(t, false)
  {
    PostfixesExclusive(BufferOffsetPostfix);
    PostfixesExclusive(ThreadgroupMemoryLengthPostfix);
  }

  /** A name ending in neither suffix changes no table and warns. */
  lemma UnsuffixedIgnored(bufferArguments: map<string, int>, threadgroupMemoryArguments: map<string, int>,
                          t: IntTables, input: string, v: Option<int>)
    requires !HasSuffix(input, BufferOffsetPostfix) && !HasSuffix(input, ThreadgroupMemoryLengthPostfix)
    ensures AssignInt(bufferArguments, threadgroupMemoryArguments, t, input, v) == IntAssignment(t, false)
  {
  }

  /**
   * A threadgroup memory argument whose own name ends in `MemoryLength`:
   * assigning to that name records the length under it, so encoding binds
   * it, yet the setter reports no match (the name less the suffix is not an
   * argument) and warns.
   */
  lemma SuffixedMemoryArgumentTakesEffect(bufferArguments: map<string, int>, threadgroupMemoryArguments: map<string, int>,
                                          t: IntTables, n: string, x: int)
    requires n != [] && n + ThreadgroupMemoryLengthPostfix in threadgroupMemoryArguments
    requires n !in threadgroupMemoryArguments
    ensures var r := AssignInt(bufferArguments, threadgroupMemoryArguments, t, n + ThreadgroupMemoryLengthPostfix, Some(x));
      && !r.matched
      && n + ThreadgroupMemoryLengthPostfix in r.tables.lengths
      && r.tables.lengths[n + ThreadgroupMemoryLengthPostfix] == x
  {
    MemoryLengthAssignment(bufferArguments, threadgroupMemoryArguments, t, n, Some(x));
    assert Lookup(Put(t.lengths, n + ThreadgroupMemoryLengthPostfix, Some(x)), n + ThreadgroupMemoryLengthPostfix) == Some(x);
  }

  /** Reading `<n>MemoryLength` back after assigning it yields the value assigned. */
  lemma MemoryLengthReadBack(bufferArguments: map<string, int>, threadgroupMemoryArguments: map<string, int>,
                             t: IntTables, n: string, v: Option<int>)
    requires n != []
    ensures GetInt(AssignInt(bufferArguments, threadgroupMemoryArguments, t, n + ThreadgroupMemoryLengthPostfix, v).tables,
                   n + ThreadgroupMemoryLengthPostfix) == v
  {
    var input := n + ThreadgroupMemoryLengthPostfix;
    MemoryLengthAssignment(bufferArguments, threadgroupMemoryArguments, t, n, v);
    PostfixesExclusive(input);
    var full := Put(t.lengths, input, v);
    assert Lookup(full, input) == v;
    if n in threadgroupMemoryArguments {
      assert n != input;
      assert Lookup(Put(full, n, v), input) == Lookup(full, input) by {
        assert Put(full, n, v) - {n} == full - {n};
        assert input in Put(full, n, v) <==> input in full;
      }
    }
  }

  /**
   * Reading `<b>Offset` after a successful offset assignment does not see
   * the value: the setter stores it under `b`, the getter looks under
   * `<b>Offset`, so the read is the same as before the assignment.
   */
  lemma OffsetReadMissesAssignment(bufferArguments: map<string, int>, threadgroupMemoryArguments: map<string, int>,
                                   t: IntTables, b: string, v: Option<int>)
    requires b in bufferArguments && b != []
    ensures GetInt(AssignInt(bufferArguments, threadgroupMemoryArguments, t, b + BufferOffsetPostfix, v).tables,
                   b + BufferOffsetPostfix) == GetInt(t, b + BufferOffsetPostfix)
  {
    var input := b + BufferOffsetPostfix;
    OffsetAssignment(bufferArguments, threadgroupMemoryArguments, t, b, v);
    var offsets := Put(t.offsets, b, v);
    assert input != b;
    assert offsets - {b} == t.offsets - {b};
    assert (input in offsets <==> input in t.offsets) && (input in offsets ==> offsets[input] == t.offsets[input]) by {
      assert input in offsets <==> input in offsets - {b};
      assert input in t.offsets <==> input in t.offsets - {b};
    }
  }

  /** With fresh tables, reading `<b>Offset` after setting it yields nothing. */
  lemma OffsetReadAfterFreshAssignment(bufferArguments: map<string, int>, threadgroupMemoryArguments: map<string, int>,
                                       b: string, x: int)
    requires b in bufferArguments && b != []
    ensures GetInt(AssignInt(bufferArguments, threadgroupMemoryArguments, IntTables(map[], map[]),
                             b + BufferOffsetPostfix, Some(x)).tables, b + BufferOffsetPostfix) == None
  {
    OffsetReadMissesAssignment(bufferArguments, threadgroupMemoryArguments, IntTables(map[], map[]), b, Some(x));
  }
}

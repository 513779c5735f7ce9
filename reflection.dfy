/**
 * The binding tables of a compute command, built once from the reflection
 * data of its pipeline: one table per argument kind, mapping an argument's
 * name to the slot index it is bound at.
 */
module Reflection {
  import opened Wrappers

  /** The kind of a reflected argument; every kind the binder does not handle is `Other`. */
  datatype ArgumentKind = Sampler | Texture | Buffer | ThreadgroupMemory | Other

  /** One reflected argument: its name, its slot index and its kind. */
  datatype Binding = Binding(name: string, index: int, kind: ArgumentKind)

  /** The four binding tables, name to slot index. */
  datatype Bindings = Bindings(
    samplers: map<string, int>,
    textures: map<string, int>,
    buffers: map<string, int>,
    threadgroupMemory: map<string, int>)

  /** The reflected arguments of a pipeline; a missing reflection has none. */
  function Entries(reflection: Option<seq<Binding>>): seq<Binding> {
    reflection.GetOr([])
  }

  /**
   * The table of `kind` after storing, in order, every entry of that kind:
   * a later entry with the same name overwrites an earlier one, so the table
   * never has more names than there are entries.
   */
  function KindTable(entries: seq<Binding>, kind: ArgumentKind): (r: map<string, int>)
    ensures |r| <= |entries|
  {
    if entries == [] then map[]
    else
      var last := entries[|entries| - 1];
      var table := KindTable(entries[..|entries| - 1], kind);
      if last.kind == kind then table[last.name := last.index] else table
  }

  /** Entry `i` of `entries` declares `name` as an argument of `kind`. */
  ghost predicate Declares(entries: seq<Binding>, i: int, kind: ArgumentKind, name: string) {
    0 <= i < |entries| && entries[i].kind == kind && entries[i].name == name
  }

  /** Entry `i` is the last one that declares `name` as an argument of `kind`. */
  ghost predicate LastDeclaration(entries: seq<Binding>, i: int, kind: ArgumentKind, name: string) {
    Declares(entries, i, kind, name) &&
    forall j :: i < j < |entries| ==> !Declares(entries, j, kind, name)
  }

  /**
   * Builds the four binding tables: each entry of kind sampler, texture,
   * buffer or threadgroup memory goes into that kind's table under its name
   * at its index; entries of any other kind are skipped.
   */
  method MakeBindings(reflection: Option<seq<Binding>>) returns (b: Bindings)
    ensures b.samplers == KindTable(Entries(reflection), Sampler)
    ensures b.textures == KindTable(Entries(reflection), Texture)
    ensures b.buffers == KindTable(Entries(reflection), Buffer)
    ensures b.threadgroupMemory == KindTable(Entries(reflection), ThreadgroupMemory)
    ensures reflection.None? ==> b == Bindings(map[], map[], map[], map[])
  {
    var samplers: map<string, int> := map[];
    var textures: map<string, int> := map[];
    var buffers: map<string, int> := map[];
    var threadgroup: map<string, int> := map[];
    var entries := if reflection.Some? then reflection.value else [];
    var i := 0;
    while i < |entries|
      invariant 0 <= i <= |entries|
      invariant samplers == KindTable(entries[..i], Sampler)
      invariant textures == KindTable(entries[..i], Texture)
      invariant buffers == KindTable(entries[..i], Buffer)
      invariant threadgroup == KindTable(entries[..i], ThreadgroupMemory)
    {
      var entry := entries[i];
      assert entries[..i + 1][..i] == entries[..i];
      match entry.kind {
        case Sampler => samplers := samplers[entry.name := entry.index];
        case Texture => textures := textures[entry.name := entry.index];
        case Buffer => buffers := buffers[entry.name := entry.index];
        case ThreadgroupMemory => threadgroup := threadgroup[entry.name := entry.index];
        case Other =>
      }
      i := i + 1;
    }
    assert entries[..|entries|] == entries;
    b := Bindings(samplers, textures, buffers, threadgroup);
  }

  /**
   * A name is in the table of `kind` exactly when some reflected entry of
   * that kind carries it, and it is then bound at the index of the last
   * such entry.
   */
  lemma {:induction false} KindTableContents(entries: seq<Binding>, kind: ArgumentKind, name: string)
    ensures name in KindTable(entries, kind) <==> exists i :: Declares(entries, i, kind, name)
    ensures name in KindTable(entries, kind) ==>
      exists i :: LastDeclaration(entries, i, kind, name) && KindTable(entries, kind)[name] == entries[i].index
  {
    if entries != [] {
      var n := |entries| - 1;
      var prefix := entries[..n];
      KindTableContents(prefix, kind, name);
      if Declares(entries, n, kind, name) {
        assert LastDeclaration(entries, n, kind, name);
      } else {
        assert forall i :: Declares(prefix, i, kind, name) <==> Declares(entries, i, kind, name) && i < n;
        if name in KindTable(entries, kind) {
          var i :| LastDeclaration(prefix, i, kind, name) && KindTable(prefix, kind)[name] == prefix[i].index;
          assert LastDeclaration(entries, i, kind, name);
        }
      }
    }
  }

  /** An entry of another kind, wherever it stands among the reflected arguments, leaves the table of `kind` as it is. */
  lemma {:induction false} OtherKindIgnored(before: seq<Binding>, e: Binding, after: seq<Binding>, kind: ArgumentKind)
    requires e.kind != kind
    ensures KindTable(before + [e] + after, kind) == KindTable(before + after, kind)
  {
    if after == [] {
      assert before + [e] + after == before + [e];
      assert (before + [e])[..|before|] == before;
      assert before + after == before;
    } else {
      var n := |after| - 1;
      OtherKindIgnored(before, e, after[..n], kind);
      assert (before + [e] + after)[..|before| + 1 + n] == before + [e] + after[..n];
      assert (before + after)[..|before| + n] == before + after[..n];
    }
  }
}

/**
 * Computing a block's changes-trie root and the transaction that persists it.
 *
 * The input builder, the conversion of an input pair to a (key, value) byte
 * pair and the trie-root primitive are not part of this model: they are
 * passed in as functions, so every property below holds whatever they do.
 * The storage capability and the overlay of pending changes are opaque type
 * parameters that are only handed on to the input builder.
 */
module ChangesTrie {

  type Byte = x: int | 0 <= x < 0x100
  type Bytes = seq<Byte>

  /** A 32-byte trie root. */
  type Root = s: Bytes | |s| == 32 witness seq(32, _ => 0)

  /** One (key, value) pair of a changes trie, as it is written to the database. */
  type TrieEntry = (Bytes, Bytes)

  datatype Option<T> = None | Some(value: T)

  /** The transaction: each input pair converted to a trie entry, in the order of the input. */
  function CollectConverted<P>(pairs: seq<P>, convert: P -> TrieEntry): (tx: seq<TrieEntry>)
    ensures |tx| == |pairs|
    ensures forall i :: 0 <= i < |pairs| ==> tx[i] == convert(pairs[i])
  {
    if pairs == [] then [] else [convert(pairs[0])] + CollectConverted(pairs[1..], convert)
  }

  /**
   * The changes-trie root and transaction for a block, or None when the
   * input builder has nothing to commit.
   *
   * `prepareInput` is the input builder (optional storage, overlay), `convert`
   * turns an input pair into a trie entry and `trieRoot` is the trie-root
   * primitive.
   */
  function ComputeChangesTrieRoot<S, O, P>(
    prepareInput: (Option<S>, O) -> Option<seq<P>>,
    convert: P -> TrieEntry,
    trieRoot: seq<TrieEntry> -> Root,
    storage: Option<S>,
    changes: O): (r: Option<(Root, seq<TrieEntry>)>)
    ensures r.None? <==> prepareInput(storage, changes).None?
    ensures r.Some? ==>
              var pairs := prepareInput(storage, changes).value;
              var tx := r.value.1;
              && |tx| == |pairs|
              && (forall i :: 0 <= i < |pairs| ==> tx[i] == convert(pairs[i]))
              && r.value.0 == trieRoot(tx)
  {
    match prepareInput(storage, changes)
    case None => None
    case Some(pairs) =>
      var tx := CollectConverted(pairs, convert);
      Some((trieRoot(tx), tx))
  }

  /**
   * The result depends on the storage and the overlay only through the input
   * pairs built from them: equal input pairs give an equal root and an equal
   * transaction, and in particular equal storage and overlay do.
   */
  lemma RootDeterminedByInputPairs<S, O, P>(
    prepareInput: (Option<S>, O) -> Option<seq<P>>,
    convert: P -> TrieEntry,
    trieRoot: seq<TrieEntry> -> Root,
    storage1: Option<S>, changes1: O,
    storage2: Option<S>, changes2: O)
    requires prepareInput(storage1, changes1) == prepareInput(storage2, changes2)
    ensures ComputeChangesTrieRoot(prepareInput, convert, trieRoot, storage1, changes1)
         == ComputeChangesTrieRoot(prepareInput, convert, trieRoot, storage2, changes2)
  {
  }
}

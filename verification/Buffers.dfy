/** Buffers and the bookkeeping every engine component shares.

    A buffer is a payload (an opaque token here) together with its index info: the
    position in its stream, two flags, and the buffer it descends from.  */
module Buffers {

  type Port = string

  datatype Option<+T> = None | Some(value: T)

  /** How a stream came to be: by expanding one buffer or by an if/else split. */
  datatype InheritKind = EXPAND | CONDITION_START

  datatype Inherit =
    | NoInherit
    | Inherit(kind: InheritKind, from: IndexInfo, depth: nat)

  datatype IndexInfo = IndexInfo(index: nat, isEnd: bool, isPlaceholder: bool, inherit: Inherit)

  datatype Buffer = Buffer(info: IndexInfo, data: int)

  /** The depth of a stream that descends from `parent`. */
  function DepthBelow(parent: IndexInfo): nat {
    if parent.inherit.NoInherit? then 0 else parent.inherit.depth + 1
  }

  /** How many buffers a buffer descends from. */
  function Ancestors(info: IndexInfo): nat {
    if info.inherit.NoInherit? then 0 else 1 + Ancestors(info.inherit.from)
  }

  /** The depth a buffer and each of its ancestors carries is the number of ancestors of its parent. */
  ghost predicate DepthsRight(info: IndexInfo) {
    info.inherit.Inherit? ==> info.inherit.depth == Ancestors(info.inherit.from) && DepthsRight(info.inherit.from)
  }

  /** So the depth given to a descendant counts the ancestors of its parent in turn. */
  lemma {:induction false} DepthCountsAncestors(info: IndexInfo)
    requires DepthsRight(info)
    ensures DepthBelow(info) == Ancestors(info)
  {
    if info.inherit.Inherit? { assert Ancestors(info) == 1 + Ancestors(info.inherit.from); }
  }

  function MarkAsPlaceholder(b: Buffer): Buffer {
    b.(info := b.info.(isPlaceholder := true))
  }
}

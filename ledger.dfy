/**
 * The operation ledger of the JSON engine and the dimension projector that
 * replays it (thumbor/engines/json_engine.py).
 *
 * A record is one of the four dictionaries the engine appends to its
 * `operations` list; here it is a closed datatype instead of a tagged
 * dictionary.  The projector starts from the original size and lets every
 * crop or resize overwrite the running size, so the last size-setting
 * record decides the result and flips never matter.
 */
module Ledger {

  datatype Operation =
    | Resize(width: int, height: int)
    | Crop(left: int, top: int, right: int, bottom: int)
    | FlipVertically
    | FlipHorizontally
  {
    /** Crops and resizes set the running size; flips do not. */
    predicate SetsSize() {
      Resize? || Crop?
    }

    /** The size a crop or resize leaves behind. No validation: a crop with
        `right < left` gives a negative width, as in the source. */
    function Size(): (int, int)
      requires SetsSize()
    {
      if Crop? then (right - left, bottom - top) else (width, height)
    }
  }

  /** No record of `ops` is a crop or a resize. */
  predicate NoSizing(ops: seq<Operation>) {
    forall k :: 0 <= k < |ops| ==> !ops[k].SetsSize()
  }

  /** `ops[i]` is the last crop or resize of `ops`. */
  predicate IsLastSizing(ops: seq<Operation>, i: int) {
    0 <= i < |ops| && ops[i].SetsSize() && forall k :: i < k < |ops| ==> !ops[k].SetsSize()
  }

  /** One pass of the replay loop's body. */
  function Step(size: (int, int), op: Operation): (int, int) {
    if op.SetsSize() then op.Size() else size
  }

  /** The replay of `ops`, in insertion order, from the original `size`. */
  function Project(size: (int, int), ops: seq<Operation>): (int, int)
    decreases |ops|
  {
    if ops == [] then size else Step(Project(size, ops[..|ops| - 1]), ops[|ops| - 1])
  }

  /** Replaying two ledgers one after the other is replaying their concatenation. */
  lemma {:induction false} ProjectAppend(size: (int, int), a: seq<Operation>, b: seq<Operation>)
    ensures Project(size, a + b) == Project(Project(size, a), b)
    decreases |b|
  {
    if b != [] {
      var last := b[|b| - 1];
      assert (a + b)[..|a + b| - 1] == a + b[..|b| - 1];
      ProjectAppend(size, a, b[..|b| - 1]);
      assert Project(size, a + b) == Step(Project(size, a + b[..|b| - 1]), last);
    } else {
      assert a + b == a;
    }
  }

  /** A ledger holding no crop and no resize projects to the original size. */
  lemma {:induction false} ProjectWithoutSizing(size: (int, int), ops: seq<Operation>)
    requires NoSizing(ops)
    ensures Project(size, ops) == size
    decreases |ops|
  {
    if ops != [] {
      ProjectWithoutSizing(size, ops[..|ops| - 1]);
    }
  }

  /** Otherwise the last crop or resize in the ledger alone decides the size. */
  lemma {:induction false} ProjectIsLastSizing(size: (int, int), ops: seq<Operation>, i: nat)
    requires IsLastSizing(ops, i)
    ensures Project(size, ops) == ops[i].Size()
    decreases |ops|
  {
    if i == |ops| - 1 {
      assert Project(size, ops) == Step(Project(size, ops[..|ops| - 1]), ops[i]);
    } else {
      ProjectIsLastSizing(size, ops[..|ops| - 1], i);
    }
  }

  /** A flip inserted anywhere in the ledger leaves the projected size as it was. */
  lemma FlipIsInvisible(size: (int, int), before: seq<Operation>, flip: Operation, after: seq<Operation>)
    requires flip.FlipVertically? || flip.FlipHorizontally?
    ensures Project(size, before + [flip] + after) == Project(size, before + after)
  {
    ProjectAppend(size, before + [flip], after);
    ProjectAppend(size, before, [flip]);
    assert Project(size, [flip]) == size;
    ProjectAppend(size, before, after);
  }

  /** The ledger with its flip records removed, order kept. */
  function WithoutFlips(ops: seq<Operation>): (r: seq<Operation>)
    ensures |r| <= |ops|
    ensures forall k :: 0 <= k < |r| ==> r[k].SetsSize() && r[k] in ops
    ensures forall k :: 0 <= k < |ops| && ops[k].SetsSize() ==> ops[k] in r
    decreases |ops|
  {
    if ops == [] then []
    else if ops[|ops| - 1].SetsSize() then WithoutFlips(ops[..|ops| - 1]) + [ops[|ops| - 1]]
    else WithoutFlips(ops[..|ops| - 1])
  }

  /** Removing flips works record by record, so the size-setting records keep
      their order. */
  lemma {:induction false} WithoutFlipsAppend(a: seq<Operation>, b: seq<Operation>)
    ensures WithoutFlips(a + b) == WithoutFlips(a) + WithoutFlips(b)
    decreases |b|
  {
    if b == [] {
      assert a + b == a;
    } else {
      var front := b[..|b| - 1];
      assert (a + b)[..|a + b| - 1] == a + front;
      assert (a + b)[|a + b| - 1] == b[|b| - 1];
      WithoutFlipsAppend(a, front);
    }
  }

  /** Flips anywhere in the ledger do not affect the projected size. */
  lemma {:induction false} ProjectIgnoresFlips(size: (int, int), ops: seq<Operation>)
    ensures Project(size, ops) == Project(size, WithoutFlips(ops))
    decreases |ops|
  {
    if ops != [] {
      var front, last := ops[..|ops| - 1], ops[|ops| - 1];
      ProjectIgnoresFlips(size, front);
      if last.SetsSize() {
        var kept := WithoutFlips(front) + [last];
        assert kept[..|kept| - 1] == WithoutFlips(front);
      }
    }
  }

  /** From 800x600, a crop to 400x600 then a resize to 200x300 gives 200x300. */
  lemma CropThenResizeExample()
    ensures Project((800, 600), [Crop(0, 0, 400, 600), Resize(200, 300)]) == (200, 300)
  {
  }

  /** From 100x100, a lone horizontal flip keeps 100x100. */
  lemma FlipOnlyExample()
    ensures Project((100, 100), [FlipHorizontally]) == (100, 100)
  {
  }
}

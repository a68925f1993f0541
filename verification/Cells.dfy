/** Nodes linked by a pointer to the next one, and the sequence of them that a list stands for. */
module Cells {

  class Cell<T> {
    const data: T
    var next: Cell?<T>

    constructor (data: T, next: Cell?<T>)
      ensures this.data == data && this.next == next
    {
      this.data := data;
      this.next := next;
    }
  }

  ghost function From<T>(spine: seq<Cell<T>>, i: int): Cell?<T> {
    if 0 <= i < |spine| then spine[i] else null
  }

  ghost function DataOf<T>(cells: seq<Cell<T>>): (r: seq<T>)
    ensures |r| == |cells| && forall i :: 0 <= i < |cells| ==> r[i] == cells[i].data
  {
    seq(|cells|, i requires 0 <= i < |cells| => cells[i].data)
  }

  /** Each node leads to the one after it, the last to none; no node is there twice. */
  ghost predicate Chained<T>(spine: seq<Cell<T>>)
    reads spine
  {
    && (forall i :: 0 <= i < |spine| ==> spine[i].next == From(spine, i + 1))
    && (forall i, j :: 0 <= i < j < |spine| ==> spine[i] != spine[j])
  }
}

/** The kernels of one recorded training iteration, linked into a tree. */
module KernelTree {

  const KERNEL := 1

  /** One recorded kernel (kind 1) or copy (to the device 2, to the host 3).  `parent` and `next` are positions in the
      list of loaded kernels; the head has parent -1. */
  datatype Node = Node(kind: int, start: real, length: real, parent: int, next: seq<nat>) {
    function End(): real { start + length }
  }

  /** Parent and child links are inverse to each other and every kernel but the
      head hangs below an earlier one. */
  ghost predicate Rooted(t: seq<Node>)
  {
    && |t| > 0
    && t[0].parent == -1
    && (forall k {:trigger t[k].parent} :: 0 < k < |t| ==> 0 <= t[k].parent < k)
    && (forall k {:trigger t[k].parent} :: 0 < k < |t| ==> k in t[t[k].parent].next)
    && (forall p, j :: 0 <= p < |t| && 0 <= j < |t[p].next| ==>
          0 < t[p].next[j] < |t| && t[t[p].next[j]].parent == p)
    && (forall p, i, j :: 0 <= p < |t| && 0 <= i < j < |t[p].next| ==> t[p].next[i] != t[p].next[j])
  }

  /** No kernel starts before the kernel it waits for has ended. */
  ghost predicate Ordered(t: seq<Node>)
    requires Rooted(t)
  {
    forall k :: 0 < k < |t| ==> t[t[k].parent].End() <= t[k].start
  }
}

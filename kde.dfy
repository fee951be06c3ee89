/**
 * The kernel density estimator's orchestration: tolerance validation,
 * training (building or borrowing a reference tree), ownership of that tree
 * through copy, assignment and destruction, and the normalisation of the raw
 * kernel sums that the dual-tree traversal leaves in the accumulator.
 *
 * Trees and kernels are heap objects; the `Heap` below records which of them
 * are allocated and not yet deleted, so that "free only what is owned" and
 * "never free twice" become verification conditions.
 */
module Kde {

  /** A point set: one sequence of coordinates per point (a column of the source's matrix). */
  type Dataset = seq<seq<real>>

  /**
   * The dual-tree traversal with its rules, an external collaborator: given the
   * reference set, the query tree's (possibly reordered) point set, the query
   * tree's old-from-new permutation, the two tolerances, the kernel's bandwidth
   * and the accumulator's contents, it yields the accumulator's contents
   * afterwards (raw kernel sums).
   */
  type Traversal = (Dataset, Dataset, seq<nat>, real, real, real, seq<real>) -> seq<real>

  /** Tree construction, an external collaborator: the tree's point set and its old-from-new permutation. */
  type TreeBuilder = Dataset -> (Dataset, seq<nat>)

  /** A space-partitioning tree; only its point set matters to the estimator. */
  class Tree {
    const dataset: Dataset

    constructor (dataset: Dataset)
      ensures this.dataset == dataset
    {
      this.dataset := dataset;
    }
  }

  /** A kernel, parameterised by its bandwidth. */
  class Kernel {
    const bandwidth: real

    constructor (bandwidth: real)
      ensures this.bandwidth == bandwidth
    {
      this.bandwidth := bandwidth;
    }
  }

  /**
   * The allocator. `live` is the set of objects allocated by `new` and not yet
   * deleted; `Delete` demands a live object, so a double free or a delete of a
   * dangling pointer is a verification failure.
   */
  class Heap {
    ghost var live: set<object>

    constructor ()
      ensures live == {}
    {
      live := {};
    }

    method NewTree(dataset: Dataset) returns (t: Tree)
      modifies this
      ensures fresh(t) && t.dataset == dataset
      ensures live == old(live) + {t}
    {
      t := new Tree(dataset);
      live := live + {t};
    }

    method NewKernel(bandwidth: real) returns (k: Kernel)
      modifies this
      ensures fresh(k) && k.bandwidth == bandwidth
      ensures live == old(live) + {k}
    {
      k := new Kernel(bandwidth);
      live := live + {k};
    }

    method Delete(o: object)
      requires o in live
      modifies this
      ensures live == old(live) - {o}
    {
      live := live - {o};
    }
  }

  /** What validating a pair of tolerances at construction yields. */
  datatype ToleranceCheck = Accepted | AcceptedWithWarning | Rejected

  /**
   * The constructor's tolerance checks: negative tolerances are fatal; two
   * positive ones are accepted with the warning that they are summed. The
   * constructor puts no upper bound on the relative error.
   */
  function CheckTolerances(relError: real, absError: real): (r: ToleranceCheck)
    ensures r == Rejected <==> relError < 0.0 || absError < 0.0
    ensures r == AcceptedWithWarning <==> relError > 0.0 && absError > 0.0
    ensures relError > 1.0 && absError >= 0.0 ==> r != Rejected
  {
    if relError < 0.0 || absError < 0.0 then Rejected
    else if relError > 0.0 && absError > 0.0 then AcceptedWithWarning
    else Accepted
  }

  /** Each raw kernel sum divided by the number of reference points: the density estimates. */
  function Normalized(raw: seq<real>, n: nat): (r: seq<real>)
    requires n > 0
    ensures |r| == |raw|
    ensures forall i :: 0 <= i < |r| ==> r[i] * (n as real) == raw[i]
  {
    seq(|raw|, i requires 0 <= i < |raw| => raw[i] / (n as real))
  }

  function Sum(s: seq<real>): real {
    if s == [] then 0.0 else Sum(s[..|s| - 1]) + s[|s| - 1]
  }

  /** The normalised estimates carry the same total mass as the raw sums, scaled by 1/n. */
  lemma {:induction false} NormalizedSum(raw: seq<real>, n: nat)
    requires n > 0
    ensures Sum(Normalized(raw, n)) * (n as real) == Sum(raw)
  {
    if raw != [] {
      var init := raw[..|raw| - 1];
      assert Normalized(raw, n)[..|raw| - 1] == Normalized(init, n);
      NormalizedSum(init, n);
    }
  }

  /** Divides every accumulator slot, in place, by the reference point count. */
  method DivideByPointCount(estimations: array<real>, n: nat)
    requires n > 0
    modifies estimations
    ensures estimations[..] == Normalized(old(estimations[..]), n)
  {
    var i := 0;
    while i < estimations.Length
      invariant 0 <= i <= estimations.Length
      invariant forall k :: 0 <= k < i ==> estimations[k] == old(estimations[k]) / (n as real)
      invariant forall k :: i <= k < estimations.Length ==> estimations[k] == old(estimations[k])
    {
      estimations[i] := estimations[i] / (n as real);
      i := i + 1;
    }
  }

  /** Stands for the traverser: it leaves the raw kernel sum of each query in that query's slot. */
  method RunTraversal(estimations: array<real>, raw: seq<real>)
    requires |raw| == estimations.Length
    modifies estimations
    ensures estimations[..] == raw
  {
    var i := 0;
    while i < estimations.Length
      invariant 0 <= i <= estimations.Length
      invariant estimations[..i] == raw[..i]
    {
      estimations[i] := raw[i];
      i := i + 1;
    }
  }

  class KDE {
    var kernel: Kernel
    var relError: real
    var absError: real
    var breadthFirst: bool
    var ownsReferenceTree: bool
    var trained: bool
    /** Null stands for the uninitialised pointer of an untrained estimator. */
    var referenceTree: Tree?

    /**
     * The estimator's invariant: its kernel is allocated, its tolerances are
     * non-negative, it owns a tree only once trained, and a tree it owns is
     * allocated. A borrowed tree is the caller's business.
     */
    ghost predicate Valid(h: Heap)
      reads this, h
    {
      && kernel in h.live
      && relError >= 0.0 && absError >= 0.0
      && (ownsReferenceTree ==> trained)
      && (trained ==> referenceTree != null)
      && (ownsReferenceTree ==> referenceTree in h.live)
    }

    /** The tree this estimator must free: its reference tree if it owns it. */
    ghost function OwnedTree(): set<object>
      reads this
    {
      if ownsReferenceTree && referenceTree != null then {referenceTree} else {}
    }

    /** The member-initialiser part of the constructor. */
    constructor Init(kernel: Kernel, relError: real, absError: real, breadthFirst: bool)
      ensures this.kernel == kernel && this.relError == relError && this.absError == absError
      ensures this.breadthFirst == breadthFirst
      ensures !ownsReferenceTree && !trained && referenceTree == null
    {
      this.kernel := kernel;
      this.relError := relError;
      this.absError := absError;
      this.breadthFirst := breadthFirst;
      ownsReferenceTree := false;
      trained := false;
      referenceTree := null;
    }

    /**
     * The constructor. A fatal tolerance error is the null result; `warned`
     * is the warning that two positive tolerances are summed.
     */
    static method Create(bandwidth: real, relError: real, absError: real, breadthFirst: bool, h: Heap)
      returns (k: KDE?, warned: bool)
      modifies h
      ensures warned <==> CheckTolerances(relError, absError) == AcceptedWithWarning
      ensures k == null <==> CheckTolerances(relError, absError) == Rejected
      ensures k == null ==> h.live == old(h.live)
      ensures k != null ==> fresh(k) && fresh(k.kernel) && k.Valid(h)
      ensures k != null ==> !k.trained && !k.ownsReferenceTree
      ensures k != null ==> k.relError == relError && k.absError == absError
      ensures k != null ==> k.breadthFirst == breadthFirst && k.kernel.bandwidth == bandwidth
      ensures k != null ==> h.live == old(h.live) + {k.kernel}
    {
      var check := CheckTolerances(relError, absError);
      warned := check == AcceptedWithWarning;
      if check == Rejected {
        k := null;
        return;
      }
      var kern := h.NewKernel(bandwidth);
      k := new KDE.Init(kern, relError, absError, breadthFirst);
    }

    /**
     * The copy constructor: every setting is copied; an owned tree is deep-copied
     * into a distinct new tree, a borrowed one is shared.
     */
    constructor Copy(other: KDE, h: Heap)
      requires other.Valid(h)
      modifies h
      ensures Valid(h) && other.Valid(h)
      ensures relError == other.relError && absError == other.absError
      ensures breadthFirst == other.breadthFirst
      ensures ownsReferenceTree == other.ownsReferenceTree && trained == other.trained
      ensures fresh(kernel) && kernel.bandwidth == other.kernel.bandwidth
      ensures trained && ownsReferenceTree ==>
        fresh(referenceTree) && referenceTree != other.referenceTree
        && referenceTree.dataset == other.referenceTree.dataset
      ensures trained && !ownsReferenceTree ==> referenceTree == other.referenceTree
      ensures h.live == old(h.live) + {kernel} + OwnedTree()
    {
      var kern := h.NewKernel(other.kernel.bandwidth);
      var tree: Tree? := null;
      if other.trained {
        if other.ownsReferenceTree {
          tree := h.NewTree(other.referenceTree.dataset);
        } else {
          tree := other.referenceTree;
        }
      }
      kernel := kern;
      relError := other.relError;
      absError := other.absError;
      breadthFirst := other.breadthFirst;
      ownsReferenceTree := other.ownsReferenceTree;
      trained := other.trained;
      referenceTree := tree;
    }

    /** The destructor: frees the kernel, and the reference tree only if owned. */
    method Destroy(h: Heap)
      requires Valid(h)
      modifies h
      ensures h.live == old(h.live) - {kernel} - OwnedTree()
      ensures referenceTree != null && !ownsReferenceTree && referenceTree in old(h.live) ==>
        referenceTree in h.live
    {
      if ownsReferenceTree {
        h.Delete(referenceTree);
      }
      h.Delete(kernel);
    }

    /**
     * Training on raw data, as the source does it: a new tree is built and owned,
     * and a tree owned before is not freed: it stays allocated with nothing
     * pointing to it.
     */
    method TrainAsWritten(referenceSet: Dataset, h: Heap)
      requires Valid(h)
      modifies this, h
      ensures Valid(h) && trained && ownsReferenceTree
      ensures fresh(referenceTree) && referenceTree.dataset == referenceSet
      ensures h.live == old(h.live) + {referenceTree}
      ensures old(ownsReferenceTree) ==>
        old(referenceTree) in h.live && old(referenceTree) != referenceTree
      ensures kernel == old(kernel) && relError == old(relError) && absError == old(absError)
      ensures breadthFirst == old(breadthFirst)
    {
      ownsReferenceTree := true;
      referenceTree := h.NewTree(referenceSet);
      trained := true;
    }

    /**
     * Training on raw data with the previously owned tree released first, as
     * `Train(tree)` already does and as re-training is meant to behave.
     */
    method Train(referenceSet: Dataset, h: Heap)
      requires Valid(h)
      modifies this, h
      ensures Valid(h) && trained && ownsReferenceTree
      ensures fresh(referenceTree) && referenceTree.dataset == referenceSet
      ensures h.live == old(h.live) - old(OwnedTree()) + {referenceTree}
      ensures kernel == old(kernel) && relError == old(relError) && absError == old(absError)
      ensures breadthFirst == old(breadthFirst)
    {
      if ownsReferenceTree {
        h.Delete(referenceTree);
      }
      ownsReferenceTree := true;
      referenceTree := h.NewTree(referenceSet);
      trained := true;
    }

    /**
     * Training on a caller's tree: a previously owned tree is freed, then the
     * caller's tree is borrowed; it is never freed by this estimator.
     */
    method TrainWithTree(tree: Tree, h: Heap)
      requires Valid(h)
      modifies this, h
      ensures Valid(h) && trained && !ownsReferenceTree && referenceTree == tree
      ensures h.live == old(h.live) - old(OwnedTree())
      ensures kernel == old(kernel) && relError == old(relError) && absError == old(absError)
      ensures breadthFirst == old(breadthFirst)
    {
      if ownsReferenceTree {
        h.Delete(referenceTree);
      }
      ownsReferenceTree := false;
      referenceTree := tree;
      trained := true;
    }

    /**
     * Assignment as the source writes it: `other` is a by-value copy of `src`;
     * this estimator frees its owned tree and its kernel, takes `other`'s raw
     * pointers, and then `other`'s destructor frees those very objects. The
     * estimator is left pointing at a freed kernel, and at a freed tree when
     * `src` owns one, so its own destructor would free them a second time.
     */
    method AssignAsWritten(src: KDE, h: Heap)
      requires Valid(h) && src.Valid(h)
      modifies this, h
      ensures relError == src.relError && absError == src.absError
      ensures breadthFirst == src.breadthFirst
      ensures ownsReferenceTree == src.ownsReferenceTree && trained == src.trained
      ensures kernel !in h.live
      ensures ownsReferenceTree ==> referenceTree !in h.live
      ensures !Valid(h)
      ensures h.live == old(h.live) - {old(kernel)} - old(OwnedTree())
    {
      var other := new KDE.Copy(src, h);
      if ownsReferenceTree {
        h.Delete(referenceTree);
      }
      h.Delete(kernel);
      TakeFields(other);
      other.Destroy(h);
    }

    /**
     * Assignment by copy-and-swap: the by-value copy's resources are swapped
     * into this estimator and the old ones are freed by the copy's destructor,
     * each exactly once.
     */
    method Assign(src: KDE, h: Heap)
      requires Valid(h) && src.Valid(h)
      modifies this, h
      ensures Valid(h)
      ensures relError == src.relError && absError == src.absError
      ensures breadthFirst == src.breadthFirst
      ensures ownsReferenceTree == src.ownsReferenceTree && trained == src.trained
      ensures fresh(kernel) && kernel.bandwidth == src.kernel.bandwidth
      ensures trained && ownsReferenceTree ==>
        fresh(referenceTree) && referenceTree.dataset == src.referenceTree.dataset
      ensures trained && !ownsReferenceTree ==> referenceTree == src.referenceTree
      ensures h.live == old(h.live) - {old(kernel)} - old(OwnedTree()) + {kernel} + OwnedTree()
    {
      var other := new KDE.Copy(src, h);
      SwapWith(other);
      other.Destroy(h);
    }

    /** Takes every field of `other`, raw pointers included. */
    method TakeFields(other: KDE)
      requires other != this
      modifies this
      ensures kernel == other.kernel && referenceTree == other.referenceTree
      ensures relError == other.relError && absError == other.absError
      ensures breadthFirst == other.breadthFirst
      ensures ownsReferenceTree == other.ownsReferenceTree && trained == other.trained
    {
      kernel := other.kernel;
      referenceTree := other.referenceTree;
      relError := other.relError;
      absError := other.absError;
      breadthFirst := other.breadthFirst;
      ownsReferenceTree := other.ownsReferenceTree;
      trained := other.trained;
    }

    /** Exchanges every field with `other`. */
    method SwapWith(other: KDE)
      requires other != this
      modifies this, other
      ensures kernel == old(other.kernel) && other.kernel == old(kernel)
      ensures referenceTree == old(other.referenceTree) && other.referenceTree == old(referenceTree)
      ensures relError == old(other.relError) && other.relError == old(relError)
      ensures absError == old(other.absError) && other.absError == old(absError)
      ensures breadthFirst == old(other.breadthFirst) && other.breadthFirst == old(breadthFirst)
      ensures ownsReferenceTree == old(other.ownsReferenceTree)
      ensures other.ownsReferenceTree == old(ownsReferenceTree)
      ensures trained == old(other.trained) && other.trained == old(trained)
    {
      kernel, other.kernel := other.kernel, kernel;
      referenceTree, other.referenceTree := other.referenceTree, referenceTree;
      relError, other.relError := other.relError, relError;
      absError, other.absError := other.absError, absError;
      breadthFirst, other.breadthFirst := other.breadthFirst, breadthFirst;
      ownsReferenceTree, other.ownsReferenceTree := other.ownsReferenceTree, ownsReferenceTree;
      trained, other.trained := other.trained, trained;
    }

    /**
     * Evaluation on a query set: a transient query tree is built, the traversal
     * accumulates raw kernel sums, each is divided by the reference point count,
     * and the query tree is freed again. Training is not checked.
     */
    method Evaluate(querySet: Dataset, estimations: array<real>, buildTree: TreeBuilder,
                    traverse: Traversal, h: Heap)
      requires Valid(h) && trained && referenceTree in h.live
      requires |referenceTree.dataset| > 0
      requires |traverse(referenceTree.dataset, buildTree(querySet).0, buildTree(querySet).1,
                         relError, absError, kernel.bandwidth, estimations[..])| == estimations.Length
      modifies estimations, h
      ensures Valid(h) && h.live == old(h.live)
      ensures estimations[..] ==
        Normalized(traverse(referenceTree.dataset, buildTree(querySet).0, buildTree(querySet).1,
                            relError, absError, kernel.bandwidth, old(estimations[..])),
                   |referenceTree.dataset|)
    {
      var (queryData, oldFromNewQueries) := buildTree(querySet);
      var queryTree := h.NewTree(queryData);
      var raw := traverse(referenceTree.dataset, queryTree.dataset, oldFromNewQueries,
                          relError, absError, kernel.bandwidth, estimations[..]);
      RunTraversal(estimations, raw);
      DivideByPointCount(estimations, |referenceTree.dataset|);
      h.Delete(queryTree);
    }

    /**
     * Evaluation on a caller's query tree and permutation: the same traversal and
     * normalisation; the caller's tree is neither freed nor otherwise touched.
     */
    method EvaluateTree(queryTree: Tree, oldFromNewQueries: seq<nat>, estimations: array<real>,
                        traverse: Traversal, h: Heap)
      requires Valid(h) && trained && referenceTree in h.live && queryTree in h.live
      requires |referenceTree.dataset| > 0
      requires |traverse(referenceTree.dataset, queryTree.dataset, oldFromNewQueries,
                         relError, absError, kernel.bandwidth, estimations[..])| == estimations.Length
      modifies estimations
      ensures Valid(h) && queryTree in h.live
      ensures estimations[..] ==
        Normalized(traverse(referenceTree.dataset, queryTree.dataset, oldFromNewQueries,
                            relError, absError, kernel.bandwidth, old(estimations[..])),
                   |referenceTree.dataset|)
    {
      var raw := traverse(referenceTree.dataset, queryTree.dataset, oldFromNewQueries,
                          relError, absError, kernel.bandwidth, estimations[..]);
      RunTraversal(estimations, raw);
      DivideByPointCount(estimations, |referenceTree.dataset|);
    }

    /** Sets the relative tolerance; a value outside [0, 1] is a fatal error and changes nothing. */
    method RelativeError(newError: real, ghost h: Heap) returns (ok: bool)
      requires Valid(h)
      modifies this`relError
      ensures Valid(h)
      ensures ok <==> 0.0 <= newError <= 1.0
      ensures relError == if ok then newError else old(relError)
    {
      if newError < 0.0 || newError > 1.0 {
        ok := false;
      } else {
        ok := true;
        relError := newError;
      }
    }

    /** Sets the absolute tolerance; a negative value is a fatal error and changes nothing. */
    method AbsoluteError(newError: real, ghost h: Heap) returns (ok: bool)
      requires Valid(h)
      modifies this`absError
      ensures Valid(h)
      ensures ok <==> newError >= 0.0
      ensures absError == if ok then newError else old(absError)
    {
      if newError < 0.0 {
        ok := false;
      } else {
        ok := true;
        absError := newError;
      }
    }
  }

  /**
   * Re-training an estimator that owns its tree, as the source does it: the
   * first tree stays allocated and the estimator no longer refers to it.
   */
  method RetrainLeaksFirstTree(first: Dataset, second: Dataset) returns (k: KDE, leaked: Tree, h: Heap)
    ensures leaked in h.live && k.referenceTree != leaked && k.ownsReferenceTree
  {
    h := new Heap();
    var kde, _ := KDE.Create(1.0, 0.0, 0.0, false, h);
    k := kde;
    k.TrainAsWritten(first, h);
    leaked := k.referenceTree;
    k.TrainAsWritten(second, h);
  }

  /**
   * Assigning one estimator to another, as the source does it: afterwards the
   * target's kernel is freed, so the target's destructor (which requires a
   * valid estimator) would delete it a second time.
   */
  method AssignmentLeavesDanglingKernel() returns (target: KDE, h: Heap)
    ensures target.kernel !in h.live && !target.Valid(h)
  {
    h := new Heap();
    var a, _ := KDE.Create(1.0, 0.0, 0.0, false, h);
    var b, _ := KDE.Create(2.0, 0.5, 0.0, false, h);
    a.AssignAsWritten(b, h);
    target := a;
  }
}

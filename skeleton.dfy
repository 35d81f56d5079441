/** The bone hierarchy of the robot arm: bones with a local transform and an
    optional parent, and the world transform of each bone, obtained by
    composing local transforms from the bone up to the root. */
module Skeleton {
  import opened Maths

  datatype Option<T> = None | Some(value: T)

  /** A bone: its transform relative to its parent, and its parent's index in
      the bone table (the source keeps a pointer into that table). */
  datatype Bone = Bone(transform: Matrix44, parent: Option<nat>)

  /** A value-initialised bone: identity transform, no parent. */
  function DefaultBone(): Bone {
    Bone(Identity(), None)
  }

  /** Every parent comes before its child, so the world transforms can be
      computed from the root down. */
  predicate ParentsPrecede(bones: seq<Bone>) {
    forall i :: 0 <= i < |bones| && bones[i].parent.Some? ==> bones[i].parent.value < i
  }

  /** Bone 0 is the root and bone i hangs from bone i - 1. */
  predicate IsLinearChain(bones: seq<Bone>) {
    forall i :: 0 <= i < |bones| ==> bones[i].parent == if i == 0 then None else Some(i - 1)
  }

  lemma LinearChainParentsPrecede(bones: seq<Bone>)
    requires IsLinearChain(bones)
    ensures ParentsPrecede(bones)
  {
  }

  /** World transform of bone i: its local transform times its parent's world
      transform; the root's world transform is its local transform. */
  function WorldTransform(bones: seq<Bone>, i: nat): Matrix44
    requires i < |bones| && ParentsPrecede(bones)
    decreases i
  {
    match bones[i].parent
    case None => bones[i].transform
    case Some(p) => Mul(bones[i].transform, WorldTransform(bones, p))
  }

  /** ms[0] * ms[1] * ... * ms[n - 1], multiplied from the left as C++
      evaluates a chain of operator* calls. */
  function Product(ms: seq<Matrix44>): Matrix44
    requires |ms| > 0
    decreases |ms|
  {
    if |ms| == 1 then ms[0] else Mul(Product(ms[..|ms| - 1]), ms[|ms| - 1])
  }

  /** The local transforms of bones i, i - 1, ..., 0, leaf first. */
  function LocalsToRoot(bones: seq<Bone>, i: nat): (r: seq<Matrix44>)
    requires i < |bones|
    ensures |r| == i + 1
    ensures forall j :: 0 <= j <= i ==> r[j] == bones[i - j].transform
    decreases i
  {
    if i == 0 then [bones[0].transform] else [bones[i].transform] + LocalsToRoot(bones, i - 1)
  }

  /** Multiplying on the left one more factor: a * (ms[0] * ... ) equals the
      product of the longer chain. Needs associativity. */
  lemma {:induction false} ProductCons(a: Matrix44, ms: seq<Matrix44>)
    requires |ms| > 0
    ensures Product([a] + ms) == Mul(a, Product(ms))
    decreases |ms|
  {
    var n := |ms|;
    if n == 1 {
      assert ([a] + ms)[..1] == [a];
    } else {
      var init := ms[..n - 1];
      assert ([a] + ms)[..n] == [a] + init;
      assert ([a] + ms)[n] == ms[n - 1];
      ProductCons(a, init);
      MulAssociative(a, Product(init), ms[n - 1]);
    }
  }

  /** In a linear chain the world transform of bone i is
      local[i] * local[i - 1] * ... * local[0]: composing down the parent
      chain gives the product the source writes out. */
  lemma {:induction false} LinearChainWorld(bones: seq<Bone>, i: nat)
    requires IsLinearChain(bones) && i < |bones|
    ensures ParentsPrecede(bones)
    ensures WorldTransform(bones, i) == Product(LocalsToRoot(bones, i))
    decreases i
  {
    LinearChainParentsPrecede(bones);
    if i > 0 {
      LinearChainWorld(bones, i - 1);
      ProductCons(bones[i].transform, LocalsToRoot(bones, i - 1));
    }
  }

  /** std::vector::resize: keep the first n entries, fill new slots with fill. */
  method Resize<T>(a: array<T>, n: nat, fill: T) returns (b: array<T>)
    ensures fresh(b) && b.Length == n
    ensures forall i :: 0 <= i < n ==> b[i] == if i < a.Length then a[i] else fill
  {
    b := new T[n](_ => fill);
    var kept := if a.Length < n then a.Length else n;
    for i := 0 to kept
      invariant forall j :: 0 <= j < i ==> b[j] == a[j]
      invariant forall j :: i <= j < n ==> b[j] == fill
    {
      b[i] := a[i];
    }
  }
}

/** The embedder tests' helpers for platform-view mutations: visiting the
    mutations of one type in order, and folding the transformation
    mutations into one matrix.

    The handler FilterMutationsByType invokes is a caller's closure: the
    model returns the mutations it is invoked with, in invocation order,
    and GetTotalMutationTransformationMatrix applies its preConcat to each
    of them in that order. */
module EmbedderTestUtils {
  import opened Wrappers
  import opened Geometry

  /** FlutterPlatformViewMutationType. */
  datatype MutationType = OpacityType | ClipRectType | ClipRoundedRectType | TransformationType

  /** FlutterPlatformViewMutation: its type and the member of the union
      that type selects. */
  datatype Mutation =
    | OpacityMutation(opacity: real)
    | ClipRectMutation(clipRect: Rect)
    | ClipRoundedRectMutation(clipRoundedRect: RRect)
    | TransformationMutation(transformation: Matrix)
  {
    function Type(): MutationType {
      match this
      case OpacityMutation(_) => OpacityType
      case ClipRectMutation(_) => ClipRectType
      case ClipRoundedRectMutation(_) => ClipRoundedRectType
      case TransformationMutation(_) => TransformationType
    }
  }

  /** The mutations of `ms` of type `t`, in their order. */
  function OfType(ms: seq<Mutation>, t: MutationType): (r: seq<Mutation>)
    ensures |r| <= |ms|
    ensures forall i | 0 <= i < |r| :: r[i].Type() == t
  {
    if ms == [] then []
    else OfType(ms[..|ms| - 1], t) + (if ms[|ms| - 1].Type() == t then [ms[|ms| - 1]] else [])
  }

  /** FilterMutationsByType: nothing for a null array; otherwise the
      mutations among the first `count` whose type is `t`, each once, in
      index order. */
  method FilterMutationsByType(mutations: Option<seq<Mutation>>, count: nat, t: MutationType)
    returns (visited: seq<Mutation>)
    requires mutations.Some? ==> count <= |mutations.value|
    ensures mutations.None? ==> visited == []
    ensures mutations.Some? ==> visited == OfType(mutations.value[..count], t)
  {
    visited := [];
    if mutations.None? {
      return;
    }
    var ms := mutations.value;
    var i := 0;
    while i < count
      invariant 0 <= i <= count
      invariant visited == OfType(ms[..i], t)
    {
      assert ms[..i + 1][..i] == ms[..i];
      var mutation := ms[i];
      if mutation.Type() != t {
        i := i + 1;
        continue;
      }
      visited := visited + [mutation];
      i := i + 1;
    }
  }

  /** The transformations of `ms`, each pre-concatenated onto the ones
      before it. */
  function TotalTransformation(ms: seq<Mutation>): Matrix {
    if ms == [] then Identity
    else if ms[|ms| - 1].TransformationMutation?
    then Concat(TotalTransformation(ms[..|ms| - 1]), ms[|ms| - 1].transformation)
    else TotalTransformation(ms[..|ms| - 1])
  }

  /** GetTotalMutationTransformationMatrix: starting from the identity,
      preConcat of each transformation mutation among the first `count`, in
      index order; the identity for a null array. */
  method GetTotalMutationTransformationMatrix(mutations: Option<seq<Mutation>>, count: nat)
    returns (collected: Matrix)
    requires mutations.Some? ==> count <= |mutations.value|
    ensures collected == if mutations.None? then Identity else TotalTransformation(mutations.value[..count])
  {
    collected := Identity;
    var transformations := FilterMutationsByType(mutations, count, TransformationType);
    var i := 0;
    while i < |transformations|
      invariant 0 <= i <= |transformations|
      invariant collected == TotalTransformation(transformations[..i])
    {
      assert transformations[..i + 1][..i] == transformations[..i];
      collected := Concat(collected, transformations[i].transformation);
      i := i + 1;
    }
    assert transformations[..i] == transformations;
    if mutations.Some? {
      TotalOfTransformations(mutations.value[..count]);
    }
  }

  /** Only the transformations count towards the total. */
  lemma {:induction false} TotalOfTransformations(ms: seq<Mutation>)
    ensures TotalTransformation(OfType(ms, TransformationType)) == TotalTransformation(ms)
  {
    if ms != [] {
      var init := ms[..|ms| - 1];
      var last := ms[|ms| - 1];
      TotalOfTransformations(init);
      var r := OfType(init, TransformationType);
      if last.Type() == TransformationType {
        assert (r + [last])[..|r + [last]| - 1] == r;
      } else {
        assert r + [] == r;
      }
    }
  }
}

/** What the mutation helpers promise: filtering splits over concatenation
    and keeps exactly the mutations of the type, and the total transform of
    a sequence of mutations composes the totals of its parts. */
module EmbedderTestUtilProperties {
  import opened Geometry
  import opened EmbedderTestUtils

  /** Filtering two runs of mutations is filtering each, in order. */
  lemma {:induction false} OfTypeDistributes(s: seq<Mutation>, u: seq<Mutation>, t: MutationType)
    ensures OfType(s + u, t) == OfType(s, t) + OfType(u, t)
  {
    if u != [] {
      var init := u[..|u| - 1];
      OfTypeDistributes(s, init, t);
      assert (s + u)[..|s + u| - 1] == s + init;
      assert (s + u)[|s + u| - 1] == u[|u| - 1];
    } else {
      assert s + u == s;
    }
  }

  /** Mutations all of the type are all kept; mutations none of which has
      the type are all skipped. */
  lemma {:induction false} OfTypeKeepsExactlyMatches(s: seq<Mutation>, t: MutationType)
    ensures (forall i | 0 <= i < |s| :: s[i].Type() == t) ==> OfType(s, t) == s
    ensures (forall i | 0 <= i < |s| :: s[i].Type() != t) ==> OfType(s, t) == []
  {
    if forall i | 0 <= i < |s| :: s[i].Type() == t {
      AllMatchingKept(s, t);
    }
    if forall i | 0 <= i < |s| :: s[i].Type() != t {
      NoneMatchingSkipped(s, t);
    }
  }

  lemma {:induction false} AllMatchingKept(s: seq<Mutation>, t: MutationType)
    requires forall i | 0 <= i < |s| :: s[i].Type() == t
    ensures OfType(s, t) == s
  {
    if s != [] {
      var init := s[..|s| - 1];
      var last := s[|s| - 1];
      assert forall i | 0 <= i < |init| :: init[i] == s[i];
      AllMatchingKept(init, t);
      assert last.Type() == t;
      assert OfType(s, t) == OfType(init, t) + [last];
      assert init + [last] == s;
    }
  }

  lemma {:induction false} NoneMatchingSkipped(s: seq<Mutation>, t: MutationType)
    requires forall i | 0 <= i < |s| :: s[i].Type() != t
    ensures OfType(s, t) == []
  {
    if s != [] {
      var init := s[..|s| - 1];
      assert forall i | 0 <= i < |init| :: init[i] == s[i];
      NoneMatchingSkipped(init, t);
    }
  }

  /** Without transformation mutations the total is the identity. */
  lemma {:induction false} TotalWithoutTransformations(s: seq<Mutation>)
    requires forall i | 0 <= i < |s| :: !s[i].TransformationMutation?
    ensures TotalTransformation(s) == Identity
  {
    if s != [] {
      TotalWithoutTransformations(s[..|s| - 1]);
    }
  }

  /** The total of two runs of mutations is the first run's total
      pre-concatenated with the second's. */
  lemma {:induction false} TotalOfConcatenation(s: seq<Mutation>, u: seq<Mutation>)
    ensures TotalTransformation(s + u) == Concat(TotalTransformation(s), TotalTransformation(u))
  {
    if u == [] {
      assert s + u == s;
      ConcatIdentity(TotalTransformation(s));
    } else {
      var init := u[..|u| - 1];
      var last := u[|u| - 1];
      TotalOfConcatenation(s, init);
      assert (s + u)[..|s + u| - 1] == s + init;
      assert (s + u)[|s + u| - 1] == last;
      if last.TransformationMutation? {
        ConcatAssociative(TotalTransformation(s), TotalTransformation(init), last.transformation);
      }
    }
  }
}

/** ImageGeneratorRegistry: an ordered set of image-generator factories.
    Factories are kept highest priority first; factories of equal priority
    keep the order in which they were added, because each is inserted with a
    fresh, increasing nonce.  Creating a generator asks each factory in set
    order and returns the first generator produced.

    A factory's callback is foreign code: it is named by a `Callback` value
    and what it returns for a buffer is the `call` parameter. */
module ImageGeneratorRegistries {
  import opened Wrappers

  type int32 = x: int | -0x8000_0000 <= x < 0x8000_0000
  type byte = x: int | 0 <= x < 256

  /** The generator a factory makes; only the image info the tests query. */
  datatype Generator = Generator(width: int, height: int)

  /** The callbacks a registry can hold: the built-in Skia codec factory,
      the platform codec factory (CoreGraphics on macOS, WIC on Windows) and
      the ones callers add. */
  datatype Callback = BuiltinCodec | PlatformCodec | Added(id: nat)

  datatype Factory = Factory(callback: Callback, priority: int32, nonce: nat)

  /** The set's ordering: higher priority first, then older (smaller nonce)
      first. */
  predicate Before(a: Factory, b: Factory) {
    a.priority > b.priority || (a.priority == b.priority && a.nonce < b.nonce)
  }

  predicate Sorted(fs: seq<Factory>) {
    forall i, j | 0 <= i < j < |fs| :: Before(fs[i], fs[j])
  }

  /** Where std::set places `f`: after every factory ordered before it. */
  function Inserted(fs: seq<Factory>, f: Factory): (r: seq<Factory>)
    ensures |r| == |fs| + 1
  {
    if fs == [] then [f]
    else if Before(fs[0], f) then
      assert fs == [fs[0]] + fs[1..];
      [fs[0]] + Inserted(fs[1..], f)
    else [f] + fs
  }

  /** Insertion keeps every factory already registered and adds `f`. */
  lemma {:induction false} InsertedKeepsAll(fs: seq<Factory>, f: Factory)
    ensures multiset(Inserted(fs, f)) == multiset(fs) + multiset{f}
  {
    if fs != [] && Before(fs[0], f) {
      InsertedKeepsAll(fs[1..], f);
      assert fs == [fs[0]] + fs[1..];
    }
  }

  /** The factories consulted for `data`, in order, until one produces a
      generator; that one is the last of them. */
  function Consulted(fs: seq<Factory>, data: seq<byte>, call: (Callback, seq<byte>) -> Option<Generator>): nat
    ensures Consulted(fs, data, call) <= |fs|
  {
    if fs == [] then 0
    else if call(fs[0].callback, data).Some? then 1
    else 1 + Consulted(fs[1..], data, call)
  }

  class ImageGeneratorRegistry {
    /** The ordered set, as a sorted sequence. */
    var factories: seq<Factory>
    /** The next value fml::tracing::TraceNonce hands out. */
    var nextNonce: nat

    predicate Valid()
      reads this
    {
      Sorted(factories) && forall i | 0 <= i < |factories| :: factories[i].nonce < nextNonce
    }

    /** The built-in codec factory at priority 0, followed on macOS and
        Windows by the platform codec factory, also at priority 0. */
    constructor (platformCodec: bool)
      ensures Valid()
      ensures !platformCodec ==> factories == [Factory(BuiltinCodec, 0, 0)]
      ensures platformCodec ==> factories == [Factory(BuiltinCodec, 0, 0), Factory(PlatformCodec, 0, 1)]
      ensures nextNonce == |factories|
    {
      factories := [];
      nextNonce := 0;
      new;
      AddFactory(BuiltinCodec, 0);
      if platformCodec {
        AddFactory(PlatformCodec, 0);
      }
    }

    /** Inserts the factory with a fresh nonce: nothing already registered is
        lost, even at equal priority, and the set stays ordered. */
    method AddFactory(callback: Callback, priority: int32)
      requires Valid()
      modifies this
      ensures Valid()
      ensures factories == Inserted(old(factories), Factory(callback, priority, old(nextNonce)))
      ensures multiset(factories) == multiset(old(factories)) + multiset{Factory(callback, priority, old(nextNonce))}
      ensures nextNonce == old(nextNonce) + 1
    {
      var f := Factory(callback, priority, nextNonce);
      var i := 0;
      while i < |factories| && Before(factories[i], f)
        invariant 0 <= i <= |factories|
        invariant forall k | 0 <= k < i :: Before(factories[k], f)
      {
        i := i + 1;
      }
      InsertedAt(factories, f, i);
      InsertedKeepsOrder(factories, f, i);
      InsertedKeepsAll(factories, f);
      factories := factories[..i] + [f] + factories[i..];
      nextNonce := nextNonce + 1;
    }

    /** Asks each factory in set order and returns the first generator one
        produces, without consulting any later factory; nothing when no
        factory produces one.  `tried` counts the callbacks invoked. */
    method CreateCompatibleGenerator(data: seq<byte>, call: (Callback, seq<byte>) -> Option<Generator>)
      returns (result: Option<Generator>, tried: nat)
      ensures tried == Consulted(factories, data, call)
      ensures result.Some? ==> 0 < tried && call(factories[tried - 1].callback, data) == result
      ensures forall k | 0 <= k < tried - (if result.Some? then 1 else 0) ::
                call(factories[k].callback, data).None?
      ensures result.None? <==> forall k | 0 <= k < |factories| :: call(factories[k].callback, data).None?
    {
      var i := 0;
      while i < |factories|
        invariant 0 <= i <= |factories|
        invariant forall k | 0 <= k < i :: call(factories[k].callback, data).None?
        invariant Consulted(factories, data, call) == i + Consulted(factories[i..], data, call)
      {
        assert factories[i..][1..] == factories[i + 1..];
        var r := call(factories[i].callback, data);
        if r.Some? {
          return r, i + 1;
        }
        i := i + 1;
      }
      return None, i;
    }
  }

  /** `Inserted` places `f` right after the prefix of factories ordered
      before it. */
  lemma {:induction false} InsertedAt(fs: seq<Factory>, f: Factory, i: nat)
    requires i <= |fs|
    requires forall k | 0 <= k < i :: Before(fs[k], f)
    requires i == |fs| || !Before(fs[i], f)
    ensures Inserted(fs, f) == fs[..i] + [f] + fs[i..]
  {
    if i == 0 {
      assert fs[..0] + [f] + fs[0..] == [f] + fs;
    } else {
      var rest := fs[1..];
      assert Before(fs[0], f);
      assert Inserted(fs, f) == [fs[0]] + Inserted(rest, f);
      assert forall k | 0 <= k < i - 1 :: rest[k] == fs[k + 1];
      InsertedAt(rest, f, i - 1);
      assert [fs[0]] + rest == fs;
      InsertAfterHead(fs[0], rest, f, i - 1);
    }
  }

  /** Inserting at position j of the tail is inserting at j + 1 of the whole. */
  lemma InsertAfterHead(x: Factory, rest: seq<Factory>, f: Factory, j: nat)
    requires j <= |rest|
    ensures [x] + (rest[..j] + [f] + rest[j..]) == ([x] + rest)[..j + 1] + [f] + ([x] + rest)[j + 1..]
  {
    var whole := [x] + rest;
    assert whole[..j + 1] == [x] + rest[..j];
    assert whole[j + 1..] == rest[j..];
  }

  /** Placing a factory with the newest nonce after the prefix of factories
      ordered before it keeps the set ordered. */
  lemma InsertedKeepsOrder(fs: seq<Factory>, f: Factory, i: nat)
    requires Sorted(fs) && i <= |fs|
    requires forall k | 0 <= k < |fs| :: fs[k].nonce < f.nonce
    requires forall k | 0 <= k < i :: Before(fs[k], f)
    requires i == |fs| || !Before(fs[i], f)
    ensures Sorted(fs[..i] + [f] + fs[i..])
  {
    var r := fs[..i] + [f] + fs[i..];
    assert forall k | 0 <= k < i :: r[k] == fs[k];
    assert r[i] == f;
    assert forall k | i < k < |r| :: r[k] == fs[k - 1];
    if i < |fs| {
      // fs[i] is older than f and not before it, so its priority is lower
      assert fs[i].priority < f.priority;
    }
    forall a, b | 0 <= a < b < |r|
      ensures Before(r[a], r[b])
    {
      if a == i {
        assert i == b - 1 || Before(fs[i], fs[b - 1]);
      }
    }
  }

  /** The first factory to produce a generator wins: every factory ordered
      before it produced none. */
  lemma {:induction false} ConsultedStopsAtFirst(fs: seq<Factory>, data: seq<byte>, call: (Callback, seq<byte>) -> Option<Generator>, i: nat)
    requires i < |fs| && call(fs[i].callback, data).Some?
    requires forall k | 0 <= k < i :: call(fs[k].callback, data).None?
    ensures Consulted(fs, data, call) == i + 1
  {
    if i > 0 {
      ConsultedStopsAtFirst(fs[1..], data, call, i - 1);
    }
  }

  /** A factory added with a positive priority is consulted before the
      built-in ones, so a generator it produces is the one returned. */
  method PositivePriorityTakesPrecedence(platformCodec: bool, data: seq<byte>,
                                         call: (Callback, seq<byte>) -> Option<Generator>, fake: Generator)
    returns (result: Option<Generator>, tried: nat)
    requires call(Added(0), data) == Some(fake)
    ensures result == Some(fake) && tried == 1
  {
    var registry := new ImageGeneratorRegistry(platformCodec);
    ghost var defaults := registry.factories;
    registry.AddFactory(Added(0), 1);
    assert registry.factories == [Factory(Added(0), 1, |defaults|)] + defaults;
    result, tried := registry.CreateCompatibleGenerator(data, call);
  }

  /** A factory added with a negative priority is consulted after the
      built-in codec, so when that codec decodes the data the added factory
      is never invoked. */
  method DefaultTakesPrecedenceOverNegativePriority(platformCodec: bool, data: seq<byte>,
                                                    call: (Callback, seq<byte>) -> Option<Generator>, decoded: Generator)
    returns (result: Option<Generator>, tried: nat)
    requires call(BuiltinCodec, data) == Some(decoded)
    ensures result == Some(decoded) && tried == 1
  {
    var registry := new ImageGeneratorRegistry(platformCodec);
    registry.AddFactory(Added(0), -1);
    assert registry.factories[0] == Factory(BuiltinCodec, 0, 0);
    result, tried := registry.CreateCompatibleGenerator(data, call);
  }

  /** When no registered codec decodes the buffer (as for empty data), the
      default registry returns no generator after trying every factory. */
  method EmptyDataHasNoGenerator(platformCodec: bool, call: (Callback, seq<byte>) -> Option<Generator>)
    returns (result: Option<Generator>, tried: nat)
    requires call(BuiltinCodec, []).None? && call(PlatformCodec, []).None?
    ensures result.None? && tried == (if platformCodec then 2 else 1)
  {
    var registry := new ImageGeneratorRegistry(platformCodec);
    result, tried := registry.CreateCompatibleGenerator([], call);
  }
}

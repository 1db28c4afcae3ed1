/** The handle `appBind` returns: it holds the list of constructor parameter
    names that validation must not require. */
module Binder {
  import opened PhpArrays

  class BetterBinder {
    /** The stored ignore list, as given by the last `IgnoreParameters` call. */
    var ignoreParameters: seq<Value>

    /** A fresh binder ignores nothing. */
    constructor ()
      ensures ignoreParameters == []
    {
      ignoreParameters := [];
    }

    /** Replaces the ignore list and returns this binder, so calls chain.
        Called with one array, the list becomes that array; called with
        several names, it becomes the whole argument list. When the first
        argument is an array, the arguments after it are dropped. */
    method IgnoreParameters(params: seq<Value>) returns (self: BetterBinder)
      requires |params| >= 1
      modifies this
      ensures self == this
      ensures params[0].List? ==> ignoreParameters == params[0].items
      ensures !params[0].List? ==> ignoreParameters == params
    {
      var list := params;
      if params[0].List? {
        list := params[0].items;
      }
      ignoreParameters := list;
      self := this;
    }

    /** The stored ignore list; reading it changes nothing. */
    method GetIgnoreParameters() returns (r: seq<Value>)
      ensures r == ignoreParameters
    {
      r := ignoreParameters;
    }
  }

  /** `testIgnoreParameters`: a fresh binder given the single array `['x']`
      returns itself, and its getter yields that array. */
  method IgnoreArrayReturnsSameBinder() returns (binder: BetterBinder, results: BetterBinder, got: seq<Value>)
    ensures results == binder
    ensures got == [Str("x")]
  {
    binder := new BetterBinder();
    results := binder.IgnoreParameters([List([Str("x")])]);
    got := binder.GetIgnoreParameters();
  }

  /** A second call on the same binder replaces the list the first call
      stored, and an array argument is stored as the array itself. */
  method ChainedCallsReplace() returns (b: BetterBinder)
    ensures fresh(b)
    ensures b.ignoreParameters == [Str("x")]
  {
    b := new BetterBinder();
    var same := b.IgnoreParameters([Str("first_param"), Str("second_param")]);
    assert same == b && b.ignoreParameters == [Str("first_param"), Str("second_param")];
    same := same.IgnoreParameters([List([Str("x")])]);
    assert same == b;
    var got := b.GetIgnoreParameters();
    assert got == [Str("x")];
  }
}

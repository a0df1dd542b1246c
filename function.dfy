/** function.go: the wrap-time signature descriptor of a wrapped function
    (its parameter types in order and the strategy that unpacks its 0, 1 or
    2 results) and the per-request call that demultiplexes the results into
    a (value, error) pair.

    The module is generic in V, the type of Go's dynamic values; `nil` is
    that type's nil interface and `isErr` tells whether a dynamic value
    implements `error` (the comma-ok assertion `.(error)`). */
module Function {
  import opened Reflect

  /** How the results of the function become (value, error). */
  datatype Unpack = NoOutputs | ErrorOnly | ValueOnly | ValueAndError

  /** What one call of the wrapped function did: return its results, or panic. */
  datatype Outcome<V> = Returned(outs: seq<V>) | Panicked(payload: V)

  /** reflectedFn: the function's behaviour, its parameter types and its unpack strategy. */
  datatype ReflectedFn<!V> = ReflectedFn(fn: seq<V> -> Outcome<V>, ins: seq<GoType>, unpack: Unpack)

  /** reflectFunc either yields a descriptor or panics with a message at wrap time. */
  datatype Wrapped<!V> = Reflected(r: ReflectedFn<V>) | WrapPanic(msg: string)

  datatype CallResult<V> = Normal(value: V, err: V) | CallPanicked(payload: V)

  function Arity(u: Unpack): nat {
    match u
    case NoOutputs => 0
    case ErrorOnly => 1
    case ValueOnly => 1
    case ValueAndError => 2
  }

  /** A behaviour returns exactly n results whenever it returns (reflect.Value.Call guarantees it). */
  ghost predicate Conforms<V(!new)>(fn: seq<V> -> Outcome<V>, n: nat) {
    forall args :: fn(args).Returned? ==> |fn(args).outs| == n
  }

  /** The shapes reflectFunc accepts: a function with at most two results,
      the second of which implements error. */
  predicate SupportedShape(t: GoType) {
    && t.FuncT?
    && |t.outs| <= 2
    && (|t.outs| == 2 ==> Implements(t.outs[1], ErrorType))
  }

  /** What reflectFunc (function.go:11-61) yields for a function type and
      its behaviour: a descriptor, or the message it panics with. */
  function Reflection<V>(t: GoType, body: seq<V> -> Outcome<V>): (r: Wrapped<V>)
    ensures r.Reflected? <==> SupportedShape(t)
    ensures !t.FuncT? ==> r == WrapPanic("function expected")
    ensures t.FuncT? && |t.outs| == 2 && !Implements(t.outs[1], ErrorType) ==>
      r == WrapPanic("function " + Name(t) + " second return value must be an error")
    ensures t.FuncT? && |t.outs| > 2 ==>
      r == WrapPanic("function " + Name(t) + " cannot return more than two values")
    ensures r.Reflected? ==> r.r.fn == body && r.r.ins == t.ins && Arity(r.r.unpack) == |t.outs|
    ensures r.Reflected? && |t.outs| == 1 ==>
      (r.r.unpack == ErrorOnly <==> Implements(t.outs[0], ErrorType))
  {
    if !t.FuncT? then WrapPanic("function expected")
    else if |t.outs| == 0 then Reflected(ReflectedFn(body, t.ins, NoOutputs))
    else if |t.outs| == 1 then
      Reflected(ReflectedFn(body, t.ins, if Implements(t.outs[0], ErrorType) then ErrorOnly else ValueOnly))
    else if |t.outs| == 2 then
      if Implements(t.outs[1], ErrorType) then Reflected(ReflectedFn(body, t.ins, ValueAndError))
      else WrapPanic("function " + Name(t) + " second return value must be an error")
    else WrapPanic("function " + Name(t) + " cannot return more than two values")
  }

  /** reflectFunc (function.go:11-61): the parameter types are copied one by
      one, then the unpack strategy is chosen by the number of results. */
  method ReflectFunc<V>(t: GoType, body: seq<V> -> Outcome<V>) returns (r: Wrapped<V>)
    ensures r == Reflection(t, body)
  {
    if !t.FuncT? {
      return WrapPanic("function expected");
    }
    var params: seq<GoType> := [];
    var i := 0;
    while i < |t.ins|
      invariant 0 <= i <= |t.ins|
      invariant params == t.ins[..i]
    {
      params := params + [t.ins[i]];
      i := i + 1;
    }
    assert params == t.ins;
    var unpack: Unpack;
    if |t.outs| == 0 {
      unpack := NoOutputs;
    } else if |t.outs| == 1 {
      if Implements(t.outs[0], ErrorType) {
        unpack := ErrorOnly;
      } else {
        unpack := ValueOnly;
      }
    } else if |t.outs| == 2 {
      if !Implements(t.outs[1], ErrorType) {
        return WrapPanic("function " + Name(t) + " second return value must be an error");
      }
      unpack := ValueAndError;
    } else {
      return WrapPanic("function " + Name(t) + " cannot return more than two values");
    }
    r := Reflected(ReflectedFn(body, params, unpack));
  }

  /** `err, _ := out.Interface().(error)`: the value itself if it is an error, nil otherwise. */
  function AsError<V>(out: V, nil: V, isErr: V -> bool): (e: V)
    ensures e == nil || isErr(e)
  {
    if isErr(out) then out else nil
  }

  /** The outFn closures chosen at wrap time (function.go:29-58). */
  function OutFn<V>(u: Unpack, out: seq<V>, nil: V, isErr: V -> bool): (r: (V, V))
    requires |out| == Arity(u)
    ensures r.1 == nil || isErr(r.1)
    ensures u == NoOutputs ==> r == (nil, nil)
    ensures u == ErrorOnly ==> r.0 == nil && (isErr(out[0]) ==> r.1 == out[0]) && (!isErr(out[0]) ==> r.1 == nil)
    ensures u == ValueOnly ==> r == (out[0], nil)
    ensures u == ValueAndError ==> r.0 == out[0] && (isErr(out[1]) ==> r.1 == out[1]) && (!isErr(out[1]) ==> r.1 == nil)
  {
    match u
    case NoOutputs => (nil, nil)
    case ErrorOnly => (nil, AsError(out[0], nil, isErr))
    case ValueOnly => (out[0], nil)
    case ValueAndError => (out[0], AsError(out[1], nil, isErr))
  }

  /** reflectedFn.call (function.go:69-73): apply fn, then the unpack strategy fixed at wrap time. */
  function Call<V(!new)>(rf: ReflectedFn<V>, args: seq<V>, nil: V, isErr: V -> bool): (r: CallResult<V>)
    requires Conforms(rf.fn, Arity(rf.unpack))
    ensures rf.fn(args).Panicked? <==> r.CallPanicked?
    ensures r.CallPanicked? ==> r.payload == rf.fn(args).payload
    ensures r.Normal? ==> r.err == nil || isErr(r.err)
    ensures r.Normal? ==> (r.value, r.err) == OutFn(rf.unpack, rf.fn(args).outs, nil, isErr)
    ensures r.Normal? && rf.unpack == NoOutputs ==> r.value == nil && r.err == nil
    ensures r.Normal? && rf.unpack == ValueOnly ==> r.value == rf.fn(args).outs[0] && r.err == nil
    ensures r.Normal? && rf.unpack == ErrorOnly ==>
      r.value == nil && r.err == (if isErr(rf.fn(args).outs[0]) then rf.fn(args).outs[0] else nil)
    ensures r.Normal? && rf.unpack == ValueAndError ==>
      r.value == rf.fn(args).outs[0] && r.err == (if isErr(rf.fn(args).outs[1]) then rf.fn(args).outs[1] else nil)
  {
    match rf.fn(args)
    case Panicked(p) => CallPanicked(p)
    case Returned(outs) =>
      var (v, e) := OutFn(rf.unpack, outs, nil, isErr);
      Normal(v, e)
  }
}

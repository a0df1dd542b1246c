/** gmux/gmux.go: the gorilla/mux flavour of the positional route-variable
    resolver, and the WithVar option that installs it. The route variables
    are the ones the router matched (`mux.Vars`). */
module Gmux {
  import opened Wrappers
  import opened Reflect
  import opened Http
  import opened JsonApi
  import Defaults

  /** The configured-position branch of VarInjector.Resolve (gmux/gmux.go:40-51). */
  function InjectVar(key: string, req: RequestView, t: GoType): (r: Resolution)
    ensures r.Resolution?
    ensures r.err.Some? ==> r.v == Nil && Is(r.err.value, SentinelError(Unexpected))
    ensures r.err.None? <==> key in req.routeVars && AssignableTo(StringT, t)
    ensures r.err.None? ==> r.v == Str(req.routeVars[key])
  {
    if key !in req.routeVars then
      Resolution(Nil, Some(Errorf(SentinelError(Unexpected), "key '" + key + "' does not exist in mux vars")))
    else if !AssignableTo(StringT, t) then
      Resolution(Nil, Some(Errorf(SentinelError(Unexpected), "argument cannot be assigned to declared type")))
    else
      Resolution(Str(req.routeVars[key]), None)
  }

  /** Whether some VarInjector of the chain owns position `pos`. */
  predicate Owned(r: Resolver, pos: nat) {
    r.GmuxInjector? && (r.pos == pos || Owned(r.next, pos))
  }

  /** The resolver at the bottom of a chain of VarInjectors. */
  function Base(r: Resolver): (b: Resolver)
    ensures !b.GmuxInjector?
  {
    if r.GmuxInjector? then Base(r.next) else r
  }

  /** ArgumentResolver.Resolve, dispatched on the resolver's kind. A chain of
      VarInjectors answers from the resolver it wraps (Defaults or the
      user's) at every position none of them owns; at an owned position it
      never panics, fails only with ErrUnexpected, and resolves only to a
      route string. */
  function Resolve(r: Resolver, req: RequestView, t: GoType, pos: nat, decode: Defaults.Decoder): (res: Resolution)
    ensures !Owned(r, pos) && Base(r).DefaultsResolver? ==> res == Defaults.Resolve(req, t, pos, decode)
    ensures !Owned(r, pos) && Base(r).CustomResolver? ==> res == Base(r).answer(req, t, pos)
    ensures Owned(r, pos) ==>
      res.Resolution? &&
      (res.err.Some? ==> res.v == Nil && Is(res.err.value, SentinelError(Unexpected))) &&
      (res.err.None? ==> res.v.Str?)
  {
    match r
    case DefaultsResolver => Defaults.Resolve(req, t, pos, decode)
    case GmuxInjector(next, key, p) =>
      if p != pos then Resolve(next, req, t, pos, decode) else InjectVar(key, req, t)
    case CustomResolver(answer) => answer(req, t, pos)
  }

  /** NewVarInjector (gmux/gmux.go:17-23). */
  function NewVarInjector(next: Resolver, key: string, pos: int): (r: Resolver)
    ensures r.GmuxInjector? && r.next == next && r.key == key && r.pos == pos
  {
    GmuxInjector(next, key, pos)
  }

  /** WithVar (gmux/gmux.go:11-15): the handler's current resolver is wrapped. */
  function WithVar(key: string, pos: int): (opt: OptsFn)
    ensures forall c: Config ::
      opt(c).Applied? && opt(c).c.resolver == GmuxInjector(c.resolver, key, pos) && opt(c).c.(resolver := c.resolver) == c
  {
    (c: Config) => Applied(c.(resolver := NewVarInjector(c.resolver, key, pos)))
  }

  /** WithVar changes the resolver alone, and cannot panic. */
  lemma WithVarWrapsCurrent(key: string, pos: int, c: Config)
    ensures WithVar(key, pos)(c).Applied?
    ensures var c' := WithVar(key, pos)(c).c;
      c'.resolver.next == c.resolver && c'.validator == c.validator &&
      c'.caster == c.caster && c'.logger == c.logger && c'.sender == c.sender
  {
  }

  /** Positions the injector does not own reach the wrapped resolver with the
      same arguments, and its answer comes back unchanged. */
  lemma DelegatesOtherPositions(next: Resolver, key: string, p: int, req: RequestView, t: GoType, pos: nat, decode: Defaults.Decoder)
    requires p != pos
    ensures Resolve(GmuxInjector(next, key, p), req, t, pos, decode) == Resolve(next, req, t, pos, decode)
  {
  }

  /** At the owned position a missing key, or a declared type that cannot
      hold a string, fails with an error wrapping ErrUnexpected and never
      ErrArgumentResolution; otherwise the value is the route string. */
  lemma OwnedPosition(next: Resolver, key: string, req: RequestView, t: GoType, pos: nat, decode: Defaults.Decoder)
    ensures var r := Resolve(GmuxInjector(next, key, pos), req, t, pos, decode);
      && (key !in req.routeVars ==>
            r.err == Some(Errorf(SentinelError(Unexpected), "key '" + key + "' does not exist in mux vars")))
      && (key in req.routeVars && !AssignableTo(StringT, t) ==>
            r.err == Some(Errorf(SentinelError(Unexpected), "argument cannot be assigned to declared type")))
      && (key in req.routeVars && AssignableTo(StringT, t) ==> r == Resolution(Str(req.routeVars[key]), None))
      && (r.err.Some? ==> !Is(r.err.value, SentinelError(ArgumentResolution)))
  {
  }

  /** So Defaults.CastError reports a missing route variable as an
      unexpected handler error, not as an argument resolution failure. */
  lemma {:induction false} MissingVarCast(next: Resolver, key: string, req: RequestView, t: GoType, pos: nat, decode: Defaults.Decoder)
    requires key !in req.routeVars
    ensures var r := Resolve(GmuxInjector(next, key, pos), req, t, pos, decode);
      var a := Defaults.CastSpec(ErrValue(r.err.value), false).a;
      a.statusCode == 500 && a.details == "Unexpected error while handling the request"
  {
    var detail := "key '" + key + "' does not exist in mux vars";
    WrappedSentinel(Unexpected, ArgumentResolution, detail);
    WrappedSentinel(Unexpected, ArgumentUnsupported, detail);
    WrappedSentinel(Unexpected, EmptyBody, detail);
    WrappedSentinel(Unexpected, Unexpected, detail);
  }

  /** Options run in argument order, so the injector of the later WithVar
      ends up outermost and answers first for its position. */
  lemma {:induction false} LaterWithVarOutermost(c: Config, k1: string, p1: int, k2: string, p2: int)
    ensures Configure(c, [WithVar(k1, p1), WithVar(k2, p2)]) ==
      Applied(c.(resolver := GmuxInjector(GmuxInjector(c.resolver, k1, p1), k2, p2)))
  {
    var opts := [WithVar(k1, p1), WithVar(k2, p2)];
    var c1 := c.(resolver := GmuxInjector(c.resolver, k1, p1));
    assert opts[..1] == [WithVar(k1, p1)] && opts[..1][..0] == [];
    assert Configure(c, opts[..1]) == WithVar(k1, p1)(c) == Applied(c1);
    assert Configure(c, opts) == WithVar(k2, p2)(c1);
  }
}

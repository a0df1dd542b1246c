/** mux_var.go: the positional route-variable resolver. A varInjector owns
    one argument position; every other position is handed, unchanged, to
    the resolver it wraps. At its position it looks the configured key up
    in the route variables that the package variable VarFunc extracts. */
module MuxVarA {
  import opened Wrappers
  import opened Reflect
  import opened Http
  import opened ErrorsA

  /** The package variable VarFunc: the default that returns an empty map, or a router hook. */
  datatype VarSource = DefaultVarFunc | RouterVars

  function Vars(src: VarSource, req: RequestView): map<string, string> {
    match src
    case DefaultVarFunc => map[]
    case RouterVars => req.routeVars
  }

  /** What one Resolve call does: produce a value, fail with an error, or panic. */
  datatype ResolveOutcome = Resolved(v: Value) | ResolveFailed(e: Error) | ResolverPanicked(p: Value)

  /** An argument resolver: a varInjector around another resolver, or any
      other resolver given by its answer to each (request, type, position). */
  datatype Resolver =
    | VarInjector(next: Resolver, key: string, pos: int)
    | CustomResolver(answer: (RequestView, GoType, nat) -> ResolveOutcome)

  /** The configured-position branch of varInjector.Resolve (mux_var.go:38-49). */
  function InjectVar(key: string, src: VarSource, req: RequestView, t: GoType): (r: ResolveOutcome)
    ensures r.ResolverPanicked? == false
    ensures r.ResolveFailed? ==> Is(r.e, SentinelError(ArgumentResolution))
    ensures r.Resolved? <==> key in Vars(src, req) && AssignableTo(StringT, t)
    ensures r.Resolved? ==> r.v == Str(Vars(src, req)[key])
  {
    var vars := Vars(src, req);
    if key !in vars then
      ResolveFailed(Errorf(SentinelError(ArgumentResolution), "key '" + key + "' does not exist in mux vars"))
    else if !AssignableTo(StringT, t) then
      ResolveFailed(Errorf(SentinelError(ArgumentResolution), "argument cannot be assigned to declared type"))
    else
      Resolved(Str(vars[key]))
  }

  /** Whether some varInjector of the chain owns position `pos`. */
  predicate Owned(r: Resolver, pos: nat) {
    r.VarInjector? && (r.pos == pos || Owned(r.next, pos))
  }

  /** The resolver at the bottom of a chain of varInjectors. */
  function Base(r: Resolver): (b: Resolver)
    ensures b.CustomResolver?
  {
    if r.VarInjector? then Base(r.next) else r
  }

  /** ArgumentResolver.Resolve, dispatched on the resolver's kind. A chain of
      varInjectors answers from the resolver it wraps at every position none
      of them owns; at an owned position it never panics, fails only with
      ErrArgumentResolution, and resolves only to a route string. */
  function Resolve(r: Resolver, src: VarSource, req: RequestView, t: GoType, pos: nat): (res: ResolveOutcome)
    ensures !Owned(r, pos) ==> res == Base(r).answer(req, t, pos)
    ensures Owned(r, pos) ==>
      !res.ResolverPanicked? &&
      (res.ResolveFailed? ==> Is(res.e, SentinelError(ArgumentResolution))) &&
      (res.Resolved? ==> res.v.Str?)
  {
    match r
    case VarInjector(next, key, p) =>
      if p != pos then Resolve(next, src, req, t, pos) else InjectVar(key, src, req, t)
    case CustomResolver(answer) => answer(req, t, pos)
  }

  /** Positions a varInjector does not own reach the wrapped resolver with the
      same arguments, and its answer comes back unchanged. */
  lemma DelegatesOtherPositions(next: Resolver, key: string, p: int, src: VarSource, req: RequestView, t: GoType, pos: nat)
    requires p != pos
    ensures Resolve(VarInjector(next, key, p), src, req, t, pos) == Resolve(next, src, req, t, pos)
  {
  }

  /** With the default VarFunc every owned position fails with ErrArgumentResolution. */
  lemma {:induction false} DefaultVarFuncAlwaysFails(next: Resolver, key: string, req: RequestView, t: GoType, pos: nat)
    ensures var r := Resolve(VarInjector(next, key, pos), DefaultVarFunc, req, t, pos);
      r.ResolveFailed? && Is(r.e, SentinelError(ArgumentResolution))
  {
  }

  /** At the owned position: a missing key and a declared type that cannot hold a
      string both fail with ErrArgumentResolution; otherwise the value is the route string. */
  lemma {:induction false} OwnedPosition(next: Resolver, key: string, src: VarSource, req: RequestView, t: GoType, pos: nat)
    ensures var r := Resolve(VarInjector(next, key, pos), src, req, t, pos);
      && (key !in Vars(src, req) ==>
            r == ResolveFailed(Errorf(SentinelError(ArgumentResolution), "key '" + key + "' does not exist in mux vars")))
      && (key in Vars(src, req) && !AssignableTo(StringT, t) ==>
            r == ResolveFailed(Errorf(SentinelError(ArgumentResolution), "argument cannot be assigned to declared type")))
      && (key in Vars(src, req) && AssignableTo(StringT, t) ==> r == Resolved(Str(Vars(src, req)[key])))
  {
  }
}

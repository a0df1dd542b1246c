/** The part of Go's type system and of package reflect that the adapter
    consults: kinds, parameter and result lists, struct tags, method sets,
    `Implements` and `AssignableTo`.

    Method sets are given explicitly on named types (promoted methods of an
    embedded field included), and assignability is reduced to its two
    clauses that matter here: identical types, or an interface type that the
    value's type implements. */
module Reflect {

  /** One struct field: its name and the keys present in its struct tag. */
  datatype Field = Field(name: string, tagKeys: set<string>)

  datatype GoType =
    | FuncT(name: string, ins: seq<GoType>, outs: seq<GoType>)
    | StructT(name: string, fields: seq<Field>, methods: set<string>)
    | PtrT(elem: GoType, methods: set<string>)
    | StringT
    | MapT(key: GoType, elem: GoType)
    | InterfaceT(name: string, methods: set<string>)
    | BasicT(name: string)

  /** The predeclared `error` interface. */
  const ErrorType: GoType := InterfaceT("error", {"Error"})

  /** The `context.Context` interface. */
  const ContextType: GoType := InterfaceT("Context", {"Deadline", "Done", "Err", "Value"})

  /** reflect.Type.Name: the name of a defined type, "" for an unnamed one. */
  function Name(t: GoType): string {
    match t
    case FuncT(n, _, _) => n
    case StructT(n, _, _) => n
    case PtrT(_, _) => ""
    case StringT => "string"
    case MapT(_, _) => ""
    case InterfaceT(n, _) => n
    case BasicT(n) => n
  }

  /** reflect.Type.String, the `%v` text of a type (package qualifiers are not modelled). */
  function TypeString(t: GoType): string {
    match t
    case PtrT(e, _) => "*" + TypeString(e)
    case MapT(k, e) => "map[" + TypeString(k) + "]" + TypeString(e)
    case _ => Name(t)
  }

  /** The method set of a type; a pointer to a struct also has the struct's methods. */
  function MethodSet(t: GoType): set<string> {
    match t
    case StructT(_, _, ms) => ms
    case PtrT(e, ms) => if e.StructT? then ms + e.methods else ms
    case InterfaceT(_, ms) => ms
    case _ => {}
  }

  /** reflect.Type.Implements: every method the interface asks for is in t's method set. */
  predicate Implements(t: GoType, iface: GoType)
    requires iface.InterfaceT?
  {
    iface.methods <= MethodSet(t)
  }

  /** reflect.Type.AssignableTo, reduced to identity and interface satisfaction. */
  predicate AssignableTo(v: GoType, t: GoType) {
    v == t || (t.InterfaceT? && Implements(v, t))
  }

  /** A string can only be assigned to `string` or to an interface with no methods. */
  lemma StringAssignableTo(t: GoType)
    ensures AssignableTo(StringT, t) <==> t == StringT || (t.InterfaceT? && t.methods == {})
  {
  }
}

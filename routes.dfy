/** The route templates the pet server's router was generated from, and what it
    means to route a request against them: the first template whose literal
    structure fits the path decides the route, and that template's method table
    decides between dispatching to a handler and "method not allowed". Nothing
    fitting means "not found".

    This is the declarative reference the generated, hand-unrolled traversals in
    module Router are proved against. Strings stand for Go strings, one char per
    byte; every literal involved is ASCII. */
module RouteTable {

  datatype Option<T> = None | Some(value: T)

  /** The operations the server dispatches to. */
  datatype Op = AddPet | DeletePet | GetPetById | UpdatePet

  /** The ogen operation name, which Route.Name reports. */
  function Name(op: Op): string {
    match op
    case AddPet => "AddPet"
    case DeletePet => "DeletePet"
    case GetPetById => "GetPetById"
    case UpdatePet => "UpdatePet"
  }

  /** The OpenAPI operationId, which Route.OperationID reports. */
  function OperationId(op: Op): string {
    match op
    case AddPet => "addPet"
    case DeletePet => "deletePet"
    case GetPetById => "getPetById"
    case UpdatePet => "updatePet"
  }

  /** How many path parameters the operation's handler receives. */
  function ParamCount(op: Op): nat {
    if op == AddPet then 0 else 1
  }

  /** A route template: a literal path, optionally followed by one parameter
      that captures the whole rest of the path, and the methods the template
      accepts, listed in the order the Allow value names them. */
  datatype Template = Template(literal: string, trailingParam: bool, methods: seq<(string, Op)>)

  /** `/pet` and `/pet/{petId}`. */
  const PetRoutes: seq<Template> := [
    Template("/pet", false, [("POST", AddPet)]),
    Template("/pet/", true, [("DELETE", DeletePet), ("GET", GetPetById), ("POST", UpdatePet)])
  ]

  /** The three ways a request can be routed. */
  datatype Outcome = NotFound | NotAllowed(allowed: string) | Dispatch(op: Op, args: seq<string>)

  /** The parameter values template t extracts from path, or None when the
      path does not have the template's shape. A captured value is taken as
      it stands: neither unescaped nor split at further slashes. */
  function Captures(t: Template, path: string): (c: Option<seq<string>>)
    ensures c.Some? <==> if t.trailingParam then t.literal <= path else path == t.literal
    ensures c.Some? ==> |c.value| == if t.trailingParam then 1 else 0
    ensures c.Some? && t.trailingParam ==> t.literal + c.value[0] == path
  {
    if t.trailingParam then
      if t.literal <= path then Some([path[|t.literal|..]]) else None
    else
      if path == t.literal then Some([]) else None
  }

  /** The operation registered for method m: the first entry listing m.
      Method names compare exactly, so case matters. */
  function Lookup(methods: seq<(string, Op)>, m: string): (r: Option<Op>)
    ensures r.None? <==> forall i :: 0 <= i < |methods| ==> methods[i].0 != m
    ensures r.Some? ==>
      exists i :: 0 <= i < |methods| && methods[i] == (m, r.value) &&
        forall j :: 0 <= j < i ==> methods[j].0 != m
  {
    if methods == [] then None
    else if methods[0].0 == m then Some(methods[0].1)
    else Lookup(methods[1..], m)
  }

  /** The allowed-methods value of a 405 answer: the method names joined by
      commas, without spaces. */
  function Allowed(methods: seq<(string, Op)>): string {
    if methods == [] then ""
    else if |methods| == 1 then methods[0].0
    else methods[0].0 + "," + Allowed(methods[1..])
  }

  /** The method switch at a leaf whose path parameters are args. */
  function AtLeaf(t: Template, m: string, args: seq<string>): Outcome {
    match Lookup(t.methods, m)
    case Some(op) => Dispatch(op, args)
    case None => NotAllowed(Allowed(t.methods))
  }

  /** Routing against a table: the first template that fits the path decides. */
  function MatchIn(table: seq<Template>, m: string, path: string): (o: Outcome)
    ensures o.NotFound? <==> forall i :: 0 <= i < |table| ==> Captures(table[i], path).None?
    ensures !o.NotFound? ==>
      exists i :: 0 <= i < |table| && Captures(table[i], path).Some? &&
        (forall j :: 0 <= j < i ==> Captures(table[j], path).None?) &&
        o == AtLeaf(table[i], m, Captures(table[i], path).value)
  {
    if table == [] then NotFound
    else match Captures(table[0], path)
      case Some(args) => AtLeaf(table[0], m, args)
      case None => MatchIn(table[1..], m, path)
  }

  /** In a table where the templates fitting path are exactly table[k], the
      order of the table does not matter: table[k] decides. */
  lemma MatchInUnique(table: seq<Template>, m: string, path: string, k: nat)
    requires k < |table| && Captures(table[k], path).Some?
    requires forall i :: 0 <= i < |table| && i != k ==> Captures(table[i], path).None?
    ensures MatchIn(table, m, path) == AtLeaf(table[k], m, Captures(table[k], path).value)
  {
  }

  /** The allowed-methods values of the two leaves. */
  lemma PetAllowed()
    ensures Allowed(PetRoutes[0].methods) == "POST"
    ensures Allowed(PetRoutes[1].methods) == "DELETE,GET,POST"
  {
  }

  /** No path fits both `/pet` and `/pet/{petId}`. */
  lemma PetRoutesDisjoint(path: string)
    ensures Captures(PetRoutes[0], path).None? || Captures(PetRoutes[1], path).None?
  {
  }

  /** Routing against the pet server's table. Every dispatch carries exactly
      as many arguments as its operation takes, so at most one. */
  function Match(m: string, path: string): (o: Outcome)
    ensures o.Dispatch? ==> |o.args| == ParamCount(o.op) <= 1
  {
    var o := MatchIn(PetRoutes, m, path);
    assert o.Dispatch? ==> |o.args| == ParamCount(o.op) by {
      if o.Dispatch? {
        var i :| 0 <= i < |PetRoutes| && Captures(PetRoutes[i], path).Some? &&
          o == AtLeaf(PetRoutes[i], m, Captures(PetRoutes[i], path).value);
        assert i == 0 || i == 1;
      }
    }
    o
  }

  /** An empty path is never a route: it is not found, never "not allowed". */
  lemma EmptyPathNotFound(m: string)
    ensures Match(m, "") == NotFound
  {
  }

  /** Exactly `/pet`: POST adds a pet, with no arguments; every other method
      is refused with the allowed value "POST". */
  lemma ExactPet(m: string)
    ensures Match(m, "/pet") == if m == "POST" then Dispatch(AddPet, []) else NotAllowed("POST")
  {
  }

  /** `/pet/` followed by any rest, empty or holding further slashes: DELETE,
      GET and POST reach DeletePet, GetPetById and UpdatePet with the rest as
      the single argument, unchanged; every other method is refused with the
      allowed value "DELETE,GET,POST". */
  lemma PetWithId(m: string, rest: string)
    ensures Match(m, "/pet/" + rest) ==
      if m == "DELETE" then Dispatch(DeletePet, [rest])
      else if m == "GET" then Dispatch(GetPetById, [rest])
      else if m == "POST" then Dispatch(UpdatePet, [rest])
      else NotAllowed("DELETE,GET,POST")
  {
    var path := "/pet/" + rest;
    assert path != "/pet" by { assert |path| != |"/pet"|; }
    assert "/pet/" <= path;
    assert path[5..] == rest;
    PetAllowed();
    MatchInUnique(PetRoutes, m, path, 1);
  }

  /** A path is not found exactly when it is neither `/pet` nor starts with
      `/pet/` — so, in particular, when it does not start with the
      case-sensitive `/pet` or when `/pet` is followed by anything but a slash. */
  lemma NotFoundExactly(m: string, path: string)
    ensures Match(m, path) == NotFound <==> path != "/pet" && !("/pet/" <= path)
  {
    assert |PetRoutes| == 2;
    assert Captures(PetRoutes[0], path).None? <==> path != "/pet";
    assert Captures(PetRoutes[1], path).None? <==> !("/pet/" <= path);
  }

  /** The method is refused exactly when the path has a leaf's shape and the
      method is not one that leaf lists. */
  lemma NotAllowedExactly(m: string, path: string)
    ensures Match(m, path).NotAllowed? <==>
      (path == "/pet" && m != "POST") ||
      ("/pet/" <= path && m != "DELETE" && m != "GET" && m != "POST")
  {
    if path == "/pet" {
      ExactPet(m);
    } else if "/pet/" <= path {
      assert path == "/pet/" + path[5..];
      PetWithId(m, path[5..]);
    } else {
      NotFoundExactly(m, path);
    }
  }

  /** Requests that reach a handler, as the router decides them. */
  lemma DispatchExamples()
    ensures Match("GET", "/pet/42") == Dispatch(GetPetById, ["42"])
    ensures Match("DELETE", "/pet/abc") == Dispatch(DeletePet, ["abc"])
    ensures Match("GET", "/pet/") == Dispatch(GetPetById, [""])
    ensures Match("GET", "/pet/42/extra") == Dispatch(GetPetById, ["42/extra"])
  {
    assert "/pet/42" == "/pet/" + "42";
    PetWithId("GET", "42");
    assert "/pet/abc" == "/pet/" + "abc";
    PetWithId("DELETE", "abc");
    assert "/pet/" == "/pet/" + "";
    PetWithId("GET", "");
    assert "/pet/42/extra" == "/pet/" + "42/extra";
    PetWithId("GET", "42/extra");
  }

  /** Requests that are refused, as the router decides them. */
  lemma RefusalExamples()
    ensures Match("PUT", "/pet/42") == NotAllowed("DELETE,GET,POST")
    ensures Match("get", "/pet/42") == NotAllowed("DELETE,GET,POST")
    ensures Match("GET", "/pet") == NotAllowed("POST")
  {
    assert "/pet/42" == "/pet/" + "42";
    PetWithId("PUT", "42");
    PetWithId("get", "42");
    ExactPet("GET");
  }

  /** Paths that are not found: a wrong case, a longer word, no slash. */
  lemma NotFoundExamples()
    ensures Match("GET", "/pets") == NotFound
    ensures Match("GET", "/PET/42") == NotFound
    ensures Match("GET", "x") == NotFound
  {
    assert "/pets"[4] != "/pet/"[4];
    NotFoundExactly("GET", "/pets");
    assert "/PET/42"[1] != "/pet/"[1];
    NotFoundExactly("GET", "/PET/42");
    NotFoundExactly("GET", "x");
  }

  /** Operation names and operation ids are non-empty, and each names one
      operation only. */
  lemma NamesUnique(a: Op, b: Op)
    ensures Name(a) != "" && OperationId(a) != ""
    ensures Name(a) == Name(b) ==> a == b
    ensures OperationId(a) == OperationId(b) ==> a == b
  {
  }
}

/** The generated request router of the pet server: ServeHTTP, which decides
    how a request is answered, and FindRoute, which reports route metadata
    without answering. Both are written the way the generated code works — a
    cursor `elem` that literals are cut off, a one-slot argument array — and
    proved equal to routing against the declarative table of RouteTable.

    The handlers, the not-found answer and the method-not-allowed answer are
    defined outside this file; here they are the constructors of Outcome. */
module Router {
  import opened RouteTable

  /** The fixed one-slot argument array of a Route. */
  type ArgArray = a: seq<string> | |a| == 1 witness [""]

  /** How many slots of the argument array were parsed: no route has more
      parameters than the array has slots. */
  type ArgCount = c: int | 0 <= c <= 1

  /** Route metadata as FindRoute reports it: the operation's name and
      OpenAPI operationId, and the argument array of which the first count
      entries were parsed. */
  datatype Route = Route(name: string, operationID: string, count: ArgCount, args: ArgArray) {

    function Name(): string {
      name
    }

    function OperationID(): string {
      operationID
    }

    /** The parsed arguments: the first count slots. */
    function Args(): (a: seq<string>)
      ensures |a| == count && a <= args
    {
      args[..count]
    }
  }

  /** The zero Route with an empty argument slot: what FindRoute returns
      whenever it finds nothing. */
  const ZeroRoute := Route("", "", 0, [""])

  /** The path the table is matched against once the configured prefix is cut
      off, or None when a non-empty prefix does not begin the path. The prefix
      is removed once; an empty prefix leaves the path alone. */
  function StripPrefix(prefix: string, path: string): (rest: Option<string>)
    ensures rest.None? <==> !(prefix <= path)
    ensures rest.Some? ==> prefix + rest.value == path
  {
    if |prefix| > 0 then
      if prefix <= path then Some(path[|prefix|..]) else None
    else
      Some(path)
  }

  /** What ServeHTTP does with a request, given the configured prefix: a
      path not starting with the prefix is not found, and any other path is
      routed on what follows the prefix alone. */
  function Serve(prefix: string, m: string, path: string): (o: Outcome)
    ensures !(prefix <= path) ==> o == NotFound
    ensures prefix <= path ==> o == Match(m, path[|prefix|..])
  {
    match StripPrefix(prefix, path)
    case None => NotFound
    case Some(rest) => Match(m, rest)
  }

  /** What FindRoute reports about a routing outcome: the dispatched
      operation's metadata and arguments, or the zero route and false. */
  function Metadata(o: Outcome): (res: (Route, bool))
    requires o.Dispatch? ==> |o.args| <= 1
    ensures res.1 <==> o.Dispatch?
    ensures o.Dispatch? ==>
      res.0.Name() == Name(o.op) && res.0.OperationID() == OperationId(o.op) && res.0.Args() == o.args
    ensures !o.Dispatch? ==> res.0 == ZeroRoute
  {
    if o.Dispatch? then
      (Route(Name(o.op), OperationId(o.op), |o.args|, if o.args == [] then [""] else o.args), true)
    else
      (ZeroRoute, false)
  }

  /** Putting the prefix in front of a path and serving it is routing the
      path itself. */
  lemma ServeUnderPrefix(prefix: string, m: string, rest: string)
    ensures Serve(prefix, m, prefix + rest) == Match(m, rest)
  {
  }

  /** A path that is exactly the prefix leaves nothing to route: not found,
      never "not allowed". */
  lemma ServeBarePrefix(prefix: string, m: string)
    ensures Serve(prefix, m, prefix) == NotFound
  {
  }

  /** With no prefix configured, FindRoute finds a route exactly when
      ServeHTTP dispatches to a handler; the route's name and operationId are
      that handler's operation's, its count is the operation's parameter
      count, and Args() are the arguments the handler receives. */
  lemma Agreement(m: string, path: string)
    ensures Serve("", m, path) == Match(m, path)
    ensures Metadata(Match(m, path)).1 <==> Serve("", m, path).Dispatch?
    ensures Serve("", m, path).Dispatch? ==>
      var r := Metadata(Match(m, path)).0;
      var o := Serve("", m, path);
      r.Name() == Name(o.op) && r.OperationID() == OperationId(o.op) &&
      r.count == ParamCount(o.op) && |r.args| == 1 && r.Args() == o.args
    ensures !Serve("", m, path).Dispatch? ==> Metadata(Match(m, path)).0 == ZeroRoute
  {
  }

  /** Names and operationIds of found routes are never empty, and two found
      routes with the same name, or the same operationId, are routes to the
      same operation. */
  lemma FoundRouteNamesUnique(o1: Outcome, o2: Outcome)
    requires o1.Dispatch? && |o1.args| <= 1
    requires o2.Dispatch? && |o2.args| <= 1
    ensures Metadata(o1).0.Name() != "" && Metadata(o1).0.OperationID() != ""
    ensures Metadata(o1).0.Name() == Metadata(o2).0.Name() ==> o1.op == o2.op
    ensures Metadata(o1).0.OperationID() == Metadata(o2).0.OperationID() ==> o1.op == o2.op
  {
  }

  /** The server; only its configured path prefix matters to routing. */
  class Server {
    const prefix: string

    constructor (prefix: string)
      ensures this.prefix == prefix
    {
      this.prefix := prefix;
    }

    /** Decides how a request is answered: by one of the four handlers with
        the path arguments, by "method not allowed" with the allowed
        methods, or by "not found". */
    method ServeHTTP(httpMethod: string, path: string) returns (o: Outcome)
      ensures o == Serve(prefix, httpMethod, path)
    {
      var elem := path;
      if |prefix| > 0 {
        if prefix <= elem {
          elem := elem[|prefix|..];
        } else {
          return NotFound;
        }
      }
      if |elem| == 0 {
        EmptyPathNotFound(httpMethod);
        return NotFound;
      }
      var args := new string[1](_ => "");
      ghost var routed := elem;

      // The generated code tests for an empty elem once more here; it cannot
      // be empty at this point.
      if elem[0] == '/' {
        if |elem| >= 4 && elem[..4] == "/pet" {
          assert routed == "/pet" + elem[4..];
          elem := elem[4..];
        } else {
          NotFoundExactly(httpMethod, routed);
          return NotFound;
        }
        if |elem| == 0 {
          ExactPet(httpMethod);
          if httpMethod == "POST" {
            return Dispatch(AddPet, []);
          } else {
            return NotAllowed("POST");
          }
        }
        if elem[0] == '/' {
          // elem begins with "/", so cutting that literal cannot fail.
          assert routed == "/pet/" + elem[1..];
          elem := elem[1..];
          // Leaf parameter petId: it takes the whole rest of the path.
          args[0] := elem;
          elem := "";
          // The generated code tests for an empty elem once more here; it
          // was just emptied.
          PetWithId(httpMethod, args[0]);
          if httpMethod == "DELETE" {
            return Dispatch(DeletePet, [args[0]]);
          } else if httpMethod == "GET" {
            return Dispatch(GetPetById, [args[0]]);
          } else if httpMethod == "POST" {
            return Dispatch(UpdatePet, [args[0]]);
          } else {
            return NotAllowed("DELETE,GET,POST");
          }
        }
      }
      NotFoundExactly(httpMethod, routed);
      return NotFound;
    }

    /** Finds the route a request would take, without calling a handler and
        without regard to the configured prefix: the route's metadata and
        true, or the zero route and false. */
    method FindRoute(httpMethod: string, path: string) returns (r: Route, found: bool)
      ensures (r, found) == Metadata(Match(httpMethod, path))
    {
      var args := new string[1](_ => "");
      var elem := path;
      r := Route("", "", 0, args[..]);
      assert r == ZeroRoute by { assert args[..] == [args[0]]; }
      if elem == "" {
        EmptyPathNotFound(httpMethod);
        return r, false;
      }
      ghost var routed := elem;

      if elem[0] == '/' {
        if |elem| >= 4 && elem[..4] == "/pet" {
          assert routed == "/pet" + elem[4..];
          elem := elem[4..];
        } else {
          NotFoundExactly(httpMethod, routed);
          return r, false;
        }
        if |elem| == 0 {
          ExactPet(httpMethod);
          if httpMethod == "POST" {
            assert args[..] == [""] by { assert args[..] == [args[0]]; }
            r := r.(name := "AddPet", operationID := "addPet", args := args[..], count := 0);
            return r, true;
          } else {
            return r, false;
          }
        }
        if elem[0] == '/' {
          assert routed == "/pet/" + elem[1..];
          elem := elem[1..];
          args[0] := elem;
          elem := "";
          PetWithId(httpMethod, args[0]);
          assert args[..] == [args[0]];
          if httpMethod == "DELETE" {
            r := r.(name := "DeletePet", operationID := "deletePet", args := args[..], count := 1);
            return r, true;
          } else if httpMethod == "GET" {
            r := r.(name := "GetPetById", operationID := "getPetById", args := args[..], count := 1);
            return r, true;
          } else if httpMethod == "POST" {
            r := r.(name := "UpdatePet", operationID := "updatePet", args := args[..], count := 1);
            return r, true;
          } else {
            return r, false;
          }
        }
      }
      NotFoundExactly(httpMethod, routed);
      return r, false;
    }
  }
}

/**
 * Clients of the bound AST: what a binder can establish from the constructors'
 * contracts alone, and what a generator may then rely on.
 */
module Scenarios {
  import opened Wrappers
  import opened Errors
  import opened Ast

  /**
   * A struct `Point` with a required scalar field `x` and an optional field `y`
   * defaulting to `0`: well formed, with its fields in declaration order.
   */
  method BindPoint() returns (point: Struct)
    ensures point.Valid()
    ensures point.name == Some("Point") && point.strict
    ensures point.FieldNames() == ["x", "y"]
    ensures !point.fields[0].optional && point.fields[1].optional
    ensures point.fields[1].defaultValue == Some("0")
    ensures point.fields[0].ResolvedType() == CppTyped("std::int32_t")
  {
    var x := new Field("point.idl", 5, 4);
    x.name := Some("x");
    x.cppType := Some("std::int32_t");
    var y := new Field("point.idl", 8, 4);
    y.name := Some("y");
    y.cppType := Some("std::int32_t");
    y.optional := true;
    y.defaultValue := Some("0");
    point := new Struct("point.idl", 3, 2);
    point.name := Some("Point");
    point.fields := [x, y];
    assert point.fields[0] == x && point.fields[1] == y;
  }

  /** A failed bind carries its errors and no document; the generator sees no success. */
  method BindFailed(errors: ParserErrorCollection) returns (result: IDLBoundSpec)
    ensures result.Valid() && !result.IsSuccess()
    ensures result.errors == Some(errors) && result.spec.None?
  {
    result := new IDLBoundSpec(None, Some(errors));
  }

  /**
   * A parameter without a C++ variable, given its three hooks, is well formed and
   * is stored through them.
   */
  method BindHookParameter() returns (p: ServerParameter)
    ensures p.Valid()
    ensures p.Storage() == Hooks("fromBson", "appendBson", "fromString")
  {
    p := new ServerParameter("params.idl", 10, 4);
    p.name := Some("traceLevel");
    p.fromBson := Some("fromBson");
    p.appendBson := Some("appendBson");
    p.fromString := Some("fromString");
  }
}

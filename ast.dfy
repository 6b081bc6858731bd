/**
 * The bound IDL AST: the records the binder fills in after type resolution and the
 * code generator then reads (buildscripts/idl/idl/ast.py).
 *
 * Every Python class becomes a Dafny class whose constructor sets the same defaults
 * as `__init__`; every attribute the source initialises to `None` is an `Option`.
 * The well-formedness rules the source states in its doc comments become `Valid()`
 * predicates, each reading exactly the objects it inspects (`Footprint()`).
 */
module Ast {
  import opened Wrappers
  import opened Common
  import opened Errors

  /** The objects held by an optional reference. */
  function ObjectsOf<T(==)>(o: Option<T>): (s: set<T>)
    ensures o.Some? ==> s == {o.value}
    ensures o.None? ==> s == {}
  {
    if o.Some? then {o.value} else {}
  }

  // ---------------------------------------------------------------------------
  // Bind result and root container
  // ---------------------------------------------------------------------------

  /** A bound IDL document, or the errors that stopped the bind. */
  class IDLBoundSpec {
    var spec: Option<IDLAST>
    var errors: Option<ParserErrorCollection>

    /** Exactly one of the document and the error collection is present. */
    predicate Valid()
      reads this
    {
      spec.Some? != errors.Some?
    }

    /** The Python constructor asserts the exclusive choice; both or neither fails. */
    constructor (spec: Option<IDLAST>, errorCollection: Option<ParserErrorCollection>)
      requires (spec.None? && errorCollection.Some?) || (spec.Some? && errorCollection.None?)
      ensures this.spec == spec && errors == errorCollection
      ensures Valid()
    {
      this.spec := spec;
      errors := errorCollection;
    }

    /** Whether the bind succeeded: then there is a document and no errors, else the reverse. */
    function IsSuccess(): (ok: bool)
      reads this
      requires Valid()
      ensures ok <==> spec.Some?
      ensures ok <==> errors.None?
    {
      spec.Some?
    }
  }

  /** The in-memory representation of one IDL file. */
  class IDLAST {
    var globals: Option<Global>
    var commands: seq<Command>
    var enums: seq<Enum>
    var structs: seq<Struct>
    var serverParameters: seq<ServerParameter>
    var configs: seq<ConfigOption>

    constructor ()
      ensures globals.None?
      ensures commands == [] && enums == [] && structs == []
      ensures serverParameters == [] && configs == []
    {
      globals := None;
      commands := [];
      enums := [];
      structs := [];
      serverParameters := [];
      configs := [];
    }

    /** Every object the validity of the document depends on. */
    function Footprint(): (r: set<object>)
      reads this, structs, commands, enums, serverParameters, configs
      reads set i, j | 0 <= i < |structs| && 0 <= j < |structs[i].fields| :: structs[i].fields[j]
      reads set i | 0 <= i < |commands| :: commands[i].base
      reads set i, j | 0 <= i < |commands| && 0 <= j < |commands[i].base.fields| :: commands[i].base.fields[j]
      reads set i, f | 0 <= i < |commands| && f in ObjectsOf(commands[i].commandField) :: f
      ensures this in r
      ensures forall i :: 0 <= i < |structs| ==> structs[i].Footprint() <= r
      ensures forall i :: 0 <= i < |commands| ==> commands[i].Footprint() <= r
      ensures forall i :: 0 <= i < |enums| ==> enums[i].Footprint() <= r
      ensures forall i :: 0 <= i < |serverParameters| ==> serverParameters[i].Footprint() <= r
      ensures forall i :: 0 <= i < |configs| ==> configs[i].Footprint() <= r
    {
      var r := {this}
        + (set i, o: object | 0 <= i < |structs| && o in structs[i].Footprint() :: o)
        + (set i, o: object | 0 <= i < |commands| && o in commands[i].Footprint() :: o)
        + (set i, o: object | 0 <= i < |enums| && o in enums[i].Footprint() :: o)
        + (set i, o: object | 0 <= i < |serverParameters| && o in serverParameters[i].Footprint() :: o)
        + (set i, o: object | 0 <= i < |configs| && o in configs[i].Footprint() :: o);
      r
    }

    /** Every struct, command, enum, server parameter and config option is well formed. */
    predicate Valid()
      reads Footprint()
    {
      (forall i :: 0 <= i < |structs| ==> structs[i].Valid()) &&
      (forall i :: 0 <= i < |commands| ==> commands[i].Valid()) &&
      (forall i :: 0 <= i < |enums| ==> enums[i].Valid()) &&
      (forall i :: 0 <= i < |serverParameters| ==> serverParameters[i].Valid()) &&
      (forall i :: 0 <= i < |configs| ==> configs[i].Valid())
    }
  }

  /** The document's global options; `cppNamespace`/`cppIncludes` only when the document has them. */
  class Global {
    var location: SourceLocation
    var cppNamespace: Option<string>
    var cppIncludes: seq<string>
    var configs: Option<ConfigGlobal>

    constructor (fileName: string, line: int, column: int)
      ensures location == SourceLocation(fileName, line, column)
      ensures cppNamespace.None? && cppIncludes == [] && configs.None?
    {
      cppNamespace := None;
      cppIncludes := [];
      configs := None;
      location := SourceLocation(fileName, line, column);
    }
  }

  // ---------------------------------------------------------------------------
  // Structs, fields and commands
  // ---------------------------------------------------------------------------

  /** A struct: its policy flags and its fields in declaration order. */
  class Struct {
    var location: SourceLocation
    var name: Option<string>
    var cppName: Option<string>
    var description: Option<string>
    var strict: bool
    var immutable: bool
    var inlineChainedStructs: bool
    var generateComparisonOperators: bool
    var fields: seq<Field>

    constructor (fileName: string, line: int, column: int)
      ensures location == SourceLocation(fileName, line, column)
      ensures name.None? && cppName.None? && description.None?
      ensures strict && !immutable && !inlineChainedStructs && !generateComparisonOperators
      ensures fields == []
    {
      name := None;
      cppName := None;
      description := None;
      strict := true;
      immutable := false;
      inlineChainedStructs := false;
      generateComparisonOperators := false;
      fields := [];
      location := SourceLocation(fileName, line, column);
    }

    function Footprint(): (r: set<object>)
      reads this, fields
      ensures this in r
      ensures forall i :: 0 <= i < |fields| ==> fields[i].Footprint() <= r
    {
      {this}
        + (set i | 0 <= i < |fields| :: fields[i] as object)
        + (set i, v | 0 <= i < |fields| && v in ObjectsOf(fields[i].validator) :: v as object)
    }

    /** Every field is well formed, and is either required or has a default. */
    predicate Valid()
      reads Footprint()
    {
      forall i :: 0 <= i < |fields| ==> fields[i].Valid() && fields[i].RequiredOrDefaulted()
    }

    /** The field names in declaration order, as the generator walks them. */
    function FieldNames(): (names: seq<string>)
      reads Footprint()
      requires Valid()
      ensures |names| == |fields|
      ensures forall i :: 0 <= i < |fields| ==> fields[i].name == Some(names[i])
    {
      seq(|fields|, i requires 0 <= i < |fields| && fields[i].name.Some? reads this, fields => fields[i].name.value)
    }
  }

  /** Which kind of type a well-formed field resolved to. */
  datatype FieldType = StructTyped(structName: string) | CppTyped(cppTypeName: string)

  /** One field of a struct or command. */
  class Field {
    var location: SourceLocation
    var name: Option<string>
    var description: Option<string>
    var cppName: Option<string>
    var optional: bool
    var ignore: bool
    var chained: bool
    var comparisonOrder: int

    // Properties of fields whose type is a scalar or custom type.
    var cppType: Option<string>
    var bsonSerializationType: Option<seq<string>>
    var serializer: Option<string>
    var deserializer: Option<string>
    var bindataSubtype: Option<string>
    var defaultValue: Option<string>

    // Properties of fields whose type is a struct.
    var structType: Option<string>

    // Properties of array fields.
    var isArray: bool
    var supportsDocSequence: bool

    // Properties of enum fields.
    var enumType: bool

    // The originating field when this one is inlined from a chained struct.
    var chainedStructField: Option<Field>

    // Generator hints set by the binder, not by the parser.
    var serializeOpMsgRequestOnly: bool
    var constructed: bool

    var validator: Option<Validator>

    constructor (fileName: string, line: int, column: int)
      ensures location == SourceLocation(fileName, line, column)
      ensures name.None? && description.None? && cppName.None?
      ensures !optional && !ignore && !chained && comparisonOrder == -1
      ensures cppType.None? && bsonSerializationType.None? && serializer.None?
      ensures deserializer.None? && bindataSubtype.None? && defaultValue.None?
      ensures structType.None? && !isArray && !supportsDocSequence && !enumType
      ensures chainedStructField.None? && !serializeOpMsgRequestOnly && !constructed
      ensures validator.None?
    {
      name := None;
      description := None;
      cppName := None;
      optional := false;
      ignore := false;
      chained := false;
      comparisonOrder := -1;
      cppType := None;
      bsonSerializationType := None;
      serializer := None;
      deserializer := None;
      bindataSubtype := None;
      defaultValue := None;
      structType := None;
      isArray := false;
      supportsDocSequence := false;
      enumType := false;
      chainedStructField := None;
      serializeOpMsgRequestOnly := false;
      constructed := false;
      validator := None;
      location := SourceLocation(fileName, line, column);
    }

    function Footprint(): (r: set<object>)
      reads this
      ensures this in r
      ensures validator.Some? ==> validator.value in r
    {
      {this} + ObjectsOf(validator)
    }

    /**
     * The name is populated, the field has a struct type or a C++ type but not both,
     * and an attached validator is itself well formed.
     */
    predicate Valid()
      reads Footprint()
    {
      name.Some? &&
      (structType.Some? != cppType.Some?) &&
      (validator.Some? ==> validator.value.Valid())
    }

    /** The field must be present in a document unless it has a default. */
    predicate RequiredOrDefaulted()
      reads this
    {
      !optional || defaultValue.Some?
    }

    /** The one type a well-formed field resolved to. */
    function ResolvedType(): (t: FieldType)
      reads Footprint()
      requires Valid()
      ensures t.StructTyped? <==> structType.Some?
      ensures t.CppTyped? <==> cppType.Some?
      ensures t.StructTyped? ==> structType == Some(t.structName)
      ensures t.CppTyped? ==> cppType == Some(t.cppTypeName)
    {
      if structType.Some? then StructTyped(structType.value) else CppTyped(cppType.value)
    }
  }

  /**
   * A command: a struct (held as `base`, which plays the role of the Python base
   * class) plus its namespace and its dedicated command field.
   */
  class Command {
    const base: Struct
    var namespace: Option<string>
    var commandField: Option<Field>

    constructor (fileName: string, line: int, column: int)
      ensures fresh(base)
      ensures base.location == SourceLocation(fileName, line, column)
      ensures base.name.None? && base.cppName.None? && base.description.None?
      ensures base.strict && !base.immutable && !base.inlineChainedStructs
      ensures !base.generateComparisonOperators && base.fields == []
      ensures namespace.None? && commandField.None?
    {
      namespace := None;
      commandField := None;
      base := new Struct(fileName, line, column);
    }

    function Footprint(): (r: set<object>)
      reads this, base, base.fields, ObjectsOf(commandField)
      ensures this in r && base.Footprint() <= r
      ensures commandField.Some? ==> commandField.value.Footprint() <= r
    {
      {this} + base.Footprint()
        + (set f, o: object | f in ObjectsOf(commandField) && o in f.Footprint() :: o)
    }

    /** Every field, the command field included, is well formed and required or defaulted. */
    predicate Valid()
      reads Footprint()
    {
      base.Valid() &&
      (commandField.Some? ==> commandField.value.Valid() && commandField.value.RequiredOrDefaulted())
    }
  }

  // ---------------------------------------------------------------------------
  // Validators
  // ---------------------------------------------------------------------------

  /** One validation predicate a validator can carry. */
  datatype Predicate =
    | GreaterThan(bound: int)
    | LessThan(bound: int)
    | GreaterThanOrEqual(bound: int)
    | LessThanOrEqual(bound: int)
    | Callback(callbackName: string)

  /**
   * Whether `p` accepts `x`. The named C++ callback is not visible here:
   * `callbackAccepts(name, x)` stands for what calling it on `x` returns.
   */
  predicate Holds(p: Predicate, x: int, callbackAccepts: (string, int) -> bool)
  {
    match p
    case GreaterThan(b) => x > b
    case LessThan(b) => x < b
    case GreaterThanOrEqual(b) => x >= b
    case LessThanOrEqual(b) => x <= b
    case Callback(name) => callbackAccepts(name, x)
  }

  /** Evaluates the predicates one after the other; `x` passes when each of them holds. */
  predicate AllHold(ps: seq<Predicate>, x: int, callbackAccepts: (string, int) -> bool)
  {
    ps == [] || (Holds(ps[0], x, callbackAccepts) && AllHold(ps[1..], x, callbackAccepts))
  }

  lemma {:induction false} AllHoldEach(ps: seq<Predicate>, x: int, callbackAccepts: (string, int) -> bool)
    ensures AllHold(ps, x, callbackAccepts) <==> forall p :: p in ps ==> Holds(p, x, callbackAccepts)
  {
    if ps != [] {
      AllHoldEach(ps[1..], x, callbackAccepts);
      assert forall p :: p in ps <==> p == ps[0] || p in ps[1..];
    }
  }

  /** The greater of two optional bounds, absent only when both are. */
  function MaxBound(a: Option<int>, b: Option<int>): (m: Option<int>)
    ensures m.None? <==> a.None? && b.None?
    ensures m.Some? ==> (a.Some? ==> a.value <= m.value) && (b.Some? ==> b.value <= m.value)
    ensures m.Some? ==> m == a || m == b
  {
    if a.None? then b
    else if b.None? then a
    else if a.value >= b.value then a else b
  }

  /** The smaller of two optional bounds, absent only when both are. */
  function MinBound(a: Option<int>, b: Option<int>): (m: Option<int>)
    ensures m.None? <==> a.None? && b.None?
    ensures m.Some? ==> (a.Some? ==> m.value <= a.value) && (b.Some? ==> m.value <= b.value)
    ensures m.Some? ==> m == a || m == b
  {
    if a.None? then b
    else if b.None? then a
    else if a.value <= b.value then a else b
  }

  /** The validation rules attached to a field, server parameter or config option. */
  class Validator {
    var location: SourceLocation
    var gt: Option<int>
    var lt: Option<int>
    var gte: Option<int>
    var lte: Option<int>
    var callback: Option<string>

    constructor (fileName: string, line: int, column: int)
      ensures location == SourceLocation(fileName, line, column)
      ensures gt.None? && lt.None? && gte.None? && lte.None? && callback.None?
    {
      gt := None;
      lt := None;
      gte := None;
      lte := None;
      callback := None;
      location := SourceLocation(fileName, line, column);
    }

    /** A validator carries at least one predicate. */
    predicate Valid()
      reads this
    {
      gt.Some? || lt.Some? || gte.Some? || lte.Some? || callback.Some?
    }

    /** Whether `p` is one of the predicates this validator was given. */
    predicate Carries(p: Predicate)
      reads this
    {
      match p
      case GreaterThan(b) => gt == Some(b)
      case LessThan(b) => lt == Some(b)
      case GreaterThanOrEqual(b) => gte == Some(b)
      case LessThanOrEqual(b) => lte == Some(b)
      case Callback(name) => callback == Some(name)
    }

    /** The predicates this validator was given, in the order the source declares them. */
    function Predicates(): (ps: seq<Predicate>)
      reads this
      ensures forall p :: p in ps <==> Carries(p)
      ensures |ps| > 0 <==> Valid()
      ensures |ps| <= 5
    {
      (if gt.Some? then [GreaterThan(gt.value)] else [])
        + (if lt.Some? then [LessThan(lt.value)] else [])
        + (if gte.Some? then [GreaterThanOrEqual(gte.value)] else [])
        + (if lte.Some? then [LessThanOrEqual(lte.value)] else [])
        + (if callback.Some? then [Callback(callback.value)] else [])
    }

    /** Whether `x` satisfies every numeric bound present. */
    predicate InBounds(x: int)
      reads this
    {
      (gt.Some? ==> x > gt.value) &&
      (lt.Some? ==> x < lt.value) &&
      (gte.Some? ==> x >= gte.value) &&
      (lte.Some? ==> x <= lte.value)
    }

    /** Whether `x` passes the validator: the bounds and the callback, when present, all hold. */
    predicate Accepts(x: int, callbackAccepts: (string, int) -> bool)
      reads this
    {
      InBounds(x) && (callback.Some? ==> callbackAccepts(callback.value, x))
    }

    /** The least integer the bounds admit, if they bound from below. */
    function LowerBound(): (lo: Option<int>)
      reads this
      ensures lo.None? <==> gt.None? && gte.None?
    {
      MaxBound(if gt.Some? then Some(gt.value + 1) else None, gte)
    }

    /** The greatest integer the bounds admit, if they bound from above. */
    function UpperBound(): (hi: Option<int>)
      reads this
      ensures hi.None? <==> lt.None? && lte.None?
    {
      MinBound(if lt.Some? then Some(lt.value - 1) else None, lte)
    }
  }

  /** Accepting a value is the conjunction of the predicates the validator carries. */
  lemma AcceptsIffAllPredicatesHold(v: Validator, x: int, callbackAccepts: (string, int) -> bool)
    ensures v.Accepts(x, callbackAccepts) <==> AllHold(v.Predicates(), x, callbackAccepts)
  {
    var ps := v.Predicates();
    AllHoldEach(ps, x, callbackAccepts);
    if v.gt.Some? { assert GreaterThan(v.gt.value) in ps; }
    if v.lt.Some? { assert LessThan(v.lt.value) in ps; }
    if v.gte.Some? { assert GreaterThanOrEqual(v.gte.value) in ps; }
    if v.lte.Some? { assert LessThanOrEqual(v.lte.value) in ps; }
    if v.callback.Some? { assert Callback(v.callback.value) in ps; }
  }

  /** Without any predicate a validator would let every value through. */
  lemma EmptyValidatorAcceptsAll(v: Validator, x: int, callbackAccepts: (string, int) -> bool)
    requires !v.Valid()
    ensures v.Accepts(x, callbackAccepts)
    ensures v.Predicates() == []
  {
  }

  /** On integers the numeric bounds admit exactly the interval [LowerBound, UpperBound]. */
  lemma InBoundsIffWithinInterval(v: Validator, x: int)
    ensures v.InBounds(x) <==>
      (v.LowerBound().Some? ==> v.LowerBound().value <= x) &&
      (v.UpperBound().Some? ==> x <= v.UpperBound().value)
  {
  }

  /** The numeric bounds admit some value exactly when the interval they describe is not empty. */
  lemma BoundsSatisfiable(v: Validator)
    ensures (exists x :: v.InBounds(x)) <==>
      !(v.LowerBound().Some? && v.UpperBound().Some? && v.LowerBound().value > v.UpperBound().value)
  {
    var lo, hi := v.LowerBound(), v.UpperBound();
    if !(lo.Some? && hi.Some? && lo.value > hi.value) {
      var x := if lo.Some? then lo.value else if hi.Some? then hi.value else 0;
      InBoundsIffWithinInterval(v, x);
      assert v.InBounds(x);
    } else {
      forall x ensures !v.InBounds(x) {
        InBoundsIffWithinInterval(v, x);
      }
    }
  }

  /**
   * Setting further predicates only narrows what a validator accepts: if `w` carries
   * every predicate `v` carries, whatever `w` accepts `v` accepts.
   */
  lemma MorePredicatesAcceptLess(v: Validator, w: Validator, x: int, callbackAccepts: (string, int) -> bool)
    requires forall p :: v.Carries(p) ==> w.Carries(p)
    requires w.Accepts(x, callbackAccepts)
    ensures v.Accepts(x, callbackAccepts)
  {
    AcceptsIffAllPredicatesHold(v, x, callbackAccepts);
    AcceptsIffAllPredicatesHold(w, x, callbackAccepts);
    AllHoldEach(v.Predicates(), x, callbackAccepts);
    AllHoldEach(w.Predicates(), x, callbackAccepts);
  }

  // ---------------------------------------------------------------------------
  // Enums
  // ---------------------------------------------------------------------------

  /** One named value of an enum. */
  class EnumValue {
    var location: SourceLocation
    var name: Option<string>
    var value: Option<string>

    constructor (fileName: string, line: int, column: int)
      ensures location == SourceLocation(fileName, line, column)
      ensures name.None? && value.None?
    {
      name := None;
      value := None;
      location := SourceLocation(fileName, line, column);
    }

    /** Both attributes are required. */
    predicate Valid()
      reads this
    {
      name.Some? && value.Some?
    }
  }

  /** An enum: its underlying type and its values in declaration order. */
  class Enum {
    var location: SourceLocation
    var name: Option<string>
    var description: Option<string>
    var cppNamespace: Option<string>
    var typeName: Option<string>
    var values: seq<EnumValue>

    constructor (fileName: string, line: int, column: int)
      ensures location == SourceLocation(fileName, line, column)
      ensures name.None? && description.None? && cppNamespace.None? && typeName.None?
      ensures values == []
    {
      name := None;
      description := None;
      cppNamespace := None;
      typeName := None;
      values := [];
      location := SourceLocation(fileName, line, column);
    }

    function Footprint(): (r: set<object>)
      reads this
      ensures this in r
      ensures forall i :: 0 <= i < |values| ==> values[i] in r
    {
      {this} + set i | 0 <= i < |values| :: values[i] as object
    }

    /** The name and the underlying type are required, and every value is well formed. */
    predicate Valid()
      reads Footprint()
    {
      name.Some? && typeName.Some? &&
      forall i :: 0 <= i < |values| ==> values[i].Valid()
    }
  }

  // ---------------------------------------------------------------------------
  // Server parameters and config options
  // ---------------------------------------------------------------------------

  /** The guards of a server parameter or config option, kept as C++ text. */
  class Condition {
    var location: SourceLocation
    var expr: Option<string>
    var constexpr: Option<string>
    var preprocessor: Option<string>

    constructor (fileName: string, line: int, column: int)
      ensures location == SourceLocation(fileName, line, column)
      ensures expr.None? && constexpr.None? && preprocessor.None?
    {
      expr := None;
      constexpr := None;
      preprocessor := None;
      location := SourceLocation(fileName, line, column);
    }
  }

  /**
   * How a server parameter stores its value: in a named C++ variable, which may carry
   * a default, a validator and an update hook, or through three explicit hooks.
   */
  datatype ParameterStorage =
    | BoundVariable(cppVarname: string, defaultValue: Option<string>,
                    validator: Option<Validator>, onUpdate: Option<string>)
    | Hooks(fromBson: string, appendBson: string, fromString: string)

  /** A server parameter setting. */
  class ServerParameter {
    var location: SourceLocation
    var name: Option<string>
    var setAt: Option<string>
    var description: Option<string>
    var cppVartype: Option<string>
    var cppVarname: Option<string>
    var condition: Option<Condition>
    var redact: bool
    var deprecatedName: seq<string>

    // Only valid if cppVarname is present.
    var defaultValue: Option<string>
    var validator: Option<Validator>
    var onUpdate: Option<string>

    // Required if cppVarname is absent.
    var fromBson: Option<string>
    var appendBson: Option<string>
    var fromString: Option<string>

    constructor (fileName: string, line: int, column: int)
      ensures location == SourceLocation(fileName, line, column)
      ensures name.None? && setAt.None? && description.None?
      ensures cppVartype.None? && cppVarname.None? && condition.None?
      ensures !redact && deprecatedName == []
      ensures defaultValue.None? && validator.None? && onUpdate.None?
      ensures fromBson.None? && appendBson.None? && fromString.None?
    {
      name := None;
      setAt := None;
      description := None;
      cppVartype := None;
      cppVarname := None;
      condition := None;
      redact := false;
      deprecatedName := [];
      defaultValue := None;
      validator := None;
      onUpdate := None;
      fromBson := None;
      appendBson := None;
      fromString := None;
      location := SourceLocation(fileName, line, column);
    }

    function Footprint(): (r: set<object>)
      reads this
      ensures this in r
      ensures validator.Some? ==> validator.value in r
    {
      {this} + ObjectsOf(validator)
    }

    /**
     * Bound to a variable, with any validator well formed; or, without a variable,
     * no default, validator or update hook and all three explicit hooks present.
     */
    predicate Valid()
      reads Footprint()
    {
      if cppVarname.Some? then
        validator.Some? ==> validator.value.Valid()
      else
        defaultValue.None? && validator.None? && onUpdate.None? &&
        fromBson.Some? && appendBson.Some? && fromString.Some?
    }

    /** The storage mode of a well-formed parameter, as a tagged union. */
    function Storage(): (s: ParameterStorage)
      reads Footprint()
      requires Valid()
      ensures s.BoundVariable? <==> cppVarname.Some?
      ensures s.BoundVariable? ==>
        cppVarname == Some(s.cppVarname) && s.defaultValue == defaultValue &&
        s.validator == validator && s.onUpdate == onUpdate
      ensures s.Hooks? ==>
        fromBson == Some(s.fromBson) && appendBson == Some(s.appendBson) &&
        fromString == Some(s.fromString)
    {
      if cppVarname.Some? then BoundVariable(cppVarname.value, defaultValue, validator, onUpdate)
      else Hooks(fromBson.value, appendBson.value, fromString.value)
    }
  }

  /**
   * A parameter stored through hooks has nothing of the variable-bound mode:
   * default, validator and update hook are all absent.
   */
  lemma HookStorageExcludesVariableSettings(p: ServerParameter)
    requires p.Valid()
    requires p.Storage().Hooks?
    ensures p.cppVarname.None?
    ensures p.defaultValue.None? && p.validator.None? && p.onUpdate.None?
  {
  }

  /** The config-option settings shared by the whole document. */
  class ConfigGlobal {
    var location: SourceLocation
    var initializerName: Option<string>

    constructor (fileName: string, line: int, column: int)
      ensures location == SourceLocation(fileName, line, column)
      ensures initializerName.None?
    {
      initializerName := None;
      location := SourceLocation(fileName, line, column);
    }
  }

  /** A config option setting. */
  class ConfigOption {
    var location: SourceLocation
    var name: Option<string>
    var shortName: Option<string>
    var deprecatedName: seq<string>
    var deprecatedShortName: seq<string>
    var description: Option<string>
    var section: Option<string>
    var argVartype: Option<string>
    var cppVartype: Option<string>
    var cppVarname: Option<string>
    var condition: Option<Condition>
    var conflicts: seq<string>
    var requiredOptions: seq<string>
    var hidden: bool
    var redact: bool
    var defaultValue: Option<string>
    var implicit: Option<string>
    var source: Option<string>
    var duplicatesAppend: bool
    var positionalStart: Option<int>
    var positionalEnd: Option<int>
    var validator: Option<Validator>

    constructor (fileName: string, line: int, column: int)
      ensures location == SourceLocation(fileName, line, column)
      ensures name.None? && shortName.None? && deprecatedName == [] && deprecatedShortName == []
      ensures description.None? && section.None? && argVartype.None?
      ensures cppVartype.None? && cppVarname.None? && condition.None?
      ensures conflicts == [] && requiredOptions == [] && !hidden && !redact
      ensures defaultValue.None? && implicit.None? && source.None?
      ensures !duplicatesAppend && positionalStart.None? && positionalEnd.None?
      ensures validator.None?
    {
      name := None;
      shortName := None;
      deprecatedName := [];
      deprecatedShortName := [];
      description := None;
      section := None;
      argVartype := None;
      cppVartype := None;
      cppVarname := None;
      condition := None;
      conflicts := [];
      requiredOptions := [];
      hidden := false;
      redact := false;
      defaultValue := None;
      implicit := None;
      source := None;
      duplicatesAppend := false;
      positionalStart := None;
      positionalEnd := None;
      validator := None;
      location := SourceLocation(fileName, line, column);
    }

    function Footprint(): (r: set<object>)
      reads this
      ensures this in r
      ensures validator.Some? ==> validator.value in r
    {
      {this} + ObjectsOf(validator)
    }

    /** An attached validator is well formed. */
    predicate Valid()
      reads Footprint()
    {
      validator.Some? ==> validator.value.Valid()
    }
  }
}

# Bound IDL AST

A Dafny model of the bound abstract syntax tree of MongoDB's interface definition
language (IDL) compiler (`buildscripts/idl/idl/ast.py`). After type resolution,
the binder builds these records: structs and their fields, commands, enums,
validators, server parameters and config options. It files them under one `IDLAST`
document and wraps that document, or the errors that stopped the bind, in an
`IDLBoundSpec`. The code generator then reads them.

The source has no algorithm. Each Python class is a mutable object whose
`__init__` sets defaults, and the binder later overwrites the attributes and
appends to the lists. The model keeps that form:

- Every class is a Dafny `class` with the same attributes as `var` fields.
  Names are camel-cased. An attribute initialised to `None` is an `Option`. A list
  is a `seq`.
- Every constructor's `ensures` give exactly the defaults of the Python
  `__init__`, plus the `common.SourceLocation` triple that the base class stores.
- The one check the source performs itself is the assertion in
  `IDLBoundSpec.__init__`. It becomes that constructor's `requires`.
- Each well-formedness rule stated in a doc comment is a `Valid()` predicate on
  its class. `IDLAST.Valid()` conjoins them over the whole document.
- A validator's meaning is the function `Validator.Accepts`: every predicate that is
  present must hold. Lemmas relate it to the list of predicates the validator
  carries, and to the integer interval its bounds describe.

Modules:

- `Wrappers` (`wrappers.dfy`): `Option`.
- `Common` (`common.dfy`): `SourceLocation`.
- `Errors` (`errors.dfy`): an opaque `ParserErrorCollection`.
- `Ast` (`ast.dfy`): one class per class of `ast.py`.
- `Scenarios` (`scenarios.dfy`): client methods. They build a well-formed struct
  `Point` (required `x`; optional `y`, default `0`), a failed bind result and a
  hook-stored server parameter from the constructors' contracts alone. They show
  that the contracts are strong enough for a binder and a generator to use.

Where the design intent and the code differ, the model follows the code:

- A field's type: the code promises only that a field has a `struct_type` or a
  `cpp_type`, never both (`ast.py:142`). `enum_type` is a separate boolean flag
  with no exclusivity rule. So `Field.Valid()` requires exactly one of
  `structType` and `cppType`, and says nothing about `enumType`.
- A server parameter's two modes: the code requires the three hooks when
  `cpp_varname` is absent, and allows `default`, `validator` and `on_update` only
  when it is present (`ast.py:270-278`). It does not forbid hooks beside a
  variable. So `ServerParameter.Valid()` admits a variable-bound parameter that
  also names hooks, and `Storage()` classifies such a parameter as variable-bound.
- An empty validator: `Validator.__init__` builds one with every predicate
  absent. The rule that a validator carries at least one predicate constrains
  the finished validator, so it is `Validator.Valid()`, not a constructor
  precondition.
- Command: the Python class `Command` inherits from `Struct`. Here a `Command`
  owns a fresh `Struct` in the constant field `base` and adds `namespace` and
  `commandField`.
- "All fields are either required or have a non-None default" (`ast.py:94`,
  `ast.py:194`) is read as: every field has `optional == false` or a present
  `defaultValue`. For a command this covers the command field too.
- On `EnumValue` and `Enum` the same sentence is read as a rule on their own
  attributes. An `EnumValue` needs both `name` and `value`. An `Enum` needs `name`
  and its underlying type (`typeName`, the Python `type`), and every value must be
  well formed. `description` and `cpp_namespace` stay optional.

Renamed attributes, because the Python names are Dafny keywords: `default` is
`defaultValue`, `array` is `isArray`, `Enum.type` is `typeName` and
`ConfigOption.requires` is `requiredOptions`.

## Model

| member | source | states |
|---|---|---|
| `Ast.IDLBoundSpec.constructor` | buildscripts/idl/idl/ast.py:48-54 | callable only with exactly one of a document and an error collection; afterwards `spec` and `errors` hold exactly the arguments and the result is valid |
| `Ast.IDLBoundSpec.IsSuccess` | buildscripts/idl/idl/ast.py:45-54 | on a valid bind result: success holds iff a document is present, and iff no error collection is present |
| `Ast.IDLAST.constructor` | buildscripts/idl/idl/ast.py:60-70 | a new document has no globals and empty command, enum, struct, server-parameter and config lists |
| `Ast.Global.constructor` | buildscripts/idl/idl/ast.py:80-87 | no C++ namespace, no includes, no config globals; location recorded |
| `Ast.Struct.constructor` | buildscripts/idl/idl/ast.py:99-110 | strict; not immutable; no chained-struct inlining; no comparison operators; no fields; name, C++ name and description absent |
| `Ast.Struct.FieldNames` | buildscripts/idl/idl/ast.py:139-143 | in a well-formed struct every field has a name; the names come out in declaration order, one per field |
| `Ast.Field.constructor` | buildscripts/idl/idl/ast.py:148-187 | optional, ignore, chained, array, doc-sequence, enum, op-msg-request-only and constructed are false; comparison order is -1; every other attribute is absent |
| `Ast.Field.ResolvedType` | buildscripts/idl/idl/ast.py:142-143 | a well-formed field resolves to a struct type iff `structType` is present, and to a C++ type iff `cppType` is present, carrying that name |
| `Ast.Command.constructor` | buildscripts/idl/idl/ast.py:197-202 | the embedded struct is fresh and has every `Struct` default; namespace and command field are absent |
| `Ast.Validator.constructor` | buildscripts/idl/idl/ast.py:123-134 | gt, lt, gte, lte and callback are all absent |
| `Ast.Validator.Predicates` | buildscripts/idl/idl/ast.py:115-132 | lists exactly the predicates that are set (at most five); non-empty iff the validator is well formed |
| `Ast.AllHoldEach` | buildscripts/idl/idl/ast.py:118 | evaluating a list of predicates one by one passes iff every predicate in the list holds |
| `Ast.AcceptsIffAllPredicatesHold` | buildscripts/idl/idl/ast.py:117-118 | a validator accepts a value iff all the predicates it carries hold of it |
| `Ast.EmptyValidatorAcceptsAll` | buildscripts/idl/idl/ast.py:117 | a validator with no predicate has no predicates and accepts every value |
| `Ast.InBoundsIffWithinInterval` | buildscripts/idl/idl/ast.py:128-131 | on integers the four bounds accept exactly the interval from max(gt+1, gte) to min(lt-1, lte) |
| `Ast.BoundsSatisfiable` | buildscripts/idl/idl/ast.py:118-131 | the bounds accept some integer iff that interval is not empty |
| `Ast.MorePredicatesAcceptLess` | buildscripts/idl/idl/ast.py:118 | a validator carrying a superset of another's predicates accepts only values the other accepts |
| `Ast.EnumValue.constructor` | buildscripts/idl/idl/ast.py:212-218 | name and value absent |
| `Ast.Enum.constructor` | buildscripts/idl/idl/ast.py:228-237 | name, description, C++ namespace and type absent; no values |
| `Ast.Condition.constructor` | buildscripts/idl/idl/ast.py:243-250 | expr, constexpr and preprocessor absent |
| `Ast.ServerParameter.constructor` | buildscripts/idl/idl/ast.py:258-280 | every optional attribute absent, redact false, no deprecated names |
| `Ast.ServerParameter.Storage` | buildscripts/idl/idl/ast.py:270-278 | a well-formed parameter is variable-bound iff `cppVarname` is present, carrying its default, validator and update hook; otherwise it is hook-stored, carrying the three hooks |
| `Ast.HookStorageExcludesVariableSettings` | buildscripts/idl/idl/ast.py:270-278 | a well-formed hook-stored parameter has no variable, default, validator or update hook |
| `Ast.ConfigGlobal.constructor` | buildscripts/idl/idl/ast.py:286-293 | initializer name absent |
| `Ast.ConfigOption.constructor` | buildscripts/idl/idl/ast.py:301-329 | every optional attribute absent; all lists empty; hidden, redact and duplicates-append false |

The doc-comment rules live in the `Valid()` predicates:

- `Field.Valid` (`ast.py:141-143`).
- `Struct.Valid` (`ast.py:94`).
- `Command.Valid` (`ast.py:194`).
- `Validator.Valid` (`ast.py:117`).
- `ServerParameter.Valid` (`ast.py:270-278`).
- `EnumValue.Valid` and `Enum.Valid` (`ast.py:209`, `ast.py:225`).
- `ConfigOption.Valid`: an attached validator is well formed.
- `IDLBoundSpec.Valid` (`ast.py:51-52`).
- `IDLAST.Valid`: the conjunction of all of these over the document.

These predicates are definitions, and the members in the table state their
consequences.

## Left out

- Validator bounds are integers only. The source also allows floats
  (`Union[int, float]`), and floating-point comparison is not modelled.
- A validator's `callback`, `serializer`/`deserializer`, and a condition's
  `expr`/`constexpr`/`preprocessor` are C++ names or expressions that this code
  only stores. They are opaque strings. Calling the callback on a value is the
  parameter `callbackAccepts`.
- `common.SourceLocation` is not part of this model; it is the triple
  `SourceLocation(fileName, line, column)`. `errors.ParserErrorCollection` is not
  part of this model; it is an opaque value holding a list of diagnostics.
- The binder's semantic checks are not stated in this file, so they are not
  modelled: field-name uniqueness, enum-value uniqueness, chained-struct linkage
  and cycle detection, and config-option conflicts.
- `Global`, `ConfigGlobal` and `Condition` carry no well-formedness rule,
  because the source states none.
- The binder's later updates are plain assignments to the public fields, as in
  Python. The model adds no mutator methods, because the source has none.
- Aliasing of list objects: a Python list attribute can be mutated through
  another reference to the same list. Here list attributes are `seq` values, so
  they change only by reassigning the field.
- Parsing, code generation and all file I/O are outside this file.

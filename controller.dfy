/**
 * The command-line controller: classifies a name as a database or an
 * impact-assessment method, and routes a parsed command line to the action
 * its flags select. The registries are the data layer's `databases` and
 * `methods`; the actions on them that change the data layer are returned as
 * requests.
 */
module Controller {

  /** A registry's metadata for one database or method. */
  type Metadata = map<string, string>

  /**
   * The data layer's registries: databases by name, methods by their tuple
   * of name parts, and the `.list` each one returns.
   */
  datatype Registry = Registry(
    databases: map<string, Metadata>,
    methods: map<seq<string>, Metadata>,
    databaseList: seq<string>,
    methodList: seq<seq<string>>)

  /** A classified name. */
  datatype Named = DatabaseName(name: string) | MethodName(parts: seq<string>)

  /** A value, or the ValueError the source raises. */
  datatype Result<+T> = Ok(value: T) | ValueError

  /** `s.split(sep)`: the pieces between separators, empty ones included. */
  function Split(s: string, sep: char): (r: seq<string>)
    ensures |r| >= 1
    ensures forall i :: 0 <= i < |r| ==> sep !in r[i]
    ensures Join(r, sep) == s
  {
    if s == [] then [""]
    else
      var rest := Split(s[1..], sep);
      if s[0] == sep then [""] + rest
      else [[s[0]] + rest[0]] + rest[1..]
  }

  /** `sep.join(parts)`. */
  function Join(parts: seq<string>, sep: char): string
    requires |parts| >= 1
  {
    if |parts| == 1 then parts[0] else parts[0] + [sep] + Join(parts[1..], sep)
  }

  /** Split is one-to-one: the pieces determine the string. */
  lemma SplitInjective(s: string, t: string, sep: char)
    requires Split(s, sep) == Split(t, sep)
    ensures s == t
  {
  }

  /**
   * `database_or_method`: a registered database name wins; otherwise the
   * name's colon-separated parts are looked up as a method; otherwise
   * ValueError.
   */
  function DatabaseOrMethod(name: string, reg: Registry): (r: Result<Named>)
    ensures name in reg.databases <==> r == Ok(DatabaseName(name))
    ensures r.Ok? && r.value.MethodName? ==>
      name !in reg.databases && r.value.parts in reg.methods
      && |r.value.parts| >= 1 && Join(r.value.parts, ':') == name
    ensures r.ValueError? <==> name !in reg.databases && Split(name, ':') !in reg.methods
  {
    if name in reg.databases then Ok(DatabaseName(name))
    else if Split(name, ':') in reg.methods then Ok(MethodName(Split(name, ':')))
    else ValueError
  }

  /** Classification is decided by the database registry first, whatever the method registry holds. */
  lemma DatabasePrecedence(name: string, reg: Registry, methods: map<seq<string>, Metadata>)
    requires name in reg.databases
    ensures DatabaseOrMethod(name, reg.(methods := methods)) == DatabaseOrMethod(name, reg)
  {
  }

  /** A name that is not a database is a method exactly when its parts are registered. */
  lemma MethodLookup(name: string, reg: Registry)
    requires name !in reg.databases
    ensures DatabaseOrMethod(name, reg).Ok? <==> Split(name, ':') in reg.methods
    ensures DatabaseOrMethod(name, reg).Ok? ==> DatabaseOrMethod(name, reg).value == MethodName(Split(name, ':'))
  {
  }

  /** The options `dispatch` reads, as docopt parses them. */
  datatype Args = Args(
    list: bool,
    details: bool,
    remove: bool,
    importing: bool,
    databaseFlag: bool,
    methodFlag: bool,
    databases: bool,
    name: string)

  /** What a command produces. */
  datatype Reply =
    | DatabaseNames(names: seq<string>)
    | MethodNames(methods: seq<seq<string>>)
    | DatabaseDetails(meta: Metadata)
    | MethodDetails(meta: Metadata)
      /** The deregistration `remove` asks the data layer for. */
    | Deregister(target: Named)
      /** The importer run `import` asks the data layer for. */
    | ImportDatabase
    | ImportMethod
    | Unsupported(message: string)

  const NotSupported := "This action not yet supported!"

  /** `list`: the database list with the `databases` flag, the method list otherwise. */
  function List(a: Args, reg: Registry): (r: Reply)
    ensures r.DatabaseNames? <==> a.databases
    ensures r.DatabaseNames? ==> r.names == reg.databaseList
    ensures r.MethodNames? ==> r.methods == reg.methodList
  {
    if a.databases then DatabaseNames(reg.databaseList) else MethodNames(reg.methodList)
  }

  /** `details`: the registry metadata of the classified name. */
  function Details(a: Args, reg: Registry): (r: Result<Reply>)
    ensures r.ValueError? <==> DatabaseOrMethod(a.name, reg).ValueError?
    ensures a.name in reg.databases ==> r == Ok(DatabaseDetails(reg.databases[a.name]))
    ensures a.name !in reg.databases && Split(a.name, ':') in reg.methods ==>
      r == Ok(MethodDetails(reg.methods[Split(a.name, ':')]))
  {
    match DatabaseOrMethod(a.name, reg)
    case ValueError => ValueError
    case Ok(DatabaseName(n)) => Ok(DatabaseDetails(reg.databases[n]))
    case Ok(MethodName(m)) => Ok(MethodDetails(reg.methods[m]))
  }

  /** `remove`: the deregistration of the classified name. */
  function Remove(a: Args, reg: Registry): (r: Result<Reply>)
    ensures r.ValueError? <==> DatabaseOrMethod(a.name, reg).ValueError?
    ensures r.Ok? ==> r.value == Deregister(DatabaseOrMethod(a.name, reg).value)
  {
    match DatabaseOrMethod(a.name, reg)
    case ValueError => ValueError
    case Ok(target) => Ok(Deregister(target))
  }

  /**
   * The position of the first flag `dispatch` tests that holds: list,
   * details, remove, import with database, import with method; 5 if none.
   */
  function FirstFlag(a: Args): (i: nat)
    ensures i <= 5
  {
    if a.list then 0
    else if a.details then 1
    else if a.remove then 2
    else if a.importing && a.databaseFlag then 3
    else if a.importing && a.methodFlag then 4
    else 5
  }

  /** `dispatch`: the action of the first flag that holds. */
  function Dispatch(a: Args, reg: Registry): (r: Result<Reply>)
    ensures r == Ok(Unsupported(NotSupported)) <==> FirstFlag(a) == 5
    ensures r.ValueError? ==> (FirstFlag(a) == 1 || FirstFlag(a) == 2) && DatabaseOrMethod(a.name, reg).ValueError?
    ensures FirstFlag(a) == 0 ==> r == Ok(List(a, reg))
    ensures FirstFlag(a) == 1 ==> r == Details(a, reg)
    ensures FirstFlag(a) == 2 ==> r == Remove(a, reg)
    ensures FirstFlag(a) == 3 <==> r == Ok(ImportDatabase)
    ensures FirstFlag(a) == 4 <==> r == Ok(ImportMethod)
  {
    if a.list then Ok(List(a, reg))
    else if a.details then Details(a, reg)
    else if a.remove then Remove(a, reg)
    else if a.importing && a.databaseFlag then Ok(ImportDatabase)
    else if a.importing && a.methodFlag then Ok(ImportMethod)
    else Ok(Unsupported(NotSupported))
  }

  /**
   * Flags after the first one that holds are never looked at: two command
   * lines with the same first flag, name and `databases` option get the
   * same reply.
   */
  lemma {:induction false} DispatchFirstFlagWins(a: Args, b: Args, reg: Registry)
    requires FirstFlag(a) == FirstFlag(b) && a.name == b.name && a.databases == b.databases
    ensures Dispatch(a, reg) == Dispatch(b, reg)
  {
    if FirstFlag(a) == 1 || FirstFlag(a) == 2 {
      assert Details(a, reg) == Details(b, reg) && Remove(a, reg) == Remove(b, reg);
    }
  }
}

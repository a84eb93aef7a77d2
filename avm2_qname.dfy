/**
  The AS3 `QName` built-in of the AVM2 runtime: the function-call shape, the
  constructor body `init`, and the `localName`, `uri` and `toString` accessors.

  A QName object is a heap object with three fields written once, while it is
  being initialised: its local name, its optional namespace, and the `isQname`
  flag. `Initialised` states, as a function of the arguments and of the fields
  before the call, what `init` leaves in those fields and what it returns;
  `QNameObject.Init` is the step-by-step body, proved against it.
*/
module QNameGlobals {
  import opened Wrappers

  /** The API version a namespace was minted under. `AllVersions` matches any
      version; real releases are kept abstract and told apart by a rank. */
  datatype ApiVersion = AllVersions | Release(rank: nat)

  /** A namespace. Only package (public) namespaces carry a version. */
  datatype Namespace =
    | Package(uri: string, version: ApiVersion)
    | Private(uri: string)
    | Protected(uri: string)
    | Explicit(uri: string)
    | Any

  /** A runtime value, as far as the QName built-in tells values apart.
      `Other` stands for every value not listed: numbers, booleans and
      objects of other classes. */
  datatype Value =
    | Undefined
    | Null
    | Str(s: string)
    | NsObj(ns: Namespace)
    | QNameObj(q: QNameObject)
    | Other(id: nat)

  /** A script-level exception, carrying the thrown value. */
  datatype Error = ScriptError(thrown: Value)

  /** User-visible string conversion of an object value (its `toString`,
      which may be script code and may throw). */
  type ToStringHook = Value -> Result<string, Error>

  /** The three fields of a QName object, as a value. */
  datatype Name = Name(localName: string, ns: Option<Namespace>, isQname: bool)

  /** The runtime configuration `init` reads: the root API version, the public
      namespace (`find_public_namespace`) and the name the allocator gives a
      fresh QName object before `init` runs. */
  datatype Config = Config(rootApiVersion: ApiVersion, publicNamespace: Namespace, initialName: Name)

  /** A qualified name has a namespace exactly when its flag is set. */
  predicate WellFormed(n: Name) {
    n.isQname <==> n.ns.Some?
  }

  /** The URI of a name: that of its package namespace, none otherwise. */
  function NameUri(n: Name): Option<string> {
    match n.ns
    case Some(Package(uri, _)) => Some(uri)
    case _ => None
  }

  /** The formatted name, as AS3's `QName.toString` prints it: `uri::local`
      when the URI is non-empty, the local name alone when it is empty, and
      `*::local` when there is no URI. */
  function AsUri(n: Name): string {
    match NameUri(n)
    case Some(uri) => if uri == "" then n.localName else uri + "::" + n.localName
    case None => "*::" + n.localName
  }

  /** `coerce_to_string`: primitives convert directly and never fail; every
      object goes through its own `toString`. */
  function CoerceToString(v: Value, script: ToStringHook): Result<string, Error> {
    match v
    case Undefined => Ok("undefined")
    case Null => Ok("null")
    case Str(s) => Ok(s)
    case _ => script(v)
  }

  /** The heap objects whose fields a value gives access to. */
  function ValueObjects(v: Value): set<object> {
    if v.QNameObj? then {v.q} else {}
  }

  /** The heap objects `init` may read: those of its first two arguments. */
  function ArgObjects(args: seq<Value>): set<object> {
    (if |args| > 0 then ValueObjects(args[0]) else {}) +
    (if |args| > 1 then ValueObjects(args[1]) else {})
  }

  class QNameObject {
    var localName: string
    var ns: Option<Namespace>
    var isQname: bool

    /** The allocator: a fresh object holding the given name. */
    constructor Allocate(initial: Name)
      ensures Snapshot() == initial
    {
      localName, ns, isQname := initial.localName, initial.ns, initial.isQname;
    }

    /** The current fields, as a value. */
    function Snapshot(): Name
      reads this
    {
      Name(localName, ns, isQname)
    }

    /** `init`, the constructor body. Every failure of a string coercion is
        returned unchanged, and leaves the fields as they were. */
    method Init(args: seq<Value>, cfg: Config, script: ToStringHook) returns (r: Result<Value, Error>)
      modifies this
      ensures InitResult(r, Snapshot()) == old(Initialised(args, cfg, script, Snapshot()))
    {
      var namespace: Option<Namespace>;
      if |args| >= 2 {
        var nsArg := args[0];
        var localArg := args[1];
        if localArg.Undefined? {
          localArg := Str("");
        }
        var resolved := ResolveNamespace(nsArg, cfg.rootApiVersion, script);
        if resolved.Err? {
          return Err(resolved.error);
        }
        namespace := resolved.value;
        if localArg.QNameObj? {
          localName := localArg.q.localName;
        } else {
          var local := CoerceToString(localArg, script);
          if local.Err? {
            return Err(local.error);
          }
          localName := local.value;
        }
      } else {
        var qnameArg := if |args| == 1 then args[0] else Undefined;
        if qnameArg.QNameObj? {
          // `init_name`: the whole name is copied, and nothing else happens.
          var source := qnameArg.q;
          localName, ns, isQname := source.localName, source.ns, source.isQname;
          return Ok(Undefined);
        }
        var local: string;
        if qnameArg.Undefined? {
          local := "";
        } else {
          var coerced := CoerceToString(qnameArg, script);
          if coerced.Err? {
            return Err(coerced.error);
          }
          local := coerced.value;
        }
        if local != "*" {
          localName := local;
          namespace := Some(cfg.publicNamespace);
        } else {
          namespace := None;
        }
      }
      if namespace.Some? {
        ns := namespace;
        isQname := true;
      }
      return Ok(Undefined);
    }
  }

  /** What `init` returns, and the fields it leaves. */
  datatype InitResult = InitResult(status: Result<Value, Error>, after: Name)

  /** The namespace argument of the two-argument form, turned into an optional
      namespace. A namespace object keeps its own version; a QName gives a
      package namespace for its URI at `AllVersions`, or none when it has no
      URI; `null` gives none; `undefined` gives the empty-URI package
      namespace; anything else is converted to a string, which becomes the
      URI of a package namespace. */
  function ResolveNamespace(nsArg: Value, apiVersion: ApiVersion, script: ToStringHook): (r: Result<Option<Namespace>, Error>)
    reads ValueObjects(nsArg)
    ensures r == Ok(None) <==> nsArg.Null? || (nsArg.QNameObj? && NameUri(nsArg.q.Snapshot()).None?)
    ensures r.Err? <==> nsArg.Other? && script(nsArg).Err?
    ensures r.Err? ==> r.error == script(nsArg).error
    ensures nsArg.NsObj? ==> r == Ok(Some(nsArg.ns))
    ensures nsArg.QNameObj? && r != Ok(None) ==> r == Ok(Some(Package(NameUri(nsArg.q.Snapshot()).value, AllVersions)))
    ensures nsArg.Undefined? ==> r == Ok(Some(Package("", apiVersion)))
    ensures (nsArg.Str? || nsArg.Other?) && CoerceToString(nsArg, script).Ok? ==>
              r == Ok(Some(Package(CoerceToString(nsArg, script).value, apiVersion)))
  {
    if nsArg.NsObj? then Ok(Some(nsArg.ns))
    else if nsArg.QNameObj? then
      (match NameUri(nsArg.q.Snapshot())
       case Some(uri) => Ok(Some(Package(uri, AllVersions)))
       case None => Ok(None))
    else if nsArg.Null? then Ok(None)
    else if nsArg.Undefined? then Ok(Some(Package("", apiVersion)))
    else
      match CoerceToString(nsArg, script)
      case Ok(uri) => Ok(Some(Package(uri, apiVersion)))
      case Err(e) => Err(e)
  }

  /** The local name of the two-argument form: `undefined` becomes the empty
      string, a QName contributes its local name only, and anything else is
      converted to a string. There is no wildcard rule here. */
  function TwoArgLocalName(localArg: Value, script: ToStringHook): Result<string, Error>
    reads ValueObjects(localArg)
  {
    var arg := if localArg.Undefined? then Str("") else localArg;
    if arg.QNameObj? then Ok(arg.q.localName) else CoerceToString(arg, script)
  }

  /** The finalisation step: a namespace, when there is one, is written
      together with the flag. */
  function Finalise(n: Name, namespace: Option<Namespace>): Name {
    if namespace.Some? then n.(ns := namespace, isQname := true) else n
  }

  /** The specification of `init`: given the arguments and the fields before
      the call, the result and the fields after it. */
  function Initialised(args: seq<Value>, cfg: Config, script: ToStringHook, before: Name): InitResult
    reads ArgObjects(args)
  {
    if |args| >= 2 then
      match ResolveNamespace(args[0], cfg.rootApiVersion, script)
      case Err(e) => InitResult(Err(e), before)
      case Ok(namespace) =>
        (match TwoArgLocalName(args[1], script)
         case Err(e) => InitResult(Err(e), before)
         case Ok(local) => InitResult(Ok(Undefined), Finalise(before.(localName := local), namespace)))
    else
      var arg := if |args| == 1 then args[0] else Undefined;
      if arg.QNameObj? then
        InitResult(Ok(Undefined), arg.q.Snapshot())
      else
        match (if arg.Undefined? then Ok("") else CoerceToString(arg, script))
        case Err(e) => InitResult(Err(e), before)
        case Ok(local) =>
          if local == "*" then InitResult(Ok(Undefined), before)
          else InitResult(Ok(Undefined), Finalise(before.(localName := local), Some(cfg.publicNamespace)))
  }

  /** Class construction: allocate, then run `init`; a failure of `init`
      is the failure of the construction. */
  method Construct(args: seq<Value>, cfg: Config, script: ToStringHook) returns (r: Result<Value, Error>)
    ensures r.Err? <==> Initialised(args, cfg, script, cfg.initialName).status.Err?
    ensures r.Err? ==> r == Initialised(args, cfg, script, cfg.initialName).status
    ensures r.Ok? ==> r.value.QNameObj? && fresh(r.value.q)
    ensures r.Ok? ==> r.value.q.Snapshot() == Initialised(args, cfg, script, cfg.initialName).after
  {
    var obj := new QNameObject.Allocate(cfg.initialName);
    assert obj !in ArgObjects(args);
    var status := obj.Init(args, cfg, script);
    if status.Err? {
      return Err(status.error);
    }
    return Ok(QNameObj(obj));
  }

  /** The argument list for which calling `QName` as a function hands back
      its argument: exactly one argument, and that one a QName object. These
      are also exactly the argument lists whose whole name `init` copies
      (`init_name`). */
  predicate IsPassThrough(args: seq<Value>) {
    |args| == 1 && args[0].QNameObj?
  }

  /** `QName` called as a function: a lone QName argument is returned itself;
      any other argument list is passed on to the constructor, whose new
      object is returned. */
  method Call(args: seq<Value>, cfg: Config, script: ToStringHook) returns (r: Result<Value, Error>)
    ensures IsPassThrough(args) ==> r == Ok(args[0])
    ensures !IsPassThrough(args) ==>
              (r.Err? <==> Initialised(args, cfg, script, cfg.initialName).status.Err?)
    ensures !IsPassThrough(args) && r.Err? ==> r == Initialised(args, cfg, script, cfg.initialName).status
    ensures !IsPassThrough(args) && r.Ok? ==>
              r.value.QNameObj? && fresh(r.value.q) &&
              r.value.q.Snapshot() == Initialised(args, cfg, script, cfg.initialName).after
  {
    if IsPassThrough(args) {
      return Ok(args[0]);
    }
    r := Construct(args, cfg, script);
  }

  /** The `localName` getter. */
  function GetLocalName(receiver: Value): (r: Value)
    reads ValueObjects(receiver)
    ensures r.Undefined? <==> !receiver.QNameObj?
    ensures receiver.QNameObj? ==> r == Str(receiver.q.Snapshot().localName)
  {
    if receiver.QNameObj? then Str(receiver.q.localName) else Undefined
  }

  /** The `uri` getter: `null` for a name without a URI. */
  function GetUri(receiver: Value): (r: Value)
    reads ValueObjects(receiver)
    ensures r.Undefined? <==> !receiver.QNameObj?
    ensures r.Null? <==> receiver.QNameObj? && NameUri(receiver.q.Snapshot()).None?
    ensures receiver.QNameObj? && NameUri(receiver.q.Snapshot()).Some? ==>
              r == Str(NameUri(receiver.q.Snapshot()).value)
  {
    if receiver.QNameObj? then
      match NameUri(receiver.q.Snapshot())
      case Some(uri) => Str(uri)
      case None => Null
    else Undefined
  }

  /** `toString`, both as `AS3::toString` and on the prototype. */
  function ToString(receiver: Value): (r: Value)
    reads ValueObjects(receiver)
    ensures r.Undefined? <==> !receiver.QNameObj?
    ensures receiver.QNameObj? ==> r == Str(AsUri(receiver.q.Snapshot()))
  {
    if receiver.QNameObj? then Str(AsUri(receiver.q.Snapshot())) else Undefined
  }
}

/**
  Properties of the QName constructor body (`Initialised`), of calling
  `QName` as a function, and of the formatted name.
*/
module QNameProperties {
  import opened Wrappers
  import opened QNameGlobals

  // ---------------------------------------------------------------------------
  // Two-argument form: `new QName(namespace, localName)`
  // ---------------------------------------------------------------------------

  /** Arguments after the second play no part. */
  lemma ExtraArgumentsIgnored(args: seq<Value>, cfg: Config, script: ToStringHook, before: Name)
    requires |args| >= 2
    ensures Initialised(args, cfg, script, before) == Initialised(args[..2], cfg, script, before)
  {
    assert args[..2][0] == args[0] && args[..2][1] == args[1];
  }

  /** The namespace argument is converted before the local argument: when its
      conversion throws, that exception is the result, whatever the local
      argument is, and no field has been written. */
  lemma NamespaceConvertedFirst(args: seq<Value>, cfg: Config, script: ToStringHook, before: Name)
    requires |args| >= 2
    requires ResolveNamespace(args[0], cfg.rootApiVersion, script).Err?
    ensures Initialised(args, cfg, script, before) == InitResult(Err(script(args[0]).error), before)
  {
  }

  /** A QName as local argument gives its local name and nothing else: the
      namespace written is the one resolved from the first argument. */
  lemma QNameLocalArgumentGivesLocalNameOnly(args: seq<Value>, cfg: Config, script: ToStringHook, before: Name)
    requires |args| >= 2 && args[1].QNameObj?
    requires ResolveNamespace(args[0], cfg.rootApiVersion, script).Ok?
    ensures var resolved := ResolveNamespace(args[0], cfg.rootApiVersion, script).value;
            var out := Initialised(args, cfg, script, before);
            out.status == Ok(Undefined) &&
            out.after.localName == args[1].q.localName &&
            out.after.ns == (if resolved.Some? then resolved else before.ns) &&
            out.after.isQname == (resolved.Some? || before.isQname)
  {
  }

  /** An undefined local argument becomes the empty local name. */
  lemma UndefinedLocalArgumentIsEmpty(args: seq<Value>, cfg: Config, script: ToStringHook, before: Name)
    requires |args| >= 2 && args[1].Undefined?
    requires ResolveNamespace(args[0], cfg.rootApiVersion, script).Ok?
    ensures Initialised(args, cfg, script, before).status == Ok(Undefined)
    ensures Initialised(args, cfg, script, before).after.localName == ""
  {
  }

  /** The two-argument form has no wildcard rule: whatever the namespace
      argument, once it resolves, a local name `"*"` is stored, together with
      the resolved namespace. */
  lemma NoWildcardRuleWithTwoArguments(nsArg: Value, cfg: Config, script: ToStringHook, before: Name)
    requires ResolveNamespace(nsArg, cfg.rootApiVersion, script).Ok?
    ensures var resolved := ResolveNamespace(nsArg, cfg.rootApiVersion, script).value;
            Initialised([nsArg, Str("*")], cfg, script, before)
              == InitResult(Ok(Undefined), Finalise(before.(localName := "*"), resolved))
  {
  }

  /** `new QName(null, x)`: local name `x`, and no namespace is written. */
  lemma NullNamespaceLeavesUnqualified(x: string, cfg: Config, script: ToStringHook, before: Name)
    ensures Initialised([Null, Str(x)], cfg, script, before) == InitResult(Ok(Undefined), before.(localName := x))
  {
  }

  /** `new QName(undefined, x)`: the empty-URI package namespace at the root
      API version. */
  lemma UndefinedNamespaceIsPublicPackage(x: string, cfg: Config, script: ToStringHook, before: Name)
    ensures Initialised([Undefined, Str(x)], cfg, script, before)
         == InitResult(Ok(Undefined), Name(x, Some(Package("", cfg.rootApiVersion)), true))
  {
  }

  /** A QName as namespace argument gives a package namespace for its URI at
      `AllVersions`, its own version being unrecoverable. */
  lemma QNameNamespaceMatchesAllVersions(q: QNameObject, uri: string, x: string, cfg: Config, script: ToStringHook, before: Name)
    requires NameUri(q.Snapshot()) == Some(uri)
    ensures Initialised([QNameObj(q), Str(x)], cfg, script, before)
         == InitResult(Ok(Undefined), Name(x, Some(Package(uri, AllVersions)), true))
  {
  }

  // ---------------------------------------------------------------------------
  // Zero- and one-argument form: `new QName()`, `new QName(name)`
  // ---------------------------------------------------------------------------

  /** A lone QName argument is copied whole (local name, namespace and flag),
      and nothing else happens. */
  lemma LoneQNameCopiedWhole(q: QNameObject, cfg: Config, script: ToStringHook, before: Name)
    ensures Initialised([QNameObj(q)], cfg, script, before) == InitResult(Ok(Undefined), q.Snapshot())
  {
  }

  /** A lone argument that converts to `"*"`, of whatever type, writes no field. */
  lemma WildcardWritesNothing(arg: Value, cfg: Config, script: ToStringHook, before: Name)
    requires !arg.QNameObj? && !arg.Undefined?
    requires CoerceToString(arg, script) == Ok("*")
    ensures Initialised([arg], cfg, script, before) == InitResult(Ok(Undefined), before)
  {
  }

  /** A lone argument that converts to anything but `"*"` becomes the local
      name in the public namespace. */
  lemma LoneArgumentInPublicNamespace(arg: Value, cfg: Config, script: ToStringHook, before: Name)
    requires !arg.QNameObj? && !arg.Undefined?
    requires CoerceToString(arg, script).Ok? && CoerceToString(arg, script).value != "*"
    ensures Initialised([arg], cfg, script, before)
         == InitResult(Ok(Undefined), Name(CoerceToString(arg, script).value, Some(cfg.publicNamespace), true))
  {
  }

  /** With no argument, or an undefined one: the empty local name in the
      public namespace. */
  lemma NoArgumentIsEmptyPublicName(args: seq<Value>, cfg: Config, script: ToStringHook, before: Name)
    requires args == [] || args == [Undefined]
    ensures Initialised(args, cfg, script, before) == InitResult(Ok(Undefined), Name("", Some(cfg.publicNamespace), true))
  {
  }

  // ---------------------------------------------------------------------------
  // Every form
  // ---------------------------------------------------------------------------

  /** A failed `init` writes nothing, and its exception is, unchanged, the one
      thrown by converting one of the first two arguments to a string. */
  lemma FailureWritesNothing(args: seq<Value>, cfg: Config, script: ToStringHook, before: Name)
    ensures var out := Initialised(args, cfg, script, before);
            out.status.Err? ==>
              out.after == before &&
              exists i :: 0 <= i < |args| && i < 2 && CoerceToString(args[i], script) == Err(out.status.error)
  {
    var out := Initialised(args, cfg, script, before);
    if out.status.Err? {
      if |args| >= 2 {
        if ResolveNamespace(args[0], cfg.rootApiVersion, script).Err? {
          assert CoerceToString(args[0], script) == Err(out.status.error);
        } else {
          assert CoerceToString(args[1], script) == Err(out.status.error);
        }
      } else {
        assert CoerceToString(args[0], script) == Err(out.status.error);
      }
    }
  }

  /** Outside the whole-name copy (the argument lists `IsPassThrough` names),
      `init` never clears the flag, and never
      writes a namespace without setting the flag: either both are as they
      were, or there is a namespace and the flag is set. */
  lemma FlagWrittenWithNamespace(args: seq<Value>, cfg: Config, script: ToStringHook, before: Name)
    requires !IsPassThrough(args)
    ensures var out := Initialised(args, cfg, script, before);
            (out.after.ns == before.ns && out.after.isQname == before.isQname) ||
            (out.after.ns.Some? && out.after.isQname)
  {
  }

  /** `init` keeps a name well formed (flag set exactly when a namespace is
      present), given that a QName it copies whole is well formed. */
  lemma InitKeepsWellFormed(args: seq<Value>, cfg: Config, script: ToStringHook, before: Name)
    requires WellFormed(before)
    requires IsPassThrough(args) ==> WellFormed(args[0].q.Snapshot())
    ensures WellFormed(Initialised(args, cfg, script, before).after)
  {
  }

  // ---------------------------------------------------------------------------
  // Calling `QName` as a function
  // ---------------------------------------------------------------------------

  /** Calling `QName(q)` twice on one QName object gives that object back
      both times. */
  method CallTwice(q: QNameObject, cfg: Config, script: ToStringHook) returns (first: Result<Value, Error>, second: Result<Value, Error>)
    ensures first == second == Ok(QNameObj(q))
  {
    first := Call([QNameObj(q)], cfg, script);
    second := Call([QNameObj(q)], cfg, script);
  }

  // ---------------------------------------------------------------------------
  // Formatting
  // ---------------------------------------------------------------------------

  /** `new QName(u, n)` with strings formats as `u::n`, or as `n` when `u` is
      empty, and reports `u` as its URI. */
  lemma FormatOfTwoStrings(u: string, n: string, cfg: Config, script: ToStringHook, before: Name)
    ensures var after := Initialised([Str(u), Str(n)], cfg, script, before).after;
            NameUri(after) == Some(u) && after.localName == n &&
            AsUri(after) == if u == "" then n else u + "::" + n
  {
  }

  /** A formatted name with a non-empty URI and a local name free of `:`
      determines that URI and the local name: the last `:` of `u::n` is the
      second one of the separator. */
  lemma {:induction false} AsUriDeterminesUriAndLocalName(a: Name, b: Name)
    requires NameUri(a).Some? && NameUri(a).value != "" && ':' !in a.localName
    requires NameUri(b).Some? && NameUri(b).value != "" && ':' !in b.localName
    requires AsUri(a) == AsUri(b)
    ensures NameUri(a) == NameUri(b) && a.localName == b.localName
  {
    var ua, ub := NameUri(a).value, NameUri(b).value;
    var s := AsUri(a);
    assert s == ua + "::" + a.localName;
    assert s == ub + "::" + b.localName;
    SeparatorAt(ua, a.localName);
    SeparatorAt(ub, b.localName);
    SeparatorNotBefore(ua, a.localName, ub, b.localName);
    SeparatorNotBefore(ub, b.localName, ua, a.localName);
    assert ua == s[..|ua|] == ub;
    assert a.localName == s[|ua| + 2..] == b.localName;
  }

  /** When `u1::n1` and `u2::n2` are the same string and `n1` has no `:`,
      the separator of the second is not further right than that of the
      first. */
  lemma SeparatorNotBefore(u1: string, n1: string, u2: string, n2: string)
    requires u1 + "::" + n1 == u2 + "::" + n2 && ':' !in n1
    ensures |u2| <= |u1|
  {
    NoColonAfterSeparator(u1, n1);
    SeparatorAt(u2, n2);
  }

  /** In `u::n` with `n` free of `:`, no `:` follows the separator. */
  lemma NoColonAfterSeparator(u: string, n: string)
    requires ':' !in n
    ensures var s := u + "::" + n;
            forall k :: |u| + 2 <= k < |s| ==> s[k] != ':'
  {
    var s := u + "::" + n;
    forall k | |u| + 2 <= k < |s|
      ensures s[k] != ':'
    {
      assert s[k] == n[k - |u| - 2];
    }
  }

  /** The layout of `u::n`. */
  lemma SeparatorAt(u: string, n: string)
    ensures var s := u + "::" + n;
            |s| == |u| + 2 + |n| && s[|u|] == ':' && s[|u| + 1] == ':' &&
            s[..|u|] == u && s[|u| + 2..] == n &&
            forall k :: 0 <= k < |n| ==> s[|u| + 2 + k] == n[k]
  {
  }
}

/**
 The access decision of internal/server/catalog.go, and the capability
 advertisement of internal/server/mcp_handler.go that depends on it. path.Match is
 a parameter, an error of it counting as no match.
 */
module Catalogs {
  import opened Common

  datatype Category = Tools | Resources | Prompts

  datatype CapabilityBundle = CapabilityBundle(tools: seq<string>, resources: seq<string>, prompts: seq<string>) {
    function Names(c: Category): seq<string> {
      match c
      case Tools => tools
      case Resources => resources
      case Prompts => prompts
    }
  }

  type Bundles = map<string, CapabilityBundle>

  /** The patterns granted per category, or everything. */
  datatype EffectiveAccess =
    | Permissive
    | Granted(tools: set<string>, resources: set<string>, prompts: set<string>)
  {
    function Patterns(c: Category): set<string>
      requires Granted?
    {
      match c
      case Tools => tools
      case Resources => resources
      case Prompts => prompts
    }
  }

  /** What some scope's bundle lists under a category. */
  function GrantedNames(bundles: Bundles, scopes: seq<string>, c: Category): set<string> {
    set s, n | s in scopes && s in bundles && n in bundles[s].Names(c) :: n
  }

  function Access(catalog: Option<Bundles>, scopes: seq<string>): EffectiveAccess {
    match catalog
    case None => Permissive
    case Some(bundles) =>
      Granted(GrantedNames(bundles, scopes, Tools), GrantedNames(bundles, scopes, Resources),
              GrantedNames(bundles, scopes, Prompts))
  }

  lemma {:induction false} GrantedOneMore(bundles: Bundles, scopes: seq<string>, s: string, c: Category)
    ensures GrantedNames(bundles, scopes + [s], c)
            == GrantedNames(bundles, scopes, c) + (if s in bundles then Set(bundles[s].Names(c)) else {})
  {
    var l := GrantedNames(bundles, scopes + [s], c);
    var r := GrantedNames(bundles, scopes, c) + (if s in bundles then Set(bundles[s].Names(c)) else {});
    forall n | n in l ensures n in r {
      var t :| t in scopes + [s] && t in bundles && n in bundles[t].Names(c);
      assert t in scopes || t == s;
    }
    forall n | n in r ensures n in l {
      if n in GrantedNames(bundles, scopes, c) {
        var t :| t in scopes && t in bundles && n in bundles[t].Names(c);
        assert t in scopes + [s];
      } else {
        assert s in scopes + [s];
      }
    }
  }

  function Set(names: seq<string>): set<string> {
    set n | n in names
  }

  /** Adds every name to a set, one by one. */
  method Grant(had: set<string>, names: seq<string>) returns (has: set<string>)
    ensures has == had + Set(names)
  {
    has := had;
    for i := 0 to |names|
      invariant has == had + Set(names[..i])
    {
      assert names[..i + 1] == names[..i] + [names[i]];
      has := has + {names[i]};
    }
    assert names[..|names|] == names;
  }

  /** The union over the caller's scopes of what their bundles grant; scopes without
      a bundle add nothing. */
  method Resolve(catalog: Option<Bundles>, scopes: seq<string>) returns (access: EffectiveAccess)
    ensures access == Access(catalog, scopes)
  {
    if catalog.None? {
      return Permissive;
    }
    var bundles := catalog.value;
    var tools, resources, prompts := {}, {}, {};
    for i := 0 to |scopes|
      invariant tools == GrantedNames(bundles, scopes[..i], Tools)
      invariant resources == GrantedNames(bundles, scopes[..i], Resources)
      invariant prompts == GrantedNames(bundles, scopes[..i], Prompts)
    {
      hide GrantedNames;
      assert scopes[..i + 1] == scopes[..i] + [scopes[i]];
      GrantedOneMore(bundles, scopes[..i], scopes[i], Tools);
      GrantedOneMore(bundles, scopes[..i], scopes[i], Resources);
      GrantedOneMore(bundles, scopes[..i], scopes[i], Prompts);
      if scopes[i] in bundles {
        var b := bundles[scopes[i]];
        tools := Grant(tools, b.tools);
        resources := Grant(resources, b.resources);
        prompts := Grant(prompts, b.prompts);
      }
    }
    assert scopes[..|scopes|] == scopes;
    access := Granted(tools, resources, prompts);
  }

  // ------------------------------------------------------------------ matching

  predicate ContainsAny(s: string, chars: string) {
    exists i :: 0 <= i < |s| && s[i] in chars
  }

  predicate GlobPatternMatches(match_: (string, string) -> bool, pattern: string, name: string) {
    if pattern == "*" then true
    else if !ContainsAny(pattern, "*?[") then pattern == name
    else match_(pattern, name)
  }

  /** The name is listed literally, or some pattern of the set matches it. */
  predicate Matched(match_: (string, string) -> bool, patterns: set<string>, name: string) {
    name in patterns || exists p :: p in patterns && GlobPatternMatches(match_, p, name)
  }

  /** The fast path and the slow scan, whatever order the map is walked in. */
  method AnyPatternMatches(match_: (string, string) -> bool, patterns: set<string>, name: string)
    returns (found: bool)
    ensures found <==> Matched(match_, patterns, name)
  {
    if name in patterns {
      return true;
    }
    var todo := patterns;
    while todo != {}
      invariant todo <= patterns
      invariant forall p | p in patterns - todo :: !GlobPatternMatches(match_, p, name)
      decreases todo
    {
      var p :| p in todo;
      todo := todo - {p};
      if p != name {
        if GlobPatternMatches(match_, p, name) {
          return true;
        }
      }
    }
    found := false;
  }

  /** AllowsTool, AllowsResource and AllowsPrompt. */
  predicate Allows(match_: (string, string) -> bool, access: EffectiveAccess, c: Category, name: string) {
    access.Permissive? || Matched(match_, access.Patterns(c), name)
  }

  method AllowsName(match_: (string, string) -> bool, access: EffectiveAccess, c: Category, name: string)
    returns (ok: bool)
    ensures ok <==> Allows(match_, access, c, name)
  {
    if access.Permissive? {
      return true;
    }
    ok := AnyPatternMatches(match_, access.Patterns(c), name);
  }

  /** HasAnyTool, HasAnyResource and HasAnyPrompt. */
  predicate HasAny(access: EffectiveAccess, c: Category) {
    access.Permissive? || |access.Patterns(c)| > 0
  }

  // ------------------------------------------------------------- access algebra

  /** With a catalog, access for two lists of scopes together is access for the one or
      for the other. */
  lemma AccessOfBothIsEither(match_: (string, string) -> bool, bundles: Bundles, a: seq<string>, b: seq<string>,
                             c: Category, name: string)
    ensures Allows(match_, Access(Some(bundles), a + b), c, name)
            <==> Allows(match_, Access(Some(bundles), a), c, name) || Allows(match_, Access(Some(bundles), b), c, name)
  {
    hide GlobPatternMatches;
    var l := GrantedNames(bundles, a + b, c);
    var r := GrantedNames(bundles, a, c) + GrantedNames(bundles, b, c);
    forall n ensures n in l <==> n in r {
      if n in l {
        var s :| s in a + b && s in bundles && n in bundles[s].Names(c);
        assert s in a || s in b;
      }
      if n in GrantedNames(bundles, a, c) {
        var s :| s in a && s in bundles && n in bundles[s].Names(c);
        assert s in a + b;
      }
      if n in GrantedNames(bundles, b, c) {
        var s :| s in b && s in bundles && n in bundles[s].Names(c);
        assert s in a + b;
      }
    }
    assert l == r;
  }

  /** More scopes never lose access; order and repetition of scopes do not matter. */
  lemma AccessGrowsWithScopes(match_: (string, string) -> bool, catalog: Option<Bundles>, a: seq<string>,
                              b: seq<string>, c: Category, name: string)
    requires forall s | s in a :: s in b
    ensures Allows(match_, Access(catalog, a), c, name) ==> Allows(match_, Access(catalog, b), c, name)
    ensures (forall s | s in b :: s in a) ==> Access(catalog, a) == Access(catalog, b)
  {
    hide GlobPatternMatches;
    if catalog.Some? {
      forall d: Category ensures GrantedNames(catalog.value, a, d) <= GrantedNames(catalog.value, b, d) {}
      if forall s | s in b :: s in a {
        forall d: Category ensures GrantedNames(catalog.value, b, d) == GrantedNames(catalog.value, a, d) {}
      }
    }
  }

  /** A name is allowed to an identity exactly when one single scope of it allows it. */
  lemma AllowedIffSomeScopeAllows(match_: (string, string) -> bool, bundles: Bundles, scopes: seq<string>,
                                  c: Category, name: string)
    ensures Allows(match_, Access(Some(bundles), scopes), c, name)
            <==> exists s :: s in scopes && Allows(match_, Access(Some(bundles), [s]), c, name)
  {
    hide GlobPatternMatches;
    if Allows(match_, Access(Some(bundles), scopes), c, name) {
      var p :| p in GrantedNames(bundles, scopes, c) && (p == name || GlobPatternMatches(match_, p, name));
      var s :| s in scopes && s in bundles && p in bundles[s].Names(c);
      assert s in [s];
      assert p in GrantedNames(bundles, [s], c);
    }
    if s :| s in scopes && Allows(match_, Access(Some(bundles), [s]), c, name) {
      AccessGrowsWithScopes(match_, Some(bundles), [s], scopes, c, name);
    }
  }

  // ------------------------------------------------------------- advertisement

  function CategoryOfKey(key: string): Option<Category> {
    if key == "tools" then Some(Tools)
    else if key == "resources" then Some(Resources)
    else if key == "prompts" then Some(Prompts)
    else None
  }

  predicate Announced(access: EffectiveAccess, key: string) {
    CategoryOfKey(key).Some? ==> HasAny(access, CategoryOfKey(key).value)
  }

  /** The backend's capabilities less the categories in which nothing is granted. */
  function AnnouncedCaps(backend: map<string, string>, access: EffectiveAccess): map<string, string> {
    map k | k in backend && Announced(access, k) :: backend[k]
  }

  /** What initialize announces of the backend's capabilities. */
  method CuratedInitCapabilities(backend: map<string, string>, access: EffectiveAccess)
    returns (caps: map<string, string>)
    ensures caps == AnnouncedCaps(backend, access)
  {
    caps := map[];
    var todo := backend.Keys;
    while todo != {}
      invariant todo <= backend.Keys
      invariant caps.Keys == set k | k in backend && k !in todo && Announced(access, k)
      invariant forall k | k in caps :: k in backend && caps[k] == backend[k]
      decreases todo
    {
      var k :| k in todo;
      todo := todo - {k};
      match k {
        case "tools" =>
          if HasAny(access, Tools) { caps := caps[k := backend[k]]; }
        case "resources" =>
          if HasAny(access, Resources) { caps := caps[k := backend[k]]; }
        case "prompts" =>
          if HasAny(access, Prompts) { caps := caps[k := backend[k]]; }
        case _ =>
          caps := caps[k := backend[k]];
      }
    }
  }

  /** What initialize withholds, the identity cannot have: a capability key the
      backend has and initialize does not announce is a category in which no name at
      all is allowed, and an announced category has a literal name that is. */
  lemma WithheldIffNothingAllowed(match_: (string, string) -> bool, access: EffectiveAccess, c: Category)
    ensures !HasAny(access, c) <==> forall name :: !Allows(match_, access, c, name)
  {
    if HasAny(access, c) {
      var name := if access.Permissive? then "" else var n :| n in access.Patterns(c); n;
      assert Allows(match_, access, c, name);
    }
  }
}

/**
 The two places where internal/server/mcp_handler.go enforces a catalog: the filter
 on list results and the gate on calls that name something.
 */
module ListFilter {
  import opened Common
  import opened Catalogs

  // ------------------------------------------------------------------ the list

  /** A list entry: the name and uri the decoder finds in it ("" when there is none
      or it is not a string), and the entry itself. */
  datatype Item = Item(name: string, uri: string, raw: string)

  /** A field of a result object. */
  datatype Field = Items(items: seq<Item>) | NullList | Other(raw: string)

  /** A result: an object, null, or something that is neither. */
  datatype Value = Object(fields: map<string, Field>) | Null | NotObject(raw: string)

  function Ident(item: Item): string {
    if item.name != "" then item.name else item.uri
  }

  function Kept(items: seq<Item>, allow: string -> bool): seq<Item> {
    if items == [] then []
    else
      Kept(items[..|items| - 1], allow)
      + if allow(Ident(items[|items| - 1])) then [items[|items| - 1]] else []
  }

  /** What filterListResult makes of a result; None is its error. */
  function Filtered(value: Value, key: string, allow: string -> bool): Option<Value> {
    match value
    case NotObject(_) => None
    case Null => Some(value)
    case Object(fields) =>
      if key !in fields then Some(value)
      else
        match fields[key]
        case Other(_) => None
        case NullList => Some(Object(fields[key := Items([])]))
        case Items(items) => Some(Object(fields[key := Items(Kept(items, allow))]))
  }

  /** What the client gets: a result of an unexpected shape goes through as it is. */
  function Forwarded(value: Value, key: string, allow: string -> bool): Value {
    match Filtered(value, key, allow)
    case None => value
    case Some(v) => v
  }

  method FilterListResult(value: Value, key: string, allow: string -> bool) returns (r: Option<Value>)
    ensures r == Filtered(value, key, allow)
  {
    if value.NotObject? {
      return None;
    }
    if value.Null? || key !in value.fields {
      return Some(value);
    }
    if value.fields[key].Other? {
      return None;
    }
    var items := if value.fields[key].Items? then value.fields[key].items else [];
    var out := [];
    for i := 0 to |items|
      invariant out == Kept(items[..i], allow)
    {
      assert items[..i + 1][..i] == items[..i];
      var ident := items[i].name;
      if ident == "" {
        ident := items[i].uri;
      }
      if allow(ident) {
        out := out + [items[i]];
      }
    }
    assert items[..|items|] == items;
    r := Some(Object(value.fields[key := Items(out)]));
  }

  predicate StrictlyIncreasing(at: seq<nat>) {
    forall i, j | 0 <= i < j < |at| :: at[i] < at[j]
  }

  /** Where the allowed items are. */
  function Places(items: seq<Item>, allow: string -> bool): (at: seq<nat>)
    ensures forall i | 0 <= i < |at| :: at[i] < |items| && allow(Ident(items[at[i]]))
    ensures StrictlyIncreasing(at)
  {
    if items == [] then []
    else
      var n := |items| - 1;
      Places(items[..n], allow) + if allow(Ident(items[n])) then [n] else []
  }

  lemma {:induction false} PlacesComplete(items: seq<Item>, allow: string -> bool, k: nat)
    requires k < |items| && allow(Ident(items[k]))
    ensures k in Places(items, allow)
  {
    if k < |items| - 1 {
      PlacesComplete(items[..|items| - 1], allow, k);
    }
  }

  /** The filter returns exactly the allowed items in their order: the kept list reads
      off the original at strictly increasing places, and those are all the places
      that hold an allowed item. */
  lemma {:induction false} KeptIsAllowedSubsequence(items: seq<Item>, allow: string -> bool)
    ensures var at := Places(items, allow);
            && |Kept(items, allow)| == |at| && StrictlyIncreasing(at)
            && (forall i | 0 <= i < |at| :: Kept(items, allow)[i] == items[at[i]])
            && (forall k | 0 <= k < |items| :: k in at <==> allow(Ident(items[k])))
  {
    if items != [] {
      KeptIsAllowedSubsequence(items[..|items| - 1], allow);
    }
    forall k | 0 <= k < |items| && allow(Ident(items[k])) ensures k in Places(items, allow) {
      PlacesComplete(items, allow, k);
    }
  }

  /** Everything but the list itself comes through untouched, also when the shape is
      not the expected one; of a well-shaped result the client sees the allowed items
      and no others. */
  lemma OtherKeysUntouched(value: Value, key: string, allow: string -> bool)
    ensures value.Object? ==>
              && Forwarded(value, key, allow).Object?
              && Forwarded(value, key, allow).fields - {key} == value.fields - {key}
              && (key in Forwarded(value, key, allow).fields <==> key in value.fields)
    ensures !value.Object? ==> Forwarded(value, key, allow) == value
    ensures value.Object? && key in value.fields && value.fields[key].Items? ==>
              && Forwarded(value, key, allow).fields[key].Items?
              && forall item ::
                   item in Forwarded(value, key, allow).fields[key].items
                   <==> item in value.fields[key].items && allow(Ident(item))
  {
    if value.Object? && key in value.fields && value.fields[key].Items? {
      KeptMembers(value.fields[key].items, allow);
    }
  }

  lemma {:induction false} KeptMembers(items: seq<Item>, allow: string -> bool)
    ensures forall item :: item in Kept(items, allow) <==> item in items && allow(Ident(item))
  {
    if items != [] {
      var n := |items| - 1;
      KeptMembers(items[..n], allow);
      assert items == items[..n] + [items[n]];
    }
  }

  lemma KeptOneMore(items: seq<Item>, x: Item, allow: string -> bool)
    ensures Kept(items + [x], allow) == Kept(items, allow) + if allow(Ident(x)) then [x] else []
    ensures items + [] == items
  {
    assert (items + [x])[..|items|] == items;
  }

  lemma {:induction false} KeptTwice(items: seq<Item>, a: string -> bool, b: string -> bool, both: string -> bool)
    requires forall x :: both(x) == (a(x) && b(x))
    ensures Kept(Kept(items, a), b) == Kept(items, both)
  {
    if items != [] {
      var n := |items| - 1;
      KeptTwice(items[..n], a, b, both);
      KeptOneMore(Kept(items[..n], a), items[n], b);
      assert Kept(items, a) == Kept(items[..n], a) + if a(Ident(items[n])) then [items[n]] else [];
    }
  }

  /** Filtering by one rule and then by another is filtering by both; in particular
      filtering is idempotent. */
  lemma FilterTwice(value: Value, key: string, a: string -> bool, b: string -> bool, both: string -> bool)
    requires forall x :: both(x) == (a(x) && b(x))
    ensures Forwarded(Forwarded(value, key, a), key, b) == Forwarded(value, key, both)
    ensures Forwarded(Forwarded(value, key, a), key, a) == Forwarded(value, key, a)
  {
    if value.Object? && key in value.fields {
      var f := value.fields[key];
      if f.Items? {
        KeptTwice(f.items, a, b, both);
        KeptTwice(f.items, a, a, a);
      }
      assert Kept([], a) == [] == Kept([], b);
    }
  }

  // ------------------------------------------------------------------ the gate

  /** The params of a call. */
  datatype ParamValue = Str(s: string) | NotString
  datatype CallParams = Absent | NullParams | ParamObject(fields: map<string, ParamValue>) | BadParams

  /** The identifier the gate reads; None is the invalid-params error. */
  function GateIdent(params: CallParams, key: string): Option<string> {
    match params
    case BadParams => None
    case Absent => Some("")
    case NullParams => Some("")
    case ParamObject(fields) =>
      Some(if key in fields && fields[key].Str? then fields[key].s else "")
  }

  /** The call goes on to the backend. */
  predicate GatePasses(params: CallParams, key: string, allow: string -> bool) {
    var ident := GateIdent(params, key);
    ident.Some? && (ident.value == "" || allow(ident.value))
  }

  /** The part of a listed item a client puts into the call. */
  function CallFor(key: string, ident: string): CallParams {
    ParamObject(map[key := Str(ident)])
  }

  /** Tools and prompts: an item with a name is listed exactly when a call naming it
      passes the gate. */
  lemma ListedIffCallable(items: seq<Item>, allow: string -> bool, item: Item)
    requires item in items && item.name != ""
    ensures item in Kept(items, allow) <==> GatePasses(CallFor("name", item.name), "name", allow)
  {
    KeptMembers(items, allow);
  }

  /** Resources: the list goes by name when there is one, the gate by uri. They agree
      for an item without a name. */
  lemma UnnamedResourceListedIffReadable(items: seq<Item>, allow: string -> bool, item: Item)
    requires item in items && item.name == "" && item.uri != ""
    ensures item in Kept(items, allow) <==> GatePasses(CallFor("uri", item.uri), "uri", allow)
  {
    KeptMembers(items, allow);
  }

  /** What a set of resource patterns grants, as a rule on identifiers. */
  function GrantedBy(match_: (string, string) -> bool, patterns: set<string>): string -> bool {
    (x: string) => Allows(match_, Granted({}, patterns, {}), Resources, x)
  }

  /** For this grant, the resource list shows an item exactly when the gate lets its uri
      through. */
  predicate ListMeetsGate(match_: (string, string) -> bool, patterns: set<string>, item: Item) {
    item in Kept([item], GrantedBy(match_, patterns))
    <==> GatePasses(CallFor("uri", item.uri), "uri", GrantedBy(match_, patterns))
  }

  lemma MeetsIff(match_: (string, string) -> bool, patterns: set<string>, item: Item)
    ensures ListMeetsGate(match_, patterns, item)
            <==> (Matched(match_, patterns, Ident(item)) <==> item.uri == "" || Matched(match_, patterns, item.uri))
  {
    KeptMembers([item], GrantedBy(match_, patterns));
    hide Matched;
    var access := Granted({}, patterns, {});
    assert Allows(match_, access, Resources, item.uri) <==> Matched(match_, patterns, item.uri);
    assert Allows(match_, access, Resources, Ident(item)) <==> Matched(match_, patterns, Ident(item));
  }

  /** One literal name as the only pattern matches that name alone. */
  lemma LiteralMatchesItself(match_: (string, string) -> bool, name: string, x: string)
    requires !ContainsAny(name, "*?[")
    ensures Matched(match_, {name}, x) <==> x == name
  {
    StarIsWild();
  }

  lemma StarIsWild()
    ensures ContainsAny("*", "*?[")
  {
    assert "*"[0] == '*';
  }

  /** Some pattern matches this string and no other, as a literal does, and in path.Match
      the escaped form of any string. */
  ghost predicate CanBeSingledOut(match_: (string, string) -> bool, x: string) {
    exists p :: SinglesOut(match_, p, x)
  }

  ghost predicate SinglesOut(match_: (string, string) -> bool, p: string, x: string) {
    forall y :: Matched(match_, {p}, y) <==> y == x
  }

  lemma LiteralsCanBeSingledOut(match_: (string, string) -> bool, x: string)
    requires !ContainsAny(x, "*?[")
    ensures CanBeSingledOut(match_, x)
  {
    forall y ensures Matched(match_, {x}, y) <==> y == x {
      LiteralMatchesItself(match_, x, y);
    }
    assert SinglesOut(match_, x, x);
  }

  /** Exactly when the resource list and the gate agree on an item whatever is granted: it
      has a uri, and no name or its uri for a name. Both ways whenever its name or its uri
      can be granted alone; that always holds of one without wildcards. */
  lemma ResourceListAndGateAgreeIff(match_: (string, string) -> bool, item: Item)
    ensures item.uri != "" && (item.name == "" || item.name == item.uri) ==>
              forall patterns :: ListMeetsGate(match_, patterns, item)
    ensures CanBeSingledOut(match_, item.uri) || CanBeSingledOut(match_, item.name) ==>
              ((forall patterns :: ListMeetsGate(match_, patterns, item))
               <==> item.uri != "" && (item.name == "" || item.name == item.uri))
    ensures !ContainsAny(item.uri, "*?[") ==> CanBeSingledOut(match_, item.uri)
    ensures !ContainsAny(item.name, "*?[") ==> CanBeSingledOut(match_, item.name)
  {
    hide ListMeetsGate, Matched;
    forall patterns
      ensures ListMeetsGate(match_, patterns, item)
              <==> (Matched(match_, patterns, Ident(item)) <==> item.uri == "" || Matched(match_, patterns, item.uri))
    {
      MeetsIff(match_, patterns, item);
    }
    if !ContainsAny(item.uri, "*?[") { LiteralsCanBeSingledOut(match_, item.uri); }
    if !ContainsAny(item.name, "*?[") { LiteralsCanBeSingledOut(match_, item.name); }
    if item.uri == "" {
      NothingGranted(match_, Ident(item));
      assert !ListMeetsGate(match_, {}, item);
    } else if item.name != "" && item.name != item.uri {
      forall p | SinglesOut(match_, p, item.uri) || SinglesOut(match_, p, item.name)
        ensures !ListMeetsGate(match_, {p}, item)
      {
      }
    }
  }

  lemma NothingGranted(match_: (string, string) -> bool, x: string)
    ensures !Matched(match_, {}, x)
  {
  }
}

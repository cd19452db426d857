/**
 * The pure half of the SwiftUI sample app's deep-link handling
 * (Apps/CocoaPods-FCM/src/App.swift): turning an already decomposed URL into
 * a command string, and looking up query items by name.
 *
 * Parsing a raw URL is `URLComponents`' job and is not modelled; a URL arrives
 * here as its parts.
 */
module DeepLink {
  import opened Wrappers

  /** One `URLQueryItem`: a name and an optional value (`?a` has no value). */
  datatype QueryItem = QueryItem(name: string, value: Option<string>)

  /** The parts of a URL the handler reads, as `URLComponents` exposes them. */
  datatype UrlComponents = UrlComponents(
    scheme: Option<string>,
    host: Option<string>,
    path: string,
    queryItems: Option<seq<QueryItem>>)

  /** The scheme of a universal link. */
  const UniversalLinkScheme: string := "https"

  /** Number of occurrences of `c` in `s`. */
  function Occurrences(s: string, c: char): nat {
    if s == [] then 0 else (if s[0] == c then 1 else 0) + Occurrences(s[1..], c)
  }

  /**
   * `s.replacingOccurrences(of: "/", with: "")`: the string with every `/`
   * removed and every other character kept, in order.
   */
  function StripSlashes(s: string): (r: string)
    ensures '/' !in r
    ensures |r| == |s| - Occurrences(s, '/')
    ensures forall c :: c != '/' ==> Occurrences(r, c) == Occurrences(s, c)
    ensures '/' !in s ==> r == s
  {
    if s == [] then []
    else if s[0] == '/' then StripSlashes(s[1..])
    else [s[0]] + StripSlashes(s[1..])
  }

  /** Removing `/` from a concatenation removes it from each part. */
  lemma {:induction false} StripSlashesAppend(a: string, b: string)
    ensures StripSlashes(a + b) == StripSlashes(a) + StripSlashes(b)
  {
    if a == [] {
      assert a + b == b;
    } else {
      assert (a + b)[1..] == a[1..] + b;
      StripSlashesAppend(a[1..], b);
    }
  }

  /** Stripping is idempotent: a command never changes when stripped again. */
  lemma StripSlashesIdempotent(s: string)
    ensures StripSlashes(StripSlashes(s)) == StripSlashes(s)
  {
  }

  /**
   * The handler can compute a command: a universal link always can (from its
   * path); any other URL needs a host, which the handler force-unwraps.
   */
  predicate HasCommand(u: UrlComponents) {
    u.scheme == Some(UniversalLinkScheme) || u.host.Some?
  }

  /**
   * The command of a deep link: for a universal link its path with every `/`
   * removed, otherwise its host.
   */
  function Command(u: UrlComponents): (cmd: string)
    requires HasCommand(u)
    ensures u.scheme == Some(UniversalLinkScheme) ==> '/' !in cmd && cmd == StripSlashes(u.path)
    ensures u.scheme != Some(UniversalLinkScheme) ==> Some(cmd) == u.host
  {
    if u.scheme == Some(UniversalLinkScheme) then StripSlashes(u.path) else u.host.value
  }

  /**
   * A universal link whose path is `/` followed by a slash-free command, and
   * possibly a trailing `/`, yields exactly that command, whatever its host.
   */
  lemma {:induction false} UniversalLinkCommand(host: Option<string>, cmd: string, trailing: bool, query: Option<seq<QueryItem>>)
    requires '/' !in cmd
    ensures Command(UrlComponents(Some(UniversalLinkScheme), host, "/" + cmd + (if trailing then "/" else ""), query)) == cmd
  {
    var tail := if trailing then "/" else "";
    StripSlashesAppend("/", cmd);
    StripSlashesAppend("/" + cmd, tail);
    assert StripSlashes("/") == [] by { assert "/"[1..] == []; }
    assert StripSlashes(tail) == [] by { if trailing { assert tail[1..] == []; } }
  }

  /** `items[i]` is the first item called `name`. */
  predicate IsFirstNamed(items: seq<QueryItem>, name: string, i: int) {
    0 <= i < |items| && items[i].name == name &&
    forall j :: 0 <= j < i ==> items[j].name != name
  }

  /** `items.firstIndex { $0.name == name }`. */
  function FirstIndexNamed(items: seq<QueryItem>, name: string): (r: Option<nat>)
    ensures r.None? <==> forall i :: 0 <= i < |items| ==> items[i].name != name
    ensures r.Some? ==> IsFirstNamed(items, name, r.value)
  {
    if items == [] then None
    else if items[0].name == name then Some(0)
    else match FirstIndexNamed(items[1..], name)
      case None => None
      case Some(i) => Some(i + 1)
  }

  /**
   * `queryItems.first { $0.name == name }?.value`, for a query that may be
   * absent: the value of the first item called `name`, or none when the query
   * is absent, has no such item, or that first item has no value.
   */
  function QueryValue(queryItems: Option<seq<QueryItem>>, name: string): (v: Option<string>)
    ensures queryItems.None? ==> v == None
    ensures queryItems.Some? && (forall i :: 0 <= i < |queryItems.value| ==> queryItems.value[i].name != name) ==> v == None
    ensures forall i :: queryItems.Some? && IsFirstNamed(queryItems.value, name, i) ==> v == queryItems.value[i].value
  {
    match queryItems
    case None => None
    case Some(items) =>
      match FirstIndexNamed(items, name)
      case None => None
      case Some(i) => items[i].value
  }

  /** Only the first item with a name matters: later ones never change the lookup. */
  lemma QueryValueIgnoresLaterItems(name: string, value: Option<string>, rest: seq<QueryItem>)
    ensures QueryValue(Some([QueryItem(name, value)] + rest), name) == value
  {
    assert IsFirstNamed([QueryItem(name, value)] + rest, name, 0);
  }
}

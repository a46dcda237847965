/**
 The profile URL that PlayerListScraper.parse builds from a relative link, and the two functions
 of scripts/scrape_player_info.py that take it apart again.
 */
module ProfileUrl {
  import opened Tables

  const FBREF_BASE := "https://fbref.com"
  const ALL_COMPS := "all_comps"
  const MARK := "-Stats-"
  const SUFFIX := "-Stats---All-Competitions"

  // ---------- The string operations used ----------

  // s.rstrip(c)
  function RStrip(s: string, c: char): string {
    if s != "" && s[|s| - 1] == c then RStrip(s[..|s| - 1], c) else s
  }

  // All of the trailing characters go, and no other.
  lemma {:induction false} RStripMeans(s: string, c: char)
    ensures RStrip(s, c) <= s && (RStrip(s, c) != "" ==> RStrip(s, c)[|RStrip(s, c)| - 1] != c)
    ensures forall i :: |RStrip(s, c)| <= i < |s| ==> s[i] == c
  {
    if s != "" && s[|s| - 1] == c {
      RStripMeans(s[..|s| - 1], c);
    }
  }

  // s.split(c)
  function Split(s: string, c: char): (parts: seq<string>)
    ensures |parts| >= 1
  {
    if c !in s then [s]
    else
      var i := IndexOfChar(s, c);
      [s[..i]] + Split(s[i + 1..], c)
  }

  function IndexOfChar(s: string, c: char): (i: nat)
    requires c in s
    ensures i < |s| && s[i] == c && c !in s[..i]
  {
    if s[0] == c then 0 else 1 + IndexOfChar(s[1..], c)
  }

  // s.rsplit(c, 1), first and last element
  function BeforeLast(s: string, c: char): string {
    if c !in s then s
    else if s[|s| - 1] == c then s[..|s| - 1]
    else BeforeLast(s[..|s| - 1], c)
  }

  function AfterLast(s: string, c: char): string {
    if c !in s then s
    else if s[|s| - 1] == c then ""
    else AfterLast(s[..|s| - 1], c) + [s[|s| - 1]]
  }

  // parts.index(x)
  function Index(parts: seq<string>, x: string): Option<nat> {
    if parts == [] then None
    else if parts[0] == x then Some(0)
    else
      match Index(parts[1..], x)
      case None => None
      case Some(i) => Some(i + 1)
  }

  predicate OccursAt(s: string, sub: string, i: nat) {
    i + |sub| <= |s| && s[i..i + |sub|] == sub
  }

  // s.split(sub)[0]
  function BeforeFirst(s: string, sub: string, from: nat := 0): string
    requires from <= |s|
    decreases |s| - from
  {
    if OccursAt(s, sub, from) then s[..from]
    else if from == |s| then s
    else BeforeFirst(s, sub, from + 1)
  }

  // s.replace("-", " ")
  function Spaced(s: string): (r: string)
    ensures |r| == |s| && forall i :: 0 <= i < |s| ==> r[i] == if s[i] == '-' then ' ' else s[i]
  {
    seq(|s|, i requires 0 <= i < |s| => if s[i] == '-' then ' ' else s[i])
  }

  function Lower(s: string): (r: string)
    ensures |r| == |s|
    ensures forall i :: 0 <= i < |s| ==>
      if 'A' <= s[i] <= 'Z' then r[i] as int == s[i] as int + ('a' as int - 'A' as int) else r[i] == s[i]
  {
    seq(|s|, i requires 0 <= i < |s| => if 'A' <= s[i] <= 'Z' then (s[i] as int + 32) as char else s[i])
  }

  // ---------- urlparse ----------

  // Up to the first character that stops, and from there on.
  function Upto(s: string, stop: char -> bool): string {
    if s == "" || stop(s[0]) then "" else [s[0]] + Upto(s[1..], stop)
  }

  function From(s: string, stop: char -> bool): string {
    if s == "" || stop(s[0]) then s else From(s[1..], stop)
  }

  predicate SchemeChar(c: char) {
    'a' <= c <= 'z' || 'A' <= c <= 'Z' || '0' <= c <= '9' || c == '+' || c == '-' || c == '.'
  }

  function AfterScheme(url: string): string {
    var rest := From(url, c => !SchemeChar(c));
    if rest != "" && rest[0] == ':' then rest[1..] else url
  }

  function AfterHost(rest: string): string {
    if "//" <= rest then From(rest[2..], EndsHost) else rest
  }

  predicate EndsHost(c: char) {
    c == '/' || c == '?' || c == '#'
  }

  function WithoutParams(path: string): string {
    if '/' !in path then Upto(path, c => c == ';')
    else BeforeLast(path, '/') + "/" + Upto(AfterLast(path, '/'), c => c == ';')
  }

  // ---------- The source's functions ----------

  // Of an absolute link, what stands between the host and the query, fragment or last parameters.
  function PathOf(href: string): string {
    if "http" <= href
    then WithoutParams(Upto(Upto(AfterHost(AfterScheme(href)), c => c == '#'), c => c == '?'))
    else href
  }

  function BuildUrl(href: string): string {
    BuildFromPath(PathOf(href))
  }

  function BuildFromPath(path: string): string {
    var p := RStrip(path, '/');
    FBREF_BASE + BeforeLast(p, '/') + "/" + ALL_COMPS + "/" + AfterLast(p, '/') + SUFFIX
  }

  function PlayerIdFromUrl(url: string): string {
    var parts := Split(RStrip(url, '/'), '/');
    match Index(parts, "players")
    case None => url
    case Some(i) => if i + 1 < |parts| then parts[i + 1] else url
  }

  function SlugFromParts(parts: seq<string>, i: nat): string {
    var slug := if |parts| > i + 2 then parts[i + 2] else "";
    var slug := if slug == ALL_COMPS then (if |parts| > i + 3 then parts[i + 3] else "") else slug;
    BeforeFirst(slug, MARK)
  }

  // Up to the final title-casing.
  function PlayerNameFromUrl(url: string): string {
    var parts := Split(RStrip(url, '/'), '/');
    match Index(parts, "players")
    case None => "unknown"
    case Some(i) => if SlugFromParts(parts, i) != "" then Spaced(SlugFromParts(parts, i)) else "unknown"
  }

  // ---------- Splitting ----------

  lemma {:induction false} FirstIndex(a: string, b: string, c: char)
    requires c !in a
    ensures c in a + [c] + b && IndexOfChar(a + [c] + b, c) == |a|
  {
    var s := a + [c] + b;
    assert s[|a|] == c;
    if a != "" {
      assert s[0] == a[0] && s[1..] == a[1..] + [c] + b;
      FirstIndex(a[1..], b, c);
    }
  }

  lemma SplitCons(a: string, b: string, c: char)
    requires c !in a
    ensures Split(a + [c] + b, c) == [a] + Split(b, c)
  {
    FirstIndex(a, b, c);
    var s := a + [c] + b;
    assert s[..|a|] == a && s[|a| + 1..] == b;
  }

  lemma {:induction false} LastSegment(base: string, last: string, c: char)
    requires c !in last
    ensures BeforeLast(base + [c] + last, c) == base && AfterLast(base + [c] + last, c) == last
  {
    var s := base + [c] + last;
    assert s[|base|] == c;
    if last == "" {
      assert s[..|s| - 1] == base;
    } else {
      var init := last[..|last| - 1];
      assert s[..|s| - 1] == base + [c] + init;
      assert s[|s| - 1] == last[|last| - 1];
      LastSegment(base, init, c);
      assert init + [last[|last| - 1]] == last;
    }
  }

  // ---------- The path of a link ----------

  lemma {:induction false} UptoStop(a: string, b: string, stop: char -> bool)
    requires forall i :: 0 <= i < |a| ==> !stop(a[i])
    requires b != "" ==> stop(b[0])
    ensures Upto(a + b, stop) == a && From(a + b, stop) == b
  {
    if a == "" {
      assert a + b == b;
    } else {
      assert (a + b)[1..] == a[1..] + b;
      UptoStop(a[1..], b, stop);
      assert [a[0]] + a[1..] == a;
    }
  }

  lemma {:induction false} UptoThrough(a: string, b: string, stop: char -> bool)
    requires forall i :: 0 <= i < |a| ==> !stop(a[i])
    ensures Upto(a + b, stop) == a + Upto(b, stop)
  {
    if a == "" {
      assert a + b == b;
    } else {
      assert (a + b)[1..] == a[1..] + b;
      UptoThrough(a[1..], b, stop);
    }
  }

  // How a link may lead to a path: as the path itself, or by scheme and host, with parameters of the
  // last segment and a query or a fragment after it.
  datatype Place = Relative | Absolute(scheme: string, host: string, params: string, tail: string)

  function LinkTo(place: Place, path: string): string {
    match place
    case Relative => path
    case Absolute(scheme, host, params, tail) => scheme + (":" + ("//" + (host + ((path + params) + tail))))
  }

  predicate WellFormed(place: Place, path: string) {
    && path != "" && path[0] == '/'
    && match place
       case Relative => true
       case Absolute(scheme, host, params, tail) =>
         && (scheme == "http" || scheme == "https")
         && '/' !in host && '?' !in host && '#' !in host
         && '?' !in path && '#' !in path && ';' !in path
         && (params != "" ==> params[0] == ';' && '/' !in params && '?' !in params && '#' !in params)
         && (tail != "" ==> tail[0] == '?' || tail[0] == '#')
  }

  lemma AfterSchemeAndHost(scheme: string, host: string, rest: string)
    requires scheme == "http" || scheme == "https"
    requires '/' !in host && '?' !in host && '#' !in host
    requires rest != "" && rest[0] == '/'
    ensures AfterHost(AfterScheme(scheme + (":" + ("//" + (host + rest))))) == rest
  {
    var url := scheme + (":" + ("//" + (host + rest)));
    UptoStop(scheme, ":" + ("//" + (host + rest)), c => !SchemeChar(c));
    assert (":" + ("//" + (host + rest)))[1..] == "//" + (host + rest);
    assert AfterScheme(url) == "//" + (host + rest);
    assert ("//" + (host + rest))[2..] == host + rest;
    UptoStop(host, rest, EndsHost);
  }

  lemma CutTail(path: string, tail: string)
    requires '?' !in path && '#' !in path && (tail != "" ==> tail[0] == '?' || tail[0] == '#')
    ensures Upto(Upto(path + tail, c => c == '#'), c => c == '?') == path
  {
    var short := Upto(tail, c => c == '#');
    UptoThrough(path, tail, c => c == '#');
    assert short != "" ==> short[0] == '?';
    UptoStop(path, short, c => c == '?');
  }

  lemma CutParams(path: string, params: string)
    requires '/' in path && ';' !in path && (params != "" ==> params[0] == ';' && '/' !in params)
    ensures WithoutParams(path + params) == path
  {
    LastSplit(path, '/');
    var first, last := BeforeLast(path, '/'), AfterLast(path, '/');
    NoneAfterLast(path, '/');
    assert path + params == first + ['/'] + (last + params);
    LastSegment(first, last + params, '/');
    assert forall i :: 0 <= i < |last| ==> last[i] in path;
    UptoStop(last, params, c => c == ';');
    assert '/' in path + params by { assert (path + params)[|first|] == '/'; }
  }

  lemma {:induction false} NoneAfterLast(s: string, c: char)
    requires c in s
    ensures c !in AfterLast(s, c)
  {
    if s[|s| - 1] != c {
      var init := s[..|s| - 1];
      assert s == init + [s[|s| - 1]];
      NoneAfterLast(init, c);
    }
  }

  lemma {:induction false} LastSplit(s: string, c: char)
    requires c in s
    ensures BeforeLast(s, c) + [c] + AfterLast(s, c) == s
    ensures forall i :: 0 <= i < |AfterLast(s, c)| ==> AfterLast(s, c)[i] in s
  {
    if s[|s| - 1] != c {
      var init := s[..|s| - 1];
      assert s == init + [s[|s| - 1]];
      LastSplit(init, c);
      assert BeforeLast(s, c) + [c] + AfterLast(s, c) == BeforeLast(init, c) + [c] + AfterLast(init, c) + [s[|s| - 1]];
    }
  }

  lemma PathOfLink(place: Place, path: string)
    requires WellFormed(place, path)
    ensures PathOf(LinkTo(place, path)) == path
  {
    if place.Absolute? {
      var href := LinkTo(place, path);
      assert href[..|place.scheme|] == place.scheme;
      assert "http" <= href;
      var long := path + place.params;
      assert (long + place.tail)[0] == path[0];
      AfterSchemeAndHost(place.scheme, place.host, long + place.tail);
      CutTail(long, place.tail);
      CutParams(path, place.params);
    }
  }

  // ---------- The round trip ----------

  function Href(id: string, slug: string, slash: bool): string {
    "/en/players/" + id + "/" + slug + if slash then "/" else ""
  }

  predicate SlashFree(s: string) {
    '/' !in s
  }

  lemma BuiltUrl(id: string, slug: string, slash: bool)
    requires SlashFree(slug) && slug != ""
    ensures BuildFromPath(Href(id, slug, slash)) ==
            "https://fbref.com/en/players" + "/" + (id + "/" + ALL_COMPS + "/" + (slug + SUFFIX))
  {
    var p := "/en/players/" + id + "/" + slug;
    assert p[|p| - 1] == slug[|slug| - 1];
    assert RStrip(p, '/') == p;
    if slash {
      assert Href(id, slug, slash)[..|p|] == p;
    } else {
      assert Href(id, slug, slash) == p;
    }
    assert RStrip(Href(id, slug, slash), '/') == p;
    LastSegment("/en/players/" + id, slug, '/');
    Regroup(FBREF_BASE, "/en/players", "/", id, ALL_COMPS, slug, SUFFIX);
    assert "/en/players" + "/" == "/en/players/" && FBREF_BASE + "/en/players" == "https://fbref.com/en/players";
  }

  lemma Regroup(base: string, dir: string, sep: string, id: string, all: string, slug: string, suffix: string)
    ensures base + (dir + sep + id) + sep + all + sep + slug + suffix ==
            (base + dir) + sep + (id + sep + all + sep + (slug + suffix))
  {
  }

  // Joining with a separator, the inverse of splitting.
  function Join(parts: seq<string>, c: char): string
    requires parts != []
  {
    if |parts| == 1 then parts[0] else parts[0] + [c] + Join(parts[1..], c)
  }

  lemma {:induction false} SplitJoin(parts: seq<string>, c: char)
    requires parts != [] && forall i :: 0 <= i < |parts| ==> c !in parts[i]
    ensures Split(Join(parts, c), c) == parts
  {
    if |parts| > 1 {
      SplitJoin(parts[1..], c);
      SplitCons(parts[0], Join(parts[1..], c), c);
      assert [parts[0]] + parts[1..] == parts;
    }
  }

  lemma JoinStep(head: string, parts: seq<string>, c: char)
    requires parts != []
    ensures Join([head] + parts, c) == head + [c] + Join(parts, c)
  {
    assert ([head] + parts)[1..] == parts;
  }

  function Parts(id: string, slug: string): (parts: seq<string>)
    ensures |parts| == 8
  {
    ["https:", "", "fbref.com", "en", "players"] + [id, "all_comps", slug + "-Stats---All-Competitions"]
  }

  lemma JoinLast(id: string, last: string)
    ensures Join([id, ALL_COMPS, last], '/') == id + "/" + ALL_COMPS + "/" + last
  {
    var t0 := [last];
    var t1 := [ALL_COMPS] + t0;
    JoinStep(ALL_COMPS, t0, '/');
    JoinStep(id, t1, '/');
    assert [id] + t1 == [id, ALL_COMPS, last];
    assert Join(t0, '/') == last;
    assert id + "/" + (ALL_COMPS + "/" + last) == id + "/" + ALL_COMPS + "/" + last;
  }

  lemma {:induction false} JoinConcat(a: seq<string>, b: seq<string>, c: char)
    requires a != [] && b != []
    ensures Join(a + b, c) == Join(a, c) + [c] + Join(b, c)
  {
    assert (a + b)[1..] == a[1..] + b;
    if |a| > 1 {
      JoinConcat(a[1..], b, c);
      assert a[0] + [c] + (Join(a[1..], c) + [c] + Join(b, c)) == a[0] + [c] + Join(a[1..], c) + [c] + Join(b, c);
    } else {
      assert a[1..] + b == b;
    }
  }

  lemma JoinDir()
    ensures Join(["fbref.com", "en", "players"], '/') == "fbref.com/en/players"
  {
    JoinStep("en", ["players"], '/');
    JoinStep("fbref.com", ["en", "players"], '/');
  }

  lemma JoinHost()
    ensures Join(["", "fbref.com", "en", "players"], '/') == "/fbref.com/en/players"
  {
    JoinDir();
    JoinStep("", ["fbref.com", "en", "players"], '/');
    assert "" + ['/'] + "fbref.com/en/players" == "/fbref.com/en/players";
  }

  lemma JoinFront()
    ensures Join(["https:", "", "fbref.com", "en", "players"], '/') == "https://fbref.com/en/players"
  {
    JoinHost();
    JoinStep("https:", ["", "fbref.com", "en", "players"], '/');
    assert "https:" + ['/'] + "/fbref.com/en/players" == "https://fbref.com/en/players";
  }

  lemma BuiltIsJoin(id: string, slug: string, slash: bool)
    requires SlashFree(slug) && slug != ""
    ensures BuildFromPath(Href(id, slug, slash)) == Join(Parts(id, slug), '/')
  {
    BuiltUrl(id, slug, slash);
    JoinLast(id, slug + SUFFIX);
    JoinFront();
    JoinConcat(["https:", "", "fbref.com", "en", "players"], [id, ALL_COMPS, slug + SUFFIX], '/');
  }

  lemma BuiltParts(id: string, slug: string, slash: bool)
    requires SlashFree(id) && SlashFree(slug) && slug != ""
    ensures Split(RStrip(BuildFromPath(Href(id, slug, slash)), '/'), '/') == Parts(id, slug)
  {
    BuiltIsJoin(id, slug, slash);
    BuiltUrl(id, slug, slash);
    var url := BuildFromPath(Href(id, slug, slash));
    assert url[|url| - 1] == SUFFIX[|SUFFIX| - 1] == 's';
    assert RStrip(url, '/') == url;
    SplitJoin(Parts(id, slug), '/');
  }

  lemma {:induction false} IndexIs(parts: seq<string>, x: string, at: nat)
    requires at < |parts| && parts[at] == x && forall i :: 0 <= i < at ==> parts[i] != x
    ensures Index(parts, x) == Some(at)
  {
    if at > 0 {
      IndexIs(parts[1..], x, at - 1);
    }
  }

  lemma PlayersIsFourth(id: string, slug: string)
    ensures Index(Parts(id, slug), "players") == Some(4)
  {
    assert |"https:"| != |"players"| && |"fbref.com"| != |"players"|;
    IndexIs(Parts(id, slug), "players", 4);
  }

  // The id comes back as it stands in the link; it is the stored player id, which the scraper
  // lower-cases, exactly when the link has it in lower case.
  lemma IdRoundTrip(place: Place, id: string, slug: string, slash: bool)
    requires SlashFree(id) && SlashFree(slug) && slug != "" && WellFormed(place, Href(id, slug, slash))
    ensures var url := BuildUrl(LinkTo(place, Href(id, slug, slash)));
      PlayerIdFromUrl(url) == id && (PlayerIdFromUrl(url) == Lower(id) <==> Lower(id) == id)
  {
    PathOfLink(place, Href(id, slug, slash));
    BuiltParts(id, slug, slash);
    PlayersIsFourth(id, slug);
  }

  // An upper-case link: the id that is parsed is not the id that is stored.
  lemma AnUpperCaseId()
    ensures PlayerIdFromUrl(BuildUrl(Href("ABCD1234", "A-B", false))) == "ABCD1234" != Lower("ABCD1234")
  {
    IdRoundTrip(Relative, "ABCD1234", "A-B", false);
    assert Lower("ABCD1234")[0] == 'a';
  }

  predicate Contains(s: string, sub: string) {
    exists i: nat | i <= |s| :: OccursAt(s, sub, i)
  }

  predicate EndsWith(s: string, suffix: string) {
    |suffix| <= |s| && s[|s| - |suffix|..] == suffix
  }

  // The slug survives the appended marker: no earlier occurrence of the marker, not even one that
  // borrows the first characters of the appended text.
  predicate CleanSlug(slug: string) {
    !Contains(slug, "-Stats-") && !EndsWith(slug, "-Stats")
  }

  lemma {:induction false} BeforeFirstIs(s: string, sub: string, from: nat, at: nat)
    requires from <= at <= |s| && OccursAt(s, sub, at)
    requires forall i: nat :: from <= i < at ==> !OccursAt(s, sub, i)
    ensures BeforeFirst(s, sub, from) == s[..at]
    decreases at - from
  {
    if from < at {
      BeforeFirstIs(s, sub, from + 1, at);
    }
  }

  lemma {:induction false} BeforeFirstIsShort(s: string, sub: string, from: nat, at: nat)
    requires from <= at <= |s| && OccursAt(s, sub, at)
    ensures |BeforeFirst(s, sub, from)| <= at
    decreases at - from
  {
    if from < at && !OccursAt(s, sub, from) {
      BeforeFirstIsShort(s, sub, from + 1, at);
    }
  }

  // An occurrence of the marker that starts inside the slug lies within it, or is its last
  // six characters followed by the hyphen of the appended text.
  lemma EarlyMarker(slug: string, i: nat)
    requires i < |slug| && OccursAt(slug + SUFFIX, MARK, i)
    ensures OccursAt(slug, MARK, i) || (i + 6 == |slug| && EndsWith(slug, "-Stats"))
  {
    var s := slug + SUFFIX;
    assert s[i..i + 7] == MARK;
    forall k | 0 <= k < 7 ensures s[i + k] == MARK[k] {
      assert s[i..i + 7][k] == s[i + k];
    }
    if i + 7 <= |slug| {
      assert slug[i..i + 7] == s[i..i + 7];
    } else {
      // the character of the slug's end meets the hyphen that opens the appended text
      var d := |slug| - i;
      assert 1 <= d <= 6 && s[i + d] == SUFFIX[0] == '-';
      assert MARK[d] == '-';
      assert d == 6;
      assert slug[i..] == s[i..i + 6];
      assert s[i..i + 6] == MARK[..6] == "-Stats";
    }
  }

  lemma MarkerAfterSlug(slug: string)
    ensures OccursAt(slug + SUFFIX, MARK, |slug|)
  {
    assert (slug + SUFFIX)[|slug|..|slug| + 7] == SUFFIX[..7] == MARK;
  }

  lemma BorrowedMarker(slug: string)
    requires EndsWith(slug, "-Stats")
    ensures OccursAt(slug + SUFFIX, MARK, |slug| - 6)
  {
    var s := slug + SUFFIX;
    var i := |slug| - 6;
    assert s[i..i + 7] == slug[i..] + SUFFIX[..1];
    assert "-Stats" + SUFFIX[..1] == MARK;
  }

  // The slug comes back exactly when it is clean, and is cut short otherwise.
  lemma SlugRoundTripIff(slug: string)
    ensures CleanSlug(slug) ==> BeforeFirst(slug + SUFFIX, MARK) == slug
    ensures !CleanSlug(slug) ==> |BeforeFirst(slug + SUFFIX, MARK)| < |slug|
  {
    var s := slug + SUFFIX;
    MarkerAfterSlug(slug);
    if CleanSlug(slug) {
      forall i: nat | 0 <= i < |slug| ensures !OccursAt(s, MARK, i) {
        if OccursAt(s, MARK, i) {
          EarlyMarker(slug, i);
        }
      }
      BeforeFirstIs(s, MARK, 0, |slug|);
      assert s[..|slug|] == slug;
    } else if EndsWith(slug, "-Stats") {
      BorrowedMarker(slug);
      BeforeFirstIsShort(s, MARK, 0, |slug| - 6);
    } else {
      var i: nat :| i <= |slug| && OccursAt(slug, MARK, i);
      assert s[i..i + 7] == slug[i..i + 7];
      BeforeFirstIsShort(s, MARK, 0, i);
    }
  }

  // When nothing is left of the slug the answer is "unknown", which is no spaced slug either: a slug
  // cut at its first character begins with a hyphen, hence its spaced form with a space.
  lemma NothingLeft(slug: string)
    requires slug != "" && BeforeFirst(slug + SUFFIX, MARK) == ""
    ensures Spaced(slug) != "unknown"
  {
    var s := slug + SUFFIX;
    MarkerAfterSlug(slug);
    EmptyMeansAtStart(s, MARK, 0);
    assert s[..7][0] == MARK[0] == '-';
    assert s[0] == slug[0];
    assert Spaced(slug)[0] == ' ';
  }

  lemma {:induction false} EmptyMeansAtStart(s: string, sub: string, from: nat)
    requires s != "" && from <= |s| && BeforeFirst(s, sub, from) == ""
    ensures from == 0 && OccursAt(s, sub, 0)
    decreases |s| - from
  {
    if !OccursAt(s, sub, from) && from < |s| {
      EmptyMeansAtStart(s, sub, from + 1);
    }
  }

  // Building a profile URL and reading the name back gives the slug with spaces for hyphens, from
  // relative and absolute links, with or without a trailing slash, exactly for the clean slugs.
  lemma NameRoundTripIff(place: Place, id: string, slug: string, slash: bool)
    requires SlashFree(id) && SlashFree(slug) && slug != "" && WellFormed(place, Href(id, slug, slash))
    ensures PlayerNameFromUrl(BuildUrl(LinkTo(place, Href(id, slug, slash)))) == Spaced(slug) <==> CleanSlug(slug)
  {
    PathOfLink(place, Href(id, slug, slash));
    BuiltParts(id, slug, slash);
    PlayersIsFourth(id, slug);
    SlugRoundTripIff(slug);
    var left := BeforeFirst(slug + SUFFIX, MARK);
    assert SlugFromParts(Parts(id, slug), 4) == left;
    if left == "" {
      NothingLeft(slug);
    } else {
      assert |Spaced(left)| == |left|;
    }
  }

  // Both ways to be unclean: the marker within the slug, and its beginning at the slug's end.
  lemma UncleanSlugs(id: string)
    requires SlashFree(id)
    ensures PlayerNameFromUrl(BuildUrl(Href(id, "A-Stats-B", false))) != Spaced("A-Stats-B")
    ensures PlayerNameFromUrl(BuildUrl(Href(id, "A-Stats", false))) != Spaced("A-Stats")
  {
    assert OccursAt("A-Stats-B", MARK, 1);
    NameRoundTripIff(Relative, id, "A-Stats-B", false);
    assert EndsWith("A-Stats", "-Stats");
    NameRoundTripIff(Relative, id, "A-Stats", false);
  }

  // ---------- Other URLs ----------

  // A URL as the list of its segments, and what is read from it.
  ghost predicate HasParts(url: string, parts: seq<string>) {
    Split(RStrip(url, '/'), '/') == parts
  }

  lemma JoinHasParts(parts: seq<string>)
    requires parts != [] && (forall i :: 0 <= i < |parts| ==> '/' !in parts[i]) && parts[|parts| - 1] != ""
    ensures HasParts(Join(parts, '/'), parts)
  {
    JoinEnds(parts);
    SplitJoin(parts, '/');
  }

  // A URL whose path has no segment "players", or has it last, is its own id and has no name.
  lemma NoPlayersNoId(url: string, parts: seq<string>)
    requires parts != [] && HasParts(url, parts)
    requires forall i :: 0 <= i < |parts| - 1 ==> parts[i] != "players"
    ensures PlayerIdFromUrl(url) == url && PlayerNameFromUrl(url) == "unknown"
  {
    if parts[|parts| - 1] == "players" {
      IndexIs(parts, "players", |parts| - 1);
      EmptySlug();
    } else {
      NotThere(parts, "players");
    }
  }

  lemma EmptySlug()
    ensures BeforeFirst("", MARK) == ""
  {
  }

  lemma {:induction false} NotThere(parts: seq<string>, x: string)
    requires forall i :: 0 <= i < |parts| ==> parts[i] != x
    ensures Index(parts, x) == None
  {
    if parts != [] {
      NotThere(parts[1..], x);
    }
  }

  lemma {:induction false} JoinEnds(parts: seq<string>)
    requires parts != [] && parts[|parts| - 1] != "" && '/' !in parts[|parts| - 1]
    ensures var s := Join(parts, '/'); s != "" && s[|s| - 1] != '/' && RStrip(s, '/') == s
  {
    if |parts| > 1 {
      JoinEnds(parts[1..]);
    }
  }

  // A profile URL without "all_comps": the id is the segment after "players", the name the one after that.
  lemma PlainProfileUrl(url: string, parts: seq<string>, at: nat)
    requires HasParts(url, parts) && at + 2 < |parts| && parts[at] == "players"
    requires forall i :: 0 <= i < at ==> parts[i] != "players"
    requires var slug := parts[at + 2]; slug != "" && slug != "all_comps" && !Contains(slug, "-Stats-")
    ensures PlayerIdFromUrl(url) == parts[at + 1] && PlayerNameFromUrl(url) == Spaced(parts[at + 2])
  {
    IndexIs(parts, "players", at);
    NoMarkNoCut(parts[at + 2], 0);
    assert SlugFromParts(parts, at) == parts[at + 2];
  }

  // One that ends with the id, or with "all_comps" after it, has the id and no name.
  lemma ShortProfileUrl(url: string, parts: seq<string>, at: nat)
    requires HasParts(url, parts) && at + 1 < |parts| && parts[at] == "players"
    requires forall i :: 0 <= i < at ==> parts[i] != "players"
    requires |parts| == at + 2 || (|parts| == at + 3 && parts[at + 2] == "all_comps")
    ensures PlayerIdFromUrl(url) == parts[at + 1] && PlayerNameFromUrl(url) == "unknown"
  {
    IndexIs(parts, "players", at);
    EmptySlug();
  }

  lemma {:induction false} NoMarkNoCut(s: string, from: nat)
    requires from <= |s| && !Contains(s, MARK)
    ensures BeforeFirst(s, MARK, from) == s
    decreases |s| - from
  {
    if from < |s| {
      NoMarkNoCut(s, from + 1);
    }
  }
}

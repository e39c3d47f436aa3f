/** The page resolver of the router: it maps a location path to the name of
    the page the layout highlights. The name is the last path segment, with
    one trailing slash and any query part removed, looked up without regard
    to ASCII case among the page keys; unknown names fall back to the first
    key. */
module Router {
  import opened Common
  import opened Text

  /** The pages, one per key of the page table. */
  datatype Page = FaceCapture | Welcome | CaptureStep | ReviewStep | ProcessingStep

  /** The page table's keys in declaration order; the first is the default. */
  const Pages: seq<Page> := [FaceCapture, Welcome, CaptureStep, ReviewStep, ProcessingStep]

  /** The canonical spelling of a page's key. */
  function Key(p: Page): string {
    match p
    case FaceCapture => "FaceCapture"
    case Welcome => "Welcome"
    case CaptureStep => "CaptureStep"
    case ReviewStep => "ReviewStep"
    case ProcessingStep => "ProcessingStep"
  }

  /** The page table's keys, `Object.keys(PAGES)`. */
  const Keys: seq<string> := ["FaceCapture", "Welcome", "CaptureStep", "ReviewStep", "ProcessingStep"]

  /** Step 1: `if (url.endsWith('/')) url = url.slice(0, -1)`. */
  function DropTrailingSlash(url: string): (r: string)
    ensures |url| > 0 && url[|url| - 1] == '/' ==> r == url[..|url| - 1]
    ensures !(|url| > 0 && url[|url| - 1] == '/') ==> r == url
  {
    if |url| > 0 && url[|url| - 1] == '/' then url[..|url| - 1] else url
  }

  /** `c` does not occur in `s`. */
  predicate Excludes(s: string, c: char) {
    forall i :: 0 <= i < |s| ==> s[i] != c
  }

  /** Index of the last `c` among the first `n` characters of `s`, or -1. */
  function LastIndexBefore(s: string, c: char, n: nat): (k: int)
    requires n <= |s|
    ensures -1 <= k < n
    ensures k >= 0 ==> s[k] == c
    ensures forall j :: k < j < n ==> s[j] != c
  {
    if n == 0 then -1 else if s[n - 1] == c then n - 1 else LastIndexBefore(s, c, n - 1)
  }

  /** Index of the first `c` in `s` at or after `from`, or `|s|`. */
  function FirstIndexFrom(s: string, c: char, from: nat): (k: nat)
    requires from <= |s|
    ensures from <= k <= |s|
    ensures k < |s| ==> s[k] == c
    ensures forall j :: from <= j < k ==> s[j] != c
    decreases |s| - from
  {
    if from == |s| then |s| else if s[from] == c then from else FirstIndexFrom(s, c, from + 1)
  }

  /** Step 2: `url.split('/').pop()`, the part after the last `/` (all of
      `s` when it has none). */
  function LastSegment(s: string): (r: string)
    ensures |r| <= |s| && r == s[|s| - |r|..]
    ensures Excludes(r, '/')
    ensures |r| < |s| ==> s[|s| - |r| - 1] == '/'
    ensures Excludes(s, '/') ==> r == s
  {
    s[LastIndexBefore(s, '/', |s|) + 1..]
  }

  /** Step 3: `s.split('?')[0]` when `s` contains `?`, the part before the
      first `?` (all of `s` when it has none). */
  function BeforeQuery(s: string): (r: string)
    ensures |r| <= |s| && r == s[..|r|]
    ensures Excludes(r, '?')
    ensures |r| < |s| ==> s[|r|] == '?'
    ensures Excludes(s, '?') ==> r == s
  {
    s[..FirstIndexFrom(s, '?', 0)]
  }

  /** The name the resolver looks up. */
  function Candidate(url: string): string {
    BeforeQuery(LastSegment(DropTrailingSlash(url)))
  }

  /** `page.toLowerCase()`, spelled out (see `LowerKeyIsLower`). */
  function LowerKey(p: Page): string {
    match p
    case FaceCapture => "facecapture"
    case Welcome => "welcome"
    case CaptureStep => "capturestep"
    case ReviewStep => "reviewstep"
    case ProcessingStep => "processingstep"
  }

  /** `page.toLowerCase() === candidate.toLowerCase()`. */
  predicate Matches(candidate: string, p: Page) {
    LowerKey(p) == Lower(candidate)
  }

  /** `keys.find(...)`: the first page of `ps` whose key matches. */
  function Lookup(candidate: string, ps: seq<Page>): (r: Option<Page>)
    ensures r.Some? ==> Matches(candidate, r.value)
    ensures r.None? <==> forall i :: 0 <= i < |ps| ==> !Matches(candidate, ps[i])
  {
    if |ps| == 0 then None
    else if Matches(candidate, ps[0]) then Some(ps[0])
    else Lookup(candidate, ps[1..])
  }

  /** The lookup with its default: the page whose key matches `candidate`,
      or the first page when none does. */
  function ResolveName(candidate: string): (p: Page)
    ensures Matches(candidate, p) || (p == Pages[0] && forall q :: !Matches(candidate, q))
  {
    match Lookup(candidate, Pages)
    case Some(p) => p
    case None => NoMatchAnywhere(candidate); Pages[0]
  }

  /** `_getCurrentPage` as a page. */
  function Resolve(url: string): (p: Page)
    ensures Matches(Candidate(url), p) || (p == Pages[0] && forall q :: !Matches(Candidate(url), q))
  {
    ResolveName(Candidate(url))
  }

  /** `_getCurrentPage`: always one of the page table's keys. */
  function CurrentPage(url: string): (r: string)
    ensures r in Keys
  {
    KeyListed(Resolve(url));
    Key(Resolve(url))
  }

  /** Every page's key is in the table. */
  lemma KeyListed(p: Page)
    ensures Key(p) in Keys
  {
    match p
    case FaceCapture => assert Keys[0] == Key(p);
    case Welcome => assert Keys[1] == Key(p);
    case CaptureStep => assert Keys[2] == Key(p);
    case ReviewStep => assert Keys[3] == Key(p);
    case ProcessingStep => assert Keys[4] == Key(p);
  }

  /** A candidate no listed key matches matches no page at all. */
  lemma NoMatchAnywhere(c: string)
    requires forall i :: 0 <= i < |Pages| ==> !Matches(c, Pages[i])
    ensures forall q :: !Matches(c, q)
  {
    forall q ensures !Matches(c, q) {
      match q
      case FaceCapture => assert Pages[0] == q;
      case Welcome => assert Pages[1] == q;
      case CaptureStep => assert Pages[2] == q;
      case ReviewStep => assert Pages[3] == q;
      case ProcessingStep => assert Pages[4] == q;
    }
  }

  /** Every page is in the table. */
  lemma AllPagesListed()
    ensures forall q :: q in Pages
  {
    forall q: Page ensures q in Pages {
      match q
      case FaceCapture => assert Pages[0] == q;
      case Welcome => assert Pages[1] == q;
      case CaptureStep => assert Pages[2] == q;
      case ReviewStep => assert Pages[3] == q;
      case ProcessingStep => assert Pages[4] == q;
    }
  }

  /** `LowerKey` is the lower-cased key. */
  lemma LowerKeyIsLower(p: Page)
    ensures Lower(Key(p)) == LowerKey(p)
  {
    var k, l := Key(p), LowerKey(p);
    assert |k| == |l|;
    forall i | 0 <= i < |k| ensures Lower(k)[i] == l[i] {
      match p
      case FaceCapture =>
      case Welcome =>
      case CaptureStep =>
      case ReviewStep =>
      case ProcessingStep =>
    }
  }

  /** No two keys agree after lower-casing, so at most one page matches any
      candidate and the order of the lookup only matters for the default. */
  lemma KeysDistinct(p: Page, q: Page)
    ensures Lower(Key(p)) == Lower(Key(q)) <==> p == q
  {
    LowerKeyIsLower(p);
    LowerKeyIsLower(q);
  }

  /** The resolver in one statement: it returns `p` exactly when `p`'s key
      matches the candidate, or `p` is the first page and no key matches. */
  lemma ResolveCharacterised(url: string, p: Page)
    ensures Resolve(url) == p <==>
      Matches(Candidate(url), p) || (p == FaceCapture && forall q :: !Matches(Candidate(url), q))
  {
    var c := Candidate(url);
    ResolveNameCharacterised(c, p);
  }

  /** The same for a given name. */
  lemma ResolveNameCharacterised(c: string, p: Page)
    ensures ResolveName(c) == p <==> Matches(c, p) || (p == FaceCapture && forall q :: !Matches(c, q))
  {
    var r := ResolveName(c);
    if Matches(c, p) {
      assert LowerKey(p) == LowerKey(r);
    }
  }

  /** The last `/` of `base/seg` is the one before `seg` when `seg` holds no
      `/`: no index past it up to `n` holds one. */
  lemma {:induction false} LastSlashOf(base: string, seg: string, n: nat)
    requires Excludes(seg, '/')
    requires |base| < n <= |base + "/" + seg|
    ensures LastIndexBefore(base + "/" + seg, '/', n) == |base|
    decreases n
  {
    var s := base + "/" + seg;
    if n - 1 > |base| {
      assert s[n - 1] == seg[n - 1 - |base| - 1];
      LastSlashOf(base, seg, n - 1);
    } else {
      assert s[n - 1] == '/';
    }
  }

  /** The last segment of `base/seg` is `seg` when `seg` holds no `/`. */
  lemma LastSegmentOf(base: string, seg: string)
    requires Excludes(seg, '/')
    ensures LastSegment(base + "/" + seg) == seg
  {
    var s := base + "/" + seg;
    LastSlashOf(base, seg, |s|);
    assert s[|base| + 1..] == seg;
  }

  /** The first `?` of `name + query` at or after `from` starts `query` when
      `name` holds no `?` and `query` is empty or starts with one. */
  lemma {:induction false} QueryStartOf(name: string, query: string, from: nat)
    requires Excludes(name, '?')
    requires query == "" || query[0] == '?'
    requires from <= |name|
    ensures FirstIndexFrom(name + query, '?', from) == |name|
    decreases |name| - from
  {
    var s := name + query;
    if from < |name| {
      assert s[from] == name[from];
      QueryStartOf(name, query, from + 1);
    } else if query != "" {
      assert s[from] == query[0];
    }
  }

  /** The part before the query of `name + query` is `name` when `name` holds
      no `?` and `query` is empty or starts with one. */
  lemma BeforeQueryOf(name: string, query: string)
    requires Excludes(name, '?')
    requires query == "" || query[0] == '?'
    ensures BeforeQuery(name + query) == name
  {
    QueryStartOf(name, query, 0);
    assert (name + query)[..|name|] == name;
  }

  /** Any path ending in a segment that spells a key in any letter case,
      optionally followed by a query and one trailing slash, resolves to that
      key's page, whatever comes before the last slash. */
  lemma ResolvesNamedPage(base: string, name: string, query: string, slash: string, p: Page)
    requires Lower(name) == Lower(Key(p))
    requires Excludes(name, '/') && Excludes(name, '?')
    requires (query == "" || query[0] == '?') && Excludes(query, '/')
    requires slash == "" || slash == "/"
    ensures Resolve(base + "/" + name + query + slash) == p
  {
    assert |name| == |Key(p)| > 0;
    CandidateOfNamed(base, name, query, slash);
    LowerKeyIsLower(p);
    ResolveNameCharacterised(name, p);
  }

  /** The name the resolver looks up in `base/name?query/` is `name`. */
  lemma CandidateOfNamed(base: string, name: string, query: string, slash: string)
    requires |name| > 0
    requires Excludes(name, '/') && Excludes(name, '?')
    requires (query == "" || query[0] == '?') && Excludes(query, '/')
    requires slash == "" || slash == "/"
    ensures Candidate(base + "/" + name + query + slash) == name
  {
    var url := base + "/" + name + query + slash;
    var seg := name + query;
    assert Excludes(seg, '/');
    var pre := base + "/" + seg;
    assert url == pre + slash;
    assert pre[|pre| - 1] == seg[|seg| - 1] == name[|name| - 1] || pre[|pre| - 1] == seg[|seg| - 1] == query[|query| - 1];
    if slash == "/" {
      assert url[..|url| - 1] == pre;
    } else {
      assert url == pre;
    }
    assert DropTrailingSlash(url) == pre;
    LastSegmentOf(base, seg);
    BeforeQueryOf(name, query);
  }

  /** A page's key written as a path resolves to that page. */
  lemma ResolvesKey(p: Page)
    ensures Resolve("/" + Key(p)) == p
  {
    assert "/" + Key(p) == "" + "/" + Key(p) + "" + "";
    ResolvesNamedPage("", Key(p), "", "", p);
  }

  /** So does its lower-cased spelling. */
  lemma ResolvesLowerKey(p: Page)
    ensures Resolve("/" + Lower(Key(p))) == p
  {
    LowerIdempotent(Key(p));
    assert "/" + Lower(Key(p)) == "" + "/" + Lower(Key(p)) + "" + "";
    ResolvesNamedPage("", Lower(Key(p)), "", "", p);
  }

  /** The resolver's answer written back as a path resolves to itself:
      `"/" + r` gives `r` for every result `r`. */
  lemma RoundTrip(url: string)
    ensures CurrentPage("/" + CurrentPage(url)) == CurrentPage(url)
  {
    ResolvesKey(Resolve(url));
  }

  /** An empty name matches no key and gives the default page. */
  lemma EmptyNameIsDefault()
    ensures ResolveName("") == FaceCapture
  {
    forall q ensures !Matches("", q) {
      assert |LowerKey(q)| > 0;
    }
    var r := ResolveName("");
    assert LowerKey(r) != LowerKey(FaceCapture) ==> r == FaceCapture;
  }

  /** The root path gives the default page: its name is empty. */
  lemma RootIsDefault()
    ensures CurrentPage("/") == "FaceCapture"
  {
    assert Candidate("/") == "";
    EmptyNameIsDefault();
  }

  /** One trailing slash is ignored. */
  lemma TrailingSlashIgnored()
    ensures CurrentPage("/ReviewStep/") == "ReviewStep"
  {
    assert "/ReviewStep/" == "" + "/" + Key(ReviewStep) + "" + "/";
    ResolvesNamedPage("", Key(ReviewStep), "", "/", ReviewStep);
  }

  /** Only one trailing slash is removed: with two, the last segment is
      empty and the default page is shown. */
  lemma OneSlashOnly()
    ensures CurrentPage("/ReviewStep//") == "FaceCapture"
  {
    assert "/ReviewStep//" == "/ReviewStep/" + "/";
    assert DropTrailingSlash("/ReviewStep//") == "/ReviewStep" + "/" + "";
    LastSegmentOf("/ReviewStep", "");
    assert Candidate("/ReviewStep//") == "";
    EmptyNameIsDefault();
  }

  /** The query is cut from the last segment only: a query after a slash
      leaves an empty name and the default page. */
  lemma QueryAfterSlash()
    ensures CurrentPage("/reviewstep/?a=1") == "FaceCapture"
  {
    assert "/reviewstep/?a=1" == "/reviewstep" + "/" + "?a=1";
    LastSegmentOf("/reviewstep", "?a=1");
    assert "?a=1" == "" + "?a=1";
    BeforeQueryOf("", "?a=1");
    EmptyNameIsDefault();
  }
}

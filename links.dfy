/**
 * Block-explorer links for a custom cluster: Solana Explorer takes the RPC
 * URL percent-encoded in `customUrl`, SolanaFM takes it raw after
 * `cluster=custom-`.
 */
module Explorer {
  import opened Wrappers
  import opened Strings

  datatype Kind = Tx | Address
  {
    function Path(): string
    {
      match this
      case Tx => "tx"
      case Address => "address"
    }
  }

  const ExplorerBase := "https://explorer.solana.com/"
  const ExplorerQuery := "?cluster=custom&customUrl="
  const SolanaFmBase := "https://solana.fm/"
  const SolanaFmQuery := "?cluster=custom-"

  /** The text before the first `c`, or all of `s`. */
  function UpTo(s: string, c: char): (r: string)
    ensures |r| <= |s| && s[..|r|] == r && c !in r
    ensures |r| < |s| ==> s[|r|] == c
  {
    if s == [] || s[0] == c then "" else [s[0]] + UpTo(s[1..], c)
  }

  lemma {:induction false} UpToOfAppend(a: string, c: char, b: string)
    requires c !in a
    ensures UpTo(a + [c] + b, c) == a
  {
    if a != [] {
      assert (a + [c] + b)[1..] == a[1..] + [c] + b;
      UpToOfAppend(a[1..], c, b);
    }
  }

  function KindOf(path: string): Option<Kind>
  {
    if path == "tx" then Some(Tx) else if path == "address" then Some(Address) else None
  }

  datatype Link = Link(kind: Kind, id: string, cluster: string)

  /** Reads a link of the shape `{base}{kind}/{id}{query}{cluster}` back into its parts. */
  function ParseLink(base: string, query: string, url: string): Option<Link>
  {
    if !StartsWith(url, base) then None else ParsePath(query, url[|base|..])
  }

  /** Reads `{kind}/{id}{query}{cluster}`. */
  function ParsePath(query: string, rest: string): Option<Link>
  {
    var path := UpTo(rest, '/');
    if |path| == |rest| || KindOf(path).None? then None
    else
      match ParseTarget(query, rest[|path| + 1..])
      case None => None
      case Some((id, cluster)) => Some(Link(KindOf(path).value, id, cluster))
  }

  /** Reads `{id}{query}{cluster}`. */
  function ParseTarget(query: string, after: string): Option<(string, string)>
  {
    var id := UpTo(after, '?');
    var tail := after[|id|..];
    if !StartsWith(tail, query) then None else Some((id, tail[|query|..]))
  }

  lemma ParseTargetRoundTrip(query: string, id: string, cluster: string)
    requires '?' !in id && |query| > 0 && query[0] == '?'
    ensures ParseTarget(query, id + query + cluster) == Some((id, cluster))
  {
    var after := id + query + cluster;
    assert after == id + ['?'] + (query[1..] + cluster);
    UpToOfAppend(id, '?', query[1..] + cluster);
    assert after[|id|..] == query + cluster;
    assert (query + cluster)[|query|..] == cluster;
  }

  /** Each kind's path segment is read back as that kind, and holds no '/'. */
  lemma KindOfPath(kind: Kind)
    ensures KindOf(kind.Path()) == Some(kind) && '/' !in kind.Path()
  {
  }

  lemma ParseSegmentRoundTrip(query: string, path: string, id: string, cluster: string)
    requires '/' !in path && KindOf(path).Some?
    requires '?' !in id && |query| > 0 && query[0] == '?'
    ensures ParsePath(query, path + "/" + id + query + cluster) == Some(Link(KindOf(path).value, id, cluster))
  {
    var rest := path + "/" + id + query + cluster;
    assert rest == path + ['/'] + (id + query + cluster);
    UpToOfAppend(path, '/', id + query + cluster);
    assert rest[|path| + 1..] == id + query + cluster;
    ParseTargetRoundTrip(query, id, cluster);
  }

  lemma ParsePathRoundTrip(query: string, kind: Kind, id: string, cluster: string)
    requires '?' !in id && |query| > 0 && query[0] == '?'
    ensures ParsePath(query, kind.Path() + "/" + id + query + cluster) == Some(Link(kind, id, cluster))
  {
    KindOfPath(kind);
    ParseSegmentRoundTrip(query, kind.Path(), id, cluster);
  }

  lemma ParseLinkRoundTrip(base: string, query: string, kind: Kind, id: string, cluster: string)
    requires '?' !in id && |query| > 0 && query[0] == '?'
    ensures ParseLink(base, query, base + kind.Path() + "/" + id + query + cluster) == Some(Link(kind, id, cluster))
  {
    var tail := kind.Path() + "/" + id + query + cluster;
    var url := base + kind.Path() + "/" + id + query + cluster;
    assert url == base + tail;
    assert url[|base|..] == tail;
    ParsePathRoundTrip(query, kind, id, cluster);
  }

  /**
   * `https://explorer.solana.com/{kind}/{id}?cluster=custom&customUrl={encodedRpc}`:
   * the link names its kind, its id and the encoded RPC URL, and these are
   * read back from it whenever the id holds no '?'.
   */
  function ExplorerLink(kind: Kind, id: string, encodedRpc: string): (link: string)
    ensures '?' !in id ==> ParseLink(ExplorerBase, ExplorerQuery, link) == Some(Link(kind, id, encodedRpc))
  {
    var link := ExplorerBase + kind.Path() + "/" + id + ExplorerQuery + encodedRpc;
    if '?' in id then link
    else ParseLinkRoundTrip(ExplorerBase, ExplorerQuery, kind, id, encodedRpc); link
  }

  /** `https://solana.fm/{kind}/{id}?cluster=custom-{rpcUrl}`: the RPC URL is carried unencoded and read back unchanged. */
  function SolanaFmLink(kind: Kind, id: string, rpcUrl: string): (link: string)
    ensures '?' !in id ==> ParseLink(SolanaFmBase, SolanaFmQuery, link) == Some(Link(kind, id, rpcUrl))
  {
    var link := SolanaFmBase + kind.Path() + "/" + id + SolanaFmQuery + rpcUrl;
    if '?' in id then link
    else ParseLinkRoundTrip(SolanaFmBase, SolanaFmQuery, kind, id, rpcUrl); link
  }

  /** Distinct targets give distinct links. */
  lemma ExplorerLinkInjective(kind1: Kind, id1: string, kind2: Kind, id2: string, encodedRpc: string)
    requires '?' !in id1 && '?' !in id2
    requires ExplorerLink(kind1, id1, encodedRpc) == ExplorerLink(kind2, id2, encodedRpc)
    ensures kind1 == kind2 && id1 == id2
  {
  }
}

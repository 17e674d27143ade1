/**
 * The Git-file backend: the catalogue is a JSON file in a repository, read
 * and written through the contents API in base64, with the products key as
 * a local backup and fallback.
 */
module GitHubStorage {
  import opened Records
  import opened LocalStore
  import opened Http

  /**
   * The `content` field of the contents API. `Encoded(payload)` is the base64
   * text of `JSON.stringify(payload, null, 2)`; `Garbled` is text that `atob`
   * or `JSON.parse` rejects. Base64 itself (section 4 of RFC 4648) is not
   * spelled out: only the decode/encode round trip matters here.
   */
  datatype Base64 = Encoded(payload: seq<Record>) | Garbled

  /** The JSON body of a GET of the file: its content and its blob `sha`, `None` when absent. */
  datatype GitFile = GitFile(content: Base64, sha: Option<string>)

  /** The JSON body of the PUT: commit message, new content and, when known, the `sha` it replaces. */
  datatype PutBody = PutBody(message: string, content: Base64, sha: Option<string>)

  predicate Latin1Text(s: string) {
    forall i :: 0 <= i < |s| ==> s[i] <= '\U{00FF}'
  }

  predicate Latin1Record(p: Record) {
    forall k :: k in p ==> Latin1Text(k) && (p[k].Text? ==> Latin1Text(p[k].s))
  }

  /**
   * Every character of the serialised list is at most U+00FF, the range
   * `btoa` accepts. Numbers, booleans and JSON punctuation are ASCII, so only
   * property names and text values can break it.
   */
  predicate Latin1(products: seq<Record>) {
    forall i :: 0 <= i < |products| ==> Latin1Record(products[i])
  }

  /** `btoa(JSON.stringify(products, null, 2))`; `None` when `btoa` throws. */
  function Btoa(products: seq<Record>): (r: Option<Base64>)
    ensures r.Some? <==> Latin1(products)
    ensures r.Some? ==> r.value.Encoded? && r.value.payload == products
  {
    if Latin1(products) then Some(Encoded(products)) else None
  }

  /** `JSON.parse(atob(content))`; `None` when either throws. */
  function Atob(content: Base64): (r: Option<seq<Record>>)
    ensures r.Some? <==> content != Garbled
    ensures r.Some? && Latin1(r.value) ==> Btoa(r.value) == Some(content)
  {
    match content
    case Encoded(payload) => Some(payload)
    case Garbled => None
  }

  /** Decoding inverts the encoding save uses, for every list `btoa` accepts. */
  lemma AtobInvertsBtoa(products: seq<Record>)
    requires Latin1(products)
    ensures Btoa(products).Some? && Atob(Btoa(products).value) == Some(products)
  {
  }

  /**
   * A description holding the euro sign (U+20AC) is enough for `btoa` to
   * throw: such a catalogue is only ever saved locally.
   */
  lemma EuroSignIsNotEncodable()
    ensures Btoa([map["Product Desc" := Text("\U{20AC}")]]) == None
  {
    var p: Record := map["Product Desc" := Text("\U{20AC}")];
    assert p["Product Desc"].s[0] > '\U{00FF}';
    assert !Latin1Record([p][0]);
  }

  /** What `getGitHubProducts` resolves to (`Throws` when it rejects). */
  function GitHubRead(entries: map<string, Entry>, reply: Reply<GitFile>): Load {
    if reply.Response? && reply.status == 404 then Loaded([])
    else if reply.IsOk() && reply.body.Some? && Atob(reply.body.value.content).Some? then
      Loaded(Atob(reply.body.value.content).value)
    else ParseSaved(entries)
  }

  /**
   * `getGitHubProducts`: a 404 is an empty catalogue; an ok response yields
   * the decoded file; every other failure falls back to the stored list.
   */
  method GetGitHubProducts(ls: LocalStorage, reply: Reply<GitFile>) returns (r: Load)
    ensures reply.Response? && reply.status == 404 ==> r == Loaded([])
    ensures reply.IsOk() && reply.body.Some? && reply.body.value.content.Encoded? ==>
      r == Loaded(reply.body.value.content.payload)
    ensures (!(reply.Response? && reply.status == 404) &&
             !(reply.IsOk() && reply.body.Some? && reply.body.value.content.Encoded?)) ==> r == ParseSaved(ls.entries)
    ensures r == GitHubRead(ls.entries, reply)
  {
    if reply.Response? && reply.status == 404 {
      return Loaded([]);
    }
    if !reply.IsOk() || reply.body.None? {
      return ParseSaved(ls.entries);
    }
    var decoded := Atob(reply.body.value.content);
    if decoded.None? {
      return ParseSaved(ls.entries);
    }
    r := Loaded(decoded.value);
  }

  /** The `sha` the save sends: that of a successful preliminary GET, when it is a non-empty text. */
  function ShaToSend(probe: Reply<GitFile>): (r: Option<string>)
    ensures !probe.IsOk() ==> r == None
    ensures r.Some? ==> probe.IsOk() && probe.body.Some? && probe.body.value.sha == r && r.value != ""
    ensures probe.IsOk() && probe.body.Some? && probe.body.value.sha.Some? && probe.body.value.sha.value != "" ==>
      r == probe.body.value.sha
  {
    if probe.IsOk() && probe.body.Some? && probe.body.value.sha.Some? && probe.body.value.sha.value != ""
    then probe.body.value.sha
    else None
  }

  const COMMIT_PREFIX := "Update products - "

  /**
   * `saveGitHubProducts`. `probe` is the preliminary GET, `now` the ISO time
   * of the commit message, `put` the reply to the PUT. `sent` is the PUT body,
   * `None` when `btoa` threw before anything was sent. The products key holds
   * the saved list on every path; the result is true exactly when a PUT was
   * sent and came back ok.
   */
  method SaveGitHubProducts(ls: LocalStorage, products: seq<Record>, probe: Reply<GitFile>, now: string,
                            put: Reply<()>)
    returns (ok: bool, sent: Option<PutBody>)
    modifies ls
    ensures ls.entries == old(ls.entries)[PRODUCTS_KEY := Catalogue(products)]
    ensures sent.Some? <==> Latin1(products)
    ensures sent.Some? ==> sent.value.content == Encoded(products) && sent.value.message == COMMIT_PREFIX + now
    ensures sent.Some? ==> sent.value.sha == ShaToSend(probe)
    ensures ok <==> sent.Some? && put.IsOk()
  {
    var sha: Option<string> := None;
    if probe.IsOk() && probe.body.Some? {
      sha := probe.body.value.sha;
    }
    var content := Btoa(products);
    if content.None? {
      ls.SetItem(PRODUCTS_KEY, Catalogue(products));
      return false, None;
    }
    var body := PutBody(COMMIT_PREFIX + now, content.value, None);
    if sha.Some? && sha.value != "" {
      body := body.(sha := sha);
    }
    sent := Some(body);
    if !put.IsOk() {
      ls.SetItem(PRODUCTS_KEY, Catalogue(products));
      return false, sent;
    }
    ls.SetItem(PRODUCTS_KEY, Catalogue(products));
    ok := true;
  }

  /** `addGitHubProduct`: saves what the GET gave plus the product; a rejected GET saves nothing. */
  method AddGitHubProduct(ls: LocalStorage, product: Record, fetched: Reply<GitFile>, probe: Reply<GitFile>,
                          now: string, put: Reply<()>)
    returns (ok: bool, sent: Option<PutBody>)
    modifies ls
    ensures GitHubRead(old(ls.entries), fetched).Throws? ==> !ok && sent.None? && ls.entries == old(ls.entries)
    ensures GitHubRead(old(ls.entries), fetched).Loaded? ==>
      var updated := GitHubRead(old(ls.entries), fetched).items + [product];
      && ls.entries == old(ls.entries)[PRODUCTS_KEY := Catalogue(updated)]
      && (sent.Some? <==> Latin1(updated))
      && (sent.Some? ==> sent.value.content == Encoded(updated))
      && (sent.Some? ==> sent.value.sha == ShaToSend(probe) && sent.value.message == COMMIT_PREFIX + now)
      && (ok <==> Latin1(updated) && put.IsOk())
  {
    var existing := GetGitHubProducts(ls, fetched);
    if existing.Throws? {
      return false, None;
    }
    ok, sent := SaveGitHubProducts(ls, existing.items + [product], probe, now, put);
  }

  /** `deleteGitHubProduct`: saves what the GET gave without that id. */
  method DeleteGitHubProduct(ls: LocalStorage, id: Id, fetched: Reply<GitFile>, probe: Reply<GitFile>,
                             now: string, put: Reply<()>)
    returns (ok: bool, sent: Option<PutBody>)
    modifies ls
    ensures GitHubRead(old(ls.entries), fetched).Throws? ==> !ok && sent.None? && ls.entries == old(ls.entries)
    ensures GitHubRead(old(ls.entries), fetched).Loaded? ==>
      var updated := Without(GitHubRead(old(ls.entries), fetched).items, id);
      && ls.entries == old(ls.entries)[PRODUCTS_KEY := Catalogue(updated)]
      && (sent.Some? <==> Latin1(updated))
      && (sent.Some? ==> sent.value.content == Encoded(updated))
      && (sent.Some? ==> sent.value.sha == ShaToSend(probe) && sent.value.message == COMMIT_PREFIX + now)
      && (ok <==> Latin1(updated) && put.IsOk())
  {
    var existing := GetGitHubProducts(ls, fetched);
    if existing.Throws? {
      return false, None;
    }
    ok, sent := SaveGitHubProducts(ls, Without(existing.items, id), probe, now, put);
  }

  /** `clearGitHubProducts`: saves the empty list, which `btoa` always accepts. */
  method ClearGitHubProducts(ls: LocalStorage, probe: Reply<GitFile>, now: string, put: Reply<()>)
    returns (ok: bool, sent: Option<PutBody>)
    modifies ls
    ensures ls.entries == old(ls.entries)[PRODUCTS_KEY := Catalogue([])]
    ensures sent.Some? && sent.value.content == Encoded([])
    ensures sent.value.sha == ShaToSend(probe) && sent.value.message == COMMIT_PREFIX + now
    ensures ok <==> put.IsOk()
  {
    ok, sent := SaveGitHubProducts(ls, [], probe, now, put);
  }

  /** A file written by a save reads back as the saved list, whatever `sha` it then carries. */
  lemma SavedFileReadsBack(entries: map<string, Entry>, products: seq<Record>, sha: Option<string>, status: int)
    requires Latin1(products) && 200 <= status <= 299
    ensures GitHubRead(entries, Response(status, Some(GitFile(Btoa(products).value, sha)))) == Loaded(products)
  {
  }

  /** With the repository unreachable, a read after a save returns the list that save wrote. */
  lemma OutageReadsLastSave(entries: map<string, Entry>, saved: seq<Record>, reply: Reply<GitFile>)
    requires !reply.IsOk() && !(reply.Response? && reply.status == 404)
    ensures GitHubRead(entries[PRODUCTS_KEY := Catalogue(saved)], reply) == Loaded(saved)
  {
  }
}

/**
 * The page-collection step of `update_user_group_info`: the first response of
 * the hub's groups endpoint is either a bare list of groups or a pagination
 * envelope, and the `next` links of envelopes are followed until one is null.
 *
 * The hub is modelled as a finite map from URL to the response it serves.
 */
module Pagination {

  import opened Wrappers

  type Url = string

  /** One entry of the hub's group listing: a group name and its members. */
  datatype Group = Group(name: string, users: seq<string>)

  /** A decoded response body: a bare list, or `{items, _pagination: {next}}`. */
  datatype Response =
    | Bare(items: seq<Group>)
    | Paginated(items: seq<Group>, next: Option<Url>)

  type Server = map<Url, Response>

  /**
   * Why the collection did not produce a list:
   * Unreachable - the URL cannot be fetched (the fetch raises);
   * Malformed   - a follow-up page has no `_pagination` envelope (a KeyError/TypeError);
   * Loops       - a `next` link leads back to a page already fetched, so the
   *               source's loop would fetch forever.
   */
  datatype FetchError = Unreachable(url: Url) | Malformed(url: Url) | Loops(url: Url)

  /** The collected items together with the URLs fetched, in fetch order. */
  datatype FetchOutcome =
    | Fetched(items: seq<Group>, urls: seq<Url>)
    | Failed(error: FetchError)

  /** Prefixes already-collected pages to the outcome of the remaining fetches. */
  function Then(items: seq<Group>, urls: seq<Url>, rest: FetchOutcome): FetchOutcome
  {
    match rest
    case Fetched(more, moreUrls) => Fetched(items + more, urls + moreUrls)
    case Failed(_) => rest
  }

  /** Fetches follow-up page `url`, having already fetched `visited`. */
  function Follow(server: Server, url: Url, visited: set<Url>): FetchOutcome
    requires url !in visited
    decreases server.Keys - visited, 0
  {
    if url !in server then Failed(Unreachable(url))
    else match server[url]
      case Bare(_) => Failed(Malformed(url))
      case Paginated(items, next) => Then(items, [url], Pending(server, next, visited + {url}))
  }

  /** What remains to be collected when the last page fetched had link `next`. */
  function Pending(server: Server, next: Option<Url>, visited: set<Url>): FetchOutcome
    decreases server.Keys - visited, 1
  {
    match next
    case None => Fetched([], [])
    case Some(url) => if url in visited then Failed(Loops(url)) else Follow(server, url, visited)
  }

  /** The whole collection, starting from the groups endpoint `start`. */
  function Collect(server: Server, start: Url): FetchOutcome
  {
    if start !in server then Failed(Unreachable(start))
    else match server[start]
      case Bare(items) => Fetched(items, [start])
      case Paginated(items, next) => Then(items, [start], Pending(server, next, {start}))
  }

  // ---------------------------------------------------------------------------
  // An independent description of a successful collection: a chain of pages.

  /** Every URL is served, and each page before the last links to the next one. */
  ghost predicate Links(server: Server, urls: seq<Url>)
  {
    && (forall i :: 0 <= i < |urls| ==> urls[i] in server)
    && (forall i :: 0 <= i < |urls| - 1 ==>
          server[urls[i]].Paginated? && server[urls[i]].next == Some(urls[i + 1]))
  }

  /**
   * The pages a collection starting at `urls[0]` fetches: linked, every
   * follow-up page is an envelope, and the last page has no `next` link
   * (or is the bare first response).
   */
  ghost predicate IsChain(server: Server, urls: seq<Url>)
  {
    && |urls| > 0
    && Links(server, urls)
    && (forall i :: 0 < i < |urls| ==> server[urls[i]].Paginated?)
    && (server[urls[|urls| - 1]].Bare? || server[urls[|urls| - 1]].next == None)
  }

  ghost predicate Distinct(urls: seq<Url>)
  {
    forall i, j :: 0 <= i < j < |urls| ==> urls[i] != urls[j]
  }

  /** The concatenation of the `items` of the pages at `urls`, in order. */
  function ItemsOf(server: Server, urls: seq<Url>): seq<Group>
    requires forall i :: 0 <= i < |urls| ==> urls[i] in server
  {
    if urls == [] then [] else server[urls[0]].items + ItemsOf(server, urls[1..])
  }

  /** A successful follow-up collection is a chain of envelopes none of which was visited before. */
  lemma {:induction false} FollowIsChain(server: Server, url: Url, visited: set<Url>)
    requires url !in visited
    ensures var r := Follow(server, url, visited);
      r.Fetched? ==>
        && |r.urls| > 0 && r.urls[0] == url
        && Links(server, r.urls)
        && (forall i :: 0 <= i < |r.urls| ==> server[r.urls[i]].Paginated? && r.urls[i] !in visited)
        && server[r.urls[|r.urls| - 1]].next == None
        && r.items == ItemsOf(server, r.urls)
    decreases server.Keys - visited
  {
    if url in server && server[url].Paginated? {
      var items, next := server[url].items, server[url].next;
      if next.Some? && next.value !in visited + {url} {
        FollowIsChain(server, next.value, visited + {url});
        var rest := Follow(server, next.value, visited + {url});
        if rest.Fetched? {
          var urls := [url] + rest.urls;
          assert urls[1..] == rest.urls;
          assert forall i :: 0 < i < |urls| ==> urls[i] == rest.urls[i - 1];
        }
      }
    }
  }

  /** Every successful collection fetched a chain of pages and returns their items concatenated. */
  lemma CollectIsChain(server: Server, start: Url)
    ensures var r := Collect(server, start);
      r.Fetched? ==> IsChain(server, r.urls) && r.urls[0] == start && r.items == ItemsOf(server, r.urls)
  {
    if start in server && server[start].Paginated? {
      var items, next := server[start].items, server[start].next;
      if next.Some? && next.value != start {
        FollowIsChain(server, next.value, {start});
        var rest := Follow(server, next.value, {start});
        if rest.Fetched? {
          var urls := [start] + rest.urls;
          assert urls[1..] == rest.urls;
          assert forall i :: 0 < i < |urls| ==> urls[i] == rest.urls[i - 1];
        }
      }
    }
  }

  /** Pages are fetched deterministically: two equal positions stay equal further along. */
  lemma {:induction false} ShiftEqual(server: Server, urls: seq<Url>, i: nat, j: nat, m: nat)
    requires Links(server, urls)
    requires i < j && j + m < |urls|
    ensures urls[i] == urls[j] ==> urls[i + m] == urls[j + m]
  {
    if m > 0 {
      ShiftEqual(server, urls, i, j, m - 1);
      assert server[urls[i + m - 1]].next == Some(urls[i + m]);
      assert server[urls[j + m - 1]].next == Some(urls[j + m]);
    }
  }

  /** A chain that ends never fetches a page twice. */
  lemma ChainDistinct(server: Server, urls: seq<Url>)
    requires IsChain(server, urls)
    ensures Distinct(urls)
  {
    var last := |urls| - 1;
    forall i, j | 0 <= i < j < |urls| ensures urls[i] != urls[j] {
      var m := last - j;
      ShiftEqual(server, urls, i, j, m);
      assert i + m < last;
      assert server[urls[i + m]].next == Some(urls[i + m + 1]);
    }
  }

  lemma {:induction false} ChainIsFollowed(server: Server, urls: seq<Url>, visited: set<Url>)
    requires |urls| > 0 && Links(server, urls) && Distinct(urls)
    requires forall i :: 0 <= i < |urls| ==> server[urls[i]].Paginated? && urls[i] !in visited
    requires server[urls[|urls| - 1]].next == None
    ensures Follow(server, urls[0], visited) == Fetched(ItemsOf(server, urls), urls)
    decreases |urls|
  {
    var url := urls[0];
    if |urls| > 1 {
      var rest := urls[1..];
      assert forall i :: 0 <= i < |rest| ==> rest[i] == urls[i + 1];
      ChainIsFollowed(server, rest, visited + {url});
      assert [url] + rest == urls;
    } else {
      assert ItemsOf(server, urls[1..]) == [];
    }
  }

  /** Conversely, whenever the hub serves a chain of pages, the collection returns exactly it. */
  lemma ChainIsCollected(server: Server, urls: seq<Url>)
    requires IsChain(server, urls)
    ensures Collect(server, urls[0]) == Fetched(ItemsOf(server, urls), urls)
  {
    ChainDistinct(server, urls);
    var start := urls[0];
    if |urls| > 1 {
      var rest := urls[1..];
      assert forall i :: 0 <= i < |rest| ==> rest[i] == urls[i + 1];
      ChainIsFollowed(server, rest, {start});
      assert [start] + rest == urls;
    } else {
      assert ItemsOf(server, urls[1..]) == [];
    }
  }

  /** Page 1 links to page 2, page 2 ends: both pages' items in order, one follow-up fetch. */
  lemma TwoPages(first: Group, second: Group)
    ensures var server := map["p1" := Paginated([first], Some("p2")), "p2" := Paginated([second], None)];
      Collect(server, "p1") == Fetched([first, second], ["p1", "p2"])
  {
    var server := map["p1" := Paginated([first], Some("p2")), "p2" := Paginated([second], None)];
    assert "p1" != "p2" by { assert "p1"[1] != "p2"[1]; }
    var urls := ["p1", "p2"];
    assert IsChain(server, urls);
    ChainIsCollected(server, urls);
    assert ItemsOf(server, urls[1..][1..]) == [];
  }

  /**
   * The loop of `update_user_group_info`: fetch the first page; when it is an
   * envelope, keep fetching its `next` link and extending the item list.
   */
  method FetchAll(server: Server, start: Url) returns (r: FetchOutcome)
    ensures r == Collect(server, start)
    ensures start in server && server[start].Bare? ==> r == Fetched(server[start].items, [start])
    ensures r.Fetched? ==> IsChain(server, r.urls) && r.urls[0] == start && r.items == ItemsOf(server, r.urls)
  {
    CollectIsChain(server, start);
    if start !in server {
      return Failed(Unreachable(start));
    }
    var data := server[start];
    if data.Bare? {
      return Fetched(data.items, [start]);
    }
    var items := data.items;
    var urls := [start];
    var visited := {start};
    var next := data.next;
    while next.Some?
      invariant visited <= server.Keys
      invariant Collect(server, start) == Then(items, urls, Pending(server, next, visited))
      decreases server.Keys - visited
    {
      var url := next.value;
      if url in visited {
        return Failed(Loops(url));
      }
      if url !in server {
        return Failed(Unreachable(url));
      }
      data := server[url];
      if data.Bare? {
        return Failed(Malformed(url));
      }
      items := items + data.items;
      urls := urls + [url];
      visited := visited + {url};
      next := data.next;
    }
    r := Fetched(items, urls);
  }
}

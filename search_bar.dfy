/** The header search box: the query, the results of its debounced value,
    whether the result list is open, and the route a clicked result
    navigates to. */
module SearchBar {

  import opened Outcomes
  import opened Text

  /** `path.replace(/\.md$/, '')`: one trailing `.md` removed. */
  function StripMd(path: string): (r: string)
    ensures EndsWith(path, ".md") ==> r + ".md" == path
    ensures !EndsWith(path, ".md") ==> r == path
  {
    if EndsWith(path, ".md") then path[..|path| - 3] else path
  }

  /** `const [path, anchor] = pathWithAnchor.split('#')`: the piece before
      the first `#`, and the piece between the first and the second `#` if
      there is a first `#`. */
  function PathPart(pathWithAnchor: string): (path: string)
    ensures '#' !in path
    ensures StartsWith(pathWithAnchor, path)
    ensures |path| < |pathWithAnchor| ==> pathWithAnchor[|path|] == '#'
  {
    Split(pathWithAnchor, '#')[0]
  }

  function AnchorPart(pathWithAnchor: string): (anchor: Option<string>)
    ensures anchor.None? <==> '#' !in pathWithAnchor
    ensures anchor.Some? ==>
              var rest := pathWithAnchor[|PathPart(pathWithAnchor)| + 1..];
              && '#' !in anchor.value
              && StartsWith(rest, anchor.value)
              && (|anchor.value| < |rest| ==> rest[|anchor.value|] == '#')
  {
    var parts := Split(pathWithAnchor, '#');
    if |parts| > 1 then
      var k := IndexOf(pathWithAnchor, '#');
      assert |PathPart(pathWithAnchor)| == k;
      assert parts[1] == PathPart(pathWithAnchor[k + 1..]);
      Some(parts[1])
    else None
  }

  /** The route `handleResultClick` navigates to: `/`, the path without its
      `.md`, then `#` and the anchor when there is a non-empty one. */
  function ResultRoute(pathWithAnchor: string): (to: string)
    ensures StartsWith(to, "/")
  {
    var to := "/" + StripMd(PathPart(pathWithAnchor));
    var anchor := AnchorPart(pathWithAnchor);
    if anchor.Some? && anchor.value != "" then to + "#" + anchor.value else to
  }

  predicate NoHash(s: string)
  {
    forall i :: 0 <= i < |s| ==> s[i] != '#'
  }

  lemma SplitNoHash(s: string)
    requires NoHash(s)
    ensures Split(s, '#') == [s]
  {
  }

  lemma SplitAtHash(a: string, b: string)
    requires NoHash(a)
    ensures Split(a + "#" + b, '#') == [a] + Split(b, '#')
  {
    var s := a + "#" + b;
    assert s[|a|] == '#';
    assert forall i :: 0 <= i < |a| ==> s[i] == a[i];
    assert s[..|a|] == a;
    assert s[|a| + 1..] == b;
  }

  /** A result without an anchor goes to its path without `.md`. */
  lemma RouteWithoutAnchor(path: string)
    requires NoHash(path)
    ensures ResultRoute(path) == "/" + StripMd(path)
  {
    SplitNoHash(path);
  }

  /** A result `path#anchor` goes to the path without `.md` followed by
      `#anchor`. */
  lemma RouteWithAnchor(path: string, anchor: string)
    requires NoHash(path) && NoHash(anchor) && anchor != ""
    ensures ResultRoute(path + "#" + anchor) == "/" + StripMd(path) + "#" + anchor
  {
    SplitAtHash(path, anchor);
    SplitNoHash(anchor);
  }

  /** A trailing `#` adds nothing to the route. */
  lemma EmptyAnchorIgnored(path: string)
    requires NoHash(path)
    ensures ResultRoute(path + "#") == "/" + StripMd(path)
  {
    SplitAtHash(path, "");
    assert path + "#" == path + "#" + "";
  }

  /** Everything after a second `#` is dropped. */
  lemma ExtraSegmentsIgnored(path: string, anchor: string, rest: string)
    requires NoHash(path) && NoHash(anchor)
    ensures ResultRoute(path + "#" + anchor + "#" + rest) == ResultRoute(path + "#" + anchor)
  {
    var long := path + "#" + (anchor + "#" + rest);
    SplitAtHash(path, anchor + "#" + rest);
    SplitAtHash(anchor, rest);
    assert PathPart(long) == path && AnchorPart(long) == Some(anchor);
    SplitAtHash(path, anchor);
    SplitNoHash(anchor);
    assert PathPart(path + "#" + anchor) == path && AnchorPart(path + "#" + anchor) == Some(anchor);
    Regroup(path, anchor, rest);
  }

  lemma Regroup(path: string, anchor: string, rest: string)
    ensures path + "#" + anchor + "#" + rest == path + "#" + (anchor + "#" + rest)
  {
  }

  /** Results of the search index; `Doc` is the index's document type. */
  class SearchBox<Doc> {
    var query: string
    var results: seq<Doc>
    var isActive: bool

    constructor ()
      ensures query == "" && results == [] && !isActive
    {
      query := "";
      results := [];
      isActive := false;
    }

    /** The result list is shown while the box is active and the query is
        not empty. */
    predicate ShowsResults()
      reads this
    {
      isActive && |query| > 0
    }

    /** `onChange` of the input. */
    method SetQuery(q: string)
      modifies this`query
      ensures query == q
    {
      query := q;
    }

    /** `onFocus` of the input. */
    method Focus()
      modifies this`isActive
      ensures isActive
    {
      isActive := true;
    }

    /** The effect on the debounced query: `search` is the index's search
        function; an empty query clears the results. */
    method DebouncedQueryChanged(debouncedQuery: string, search: string -> seq<Doc>)
      modifies this`results
      ensures debouncedQuery != "" ==> results == search(debouncedQuery)
      ensures debouncedQuery == "" ==> results == []
    {
      if debouncedQuery != "" {
        results := search(debouncedQuery);
      } else {
        results := [];
      }
    }

    /** `handleClickOutside` for a mouse-down inside or outside the box. */
    method MouseDown(insideBox: bool)
      modifies this`isActive
      ensures isActive == (old(isActive) && insideBox)
    {
      if !insideBox {
        isActive := false;
      }
    }

    /** The effect on a route change: the list closes and the query is
        cleared. */
    method LocationChanged()
      modifies this`isActive, this`query
      ensures !isActive && query == ""
      ensures !ShowsResults()
    {
      isActive := false;
      query := "";
    }

    /** `handleResultClick`: returns the route to navigate to, then closes
        the list and clears the query. */
    method HandleResultClick(pathWithAnchor: string) returns (to: string)
      modifies this`isActive, this`query
      ensures to == ResultRoute(pathWithAnchor)
      ensures !isActive && query == "" && !ShowsResults()
    {
      var parts := Split(pathWithAnchor, '#');
      var path := parts[0];
      to := "/" + StripMd(path);
      if |parts| > 1 && parts[1] != "" {
        to := to + "#" + parts[1];
      }
      isActive := false;
      query := "";
    }
  }
}

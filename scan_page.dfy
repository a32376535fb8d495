/** The ScanPage component: its five state variables as fields, `fetchScans`
    split at its `await`, and the two button handlers. */
module ScanPageComponent {
  import opened Js
  import opened ScanApi
  import opened PageTransitions
  import opened PageView

  class ScanPage<R> {
    var scans: seq<R>
    var isLoading: bool
    var error: Option<string>
    var cursor: Option<string>
    var hasNextPage: bool

    function State(): PageState<R>
      reads this
    {
      PageState(scans, isLoading, error, cursor, hasNextPage)
    }

    /** Mounting: the initial state, with the mount load in flight. */
    constructor ()
      ensures State() == Initial()
      ensures scans == [] && isLoading && error == None && cursor == None && hasNextPage
    {
      scans := [];
      isLoading := true;
      error := None;
      cursor := None;
      hasNextPage := true;
    }

    /** The part of `fetchScans(newCursor)` before the `await`: mark the load
        in flight, clear the error, and choose the URL to request. */
    method BeginLoad(newCursor: Option<string>) returns (url: string)
      modifies this
      ensures State() == Begin(old(State()))
      ensures isLoading && error == None
      ensures scans == old(scans) && cursor == old(cursor) && hasNextPage == old(hasNextPage)
      ensures url == RequestUrl(newCursor) && CursorOfUrl(url) == SentCursor(newCursor)
    {
      isLoading := true;
      error := None;
      url := RequestUrl(newCursor);
      UrlRoundTrip(newCursor);
    }

    /** The `try` block after a response arrived, then `finally`. */
    method CompleteSuccess(newCursor: Option<string>, items: seq<R>, next: Option<string>)
      modifies this
      ensures State() == Succeed(old(State()), newCursor, items, next)
      ensures scans == if Truthy(newCursor) then old(scans) + items else items
      ensures cursor == next && hasNextPage == Truthy(next)
      ensures !isLoading && error == old(error)
    {
      scans := if Truthy(newCursor) then scans + items else items;
      cursor := next;
      hasNextPage := Truthy(next);
      isLoading := false;
    }

    /** The `catch` block, then `finally`. */
    method CompleteFailure(thrown: Thrown)
      modifies this
      ensures State() == Fail(old(State()), thrown)
      ensures error == Some(ErrorMessage(thrown)) && !isLoading
      ensures scans == old(scans) && cursor == old(cursor) && hasNextPage == old(hasNextPage)
    {
      error := Some(ErrorMessage(thrown));
      isLoading := false;
    }

    /** A whole `fetchScans(newCursor)` whose `api` call produced `outcome`;
        returns the URL it requested. */
    method FetchScans(newCursor: Option<string>, outcome: ApiOutcome<R>) returns (url: string)
      modifies this
      ensures State() == Fetch(old(State()), newCursor, outcome)
      ensures url == RequestUrl(newCursor)
    {
      url := BeginLoad(newCursor);
      match outcome
      case Success(items, next) =>
        CompleteSuccess(newCursor, items, next);
      case Failure(thrown) =>
        CompleteFailure(thrown);
    }

    /** The Try Again handler: a load with no cursor. */
    method OnTryAgain(outcome: ApiOutcome<R>) returns (url: string)
      modifies this
      ensures State() == Fetch(old(State()), None, outcome)
      ensures url == ScansPath
    {
      url := FetchScans(None, outcome);
    }

    /** The Load More handler: a load with the stored cursor. */
    method OnLoadMore(outcome: ApiOutcome<R>) returns (url: string)
      modifies this
      ensures State() == Fetch(old(State()), old(cursor), outcome)
      ensures url == RequestUrl(old(cursor))
    {
      url := FetchScans(cursor, outcome);
    }
  }

  /** A visit traced through the component: an initial load of two records
      with a next token, a Load More that fails, a Try Again that starts over
      from the first page, and a Load More that ends the list. */
  method VisitWalkthrough(a: int, b: int, c: int)
  {
    var page := new ScanPage<int>();
    var url := page.FetchScans(None, Success([a, b], Some("tok1")));
    assert url == "/api/scans";
    assert Cards(page.State()) == [a, b] && ShowLoadMore(page.State()) && page.cursor == Some("tok1");

    url := page.OnLoadMore(Failure(OtherValue));
    assert url == "/api/scans?cursor=tok1";
    assert ShowErrorBlock(page.State()) && page.error == Some("Failed to fetch scans");
    assert page.scans == [a, b] && Cards(page.State()) == [] && page.cursor == Some("tok1");

    url := page.OnTryAgain(Success([c], Some("tok2")));
    assert url == "/api/scans";
    assert Cards(page.State()) == [c] && ShowLoadMore(page.State());

    url := page.OnLoadMore(Success([a], None));
    assert url == "/api/scans?cursor=tok2";
    assert Cards(page.State()) == [c, a] && !ShowLoadMore(page.State()) && !ShowEmptyState(page.State());
  }

  /** A first load that fails, then one that returns nothing. */
  method EmptyWalkthrough()
  {
    var page := new ScanPage<int>();
    assert SkeletonCount(page.State()) == 4 && !ShowEmptyState(page.State());
    var url := page.FetchScans(None, Failure(ErrorInstance("offline")));
    assert ShowErrorBlock(page.State()) && page.error == Some("offline") && page.scans == [];

    url := page.OnTryAgain(Success([], None));
    assert ShowEmptyState(page.State()) && !ShowLoadMore(page.State());
  }
}

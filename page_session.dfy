/** A visit to the page: the mount load, then a sequence of button presses,
    each followed by the outcome of the load it starts. Loads do not overlap:
    each completes before the next press. */
module PageSession {
  import opened Js
  import opened ScanApi
  import opened PageTransitions
  import opened PageView

  datatype Button = TryAgain | LoadMore

  /** A press of a button together with the outcome of the load it starts. */
  datatype Press<R> = Press(button: Button, outcome: ApiOutcome<R>)

  /** One page of a successful response. */
  datatype Page<R> = Page(items: seq<R>, next: Option<string>)

  /** Whether the button is on screen. */
  predicate Visible<R>(s: PageState<R>, b: Button) {
    match b
    case TryAgain => ShowErrorBlock(s)
    case LoadMore => ShowLoadMore(s)
  }

  /** The cursor each button's handler passes to `fetchScans`: Try Again
      passes none, Load More the stored cursor. */
  function ButtonCursor<R>(s: PageState<R>, b: Button): (c: Option<string>)
    ensures b == TryAgain ==> !Truthy(c)
    ensures b == LoadMore ==> c == s.cursor
  {
    match b
    case TryAgain => None
    case LoadMore => s.cursor
  }

  /** A press of a visible button runs its handler's load; a button that is
      not rendered cannot be pressed. */
  function Step<R>(s: PageState<R>, p: Press<R>): (r: PageState<R>)
    ensures !Visible(s, p.button) ==> r == s
    ensures Visible(s, p.button) ==> !r.isLoading && (r.error.Some? <==> p.outcome.Failure?)
    ensures Visible(s, p.button) && p.outcome.Failure? ==> r.scans == s.scans
  {
    if Visible(s, p.button) then Fetch(s, ButtonCursor(s, p.button), p.outcome) else s
  }

  function Replay<R>(s: PageState<R>, presses: seq<Press<R>>): PageState<R>
    decreases |presses|
  {
    if presses == [] then s else Replay(Step(s, presses[0]), presses[1..])
  }

  /** The mount effect's `fetchScans()` with outcome `first`, then the
      presses. Between loads the page is never loading, and `hasNextPage`
      agrees with the stored cursor unless nothing was ever loaded. */
  function Session<R>(first: ApiOutcome<R>, presses: seq<Press<R>>): (r: PageState<R>)
    ensures !r.isLoading && CursorAgrees(r)
  {
    InitialCursorAgrees<R>();
    FetchKeepsCursorAgrees(Initial<R>(), None, first);
    ReplayKeepsCursorAgrees(Fetch(Initial<R>(), None, first), presses);
    Replay(Fetch(Initial(), None, first), presses)
  }

  /** The records of consecutive pages, in order, without deduplication. */
  function Flatten<R>(pages: seq<Page<R>>): (all: seq<R>)
    ensures pages != [] ==> |pages[0].items| <= |all| && all[..|pages[0].items|] == pages[0].items
    ensures pages != [] ==>
      |pages[|pages| - 1].items| <= |all| &&
      all[|all| - |pages[|pages| - 1].items|..] == pages[|pages| - 1].items
  {
    if pages == [] then [] else pages[0].items + Flatten(pages[1..])
  }

  /** Successful Load More presses, one per page. */
  function LoadMores<R>(pages: seq<Page<R>>): seq<Press<R>> {
    if pages == [] then [] else [Press(LoadMore, Success(pages[0].items, pages[0].next))] + LoadMores(pages[1..])
  }

  lemma {:induction false} ReplayKeepsCursorAgrees<R>(s: PageState<R>, presses: seq<Press<R>>)
    requires CursorAgrees(s) && !s.isLoading
    ensures CursorAgrees(Replay(s, presses)) && !Replay(s, presses).isLoading
    decreases |presses|
  {
    if presses != [] {
      var p := presses[0];
      if Visible(s, p.button) {
        FetchKeepsCursorAgrees(s, ButtonCursor(s, p.button), p.outcome);
      }
      ReplayKeepsCursorAgrees(Step(s, p), presses[1..]);
    }
  }

  /** A successful Load More keeps every card already shown and adds the new
      page after them, even in the never-loaded state where it passes a null
      cursor and so replaces the (empty) list. */
  lemma LoadMoreAppends<R>(s: PageState<R>, items: seq<R>, next: Option<string>)
    requires CursorAgrees(s) && ShowLoadMore(s)
    ensures Step(s, Press(LoadMore, Success(items, next))).scans == s.scans + items
  {
    if !Truthy(s.cursor) {
      assert NeverLoaded(s);
      assert s.scans + items == items;
    }
  }

  /** Anywhere in a visit, Load More only ever appends. */
  lemma SessionLoadMoreAppends<R>(first: ApiOutcome<R>, presses: seq<Press<R>>, items: seq<R>, next: Option<string>)
    ensures var s := Session(first, presses);
      ShowLoadMore(s) ==> Step(s, Press(LoadMore, Success(items, next))).scans == s.scans + items
  {
    var s := Session(first, presses);
    if ShowLoadMore(s) {
      LoadMoreAppends(s, items, next);
    }
  }

  /** Try Again restarts from the first page: on success the list is exactly
      that page, whatever had been accumulated before the failure. */
  lemma TryAgainRestarts<R>(s: PageState<R>, items: seq<R>, next: Option<string>)
    requires ShowErrorBlock(s)
    ensures Step(s, Press(TryAgain, Success(items, next))).scans == items
    ensures !ShowErrorBlock(Step(s, Press(TryAgain, Success(items, next))))
  {
  }

  /** One successful Load More from a consistent state where it is shown. */
  lemma LoadMoreStep<R>(s: PageState<R>, p: Page<R>)
    requires CursorAgrees(s) && ShowLoadMore(s)
    ensures var s1 := Step(s, Press(LoadMore, Success(p.items, p.next)));
      s1.scans == s.scans + p.items && s1.cursor == p.next &&
      s1.hasNextPage == Truthy(p.next) && CursorAgrees(s1) &&
      (Truthy(p.next) ==> ShowLoadMore(s1))
  {
    LoadMoreAppends(s, p.items, p.next);
    FetchKeepsCursorAgrees(s, s.cursor, Success(p.items, p.next));
  }

  /** Every page but the last carries a truthy next token, so Load More stays
      on screen until the last page has arrived. */
  predicate OpenTokens<R>(pages: seq<Page<R>>) {
    |pages| <= 1 || (Truthy(pages[0].next) && OpenTokens(pages[1..]))
  }

  /** Replaying the Load More presses of a non-empty list of pages is one
      Load More for its first page followed by the presses of the rest. */
  lemma LoadMoresUnfold<R>(s: PageState<R>, pages: seq<Page<R>>)
    requires pages != []
    ensures Replay(s, LoadMores(pages)) ==
      Replay(Step(s, Press(LoadMore, Success(pages[0].items, pages[0].next))), LoadMores(pages[1..]))
  {
    var presses := LoadMores(pages);
    assert presses[0] == Press(LoadMore, Success(pages[0].items, pages[0].next));
    assert presses[1..] == LoadMores(pages[1..]);
  }

  /** Following Load More through pages of which all but the last carry a
      truthy next token accumulates exactly the concatenation of those pages,
      and leaves the last page's token in place. */
  lemma {:induction false} LoadMoreChain<R>(s: PageState<R>, pages: seq<Page<R>>)
    requires CursorAgrees(s) && ShowLoadMore(s)
    requires OpenTokens(pages)
    ensures Replay(s, LoadMores(pages)).scans == s.scans + Flatten(pages)
    ensures pages != [] ==>
      Replay(s, LoadMores(pages)).cursor == pages[|pages| - 1].next &&
      Replay(s, LoadMores(pages)).hasNextPage == Truthy(pages[|pages| - 1].next)
    decreases |pages|
  {
    if pages != [] {
      var p, rest := pages[0], pages[1..];
      var s1 := Step(s, Press(LoadMore, Success(p.items, p.next)));
      var r := Replay(s, LoadMores(pages));
      LoadMoresUnfold(s, pages);
      LoadMoreStep(s, p);
      assert Flatten(pages) == p.items + Flatten(rest);
      if rest == [] {
        assert LoadMores(rest) == [] && Flatten(rest) == [];
        assert r == s1;
      } else {
        LoadMoreChain(s1, rest);
        assert rest[|rest| - 1] == pages[|pages| - 1];
        assert r.scans == (s.scans + p.items) + Flatten(rest);
      }
    }
  }
}

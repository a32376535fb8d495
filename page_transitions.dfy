/** The five pieces of state of the scan history page and the transitions of
    one `fetchScans` call: begin, then success or failure, then `finally`.
    These functions are the specification the component's methods follow. */
module PageTransitions {
  import opened Js
  import opened ScanApi

  /** `scans`, `isLoading`, `error`, `cursor` and `hasNextPage`. */
  datatype PageState<R> = PageState(
    scans: seq<R>,
    isLoading: bool,
    error: Option<string>,
    cursor: Option<string>,
    hasNextPage: bool)

  /** The list is empty, nothing has been returned yet, and a next page is
      still assumed: the state before any successful load. */
  predicate NeverLoaded<R>(s: PageState<R>) {
    s.scans == [] && s.cursor == None && s.hasNextPage
  }

  /** `hasNextPage` tells whether the stored cursor is truthy, except before
      the first successful load. */
  predicate CursorAgrees<R>(s: PageState<R>) {
    s.hasNextPage == Truthy(s.cursor) || NeverLoaded(s)
  }

  /** The state on mount: nothing loaded yet, no error, and the initial load
      already marked as in flight. */
  function Initial<R>(): (r: PageState<R>)
    ensures NeverLoaded(r) && r.isLoading && r.error == None
  {
    PageState([], true, None, None, true)
  }

  /** The synchronous start of `fetchScans`: the load is marked in flight and
      the error cleared; nothing else changes. */
  function Begin<R>(s: PageState<R>): (r: PageState<R>)
    ensures r.isLoading && r.error == None
    ensures r.(isLoading := s.isLoading, error := s.error) == s
  {
    s.(isLoading := true, error := None)
  }

  /** The success branch followed by `finally`: a truthy cursor argument keeps
      the old list as a prefix and puts the returned items after it, a falsy
      one leaves exactly the returned items; the next token is stored, and a
      next page is claimed iff that token is truthy. */
  function Succeed<R>(s: PageState<R>, c: Option<string>, items: seq<R>, next: Option<string>): (r: PageState<R>)
    ensures Truthy(c) ==>
      |r.scans| == |s.scans| + |items| && r.scans[..|s.scans|] == s.scans && r.scans[|s.scans|..] == items
    ensures !Truthy(c) ==> r.scans == items
    ensures r.cursor == next && (r.hasNextPage <==> next.Some? && next.value != "")
    ensures !r.isLoading && r.error == s.error
  {
    var scans := if Truthy(c) then s.scans + items else items;
    assert Truthy(c) ==> scans[..|s.scans|] == s.scans && scans[|s.scans|..] == items;
    s.(scans := scans,
       cursor := next,
       hasNextPage := Truthy(next),
       isLoading := false)
  }

  /** The catch branch followed by `finally`: the message is recorded, the load
      is over, and the list, the cursor and `hasNextPage` are kept. */
  function Fail<R>(s: PageState<R>, t: Thrown): (r: PageState<R>)
    ensures r.error == Some(ErrorMessage(t)) && !r.isLoading
    ensures r.(error := s.error, isLoading := s.isLoading) == s
  {
    s.(error := Some(ErrorMessage(t)), isLoading := false)
  }

  /** Applying the awaited outcome after `Begin`. */
  function Complete<R>(s: PageState<R>, c: Option<string>, o: ApiOutcome<R>): PageState<R> {
    match o
    case Success(items, next) => Succeed(s, c, items, next)
    case Failure(t) => Fail(s, t)
  }

  /** One whole `fetchScans(c)` call whose `api` call produced `o`: afterwards
      nothing is loading, an error is stored iff the load failed, a success
      appends or replaces by the truthiness of `c`, and a failure keeps list,
      cursor and `hasNextPage`. */
  function Fetch<R>(s: PageState<R>, c: Option<string>, o: ApiOutcome<R>): (r: PageState<R>)
    ensures !r.isLoading
    ensures r.error.Some? <==> o.Failure?
    ensures o.Success? && Truthy(c) ==>
      |r.scans| == |s.scans| + |o.items| && r.scans[..|s.scans|] == s.scans && r.scans[|s.scans|..] == o.items
    ensures o.Success? && !Truthy(c) ==> r.scans == o.items
    ensures o.Success? ==> r.cursor == o.next && (r.hasNextPage <==> o.next.Some? && o.next.value != "")
    ensures o.Failure? ==>
      r.scans == s.scans && r.cursor == s.cursor && r.hasNextPage == s.hasNextPage &&
      r.error == Some(ErrorMessage(o.thrown))
  {
    Complete(Begin(s), c, o)
  }

  /** The initial state is exactly what beginning the mount load produces, so
      the first render already shows that load as in flight. */
  lemma MountAlreadyLoading<R>()
    ensures Begin<R>(Initial()) == Initial()
  {
  }

  /** The initial state satisfies the invariant only through its
      never-loaded exception: it claims a next page without a cursor. */
  lemma InitialCursorAgrees<R>()
    ensures CursorAgrees<R>(Initial()) && NeverLoaded<R>(Initial())
    ensures Initial<R>().hasNextPage != Truthy(Initial<R>().cursor)
  {
  }

  /** Every `fetchScans` call keeps the invariant, and a successful one leaves
      the exception behind for good. */
  lemma FetchKeepsCursorAgrees<R>(s: PageState<R>, c: Option<string>, o: ApiOutcome<R>)
    requires CursorAgrees(s)
    ensures CursorAgrees(Fetch(s, c, o))
    ensures o.Success? ==> Fetch(s, c, o).hasNextPage == Truthy(Fetch(s, c, o).cursor)
  {
  }
}

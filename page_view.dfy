/** Which parts of the page are rendered for a given state. */
module PageView {
  import opened Js
  import opened PageTransitions

  /** Number of placeholder cards rendered while a load is in flight. */
  const SkeletonsWhileLoading: nat := 4

  /** The error block with its Try Again button: shown for a stored non-empty
      message, hidden when no error is stored or the message is empty. */
  function ShowErrorBlock<R>(s: PageState<R>): (shown: bool)
    ensures s.error == None || s.error == Some("") ==> !shown
    ensures s.error.Some? && |s.error.value| > 0 ==> shown
  {
    Truthy(s.error)
  }

  /** The list section (cards, skeletons, empty state and Load More): exactly
      when the error block is not shown. */
  function ShowList<R>(s: PageState<R>): (shown: bool)
    ensures shown != ShowErrorBlock(s)
    ensures s.error == Some("") ==> shown
  {
    !Truthy(s.error)
  }

  /** The cards rendered, one per record, in list order. */
  function Cards<R>(s: PageState<R>): (cards: seq<R>)
    ensures ShowList(s) ==> cards == s.scans
    ensures ShowErrorBlock(s) ==> cards == []
  {
    if ShowList(s) then s.scans else []
  }

  /** Placeholder cards: four while a load is in flight, none otherwise, and
      never beside the error block. */
  function SkeletonCount<R>(s: PageState<R>): (n: nat)
    ensures n == 0 || n == SkeletonsWhileLoading
    ensures n != 0 <==> s.isLoading && !ShowErrorBlock(s)
  {
    if ShowList(s) && s.isLoading then SkeletonsWhileLoading else 0
  }

  /** The "No Scans Found" block. */
  function ShowEmptyState<R>(s: PageState<R>): (shown: bool)
    ensures shown ==> Cards(s) == [] && SkeletonCount(s) == 0
    ensures shown <==> ShowList(s) && !s.isLoading && s.scans == []
  {
    ShowList(s) && !s.isLoading && |s.scans| == 0
  }

  /** The Load More button; it is never rendered disabled, because it is
      rendered only when no load is in flight. */
  function ShowLoadMore<R>(s: PageState<R>): (shown: bool)
    ensures shown ==> !s.isLoading && SkeletonCount(s) == 0
    ensures shown <==> s.hasNextPage && !s.isLoading && !ShowErrorBlock(s)
  {
    ShowList(s) && s.hasNextPage && !s.isLoading
  }

  /** While any load is in flight the page shows the list it already had,
      four placeholders, no empty state and no Load More. */
  lemma LoadingView<R>(s: PageState<R>)
    ensures ShowList(Begin(s)) && Cards(Begin(s)) == s.scans
    ensures SkeletonCount(Begin(s)) == SkeletonsWhileLoading
    ensures !ShowEmptyState(Begin(s)) && !ShowLoadMore(Begin(s))
  {
  }

  /** After any successful load Load More is offered exactly when the
      response's next token is truthy. */
  lemma SuccessOffersLoadMore<R>(s: PageState<R>, c: Option<string>, items: seq<R>, next: Option<string>)
    ensures ShowLoadMore(Fetch(s, c, ScanApi.Success(items, next))) == Truthy(next)
  {
  }

  /** A failure carrying an `Error` with an empty message stores the falsy
      string "": the error block stays hidden and the list is rendered. */
  lemma EmptyMessageHidesErrorBlock<R>(s: PageState<R>, c: Option<string>)
    ensures Fetch(s, c, ScanApi.Failure(ErrorInstance(""))).error == Some("")
    ensures ShowList(Fetch(s, c, ScanApi.Failure(ErrorInstance(""))))
  {
  }
}

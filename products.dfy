/**
 * The catalog pager (js/modules/products.js): the module-level pagination
 * state, what a page load does to it, the window of page numbers shown with
 * the previous/next guards, and the short description of a product card.
 */
module Products {
  import opened Wrappers
  import Api

  // ---------------------------------------------------------------------
  // Pagination state
  // ---------------------------------------------------------------------

  datatype PaginationState = PaginationState(currentPage: int, totalPages: int, pageSize: int)

  /** An object passed to setPaginationState: each key either supplied or not. */
  datatype StateUpdate = StateUpdate(currentPage: Option<int>, totalPages: Option<int>, pageSize: Option<int>)

  const InitialPageSize := 20
  const UnexpectedFormat := "Formato inesperado de la API"

  function Or(o: Option<int>, default: int): int
  {
    if o.Some? then o.value else default
  }

  /** `{ ...state, ...update }` over the three keys. */
  function Merge(state: PaginationState, update: StateUpdate): PaginationState
  {
    PaginationState(
      Or(update.currentPage, state.currentPage),
      Or(update.totalPages, state.totalPages),
      Or(update.pageSize, state.pageSize))
  }

  /** Merging overwrites exactly the supplied keys, and merging the same
    * update twice is the same as merging it once. */
  lemma MergeKeys(state: PaginationState, update: StateUpdate)
    ensures var m := Merge(state, update);
      && (update.currentPage.Some? ==> m.currentPage == update.currentPage.value)
      && (update.currentPage.None? ==> m.currentPage == state.currentPage)
      && (update.totalPages.Some? ==> m.totalPages == update.totalPages.value)
      && (update.totalPages.None? ==> m.totalPages == state.totalPages)
      && (update.pageSize.Some? ==> m.pageSize == update.pageSize.value)
      && (update.pageSize.None? ==> m.pageSize == state.pageSize)
      && Merge(m, update) == m
  {
  }

  /** A product as the catalog returns it; prices in cents. */
  datatype Product = Product(id: int, name: string, description: string, price: int, imageUrl: string)

  /** The body of a catalog page; `content` is None when the key is missing. */
  datatype PageResponse = PageResponse(content: Option<seq<Product>>, number: int, totalPages: int, first: bool, last: bool)

  /** The page and size a load asks the backend for (no search term: fetchProducts takes none). */
  datatype PageRequest = PageRequest(page: int, size: int)

  /** The module-level `paginationState` and the functions that read and replace it. */
  class Pager {
    var state: PaginationState

    constructor ()
      ensures state == PaginationState(0, 0, InitialPageSize)
    {
      state := PaginationState(0, 0, InitialPageSize);
    }

    /** getPaginationState: a copy. The state is a value, so a caller that
      * changes its copy cannot change the pager's state. */
    method GetPaginationState() returns (copy: PaginationState)
      ensures copy == state
    {
      copy := state;
    }

    /** setPaginationState. */
    method SetPaginationState(update: StateUpdate)
      modifies this
      ensures state == Merge(old(state), update)
    {
      state := Merge(state, update);
    }

    /** setPageSize: only the page size changes. */
    method SetPageSize(size: int)
      modifies this
      ensures state == old(state).(pageSize := size)
    {
      SetPaginationState(StateUpdate(None, None, Some(size)));
    }

    /** loadProducts; `response` is what the catalog call answers. The size
      * asked for is `size || pageSize` (an absent or zero size falls back to
      * the state's page size); the search term is not passed on. A body
      * with `content` updates the current and total pages and renders the
      * pagination controls; any other answer throws and leaves the state as it was. */
    method LoadProducts(page: int, size: Option<int>, search: Option<string>, response: Api.Response<PageResponse>)
      returns (request: PageRequest, outcome: Result<Controls, string>)
      modifies this
      ensures request.page == page
      ensures request.size == if size.Some? && size.value != 0 then size.value else old(state).pageSize
      ensures outcome.Ok? <==> response.Success? && response.body.content.Some?
      ensures outcome.Ok? ==>
        && state == old(state).(currentPage := response.body.number, totalPages := response.body.totalPages)
        && outcome.value == PaginationControls(response.body)
      ensures outcome.Err? ==> state == old(state)
      ensures response.Success? && response.body.content.None? ==> outcome == Err(UnexpectedFormat)
      ensures !response.Success? ==> outcome == Err(Api.FetchProducts(response).error)
    {
      var effective := if size.Some? && size.value != 0 then size.value else state.pageSize;
      request := PageRequest(page, effective);
      var fetched := Api.FetchProducts(response);
      if fetched.Err? {
        return request, Err(fetched.error);
      }
      var data := fetched.value;
      if data.content.None? {
        return request, Err(UnexpectedFormat);
      }
      SetPaginationState(StateUpdate(Some(data.number), Some(data.totalPages), None));
      var controls := UpdatePagination(data);
      outcome := Ok(controls);
    }
  }

  // ---------------------------------------------------------------------
  // Page window and controls (updatePagination)
  // ---------------------------------------------------------------------

  const MaxVisiblePages := 5

  function Max(a: int, b: int): int
  {
    if a < b then b else a
  }

  function Min(a: int, b: int): int
  {
    if a < b then a else b
  }

  /** The first and last page numbers of the window shown for page `number`:
    * centred on it, shifted back inside [0, totalPages - 1] near the end. */
  function Window(number: int, totalPages: int): (w: (int, int))
    ensures totalPages >= 1 ==> 0 <= w.0 <= w.1 <= totalPages - 1
  {
    var start := Max(0, number - MaxVisiblePages / 2);
    var end := Min(totalPages - 1, start + MaxVisiblePages - 1);
    if end - start < MaxVisiblePages - 1 then (Max(0, end - MaxVisiblePages + 1), end) else (start, end)
  }

  /** The window holds min(5, totalPages) pages, and it holds `number`
    * exactly when `number` is a page of the catalog. */
  lemma WindowSize(number: int, totalPages: int)
    requires totalPages >= 1
    ensures var w := Window(number, totalPages);
      && w.1 - w.0 + 1 == Min(MaxVisiblePages, totalPages)
      && (w.0 <= number <= w.1 <==> 0 <= number < totalPages)
  {
  }

  /** Away from both ends the window is centred: two pages either side of the current one. */
  lemma WindowCentred(number: int, totalPages: int)
    requires 2 <= number <= totalPages - 3
    ensures Window(number, totalPages) == (number - 2, number + 2)
  {
  }

  /** Near the ends the window is shifted inward and still shows min(5, totalPages) pages. */
  lemma WindowShiftedAtEnds(number: int, totalPages: int)
    requires totalPages >= 1
    ensures number < 2 ==> Window(number, totalPages).0 == 0
    ensures number > totalPages - 3 && number >= 2 ==>
      Window(number, totalPages) == (Max(0, totalPages - MaxVisiblePages), totalPages - 1)
  {
  }

  lemma WindowExamples()
    ensures Window(0, 10) == (0, 4)
    ensures Window(9, 10) == (5, 9)
    ensures Window(5, 10) == (3, 7)
    ensures Window(1, 3) == (0, 2)
  {
  }

  /** One rendered page number; `active` marks the page being shown. */
  datatype PageLink = PageLink(page: int, active: bool)

  /** The pagination block: hidden, or shown with the disabled flags of the
    * previous/next controls and the page numbers in between. */
  datatype Controls = Hidden | Shown(prevDisabled: bool, nextDisabled: bool, links: seq<PageLink>)

  function PageLinks(number: int, first: int, last: int): seq<PageLink>
    requires first <= last + 1
  {
    seq(last - first + 1, j => PageLink(first + j, first + j == number))
  }

  /** What updatePagination renders for a page of the catalog. */
  function PaginationControls(data: PageResponse): Controls
  {
    if data.totalPages > 1 then
      var w := Window(data.number, data.totalPages);
      Shown(data.first, data.last, PageLinks(data.number, w.0, w.1))
    else
      Hidden
  }

  /** updatePagination, with the window computed and the page numbers
    * emitted one by one as in the source. */
  method UpdatePagination(data: PageResponse) returns (controls: Controls)
    ensures controls == PaginationControls(data)
  {
    if data.totalPages > 1 {
      var startPage := Max(0, data.number - MaxVisiblePages / 2);
      var endPage := Min(data.totalPages - 1, startPage + MaxVisiblePages - 1);
      if endPage - startPage < MaxVisiblePages - 1 {
        startPage := Max(0, endPage - MaxVisiblePages + 1);
      }
      var links: seq<PageLink> := [];
      for i := startPage to endPage + 1
        invariant |links| == i - startPage
        invariant forall j :: 0 <= j < |links| ==> links[j] == PageLink(startPage + j, startPage + j == data.number)
      {
        links := links + [PageLink(i, i == data.number)];
      }
      controls := Shown(data.first, data.last, links);
    } else {
      controls := Hidden;
    }
  }

  /** Exactly one page number is marked active, the one equal to the page
    * shown, whenever that page lies in the catalog; otherwise none is. */
  lemma ExactlyOneActive(data: PageResponse)
    requires data.totalPages > 1
    ensures PaginationControls(data).Shown?
    ensures var links := PaginationControls(data).links;
      && ((exists j :: 0 <= j < |links| && links[j].active) <==> 0 <= data.number < data.totalPages)
      && (forall i, j :: 0 <= i < |links| && 0 <= j < |links| && links[i].active && links[j].active ==> i == j)
      && (forall j :: 0 <= j < |links| && links[j].active ==> links[j].page == data.number)
  {
    WindowSize(data.number, data.totalPages);
    var w := Window(data.number, data.totalPages);
    var links := PaginationControls(data).links;
    if 0 <= data.number < data.totalPages {
      assert links[data.number - w.0].active;
    }
  }

  /** The page the "previous" control loads when pressed: none on the first page. */
  function PrevTarget(data: PageResponse): Option<int>
  {
    if data.first then None else Some(data.number - 1)
  }

  /** The page the "next" control loads when pressed: none on the last page. */
  function NextTarget(data: PageResponse): Option<int>
  {
    if data.last then None else Some(data.number + 1)
  }

  /** The controls are shown only for more than one page; a control is
    * drawn disabled exactly when pressing it loads nothing. */
  lemma GuardsMatchControls(data: PageResponse)
    ensures PaginationControls(data).Shown? <==> data.totalPages > 1
    ensures PaginationControls(data).Shown? ==>
      && (PaginationControls(data).prevDisabled <==> PrevTarget(data).None?)
      && (PaginationControls(data).nextDisabled <==> NextTarget(data).None?)
    ensures PrevTarget(data).Some? ==> PrevTarget(data).value == data.number - 1
    ensures NextTarget(data).Some? ==> NextTarget(data).value == data.number + 1
  {
  }

  // ---------------------------------------------------------------------
  // Short description: description.split(" ").slice(0, 5).join(" ") + "..."
  // ---------------------------------------------------------------------

  const ShortWords := 5

  /** `s.split(" ")`: the pieces between single spaces, empty pieces included. */
  function Split(s: string): (words: seq<string>)
    ensures |words| >= 1
    ensures forall i :: 0 <= i < |words| ==> ' ' !in words[i]
  {
    if |s| == 0 then [""]
    else
      var rest := Split(s[1..]);
      if s[0] == ' ' then [""] + rest else [[s[0]] + rest[0]] + rest[1..]
  }

  /** `words.join(" ")`. */
  function Join(words: seq<string>): string
  {
    if |words| == 0 then ""
    else if |words| == 1 then words[0]
    else words[0] + " " + Join(words[1..])
  }

  /** The text on a product card: the first five words, then "...". */
  function ShortDescription(description: string): (short: string)
    ensures |short| >= 3 && short[|short| - 3..] == "..."
  {
    var words := Split(description);
    Join(words[..Min(ShortWords, |words|)]) + "..."
  }

  /** Joining the pieces of a split gives the text back. */
  lemma {:induction false} JoinSplit(s: string)
    ensures Join(Split(s)) == s
  {
    if |s| > 0 {
      JoinSplit(s[1..]);
      var rest := Split(s[1..]);
      if s[0] != ' ' && |rest| > 1 {
        assert Join(rest) == rest[0] + " " + Join(rest[1..]);
        assert ([[s[0]] + rest[0]] + rest[1..])[1..] == rest[1..];
      }
      assert s == [s[0]] + s[1..];
    }
  }

  /** Splitting a text that starts with a space-free word. */
  lemma {:induction false} SplitWord(w: string, tail: string)
    requires ' ' !in w
    ensures Split(w + tail) == [w + Split(tail)[0]] + Split(tail)[1..]
    decreases |w|
  {
    if |w| == 0 {
      var r := Split(tail);
      assert w + tail == tail;
      assert w + r[0] == r[0];
      assert r == [r[0]] + r[1..];
    } else {
      SplitWord(w[1..], tail);
      assert (w + tail)[1..] == w[1..] + tail;
      assert [w[0]] + (w[1..] + Split(tail)[0]) == w + Split(tail)[0];
    }
  }

  /** Splitting the join of space-free words gives the words back. */
  lemma {:induction false} SplitJoin(words: seq<string>)
    requires |words| >= 1
    requires forall i :: 0 <= i < |words| ==> ' ' !in words[i]
    ensures Split(Join(words)) == words
  {
    if |words| == 1 {
      SplitWord(words[0], "");
      assert words[0] + "" == words[0];
    } else {
      var tail := Join(words[1..]);
      SplitJoin(words[1..]);
      assert Join(words) == words[0] + (" " + tail);
      assert (" " + tail)[1..] == tail;
      SplitWord(words[0], " " + tail);
      assert words[0] + "" == words[0];
    }
  }

  /** The join of the first m words is a prefix of the join of all of them. */
  lemma {:induction false} JoinPrefix(words: seq<string>, m: int)
    requires 1 <= m <= |words|
    ensures Join(words[..m]) <= Join(words)
  {
    if m > 1 {
      JoinPrefix(words[1..], m - 1);
      assert words[..m][1..] == words[1..][..m - 1];
    }
  }

  /** The short description is a prefix of the description followed by
    * "...": the prefix made of its first five words (all of it when it has
    * five words or fewer). */
  lemma ShortDescriptionPrefix(description: string)
    ensures var short := ShortDescription(description);
      var shown := short[..|short| - 3];
      && |short| >= 3
      && short == shown + "..."
      && shown <= description
      && Split(shown) == Split(description)[..Min(ShortWords, |Split(description)|)]
      && (|Split(description)| <= ShortWords ==> shown == description)
  {
    var words := Split(description);
    var m := Min(ShortWords, |words|);
    var shown := Join(words[..m]);
    var short := ShortDescription(description);
    assert short == shown + "...";
    assert short[..|short| - 3] == shown;
    JoinSplit(description);
    JoinPrefix(words, m);
    SplitJoin(words[..m]);
    if |words| <= ShortWords {
      assert words[..m] == words;
    }
  }
}

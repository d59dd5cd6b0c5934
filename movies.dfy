/** The movie browser: a catalogue loaded once, a search box that filters
    it by title, and a row of cards that grows thirty at a time as the row
    is scrolled to its end. */
module Movies {
  import opened Common
  import opened Seqs
  import opened Text

  datatype Movie = Movie(id: string, title: string, description: string)

  /** The page's `config`: NoConfig when `data.config` is missing
      (`undefined`), otherwise the object with its `videoPlayerBaseUrl`,
      None when that key is missing. The page starts with `{}`. */
  datatype PlayerConfig = NoConfig | Config(baseUrl: Option<string>)

  /** `movies.json` as the page reads it: Unreadable stands for a failed
      fetch or a body that is not JSON. */
  datatype MoviesFile = Unreadable | MoviesFile(movies: seq<Movie>, config: PlayerConfig)

  /** `loadMovies`' test `config && config.videoPlayerBaseUrl`: a config
      with a non-empty URL. */
  predicate HasPlayerUrl(c: PlayerConfig) {
    c.Config? && c.baseUrl.Some? && c.baseUrl.value != ""
  }

  /** The player's `src` that `selectMovie` writes for a movie id: the
      template literal turns a missing URL into the text "undefined"; None
      when there is no config at all, where reading its URL throws. */
  function PlayerSrc(c: PlayerConfig, id: string): (r: Option<string>)
    ensures r.None? <==> c.NoConfig?
    ensures HasPlayerUrl(c) ==> r == Some(c.baseUrl.value + id)
  {
    match c
    case NoConfig => None
    case Config(None) => Some("undefined" + id)
    case Config(Some(url)) => Some(url + id)
  }

  /** `moviesPerPage`. */
  const PageSize: nat := 30

  /** The cards shown after `page` pages of `filtered`: its first
      min(30 * page, |filtered|) movies. */
  function Shown(filtered: seq<Movie>, page: nat): (r: seq<Movie>)
    ensures |r| == Min(30 * page, |filtered|)
    ensures r == filtered[..|r|]
  {
    filtered[..Min(30 * page, |filtered|)]
  }

  /** Appending the page that starts at 30 * page to the cards of `page`
      pages gives the cards of page + 1 pages. */
  lemma PageStep(filtered: seq<Movie>, page: nat)
    requires 30 * page < |filtered|
    ensures Shown(filtered, page) + filtered[30 * page..Min(30 * page + 30, |filtered|)] == Shown(filtered, page + 1)
  {
    var start := 30 * page;
    var end := Min(start + 30, |filtered|);
    assert 30 * (page + 1) == start + 30;
    assert filtered[..start] + filtered[start..end] == filtered[..end];
  }

  /** Once every movie is shown, one more page shows nothing new. */
  lemma ShownComplete(filtered: seq<Movie>, page: nat)
    requires 30 * page >= |filtered|
    ensures Shown(filtered, page) == filtered
    ensures Shown(filtered, page + 1) == filtered
  {
  }

  /** The search filter: the lower-cased title contains the lower-cased query. */
  predicate TitleMatches(query: string, m: Movie) {
    Contains(Lower(m.title), Lower(query))
  }

  /** `searchMovies`' filter: the movies whose title matches, in catalogue order. */
  function SearchResults(movies: seq<Movie>, query: string): seq<Movie> {
    Filter(movies, (m: Movie) => TitleMatches(query, m))
  }

  /** A movie is among the results exactly when it is in the catalogue and
      its title matches; a catalogue split in two gives the results of its
      parts in order, so the results keep the catalogue's order. */
  lemma SearchSpec(movies: seq<Movie>, more: seq<Movie>, query: string, m: Movie)
    ensures m in SearchResults(movies, query) <==> m in movies && TitleMatches(query, m)
    ensures SearchResults(movies + more, query) == SearchResults(movies, query) + SearchResults(more, query)
  {
    var r := SearchResults(movies, query);
    if m in r {
      var k :| 0 <= k < |r| && r[k] == m;
    }
    if m in movies && TitleMatches(query, m) {
      var k :| 0 <= k < |movies| && movies[k] == m;
    }
    FilterAppend(movies, more, (m: Movie) => TitleMatches(query, m));
  }

  /** An empty query keeps the whole catalogue. */
  lemma {:induction false} EmptyQueryKeepsAll(movies: seq<Movie>)
    ensures SearchResults(movies, "") == movies
    decreases |movies|
  {
    if movies != [] {
      assert StartsWith(Lower(movies[0].title), Lower(""));
      EmptyQueryKeepsAll(movies[1..]);
    }
  }

  /** The lookup by the URL's `id` parameter: the first movie whose id
      string equals it. */
  function FindById(movies: seq<Movie>, id: string): Option<Movie> {
    Find(movies, (m: Movie) => m.id == id)
  }

  /** FindById finds the first movie with that id, and nothing exactly when
      no movie has it. */
  lemma FindByIdSpec(movies: seq<Movie>, id: string)
    ensures FindById(movies, id).None? <==> forall m :: m in movies ==> m.id != id
    ensures FindById(movies, id).Some? ==>
      exists i :: 0 <= i < |movies| && movies[i] == FindById(movies, id).value && movies[i].id == id &&
                  forall k :: 0 <= k < i ==> movies[k].id != id
  {
    FindSpec(movies, (m: Movie) => m.id == id);
  }

  class MovieBrowser {
    var movies: seq<Movie>
    var filteredMovies: seq<Movie>
    var currentMovie: Option<Movie>
    var currentPage: nat
    var isLoading: bool
    var allMoviesLoaded: bool
    var config: PlayerConfig
    /** The cards in `.movies-row`, one per movie, in order. */
    var cards: seq<Movie>
    /** The search box's text. */
    var searchText: string
    /** Whether the main widget is shown, the player's `src`, and the ids
        pushed onto the history. */
    var mainShown: bool
    var playerSrc: string
    var history: seq<string>

    /** Between events no page is loading, the row shows the pages loaded
        so far, and `allMoviesLoaded` is only set once they cover the list. */
    ghost predicate Valid()
      reads this`filteredMovies, this`currentPage, this`isLoading, this`allMoviesLoaded, this`cards
    {
      !isLoading && cards == Shown(filteredMovies, currentPage) &&
      (allMoviesLoaded ==> 30 * currentPage >= |filteredMovies|)
    }

    constructor ()
      ensures Valid() && movies == [] && filteredMovies == [] && currentMovie.None?
      ensures currentPage == 0 && !allMoviesLoaded && cards == [] && searchText == ""
      ensures !mainShown && history == [] && config == Config(None)
    {
      movies, filteredMovies := [], [];
      currentMovie := None;
      currentPage := 0;
      isLoading, allMoviesLoaded := false, false;
      config := Config(None);
      cards := [];
      searchText := "";
      mainShown, playerSrc := false, "";
      history := [];
    }

    /** `displayMovies(isInitialLoad)`: nothing while loading or, except for
        an initial load, once everything is shown; an initial load empties
        the row and starts again at page 0; then the next page is appended
        and counted, or, when there is none, `allMoviesLoaded` is set. */
    method DisplayMovies(initial: bool)
      modifies this`isLoading, this`cards, this`currentPage, this`allMoviesLoaded
      ensures old(isLoading) || (old(allMoviesLoaded) && !initial) ==>
        isLoading == old(isLoading) && cards == old(cards) && currentPage == old(currentPage) &&
        allMoviesLoaded == old(allMoviesLoaded)
      ensures !(old(isLoading) || (old(allMoviesLoaded) && !initial)) ==>
        var page := if initial then 0 else old(currentPage);
        var before := if initial then [] else old(cards);
        var start := 30 * page;
        && !isLoading
        && (start < |filteredMovies| ==>
              cards == before + filteredMovies[start..Min(start + 30, |filteredMovies|)] &&
              currentPage == page + 1 && !allMoviesLoaded)
        && (start >= |filteredMovies| ==> cards == before && currentPage == page && allMoviesLoaded)
      ensures old(Valid()) ==> Valid()
      ensures initial && !old(isLoading) ==> Valid()
    {
      if isLoading || (allMoviesLoaded && !initial) {
        return;
      }
      isLoading := true;
      if initial {
        cards := [];
        currentPage := 0;
        allMoviesLoaded := false;
      }
      var start := currentPage * PageSize;
      var end := Min(start + PageSize, |filteredMovies|);
      if start >= |filteredMovies| {
        allMoviesLoaded := true;
        isLoading := false;
        ShownComplete(filteredMovies, currentPage);
        return;
      }
      ghost var before := cards;
      for i := start to end
        invariant cards == before + filteredMovies[start..i]
        modifies this`cards
      {
        cards := cards + [filteredMovies[i]];
      }
      PageStep(filteredMovies, currentPage);
      currentPage := currentPage + 1;
      isLoading := false;
    }

    /** The row's `scroll` listener: within 300 px of the bottom, the next
        page is requested: the row then shows one page more, or, when every
        movie is already shown, `allMoviesLoaded` is set and nothing else
        changes. */
    method Scroll(scrollTop: int, scrollHeight: int, clientHeight: int)
      requires Valid()
      modifies this`isLoading, this`cards, this`currentPage, this`allMoviesLoaded
      ensures Valid()
      ensures scrollHeight - scrollTop - clientHeight >= 300 ==>
        cards == old(cards) && currentPage == old(currentPage) && allMoviesLoaded == old(allMoviesLoaded)
      ensures scrollHeight - scrollTop - clientHeight < 300 && old(allMoviesLoaded) ==>
        cards == old(cards) && currentPage == old(currentPage) && allMoviesLoaded
      ensures scrollHeight - scrollTop - clientHeight < 300 && !old(allMoviesLoaded) &&
              30 * old(currentPage) < |filteredMovies| ==>
        cards == Shown(filteredMovies, old(currentPage) + 1) && currentPage == old(currentPage) + 1 &&
        !allMoviesLoaded
      ensures scrollHeight - scrollTop - clientHeight < 300 && !old(allMoviesLoaded) &&
              30 * old(currentPage) >= |filteredMovies| ==>
        cards == old(cards) && cards == filteredMovies && currentPage == old(currentPage) && allMoviesLoaded
    {
      if scrollHeight - scrollTop - clientHeight < 300 {
        DisplayMovies(false);
        if 30 * old(currentPage) < |filteredMovies| {
          PageStep(filteredMovies, old(currentPage));
        } else {
          ShownComplete(filteredMovies, old(currentPage));
        }
      }
    }

    /** `searchMovies` on typed text: the paging is reset, the list filtered
        from the whole catalogue, and the first page shown afresh. */
    method Search(text: string)
      requires Valid()
      modifies this`searchText, this`filteredMovies, this`isLoading, this`cards, this`currentPage, this`allMoviesLoaded
      ensures Valid() && searchText == text
      ensures filteredMovies == SearchResults(movies, text)
      ensures cards == Shown(filteredMovies, 1) && currentPage == (if filteredMovies == [] then 0 else 1)
      ensures allMoviesLoaded <==> filteredMovies == []
    {
      searchText := text;
      currentPage := 0;
      allMoviesLoaded := false;
      filteredMovies := SearchResults(movies, text);
      DisplayMovies(true);
    }

    /** `loadMovies`: an unreadable file changes nothing and yields []; a
        file without a player URL still replaces the catalogue and the
        config, then throws before anything is shown, and yields []; a
        load at the page's start leaves a state the search box can work
        on. Otherwise the first page is shown and the catalogue returned. */
    method LoadMovies(file: MoviesFile) returns (loaded: seq<Movie>)
      requires Valid()
      modifies this`movies, this`filteredMovies, this`config
      modifies this`isLoading, this`cards, this`currentPage, this`allMoviesLoaded
      ensures file.Unreadable? ==>
        loaded == [] && movies == old(movies) && filteredMovies == old(filteredMovies) && cards == old(cards) &&
        config == old(config) && currentPage == old(currentPage) && allMoviesLoaded == old(allMoviesLoaded) && Valid()
      ensures file.MoviesFile? ==> movies == file.movies && filteredMovies == file.movies && config == file.config
      ensures file.MoviesFile? && !HasPlayerUrl(file.config) ==>
        loaded == [] && cards == old(cards) && currentPage == old(currentPage) &&
        allMoviesLoaded == old(allMoviesLoaded) && !isLoading
      ensures file.MoviesFile? && !HasPlayerUrl(file.config) && old(currentPage) == 0 && !old(allMoviesLoaded) ==>
        Valid()
      ensures file.MoviesFile? && HasPlayerUrl(file.config) ==>
        loaded == file.movies && Valid() && cards == Shown(file.movies, 1)
    {
      if file.Unreadable? {
        return [];
      }
      movies := file.movies;
      filteredMovies := file.movies;
      config := file.config;
      if !(config.Config? && config.baseUrl.Some? && config.baseUrl.value != "") {
        return [];
      }
      DisplayMovies(true);
      loaded := movies;
    }

    /** `selectMovie`: the movie becomes current and the main widget is
        shown; without a config, reading its URL then throws and nothing
        else happens. Otherwise the player points at the movie, its id is
        pushed onto the history and the search box cleared (without
        filtering again). */
    method SelectMovie(movie: Movie)
      modifies this`currentMovie, this`mainShown, this`playerSrc, this`history, this`searchText
      ensures currentMovie == Some(movie) && mainShown
      ensures PlayerSrc(config, movie.id).None? ==>
        playerSrc == old(playerSrc) && history == old(history) && searchText == old(searchText)
      ensures PlayerSrc(config, movie.id).Some? ==>
        playerSrc == PlayerSrc(config, movie.id).value && history == old(history) + [movie.id] && searchText == ""
    {
      currentMovie := Some(movie);
      mainShown := true;
      if config.NoConfig? {
        return;
      }
      playerSrc := if config.baseUrl.Some? then config.baseUrl.value + movie.id else "undefined" + movie.id;
      history := history + [movie.id];
      searchText := "";
    }

    /** After the first load: a non-empty `id` parameter selects the first
        movie of the loaded list with that id, if there is one. */
    method OpenFromUrl(loaded: seq<Movie>, id: Option<string>)
      modifies this`currentMovie, this`mainShown, this`playerSrc, this`history, this`searchText
      ensures id.None? || id.value == "" || FindById(loaded, id.value).None? ==>
        currentMovie == old(currentMovie) && history == old(history) && mainShown == old(mainShown) &&
        playerSrc == old(playerSrc) && searchText == old(searchText)
      ensures id.Some? && id.value != "" && FindById(loaded, id.value).Some? ==>
        currentMovie == FindById(loaded, id.value) && mainShown &&
        (config.NoConfig? ==> history == old(history) && playerSrc == old(playerSrc) && searchText == old(searchText)) &&
        (config.Config? ==> history == old(history) + [id.value] && playerSrc == PlayerSrc(config, id.value).value &&
                            searchText == "")
    {
      if id.Some? && id.value != "" {
        var movie := FindById(loaded, id.value);
        if movie.Some? {
          FindByIdSpec(loaded, id.value);
          SelectMovie(movie.value);
        }
      }
    }

    /** The `popstate` listener: a non-empty `id` selects the first movie of
        the catalogue with that id, if any; no id hides the main widget. */
    method PopState(id: Option<string>)
      modifies this`currentMovie, this`mainShown, this`playerSrc, this`history, this`searchText
      ensures id.None? || id.value == "" ==>
        !mainShown && currentMovie == old(currentMovie) && history == old(history) &&
        playerSrc == old(playerSrc) && searchText == old(searchText)
      ensures id.Some? && id.value != "" && FindById(movies, id.value).None? ==>
        currentMovie == old(currentMovie) && history == old(history) && mainShown == old(mainShown) &&
        playerSrc == old(playerSrc) && searchText == old(searchText)
      ensures id.Some? && id.value != "" && FindById(movies, id.value).Some? ==>
        currentMovie == FindById(movies, id.value) && mainShown &&
        (config.NoConfig? ==> history == old(history) && playerSrc == old(playerSrc) && searchText == old(searchText)) &&
        (config.Config? ==> history == old(history) + [id.value] && playerSrc == PlayerSrc(config, id.value).value &&
                            searchText == "")
    {
      if id.Some? && id.value != "" {
        var movie := FindById(movies, id.value);
        if movie.Some? {
          FindByIdSpec(movies, id.value);
          SelectMovie(movie.value);
        }
      } else {
        mainShown := false;
      }
    }
  }
}

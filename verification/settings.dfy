/** The input normalisation of `get_app_id` and `start_parsing`: which
    game to fetch, the playtime threshold and the page cap. */
module Settings {
  import opened Wrappers

  /** The games offered by name in the game selector, with their store ids. */
  const POPULAR_GAMES: map<string, int> := map[
    "Rust" := 252490,
    "CS2" := 730,
    "Dota 2" := 570,
    "GTA V" := 271590,
    "Cyberpunk 2077" := 1091500,
    "Elden Ring" := 1245620,
    "Valheim" := 892970,
    "Palworld" := 1623730
  ]

  /** The id used for a selector text that names no known game. */
  const DEFAULT_APP_ID := 252490

  /** The selector entry that asks for an id typed into the AppID field. */
  const OTHER_CHOICE := "Другое (введите AppID)"

  /** The page cap used when the field is blank or below 1, and its ceiling. */
  const DEFAULT_PAGES := 20
  const PAGE_LIMIT := 150

  /** The content of a text field as Python's `int()` sees it: empty, an
      integer literal, or anything `int()` rejects with `ValueError`. */
  datatype Field = Blank | Integer(n: int) | NotInteger

  /** Which input `start_parsing` rejected. */
  datatype InputError = InvalidAppId | InvalidHours | InvalidPages

  /** The arguments handed to the parser thread. */
  datatype Config = Config(appId: int, minHours: int, maxPages: int)

  /** `POPULAR_GAMES.get(choice, 252490)`. */
  function GameId(choice: string): (id: int)
    ensures choice in POPULAR_GAMES ==> id == POPULAR_GAMES[choice]
    ensures choice !in POPULAR_GAMES ==> id == DEFAULT_APP_ID
  {
    if choice in POPULAR_GAMES then POPULAR_GAMES[choice] else DEFAULT_APP_ID
  }

  /** The named games resolve to their store ids, no two names share an
      id, every id is positive, and the fallback id is Rust's, so a
      selector text naming no known game fetches Rust's reviews. */
  lemma GameTable()
    ensures GameId("Rust") == 252490 && GameId("CS2") == 730 && GameId("Dota 2") == 570
    ensures GameId("GTA V") == 271590 && GameId("Cyberpunk 2077") == 1091500
    ensures GameId("Elden Ring") == 1245620 && GameId("Valheim") == 892970
    ensures GameId("Palworld") == 1623730
    ensures forall a, b :: a in POPULAR_GAMES && b in POPULAR_GAMES && a != b ==>
              POPULAR_GAMES[a] != POPULAR_GAMES[b]
    ensures forall a :: a in POPULAR_GAMES ==> POPULAR_GAMES[a] > 0
    ensures OTHER_CHOICE !in POPULAR_GAMES
    ensures forall c :: c !in POPULAR_GAMES ==> GameId(c) == GameId("Rust")
  {
  }

  /** `get_app_id`: the typed id when the selector asks for one (a blank or
      non-integer field raises), otherwise the table lookup. */
  function AppId(choice: string, appIdField: Field): (r: Result<int, InputError>)
    ensures choice != OTHER_CHOICE ==> r == Success(GameId(choice))
    ensures choice == OTHER_CHOICE ==> (r.Success? <==> appIdField.Integer?)
    ensures choice == OTHER_CHOICE && appIdField.Integer? ==> r.value == appIdField.n
    ensures r.Failure? ==> r.error == InvalidAppId
  {
    if choice == OTHER_CHOICE then
      match appIdField
      case Integer(n) => Success(n)
      case _ => Failure(InvalidAppId)
    else Success(GameId(choice))
  }

  /** `int(hours or 0)`: a blank field means no threshold. Any integer,
      negative ones included, is passed on. */
  function MinHours(f: Field): (r: Result<int, InputError>)
    ensures r.Success? <==> !f.NotInteger?
    ensures f.Blank? ==> r == Success(0)
    ensures f.Integer? ==> r == Success(f.n)
    ensures r.Failure? ==> r.error == InvalidHours
  {
    match f
    case Blank => Success(0)
    case Integer(n) => Success(n)
    case NotInteger => Failure(InvalidHours)
  }

  /** `min(int(pages or 20), 150)`, then 20 if that is below 1. */
  function MaxPages(f: Field): (r: Result<int, InputError>)
    ensures r.Success? <==> !f.NotInteger?
    ensures r.Success? ==> 1 <= r.value <= PAGE_LIMIT
    ensures f.Blank? ==> r == Success(DEFAULT_PAGES)
    ensures f.Integer? && f.n < 1 ==> r == Success(DEFAULT_PAGES)
    ensures f.Integer? && f.n > PAGE_LIMIT ==> r == Success(PAGE_LIMIT)
    ensures f.Integer? && 1 <= f.n <= PAGE_LIMIT ==> r == Success(f.n)
    ensures r.Failure? ==> r.error == InvalidPages
  {
    match f
    case NotInteger => Failure(InvalidPages)
    case Blank => Success(Clamp(DEFAULT_PAGES))
    case Integer(n) => Success(Clamp(n))
  }

  /** The cap applied to a requested page count. */
  function Clamp(requested: int): int
  {
    var capped := if requested < PAGE_LIMIT then requested else PAGE_LIMIT;
    if capped < 1 then DEFAULT_PAGES else capped
  }

  /** Normalising a cap that is already normalised changes nothing. */
  lemma MaxPagesIdempotent(f: Field)
    requires MaxPages(f).Success?
    ensures MaxPages(Integer(MaxPages(f).value)) == MaxPages(f)
  {
  }

  /** `start_parsing`'s input block: the game id, then the hours, then the
      page cap, the first one that raises deciding the error; on success
      the page cap lies in [1, 150]. */
  function StartParsing(choice: string, appIdField: Field, hoursField: Field, pagesField: Field)
    : (r: Result<Config, InputError>)
    ensures r.Success? <==>
              AppId(choice, appIdField).Success? && !hoursField.NotInteger? && !pagesField.NotInteger?
    ensures r.Failure? && AppId(choice, appIdField).Failure? ==> r.error == InvalidAppId
    ensures r.Failure? && AppId(choice, appIdField).Success? && hoursField.NotInteger? ==>
              r.error == InvalidHours
    ensures r.Failure? && AppId(choice, appIdField).Success? && !hoursField.NotInteger? ==>
              r.error == InvalidPages
    ensures r.Success? ==> 1 <= r.value.maxPages <= PAGE_LIMIT
    ensures r.Success? ==> r.value.appId == AppId(choice, appIdField).value
    ensures r.Success? ==> r.value.minHours == MinHours(hoursField).value
    ensures r.Success? ==> r.value.maxPages == MaxPages(pagesField).value
  {
    match AppId(choice, appIdField)
    case Failure(e) => Failure(e)
    case Success(appId) =>
      match MinHours(hoursField)
      case Failure(e) => Failure(e)
      case Success(hours) =>
        match MaxPages(pagesField)
        case Failure(e) => Failure(e)
        case Success(pages) => Success(Config(appId, hours, pages))
  }
}
